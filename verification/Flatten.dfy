/** ListAllMember: a tree flattened into dotted paths, with bad prefixes cut off early. */
module Flatten {
  import opened Wrappers
  import opened Names

  type Member = (string, Node)

  function ChildPath(prefix: string, key: string): string {
    if prefix == "" then key else prefix + "." + key
  }

  // ---------------------------------------------------- reference: the whole tree

  /** Every node of the tree with its path, in preorder. */
  function Paths(prefix: string, node: Node): seq<Member>
    decreases node, 1
  {
    [(prefix, node)] + if node.Map? then EntryPaths(prefix, node.entries) else []
  }

  function EntryPaths(prefix: string, entries: seq<Entry>): seq<Member>
    decreases entries, 0
  {
    if entries == [] then []
    else Paths(ChildPath(prefix, entries[0].key), entries[0].value) + EntryPaths(prefix, entries[1..])
  }

  /** The members whose path uses only allowed characters. */
  function ValidOnly(ms: seq<Member>): seq<Member> {
    if ms == [] then [] else (if ValidName(ms[0].0) then [ms[0]] else []) + ValidOnly(ms[1..])
  }

  // -------------------------------------------------------- what the code collects

  function Members(prefix: string, node: Node): seq<Member>
    decreases node, 1
  {
    if !ValidName(prefix) then []
    else [(prefix, node)] + if node.Map? then EntryMembers(prefix, node.entries) else []
  }

  function EntryMembers(prefix: string, entries: seq<Entry>): seq<Member>
    decreases entries, 0
  {
    if entries == [] then []
    else Members(ChildPath(prefix, entries[0].key), entries[0].value) + EntryMembers(prefix, entries[1..])
  }

  lemma {:induction false} EntryMembersSplit(prefix: string, entries: seq<Entry>, k: nat)
    requires k < |entries|
    ensures EntryMembers(prefix, entries[..k + 1])
         == EntryMembers(prefix, entries[..k]) + Members(ChildPath(prefix, entries[k].key), entries[k].value)
  {
    var rest := entries[1..];
    if k == 0 {
      assert entries[..1][1..] == [];
    } else {
      EntryMembersSplit(prefix, rest, k - 1);
      assert entries[..k + 1][1..] == rest[..k];
      assert entries[..k][1..] == rest[..k - 1];
      assert rest[k - 1] == entries[k];
      Assoc(Members(ChildPath(prefix, entries[0].key), entries[0].value), EntryMembers(prefix, rest[..k - 1]),
            Members(ChildPath(prefix, entries[k].key), entries[k].value));
    }
  }

  class MemberList {
    var items: seq<Member>

    constructor ()
      ensures items == []
    {
      items := [];
    }
  }

  method ListAllMember(prefix: string, node: Node, output: MemberList)
    modifies output
    ensures output.items == old(output.items) + Members(prefix, node)
    ensures forall keys :: Join(keys) == prefix ==>
              output.items == old(output.items) + ValidOnly(Joined(Walk(keys, node)))
    decreases node
  {
    MembersAreNodes(prefix, node);
    if !ValidName(prefix) {
      return;
    }
    output.items := output.items + [(prefix, node)];
    if node.Map? {
      ghost var start := output.items;
      var it := 0;
      while it < |node.entries|
        invariant it <= |node.entries|
        invariant output.items == start + EntryMembers(prefix, node.entries[..it])
      {
        EntryMembersSplit(prefix, node.entries, it);
        Assoc(start, EntryMembers(prefix, node.entries[..it]),
              Members(ChildPath(prefix, node.entries[it].key), node.entries[it].value));
        ListAllMember(ChildPath(prefix, node.entries[it].key), node.entries[it].value, output);
        it := it + 1;
      }
      assert node.entries[..it] == node.entries;
      Assoc(old(output.items), [(prefix, node)], EntryMembers(prefix, node.entries));
    }
  }

  // --------------------------------------------------- early pruning is late filtering

  lemma {:induction false} ValidOnlyConcat(a: seq<Member>, b: seq<Member>)
    ensures ValidOnly(a + b) == ValidOnly(a) + ValidOnly(b)
  {
    if a == [] {
      assert a + b == b;
    } else {
      ValidOnlyConcat(a[1..], b);
      assert (a + b)[1..] == a[1..] + b;
      Assoc(if ValidName(a[0].0) then [a[0]] else [], ValidOnly(a[1..]), ValidOnly(b));
    }
  }

  /** A path that has gone bad stays bad below. */
  lemma BadStaysBad(prefix: string, key: string)
    requires !ValidName(prefix)
    ensures !ValidName(ChildPath(prefix, key))
  {
    var k :| 0 <= k < |prefix| && !NameChar(prefix[k]);
    assert ChildPath(prefix, key)[k] == prefix[k];
  }

  lemma {:induction false} NothingBelowBad(prefix: string, node: Node)
    requires !ValidName(prefix)
    ensures ValidOnly(Paths(prefix, node)) == []
    decreases node, 1
  {
    if node.Map? {
      NoEntryBelowBad(prefix, node.entries);
      assert Paths(prefix, node)[1..] == EntryPaths(prefix, node.entries);
    }
  }

  lemma {:induction false} NoEntryBelowBad(prefix: string, entries: seq<Entry>)
    requires !ValidName(prefix)
    ensures ValidOnly(EntryPaths(prefix, entries)) == []
    decreases entries, 0
  {
    if entries != [] {
      var child := ChildPath(prefix, entries[0].key);
      BadStaysBad(prefix, entries[0].key);
      NothingBelowBad(child, entries[0].value);
      NoEntryBelowBad(prefix, entries[1..]);
      ValidOnlyConcat(Paths(child, entries[0].value), EntryPaths(prefix, entries[1..]));
    }
  }

  /** Cutting a subtree at its first bad prefix yields, in preorder and with the right
      multiplicity, exactly the members of the whole tree whose path is valid. */
  lemma {:induction false} PruningIsFiltering(prefix: string, node: Node)
    ensures Members(prefix, node) == ValidOnly(Paths(prefix, node))
    decreases node, 1
  {
    if !ValidName(prefix) {
      NothingBelowBad(prefix, node);
    } else if node.Map? {
      PruningEntries(prefix, node.entries);
      assert Paths(prefix, node)[1..] == EntryPaths(prefix, node.entries);
    }
  }

  lemma {:induction false} PruningEntries(prefix: string, entries: seq<Entry>)
    ensures EntryMembers(prefix, entries) == ValidOnly(EntryPaths(prefix, entries))
    decreases entries, 0
  {
    if entries != [] {
      var child := ChildPath(prefix, entries[0].key);
      PruningIsFiltering(child, entries[0].value);
      PruningEntries(prefix, entries[1..]);
      ValidOnlyConcat(Paths(child, entries[0].value), EntryPaths(prefix, entries[1..]));
    }
  }

  /** Every collected key is left alone by the loader's lowercasing. */
  lemma {:induction false} KeysAreLower(ms: seq<Member>, k: nat)
    requires k < |ValidOnly(ms)|
    ensures Lower(ValidOnly(ms)[k].0) == ValidOnly(ms)[k].0 && ValidName(ValidOnly(ms)[k].0)
  {
    if ValidName(ms[0].0) && k == 0 {
      ValidIsLower(ms[0].0);
    } else {
      KeysAreLower(ms[1..], if ValidName(ms[0].0) then k - 1 else k);
    }
  }

  // ------------------------------------------------------ paths are keys joined by dots

  /** The keys with a dot between each two. */
  function Dotted(keys: seq<string>): string {
    if keys == [] then "" else if |keys| == 1 then keys[0] else keys[0] + "." + Dotted(keys[1..])
  }

  /** The name of the node that the keys lead to; empty keys at the front leave no trace. */
  function Join(keys: seq<string>): string {
    if keys != [] && keys[0] == "" then Join(keys[1..]) else Dotted(keys)
  }

  lemma {:induction false} DottedMore(keys: seq<string>, key: string)
    requires keys != []
    ensures Dotted(keys + [key]) == Dotted(keys) + "." + key
  {
    if |keys| == 1 {
      assert (keys + [key])[1..] == [key];
    } else {
      DottedMore(keys[1..], key);
      assert (keys + [key])[1..] == keys[1..] + [key];
      assert keys[0] + "." + (Dotted(keys[1..]) + "." + key) == keys[0] + "." + Dotted(keys[1..]) + "." + key;
    }
  }

  lemma {:induction false} JoinMore(keys: seq<string>, key: string)
    ensures Join(keys + [key]) == if Join(keys) == "" then key else Join(keys) + "." + key
  {
    if keys == [] {
      assert [] + [key] == [key] && [key][1..] == [];
    } else if keys[0] == "" {
      JoinMore(keys[1..], key);
      assert (keys + [key])[1..] == keys[1..] + [key];
    } else {
      DottedMore(keys, key);
    }
  }

  type KeyedNode = (seq<string>, Node)

  /** Every node of the tree with the keys that lead to it, in preorder. */
  function Walk(keys: seq<string>, node: Node): seq<KeyedNode>
    decreases node, 1
  {
    [(keys, node)] + if node.Map? then WalkEntries(keys, node.entries) else []
  }

  function WalkEntries(keys: seq<string>, entries: seq<Entry>): seq<KeyedNode>
    decreases entries, 0
  {
    if entries == [] then []
    else Walk(keys + [entries[0].key], entries[0].value) + WalkEntries(keys, entries[1..])
  }

  function Joined(walk: seq<KeyedNode>): (ms: seq<Member>)
    ensures |ms| == |walk| && forall k :: 0 <= k < |ms| ==> ms[k] == (Join(walk[k].0), walk[k].1)
  {
    seq(|walk|, k requires 0 <= k < |walk| => (Join(walk[k].0), walk[k].1))
  }

  lemma JoinedConcat(a: seq<KeyedNode>, b: seq<KeyedNode>)
    ensures Joined(a + b) == Joined(a) + Joined(b)
  {
  }

  /** The paths of a tree are its nodes' keys joined, in preorder and with the right multiplicity. */
  lemma {:induction false} PathsAreJoined(keys: seq<string>, node: Node)
    ensures Paths(Join(keys), node) == Joined(Walk(keys, node))
    decreases node, 1
  {
    if node.Map? {
      EntryPathsAreJoined(keys, node.entries);
      JoinedConcat([(keys, node)], WalkEntries(keys, node.entries));
    }
  }

  lemma {:induction false} EntryPathsAreJoined(keys: seq<string>, entries: seq<Entry>)
    ensures EntryPaths(Join(keys), entries) == Joined(WalkEntries(keys, entries))
    decreases entries, 0
  {
    if entries != [] {
      var child := keys + [entries[0].key];
      JoinMore(keys, entries[0].key);
      PathsAreJoined(child, entries[0].value);
      EntryPathsAreJoined(keys, entries[1..]);
      JoinedConcat(Walk(child, entries[0].value), WalkEntries(keys, entries[1..]));
    }
  }

  /** From `node` the keys lead to `target`. */
  ghost predicate Leads(node: Node, keys: seq<string>, target: Node)
    decreases |keys|
  {
    if keys == [] then node == target
    else node.Map? && exists e :: e in node.entries && e.key == keys[0] && Leads(e.value, keys[1..], target)
  }

  lemma {:induction false} LeadsIsWalked(from: seq<string>, node: Node, keys: seq<string>, target: Node)
    requires Leads(node, keys, target)
    ensures (from + keys, target) in Walk(from, node)
    decreases |keys|
  {
    if keys == [] {
      assert from + keys == from;
    } else {
      var e :| e in node.entries && e.key == keys[0] && Leads(e.value, keys[1..], target);
      LeadsIsWalked(from + [e.key], e.value, keys[1..], target);
      assert from + [e.key] + keys[1..] == from + keys;
      EntryIsWalked(from, node.entries, e, (from + keys, target));
    }
  }

  lemma {:induction false} EntryIsWalked(from: seq<string>, entries: seq<Entry>, e: Entry, m: KeyedNode)
    requires e in entries && m in Walk(from + [e.key], e.value)
    ensures m in WalkEntries(from, entries)
  {
    if e != entries[0] {
      EntryIsWalked(from, entries[1..], e, m);
    }
  }

  lemma FirstKeyLeads(node: Node, e: Entry, rest: seq<string>, target: Node) returns (keys: seq<string>)
    requires node.Map? && e in node.entries && Leads(e.value, rest, target)
    ensures keys == [e.key] + rest && Leads(node, keys, target)
  {
    keys := [e.key] + rest;
    assert keys[1..] == rest && keys[0] == e.key;
  }

  lemma NoKeys(from: seq<string>, node: Node)
    ensures from + [] == from && Leads(node, [], node)
  {
  }

  lemma BelowRoot(from: seq<string>, node: Node, m: KeyedNode)
    requires m in Walk(from, node) && m != (from, node)
    ensures node.Map? && m in WalkEntries(from, node.entries)
  {
    var below := if node.Map? then WalkEntries(from, node.entries) else [];
    assert Walk(from, node) == [(from, node)] + below;
    assert m in below;
  }

  lemma {:induction false} WalkedIsLed(from: seq<string>, node: Node, m: KeyedNode) returns (keys: seq<string>)
    requires m in Walk(from, node)
    ensures m.0 == from + keys && Leads(node, keys, m.1)
    decreases node, 1
  {
    if m == (from, node) {
      keys := [];
      NoKeys(from, node);
    } else {
      BelowRoot(from, node, m);
      var e, rest := WalkedEntryIsLed(from, node.entries, m);
      keys := FirstKeyLeads(node, e, rest, m.1);
      Assoc(from, [e.key], rest);
    }
  }

  lemma {:induction false} WalkedEntryIsLed(from: seq<string>, entries: seq<Entry>, m: KeyedNode)
    returns (e: Entry, rest: seq<string>)
    requires m in WalkEntries(from, entries)
    ensures e in entries && m.0 == from + [e.key] + rest && Leads(e.value, rest, m.1)
    decreases entries, 0
  {
    e := entries[0];
    if m in Walk(from + [e.key], e.value) {
      rest := WalkedIsLed(from + [e.key], e.value, m);
    } else {
      e, rest := WalkedEntryIsLed(from, entries[1..], m);
    }
  }

  lemma {:induction false} InValidOnly(ms: seq<Member>, m: Member)
    ensures m in ValidOnly(ms) <==> m in ms && ValidName(m.0)
  {
    if ms != [] {
      InValidOnly(ms[1..], m);
    }
  }

  lemma MembersAreNodes(prefix: string, node: Node)
    ensures forall keys :: Join(keys) == prefix ==> Members(prefix, node) == ValidOnly(Joined(Walk(keys, node)))
  {
    PruningIsFiltering(prefix, node);
    forall keys | Join(keys) == prefix ensures Paths(prefix, node) == Joined(Walk(keys, node)) {
      PathsAreJoined(keys, node);
    }
  }

  lemma PathsOfRoot(root: Node)
    ensures Paths("", root) == Joined(Walk([], root))
  {
    assert Join([]) == "";
    PathsAreJoined([], root);
  }

  lemma PathIsLed(root: Node, path: string, target: Node) returns (keys: seq<string>)
    requires (path, target) in Paths("", root)
    ensures Join(keys) == path && Leads(root, keys, target)
  {
    PathsOfRoot(root);
    var walk := Walk([], root);
    var k :| 0 <= k < |walk| && Joined(walk)[k] == (path, target);
    keys := WalkedIsLed([], root, walk[k]);
    assert [] + keys == keys;
  }

  lemma LedIsPath(root: Node, keys: seq<string>, target: Node)
    requires Leads(root, keys, target)
    ensures (Join(keys), target) in Paths("", root)
  {
    PathsOfRoot(root);
    var walk := Walk([], root);
    LeadsIsWalked([], root, keys, target);
    assert [] + keys == keys;
    var k :| 0 <= k < |walk| && walk[k] == (keys, target);
    assert Joined(walk)[k] == (Join(keys), target);
  }

  /** Collected is exactly what keys lead to, under the keys joined by dots, if that name is valid. */
  lemma CollectedIffLed(root: Node, path: string, target: Node)
    ensures (path, target) in Members("", root)
            <==> ValidName(path) && exists keys :: Join(keys) == path && Leads(root, keys, target)
  {
    PruningIsFiltering("", root);
    InValidOnly(Paths("", root), (path, target));
    if (path, target) in Paths("", root) {
      var keys := PathIsLed(root, path, target);
    }
    forall keys | Join(keys) == path && Leads(root, keys, target) ensures (path, target) in Paths("", root) {
      LedIsPath(root, keys, target);
    }
  }
}
