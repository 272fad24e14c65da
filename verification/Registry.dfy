/** The registry of configuration variables and loading a tree into it. */
module Registry {
  import opened Wrappers
  import opened Names
  import opened Flatten
  import opened ConfigVars

  datatype Found<V(==)> = Variable(v: ConfigVar<V>) | WrongType | InvalidName

  // ------------------------------------------------------------- what loading means

  /** The text handed to the variable: a scalar as it is, anything else printed. */
  function TextOf(node: Node, emit: Node -> string): string {
    if node.Scalar? then node.text else emit(node)
  }

  /** The value of the last member at path `n` that converts, else `start`. */
  function LastValue<V>(ms: seq<Member>, n: string, fromStr: string -> Option<V>, emit: Node -> string,
                        start: V): V
  {
    if ms == [] then start
    else
      var (path, node) := ms[|ms| - 1];
      if path == n && fromStr(TextOf(node, emit)).Some? then fromStr(TextOf(node, emit)).value
      else LastValue(ms[..|ms| - 1], n, fromStr, emit, start)
  }

  predicate Writes<V(==)>(m: Member, n: string, fromStr: string -> Option<V>, emit: Node -> string) {
    m.0 == n && fromStr(TextOf(m.1, emit)).Some?
  }

  ghost predicate LastWriteAt<V>(ms: seq<Member>, k: nat, n: string, fromStr: string -> Option<V>,
                                 emit: Node -> string)
  {
    k < |ms| && Writes(ms[k], n, fromStr, emit) && forall j :: k < j < |ms| ==> !Writes(ms[j], n, fromStr, emit)
  }

  /** `LastValue` really is the last writer. */
  lemma {:induction false} LastWriter<V>(ms: seq<Member>, n: string, fromStr: string -> Option<V>,
                                         emit: Node -> string, start: V)
    ensures forall k: nat :: LastWriteAt(ms, k, n, fromStr, emit) ==>
              LastValue(ms, n, fromStr, emit, start) == fromStr(TextOf(ms[k].1, emit)).value
    ensures (forall k :: 0 <= k < |ms| ==> !Writes(ms[k], n, fromStr, emit)) ==>
              LastValue(ms, n, fromStr, emit, start) == start
  {
    if ms != [] {
      var last := |ms| - 1;
      LastWriter(ms[..last], n, fromStr, emit, start);
      forall k: nat | LastWriteAt(ms, k, n, fromStr, emit)
        ensures LastValue(ms, n, fromStr, emit, start) == fromStr(TextOf(ms[k].1, emit)).value
      {
        if k < last {
          assert LastWriteAt(ms[..last], k, n, fromStr, emit);
        }
      }
    }
  }

  /** The value a variable called `n` must have after the members `ms`; one without a name keeps
      its own. */
  function Settled<V>(ms: seq<Member>, n: string, fromStr: string -> Option<V>, emit: Node -> string, start: V): V {
    if n == "" then start else LastValue(ms, n, fromStr, emit, start)
  }

  lemma SettledStep<V>(ms: seq<Member>, m: Member, n: string, fromStr: string -> Option<V>, emit: Node -> string,
                       start: V)
    ensures Settled(ms + [m], n, fromStr, emit, start)
         == if n != "" && Writes(m, n, fromStr, emit) then fromStr(TextOf(m.1, emit)).value
            else Settled(ms, n, fromStr, emit, start)
  {
    assert (ms + [m])[..|ms|] == ms;
  }

  /** Members with other paths do not matter. */
  lemma {:induction false} LastValueAppend<V>(a: seq<Member>, b: seq<Member>, n: string,
                                              fromStr: string -> Option<V>, emit: Node -> string, start: V)
    ensures LastValue(a + b, n, fromStr, emit, start)
         == LastValue(b, n, fromStr, emit, LastValue(a, n, fromStr, emit, start))
  {
    if b == [] {
      assert a + b == a;
    } else {
      LastValueAppend(a, b[..|b| - 1], n, fromStr, emit, start);
      assert (a + b)[..|a + b| - 1] == a + b[..|b| - 1];
    }
  }

  lemma {:induction false} BadPathsDoNotMatter<V>(ms: seq<Member>, n: string, fromStr: string -> Option<V>,
                                                  emit: Node -> string, start: V)
    requires ValidName(n)
    ensures LastValue(ValidOnly(ms), n, fromStr, emit, start) == LastValue(ms, n, fromStr, emit, start)
    decreases |ms|
  {
    if ms != [] {
      var head := if ValidName(ms[0].0) then [ms[0]] else [];
      LastValueAppend(head, ValidOnly(ms[1..]), n, fromStr, emit, start);
      LastValueAppend([ms[0]], ms[1..], n, fromStr, emit, start);
      assert [ms[0]] + ms[1..] == ms;
      BadPathsDoNotMatter(ms[1..], n, fromStr, emit, LastValue([ms[0]], n, fromStr, emit, start));
    }
  }

  /** Loading from the pruned list or from the whole tree is the same for every registered name. */
  lemma PruningKeepsValues<V>(root: Node, n: string, fromStr: string -> Option<V>, emit: Node -> string, start: V)
    requires ValidName(n)
    ensures LastValue(Members("", root), n, fromStr, emit, start)
         == LastValue(Paths("", root), n, fromStr, emit, start)
  {
    PruningIsFiltering("", root);
    BadPathsDoNotMatter(Paths("", root), n, fromStr, emit, start);
  }

  /** What a variable called `n` holds after loading the tree: the value of the last node at its
      path that converts, or its old value; a variable without a name keeps its own. */
  function Loaded<V>(root: Node, n: string, fromStr: string -> Option<V>, emit: Node -> string, start: V): V {
    if n == "" then start else LastValue(Paths("", root), n, fromStr, emit, start)
  }

  /** What the node's own text, or the node printed, converts to. */
  function Converted<V>(node: Node, fromStr: string -> Option<V>, emit: Node -> string): Option<V> {
    if node.Scalar? then fromStr(node.text) else fromStr(emit(node))
  }

  /** `k` is the last position of the walk whose keys, joined, are `n` and whose node converts. */
  ghost predicate LastNode<V>(walk: seq<KeyedNode>, k: nat, n: string, fromStr: string -> Option<V>,
                              emit: Node -> string)
  {
    && k < |walk| && Join(walk[k].0) == n && Converted(walk[k].1, fromStr, emit).Some?
    && forall j :: k < j < |walk| && Join(walk[j].0) == n ==> Converted(walk[j].1, fromStr, emit).None?
  }

  /** No node whose keys, joined, are `n` converts. */
  ghost predicate NoNode<V>(root: Node, n: string, fromStr: string -> Option<V>, emit: Node -> string) {
    forall keys, node :: Leads(root, keys, node) && Join(keys) == n ==> Converted(node, fromStr, emit).None?
  }

  /** A variable called `n` goes from `start` to `now` when the tree is loaded. */
  ghost predicate Settles<V>(root: Node, n: string, fromStr: string -> Option<V>, emit: Node -> string,
                                   start: V, now: V)
  {
    && (n == "" || NoNode(root, n, fromStr, emit) ==> now == start)
    && (n != "" ==> forall k: nat :: LastNode(Walk([], root), k, n, fromStr, emit) ==>
         Some(now) == Converted(Walk([], root)[k].1, fromStr, emit))
  }

  /** Loading in terms of nodes and their keys. */
  lemma LoadedSettles<V>(root: Node, n: string, fromStr: string -> Option<V>, emit: Node -> string, start: V)
    ensures Settles(root, n, fromStr, emit, start, Loaded(root, n, fromStr, emit, start))
  {
    var walk := Walk([], root);
    PathsOfRoot(root);
    LastWriter(Paths("", root), n, fromStr, emit, start);
    forall k: nat | n != "" && LastNode(walk, k, n, fromStr, emit)
      ensures Some(Loaded(root, n, fromStr, emit, start)) == Converted(walk[k].1, fromStr, emit)
    {
      assert LastWriteAt(Joined(walk), k, n, fromStr, emit);
    }
    if NoNode(root, n, fromStr, emit) {
      forall k | 0 <= k < |walk| ensures !Writes(Joined(walk)[k], n, fromStr, emit) {
        var keys := WalkedIsLed([], root, walk[k]);
        assert [] + keys == keys;
      }
    }
  }

  // ------------------------------------------------------------------- the registry

  class Config<V(==)> {
    var datas: map<string, ConfigVar<V>>

    constructor ()
      ensures Valid() && datas == map[]
    {
      datas := map[];
    }

    ghost function Counters(): set<IdCounter<V>>
      reads this
    {
      set k | k in datas :: datas[k].ids
    }

    /** Every key is a valid name, and it is the name of the variable it leads to. */
    ghost predicate Valid()
      reads this, datas.Values, Counters()
    {
      forall k :: k in datas ==> ValidName(k) && datas[k].m_name == k && datas[k].Valid()
    }

    /** Finds a variable of the type or creates it; nothing registered is ever replaced. */
    method Lookup(name: string, typ: string, default: V, fromStr: string -> Option<V>, ids: IdCounter<V>)
      returns (r: Found<V>)
      requires Valid() && ids.Valid()
      modifies this
      ensures Valid()
      ensures name in old(datas) ==>
                datas == old(datas) && r == if old(datas)[name].m_type == typ then Variable(datas[name]) else WrongType
      ensures name !in old(datas) && !ValidName(name) ==> datas == old(datas) && r == InvalidName
      ensures name !in old(datas) && ValidName(name) ==>
                && r.Variable? && fresh(r.v) && datas == old(datas)[name := r.v]
                && r.v.m_type == typ && r.v.m_val == default && r.v.fromStr == fromStr
    {
      if name in datas {
        if datas[name].m_type == typ {
          return Variable(datas[name]);
        }
        return WrongType;
      }
      if !ValidName(name) {
        return InvalidName;
      }
      var v := new ConfigVar(name, typ, default, fromStr, ids);
      ValidIsLower(name);
      datas := datas[name := v];
      r := Variable(v);
    }

    method LookupBase(name: string) returns (v: ConfigVar?<V>)
      ensures v == if name in datas then datas[name] else null
    {
      if name in datas {
        return datas[name];
      }
      v := null;
    }

    /** Lookup without a default: only finds, and only a variable of the type. */
    method LookupTyped(name: string, typ: string) returns (v: ConfigVar?<V>)
      ensures v != null <==> name in datas && datas[name].m_type == typ
      ensures v != null ==> v == datas[name]
    {
      if name !in datas {
        return null;
      }
      v := if datas[name].m_type == typ then datas[name] else null;
    }

    /** Every variable has the value the members `ms` leave it with. */
    ghost predicate Holds(ms: seq<Member>, emit: Node -> string, start: map<string, V>)
      reads this, datas.Values
    {
      forall n :: n in datas ==>
        n in start && datas[n].m_val == Settled(ms, n, datas[n].fromStr, emit, start[n])
    }

    /** A scalar is handed over as it is, any other node printed. */
    static method SetFrom(v: ConfigVar<V>, node: Node, emit: Node -> string)
      requires v.Valid()
      modifies v`m_val, v`m_cbs
      ensures v.Valid() && v.m_cbs.Keys == old(v.m_cbs.Keys)
      ensures var x := if node.Scalar? then v.fromStr(node.text) else v.fromStr(emit(node));
              v.m_val == if x.Some? then x.value else old(v.m_val)
    {
      if node.Scalar? {
        var _ := v.FromString(node.text);
      } else {
        var _ := v.FromString(emit(node));
      }
    }

    /** One round of the loading loop, after the members `done`. */
    method LoadMember(m: Member, emit: Node -> string, ghost done: seq<Member>, ghost start: map<string, V>)
      requires Valid() && ValidName(m.0) && Holds(done, emit, start)
      modifies datas.Values`m_val, datas.Values`m_cbs
      ensures Valid() && Holds(done + [m], emit, start)
    {
      forall n | n in datas
        ensures Settled(done + [m], n, datas[n].fromStr, emit, start[n])
             == if n != "" && Writes(m, n, datas[n].fromStr, emit) then datas[n].fromStr(TextOf(m.1, emit)).value
                else datas[n].m_val
      {
        SettledStep(done, m, n, datas[n].fromStr, emit, start[n]);
      }
      var key := m.0;
      if key == "" {
        return;
      }
      ValidIsLower(key);
      key := Lower(key);
      var v := LookupBase(key);
      if v != null {
        SetFrom(v, m.1, emit);
      }
    }

    /** The loading loop. */
    method LoadMembers(ms: seq<Member>, emit: Node -> string, ghost start: map<string, V>)
      requires Valid() && Holds([], emit, start)
      requires forall k :: 0 <= k < |ms| ==> ValidName(ms[k].0)
      modifies datas.Values`m_val, datas.Values`m_cbs
      ensures Valid() && Holds(ms, emit, start)
    {
      var i := 0;
      while i < |ms|
        invariant i <= |ms| && Valid() && Holds(ms[..i], emit, start)
      {
        LoadMember(ms[i], emit, ms[..i], start);
        assert ms[..i + 1] == ms[..i] + [ms[i]];
        i := i + 1;
      }
      assert ms[..i] == ms;
    }

    lemma HoldsForTree(root: Node, emit: Node -> string, start: map<string, V>)
      requires Valid() && Holds(Members("", root), emit, start)
      ensures forall n :: n in datas ==>
                n in start && datas[n].m_val == Loaded(root, n, datas[n].fromStr, emit, start[n])
    {
      forall n | n in datas && n != ""
        ensures n in start && datas[n].m_val == LastValue(Paths("", root), n, datas[n].fromStr, emit, start[n])
      {
        PruningKeepsValues(root, n, datas[n].fromStr, emit, start[n]);
      }
    }

    /** After loading, each variable with a name holds the value of the last node at its path that
        converts, and its old value when there is none. */
    method LoadFromYaml(root: Node, emit: Node -> string)
      requires Valid()
      modifies datas.Values`m_val, datas.Values`m_cbs
      ensures Valid()
      ensures forall n :: n in datas ==>
                datas[n].m_val == Loaded(root, n, datas[n].fromStr, emit, old(datas[n].m_val))
      ensures forall n :: n in datas ==>
                Settles(root, n, datas[n].fromStr, emit, old(datas[n].m_val), datas[n].m_val)
    {
      var ms := AllMembers(root);
      ghost var start := map n | n in datas :: datas[n].m_val;
      LoadMembers(ms, emit, start);
      HoldsForTree(root, emit, start);
      forall n | n in datas ensures Settles(root, n, datas[n].fromStr, emit, start[n], datas[n].m_val) {
        LoadedSettles(root, n, datas[n].fromStr, emit, start[n]);
      }
    }
  }

  method AllMembers(root: Node) returns (ms: seq<Member>)
    ensures ms == Members("", root) && forall k :: 0 <= k < |ms| ==> ValidName(ms[k].0)
  {
    var all := new MemberList();
    ListAllMember("", root, all);
    ms := all.items;
    assert ms == Members("", root);
    KeysAreValid(root);
  }

  lemma KeysAreValid(root: Node)
    ensures forall k :: 0 <= k < |Members("", root)| ==> ValidName(Members("", root)[k].0)
  {
    PruningIsFiltering("", root);
    forall k | 0 <= k < |Members("", root)| ensures ValidName(Members("", root)[k].0) {
      KeysAreLower(Paths("", root), k);
    }
  }
}
