/** What a listener gets to hear when many threads set the variable and edit its listeners.

    A listener is told faithfully when its calls are, operation by operation, the stores made since
    it was registered, with at most one announced and not yet stored. This module proves exactly
    which steps spoil that. */
module ListenerChains {
  import opened Wrappers
  import opened SetValue
  import ConfigVars

  /** The changes that listener `id` has been told of. */
  function Seen(calls: seq<Call>, id: nat): seq<Change> {
    if calls == [] then []
    else
      var c := calls[|calls| - 1];
      Seen(calls[..|calls| - 1], id) + if c.id == id then [Change(c.t, c.n, c.before, c.after)] else []
  }

  predicate Live(x: Var, id: nat) {
    id in x.cbs && id in x.registered && x.registered[id].at <= |x.stores|
  }

  /** The stores since the listener was registered. */
  function History(x: Var, id: nat): seq<Change>
    requires Live(x, id)
  {
    x.stores[x.registered[id].at..]
  }

  predicate Faithful(x: Var, id: nat) {
    Live(x, id) ==> History(x, id) <= Seen(x.calls, id) && |Seen(x.calls, id)| <= |History(x, id)| + 1
  }

  /** The listeners that an operation at `pc` has told, and that wait for its store. */
  function ToldBy(pc: PC): seq<nat> {
    match pc
    case Announcing(_, i, _, cbs) => if i <= |cbs| then cbs[..i] else []
    case WantWrite(_, _, cbs) => cbs
    case Storing(_, _, cbs) => cbs
    case _ => []
  }

  function InFlight(t: nat, th: Thread): Change
    requires th.pc.Announcing? || th.pc.WantWrite? || th.pc.Storing?
  {
    Change(t, th.n, th.pc.before, th.pc.v)
  }

  /** The next step of thread `t` comes between an announcement and its store: it tells listener
      `id` while another operation that told it has yet to store, or it stores what was announced
      before `id` was registered. */
  predicate Interferes(s: State, t: nat, id: nat) {
    && t < |s.threads| && Live(s.x, id)
    && var pc := s.threads[t].pc;
       || (&& pc.Announcing? && pc.i < |s.x.cbs| && s.x.cbs[pc.i] == id
           && exists u :: 0 <= u < |s.threads| && u != t && id in ToldBy(s.threads[u].pc))
       || (pc.Storing? && id !in pc.cbs)
  }

  // ---------------------------------------------------------- what holds in any run

  /** The value after `k` stores. */
  function ValueAt(start: Value, stores: seq<Change>, k: nat): Value
    requires k <= |stores|
  {
    if k == 0 then start else stores[k - 1].after
  }

  /** Every store replaces the value the one before it left. */
  predicate Linked(start: Value, stores: seq<Change>) {
    forall k :: 0 <= k < |stores| ==> stores[k].before == ValueAt(start, stores, k)
  }

  ghost predicate Known(x: Var, start: Value) {
    && Increasing(x.cbs)
    && (forall id :: id in x.cbs ==>
         && id <= x.lastId && Live(x, id)
         && x.registered[id].value == ValueAt(start, x.stores, x.registered[id].at))
    && (forall k :: 0 <= k < |x.calls| ==> x.calls[k].id <= x.lastId && x.calls[k].before != x.calls[k].after)
    && Linked(start, x.stores)
    && x.val == ValueAt(start, x.stores, |x.stores|)
  }

  /** The snapshot an operation carries knows no ids still to come. */
  predicate SnapshotKnown(pc: PC, lastId: nat) {
    pc.Announcing? || pc.WantWrite? || pc.Storing? ==> forall id :: id in pc.cbs ==> id <= lastId
  }

  ghost predicate Base(s: State, start: Value) {
    && Inv(s, start) && Known(s.x, start)
    && forall t :: 0 <= t < |s.threads| ==> SnapshotKnown(s.threads[t].pc, s.x.lastId)
  }

  lemma {:induction false} RemoveKeeps(cbs: seq<nat>, id: nat)
    requires Increasing(cbs)
    ensures Increasing(Remove(cbs, id))
    ensures forall k :: k in Remove(cbs, id) <==> k in cbs && k != id
  {
    if cbs != [] {
      assert cbs == [cbs[0]] + cbs[1..];
      if cbs[0] != id {
        RemoveKeeps(cbs[1..], id);
        var rest := Remove(cbs[1..], id);
        forall k | 0 <= k < |rest| ensures cbs[0] < rest[k] {
          assert rest[k] in rest && rest[k] in cbs[1..];
        }
      }
    }
  }

  lemma EditKnown(x: Var, op: Op, start: Value)
    requires Known(x, start)
    ensures Known(Edited(x, op).(writer := None), start)
    ensures x.lastId <= Edited(x, op).lastId
  {
    match op
    case Listen(_) => assert forall k :: 0 <= k < |x.cbs| ==> x.cbs[k] in x.cbs;
    case Unlisten(id) => RemoveKeeps(x.cbs, id);
    case _ =>
  }

  lemma TellKnown(x: Var, c: Call, start: Value)
    requires Known(x, start) && c.id in x.cbs && c.before != c.after
    ensures Known(x.(calls := x.calls + [c]), start)
  {
  }

  /** What an edit of the listeners does: a new one comes last, with an id never used before; one that
      is removed is gone, and the others stay. */
  lemma EditMeans(x: Var, t: nat, th: Thread, start: Value)
    requires Known(x, start) && th.pc.Editing?
    ensures Next(x, t, th).Some?
    ensures var x' := Next(x, t, th).value.x;
            && (th.pc.op.Listen? ==>
                 x'.cbs == x.cbs + [x'.lastId] && x'.lastId > x.lastId
                 && x'.registered[x'.lastId] == Registered(|x.stores|, x.val))
            && (th.pc.op.Unlisten? ==> forall id :: id in x'.cbs <==> id in x.cbs && id != th.pc.op.id)
            && (th.pc.op.ClearListeners? ==> x'.cbs == [])
            && x'.val == x.val && x'.calls == x.calls
  {
    if th.pc.op.Unlisten? {
      RemoveKeeps(x.cbs, th.pc.op.id);
    }
  }

  lemma StoreKnown(x: Var, c: Change, start: Value)
    requires Known(x, start) && c.before == x.val
    ensures Known(x.(val := c.after, writer := None, stores := x.stores + [c]), start)
  {
    var stores := x.stores + [c];
    assert forall k :: 0 <= k <= |x.stores| ==> ValueAt(start, stores, k) == ValueAt(start, x.stores, k);
  }

  lemma StepKnown(s: State, t: nat, start: Value)
    requires Base(s, start) && t < |s.threads| && Next(s.x, t, s.threads[t]).Some?
    ensures Known(Next(s.x, t, s.threads[t]).value.x, start)
  {
    var th := s.threads[t];
    assert ThreadOk(s.x, t, th);
    if th.pc.Editing? {
      EditKnown(s.x, th.pc.op, start);
    } else if th.pc.Storing? {
      StoreKnown(s.x, Change(t, th.n, s.x.val, th.pc.v), start);
    } else if th.pc.Announcing? && th.pc.i < |s.x.cbs| {
      TellKnown(s.x, Call(t, th.n, s.x.cbs[th.pc.i], s.x.val, th.pc.v), start);
    }
  }

  lemma StepSnapshots(s: State, t: nat, start: Value)
    requires Base(s, start) && t < |s.threads| && Next(s.x, t, s.threads[t]).Some?
    ensures var e := Next(s.x, t, s.threads[t]).value;
            s.x.lastId <= e.x.lastId && SnapshotKnown(e.thread.pc, e.x.lastId)
  {
    assert SnapshotKnown(s.threads[t].pc, s.x.lastId);
  }

  lemma AfterBase(s: State, t: nat, start: Value)
    requires Base(s, start)
    ensures Base(After(s, t), start)
  {
    AfterInv(s, t, start);
    if t < |s.threads| && Next(s.x, t, s.threads[t]).Some? {
      StepKnown(s, t, start);
      StepSnapshots(s, t, start);
    }
  }

  lemma {:induction false} RunBase(s: State, schedule: seq<nat>)
    requires Initial(s)
    ensures Base(Run(s, schedule), s.x.val)
  {
    if schedule != [] {
      RunBase(s, schedule[..|schedule| - 1]);
      AfterBase(Run(s, schedule[..|schedule| - 1]), schedule[|schedule| - 1], s.x.val);
    }
  }

  // ------------------------------------------------- what holds without interference

  ghost predicate Quiet(s: State, id: nat)
    requires Live(s.x, id)
  {
    && Seen(s.x.calls, id) == History(s.x, id)
    && forall u :: 0 <= u < |s.threads| ==> id !in ToldBy(s.threads[u].pc)
  }

  /** Thread `u` alone has told the listener of a change it has yet to store. */
  ghost predicate Pending(s: State, id: nat, u: nat)
    requires Live(s.x, id)
  {
    && u < |s.threads| && id in ToldBy(s.threads[u].pc)
    && Seen(s.x.calls, id) == History(s.x, id) + [InFlight(u, s.threads[u])]
    && s.threads[u].pc.before == s.x.val
    && forall w :: 0 <= w < |s.threads| && w != u ==> id !in ToldBy(s.threads[w].pc)
  }

  ghost predicate Orderly(s: State, id: nat) {
    Live(s.x, id) ==> Quiet(s, id) || exists u :: Pending(s, id, u)
  }

  lemma OrderlyIsFaithful(s: State, id: nat)
    requires Orderly(s, id)
    ensures Faithful(s.x, id)
  {
  }

  /** A step that leaves the variable's history and what its thread has told alone. */
  lemma UnchangedOrderly(s: State, t: nat, id: nat)
    requires t < |s.threads| && Orderly(s, id)
    requires Next(s.x, t, s.threads[t]).Some?
    requires var e := Next(s.x, t, s.threads[t]).value;
             && e.x.calls == s.x.calls && e.x.stores == s.x.stores && e.x.val == s.x.val
             && (Live(e.x, id) ==> Live(s.x, id) && e.x.registered[id] == s.x.registered[id])
             && (id in ToldBy(e.thread.pc) <==> id in ToldBy(s.threads[t].pc))
             && (id in ToldBy(e.thread.pc) ==> InFlight(t, e.thread) == InFlight(t, s.threads[t]))
    ensures Orderly(After(s, t), id)
  {
    var s' := After(s, t);
    if Live(s'.x, id) {
      if Quiet(s, id) {
        assert Quiet(s', id);
      } else {
        var u :| Pending(s, id, u);
        assert Pending(s', id, u);
      }
    }
  }

  lemma {:induction false} UnheardOf(calls: seq<Call>, id: nat)
    requires forall k :: 0 <= k < |calls| ==> calls[k].id < id
    ensures Seen(calls, id) == []
  {
    if calls != [] {
      UnheardOf(calls[..|calls| - 1], id);
    }
  }

  lemma EditOrderly(s: State, t: nat, id: nat, start: Value)
    requires Base(s, start) && t < |s.threads| && Orderly(s, id) && s.threads[t].pc.Editing?
    ensures Orderly(After(s, t), id)
  {
    var op := s.threads[t].pc.op;
    var s' := After(s, t);
    if op.Unlisten? {
      RemoveKeeps(s.x.cbs, op.id);
    }
    if op.Listen? && id == s.x.lastId + op.skipped + 1 {
      UnheardOf(s.x.calls, id);
      assert Quiet(s', id);
    } else {
      UnchangedOrderly(s, t, id);
    }
  }

  lemma StoreOrderly(s: State, t: nat, id: nat, start: Value)
    requires Base(s, start) && t < |s.threads| && Orderly(s, id) && s.threads[t].pc.Storing?
    requires !Interferes(s, t, id)
    ensures Orderly(After(s, t), id)
  {
    var s' := After(s, t);
    if Live(s.x, id) {
      assert Pending(s, id, t);
      assert History(s'.x, id) == History(s.x, id) + [InFlight(t, s.threads[t])];
      assert Quiet(s', id);
    }
  }

  lemma SeenSnoc(calls: seq<Call>, c: Call, id: nat)
    ensures Seen(calls + [c], id) == Seen(calls, id) + if c.id == id then [Change(c.t, c.n, c.before, c.after)] else []
  {
    assert (calls + [c])[..|calls|] == calls;
  }

  /** What telling listener `cbs[i]` adds to what `id` has seen and to what the thread has told. */
  lemma TellSeen(s: State, t: nat, id: nat, start: Value)
    requires Base(s, start) && t < |s.threads| && s.threads[t].pc.Announcing? && s.threads[t].pc.i < |s.x.cbs|
    ensures var pc := s.threads[t].pc;
            var s' := After(s, t);
            && pc.cbs == s.x.cbs && pc.before == s.x.val
            && s' == State(s'.x, s.threads[t := s'.threads[t]])
            && s'.x == s.x.(calls := s'.x.calls)
            && s'.threads[t] == s.threads[t].(pc := Announcing(pc.v, pc.i + 1, pc.before, pc.cbs))
            && (id in ToldBy(s'.threads[t].pc) <==> id in ToldBy(pc) || id == pc.cbs[pc.i])
            && Seen(s'.x.calls, id)
               == Seen(s.x.calls, id) + if id == pc.cbs[pc.i] then [InFlight(t, s.threads[t])] else []
  {
    var th := s.threads[t];
    assert ThreadOk(s.x, t, th);
    var i, cbs := th.pc.i, s.x.cbs;
    SeenSnoc(s.x.calls, Call(t, th.n, cbs[i], s.x.val, th.pc.v), id);
    assert cbs[..i + 1] == cbs[..i] + [cbs[i]];
  }

  lemma TellOtherPending(s: State, t: nat, id: nat, u: nat, start: Value)
    requires Base(s, start) && t < |s.threads| && Live(s.x, id) && Pending(s, id, u)
    requires s.threads[t].pc.Announcing? && s.threads[t].pc.i < |s.x.cbs| && s.x.cbs[s.threads[t].pc.i] != id
    ensures Live(After(s, t).x, id) && Pending(After(s, t), id, u)
  {
    TellSeen(s, t, id, start);
    var s' := After(s, t);
    assert InFlight(u, s'.threads[u]) == InFlight(u, s.threads[u]);
    forall w | 0 <= w < |s'.threads| && w != u ensures id !in ToldBy(s'.threads[w].pc) {
      assert w != t ==> s'.threads[w] == s.threads[w];
    }
  }

  /** Telling another listener changes nothing for this one. */
  lemma TellOtherOrderly(s: State, t: nat, id: nat, start: Value)
    requires Base(s, start) && t < |s.threads| && Orderly(s, id)
    requires s.threads[t].pc.Announcing? && s.threads[t].pc.i < |s.x.cbs| && s.x.cbs[s.threads[t].pc.i] != id
    ensures Orderly(After(s, t), id)
  {
    TellSeen(s, t, id, start);
    if Live(s.x, id) {
      if Quiet(s, id) {
        assert Quiet(After(s, t), id);
      } else {
        var u: nat :| Pending(s, id, u);
        TellOtherPending(s, t, id, u, start);
      }
    }
  }

  lemma TellOrderly(s: State, t: nat, id: nat, start: Value)
    requires Base(s, start) && t < |s.threads| && Orderly(s, id)
    requires s.threads[t].pc.Announcing? && s.threads[t].pc.i < |s.x.cbs| && s.x.cbs[s.threads[t].pc.i] == id
    requires !Interferes(s, t, id)
    ensures Orderly(After(s, t), id)
  {
    var i, cbs := s.threads[t].pc.i, s.x.cbs;
    TellSeen(s, t, id, start);
    assert id !in cbs[..i];
    assert id !in ToldBy(s.threads[t].pc);
    if Live(s.x, id) {
      assert Quiet(s, id) by {
        if u: nat :| Pending(s, id, u) {
          assert u != t;
        }
      }
      assert Pending(After(s, t), id, t);
    }
  }

  lemma RestOrderly(s: State, t: nat, id: nat, start: Value)
    requires Base(s, start) && t < |s.threads| && Orderly(s, id) && Next(s.x, t, s.threads[t]).Some?
    requires var pc := s.threads[t].pc;
             !pc.Editing? && !pc.Storing? && (pc.Announcing? ==> pc.i >= |s.x.cbs|)
    ensures Orderly(After(s, t), id)
  {
    assert ThreadOk(s.x, t, s.threads[t]);
    if s.threads[t].pc.Announcing? {
      assert s.x.cbs[..|s.x.cbs|] == s.x.cbs;
    }
    UnchangedOrderly(s, t, id);
  }

  lemma StepOrderly(s: State, t: nat, id: nat, start: Value)
    requires Base(s, start) && Orderly(s, id) && !Interferes(s, t, id)
    ensures Orderly(After(s, t), id)
  {
    if t < |s.threads| && Next(s.x, t, s.threads[t]).Some? {
      var pc := s.threads[t].pc;
      if pc.Editing? {
        EditOrderly(s, t, id, start);
      } else if pc.Storing? {
        StoreOrderly(s, t, id, start);
      } else if pc.Announcing? && pc.i < |s.x.cbs| && s.x.cbs[pc.i] == id {
        TellOrderly(s, t, id, start);
      } else if pc.Announcing? && pc.i < |s.x.cbs| {
        TellOtherOrderly(s, t, id, start);
      } else {
        RestOrderly(s, t, id, start);
      }
    }
  }

  lemma TellSpoils(s: State, t: nat, id: nat, start: Value)
    requires Base(s, start) && Orderly(s, id) && Interferes(s, t, id) && s.threads[t].pc.Announcing?
    ensures !Faithful(After(s, t).x, id)
  {
    var th := s.threads[t];
    SeenSnoc(s.x.calls, Call(t, th.n, id, s.x.val, th.pc.v), id);
    assert !Quiet(s, id);
    assert History(After(s, t).x, id) == History(s.x, id);
  }

  lemma StoreSpoils(s: State, t: nat, id: nat)
    requires Orderly(s, id) && Interferes(s, t, id) && s.threads[t].pc.Storing?
    ensures !Faithful(After(s, t).x, id)
  {
    var th := s.threads[t];
    var hist := History(s.x, id);
    var c := Change(t, th.n, s.x.val, th.pc.v);
    var x' := After(s, t).x;
    assert x'.stores == s.x.stores + [c];
    assert History(x', id) == hist + [c];
    if !Quiet(s, id) {
      var u: nat :| Pending(s, id, u);
      assert u != t;
      assert (hist + [c])[|hist|] != (hist + [InFlight(u, s.threads[u])])[|hist|];
    }
  }

  /** The first step that interferes spoils the listener's record at once. */
  lemma InterferenceSpoils(s: State, t: nat, id: nat, start: Value)
    requires Base(s, start) && Orderly(s, id) && Interferes(s, t, id)
    ensures !Faithful(After(s, t).x, id)
  {
    if s.threads[t].pc.Announcing? {
      TellSpoils(s, t, id, start);
    } else {
      StoreSpoils(s, t, id);
    }
  }

  // -------------------------------------------------------------------------- results

  ghost predicate AlwaysFaithful(s: State, schedule: seq<nat>, id: nat) {
    forall k :: 0 <= k <= |schedule| ==> Faithful(Run(s, schedule[..k]).x, id)
  }

  predicate DisturbedAt(s: State, schedule: seq<nat>, k: nat, id: nat)
    requires k < |schedule|
  {
    Interferes(Run(s, schedule[..k]), schedule[k], id)
  }

  ghost predicate Undisturbed(s: State, schedule: seq<nat>, id: nat) {
    forall k :: 0 <= k < |schedule| ==> !DisturbedAt(s, schedule, k, id)
  }

  lemma DisturbedInFront(s: State, schedule: seq<nat>, n: nat, k: nat, id: nat)
    requires k < n <= |schedule|
    ensures DisturbedAt(s, schedule[..n], k, id) <==> DisturbedAt(s, schedule, k, id)
  {
    assert schedule[..n][..k] == schedule[..k];
  }

  lemma UndisturbedFront(s: State, schedule: seq<nat>, n: nat, id: nat)
    requires n <= |schedule| && Undisturbed(s, schedule, id)
    ensures Undisturbed(s, schedule[..n], id)
  {
    forall k | 0 <= k < n ensures !DisturbedAt(s, schedule[..n], k, id) {
      DisturbedInFront(s, schedule, n, k, id);
    }
  }

  lemma UndisturbedMore(s: State, schedule: seq<nat>, id: nat)
    requires schedule != [] && Undisturbed(s, schedule[..|schedule| - 1], id)
    requires !DisturbedAt(s, schedule, |schedule| - 1, id)
    ensures Undisturbed(s, schedule, id)
  {
    forall k | 0 <= k < |schedule| - 1 ensures !DisturbedAt(s, schedule, k, id) {
      DisturbedInFront(s, schedule, |schedule| - 1, k, id);
    }
  }

  lemma {:induction false} UndisturbedIsOrderly(s: State, schedule: seq<nat>, id: nat)
    requires Initial(s) && Undisturbed(s, schedule, id)
    ensures Orderly(Run(s, schedule), id)
  {
    if schedule != [] {
      var front := schedule[..|schedule| - 1];
      UndisturbedFront(s, schedule, |schedule| - 1, id);
      UndisturbedIsOrderly(s, front, id);
      assert !DisturbedAt(s, schedule, |schedule| - 1, id);
      RunBase(s, front);
      StepOrderly(Run(s, front), schedule[|schedule| - 1], id, s.x.val);
    }
  }

  lemma FrontFaithful(s: State, schedule: seq<nat>, id: nat)
    requires AlwaysFaithful(s, schedule, id) && schedule != []
    ensures AlwaysFaithful(s, schedule[..|schedule| - 1], id) && Faithful(Run(s, schedule).x, id)
  {
    var front := schedule[..|schedule| - 1];
    assert forall k :: 0 <= k <= |front| ==> front[..k] == schedule[..k];
    assert schedule[..|schedule|] == schedule;
  }

  lemma StepMustNotInterfere(s: State, front: seq<nat>, t: nat, id: nat)
    requires Initial(s) && Undisturbed(s, front, id) && Faithful(After(Run(s, front), t).x, id)
    ensures !Interferes(Run(s, front), t, id)
  {
    UndisturbedIsOrderly(s, front, id);
    RunBase(s, front);
    if Interferes(Run(s, front), t, id) {
      InterferenceSpoils(Run(s, front), t, id, s.x.val);
    }
  }

  lemma {:induction false} DisturbedIsSpoilt(s: State, schedule: seq<nat>, id: nat)
    requires Initial(s) && AlwaysFaithful(s, schedule, id)
    ensures Undisturbed(s, schedule, id)
  {
    if schedule != [] {
      var last := |schedule| - 1;
      FrontFaithful(s, schedule, id);
      DisturbedIsSpoilt(s, schedule[..last], id);
      StepMustNotInterfere(s, schedule[..last], schedule[last], id);
      UndisturbedMore(s, schedule, id);
    }
  }

  /** Exactly when a listener is told faithfully throughout a run: nothing tells it, and no stale
      store is made, between an announcement and its store. */
  lemma FaithfulIffUndisturbed(s: State, schedule: seq<nat>, id: nat)
    requires Initial(s)
    ensures AlwaysFaithful(s, schedule, id) <==> Undisturbed(s, schedule, id)
  {
    if Undisturbed(s, schedule, id) {
      forall k | 0 <= k <= |schedule| ensures Faithful(Run(s, schedule[..k]).x, id) {
        UndisturbedFront(s, schedule, k, id);
        UndisturbedIsOrderly(s, schedule[..k], id);
        OrderlyIsFaithful(Run(s, schedule[..k]), id);
      }
    }
    if AlwaysFaithful(s, schedule, id) {
      DisturbedIsSpoilt(s, schedule, id);
    }
  }

  // --------------------------------------------------------------- chains of values

  function Pairs(cs: seq<Change>): (r: seq<(Value, Value)>)
    ensures |r| == |cs| && forall k :: 0 <= k < |cs| ==> r[k] == (cs[k].before, cs[k].after)
  {
    seq(|cs|, k requires 0 <= k < |cs| => (cs[k].before, cs[k].after))
  }

  lemma {:induction false} SeenIsStrict(calls: seq<Call>, id: nat)
    requires forall k :: 0 <= k < |calls| ==> calls[k].before != calls[k].after
    ensures forall k :: 0 <= k < |Seen(calls, id)| ==> Seen(calls, id)[k].before != Seen(calls, id)[k].after
  {
    if calls != [] {
      SeenIsStrict(calls[..|calls| - 1], id);
    }
  }

  lemma ChainSnoc(start: Value, cs: seq<Change>, now: Value, c: Change)
    requires ConfigVars.Chain(start, Pairs(cs), now) && c.before == now && c.after != now
    ensures ConfigVars.Chain(start, Pairs(cs + [c]), c.after)
  {
    assert Pairs(cs + [c])[..|cs|] == Pairs(cs);
  }

  lemma StoresSnoc(start: Value, stores: seq<Change>, at: nat, k: nat)
    requires Linked(start, stores) && at <= k < |stores| && stores[k].before != stores[k].after
    requires ConfigVars.Chain(ValueAt(start, stores, at), Pairs(stores[at..k]), ValueAt(start, stores, k))
    ensures ConfigVars.Chain(ValueAt(start, stores, at), Pairs(stores[at..k + 1]), ValueAt(start, stores, k + 1))
  {
    ChainSnoc(ValueAt(start, stores, at), stores[at..k], stores[k].before, stores[k]);
    assert stores[at..k + 1] == stores[at..k] + [stores[k]];
  }

  lemma {:induction false} StoresChain(start: Value, stores: seq<Change>, at: nat, k: nat)
    requires Linked(start, stores) && at <= k <= |stores|
    requires forall j :: at <= j < k ==> stores[j].before != stores[j].after
    ensures ConfigVars.Chain(ValueAt(start, stores, at), Pairs(stores[at..k]), ValueAt(start, stores, k))
    decreases k
  {
    if at < k {
      StoresChain(start, stores, at, k - 1);
      StoresSnoc(start, stores, at, k - 1);
    } else {
      assert Pairs(stores[at..k]) == [];
    }
  }

  /** What the listener's chain ends at: the value, or the one announced and not yet stored. */
  function ChainEnd(x: Var, id: nat): Value
    requires Live(x, id)
  {
    var seen := Seen(x.calls, id);
    if |seen| > |History(x, id)| then seen[|seen| - 1].after else x.val
  }

  /** The stores since registration are a chain, if the listener has seen them. */
  lemma HistoryChain(x: Var, id: nat, start: Value)
    requires Known(x, start) && id in x.cbs && Live(x, id) && History(x, id) <= Seen(x.calls, id)
    ensures ConfigVars.Chain(x.registered[id].value, Pairs(History(x, id)), x.val)
  {
    var at, hist, seen := x.registered[id].at, History(x, id), Seen(x.calls, id);
    SeenIsStrict(x.calls, id);
    forall j | at <= j < |x.stores| ensures x.stores[j].before != x.stores[j].after {
      assert x.stores[j] == hist[j - at] == seen[j - at];
    }
    StoresChain(start, x.stores, at, |x.stores|);
    assert x.stores[at..|x.stores|] == hist;
  }

  lemma OrderlyChain(s: State, id: nat, start: Value)
    requires Base(s, start) && Orderly(s, id) && id in s.x.cbs
    ensures Live(s.x, id)
    ensures ConfigVars.Chain(s.x.registered[id].value, Pairs(Seen(s.x.calls, id)), ChainEnd(s.x, id))
  {
    var x := s.x;
    var hist, seen := History(x, id), Seen(x.calls, id);
    HistoryChain(x, id, start);
    if !Quiet(s, id) {
      var u: nat :| Pending(s, id, u);
      SeenIsStrict(x.calls, id);
      assert seen[|hist|] == InFlight(u, s.threads[u]);
      ChainSnoc(x.registered[id].value, hist, x.val, seen[|hist|]);
    }
  }

  /** Without interference each live listener sees an unbroken chain of real changes from the value
      it was registered at to the present one. */
  lemma UndisturbedChain(s: State, schedule: seq<nat>, id: nat)
    requires Initial(s) && Undisturbed(s, schedule, id)
    ensures var x := Run(s, schedule).x;
            id in x.cbs ==>
              Live(x, id)
              && ConfigVars.Chain(x.registered[id].value, Pairs(Seen(x.calls, id)), ChainEnd(x, id))
  {
    RunBase(s, schedule);
    UndisturbedIsOrderly(s, schedule, id);
    if id in Run(s, schedule).x.cbs {
      OrderlyChain(Run(s, schedule), id, s.x.val);
    }
  }

  // ------------------------------------------------------ a check before the threads start

  predicate Passive(op: Op) {
    !op.Set? && !op.Listen?
  }

  /** Threads other than `w` neither set the variable nor add listeners. */
  predicate OneWriter(s: State, w: nat) {
    forall t, k :: 0 <= t < |s.threads| && t != w && 0 <= k < |s.threads[t].todo| ==> Passive(s.threads[t].todo[k])
  }

  predicate PassivePC(pc: PC) {
    match pc
    case WantEdit(op) => Passive(op)
    case Editing(op) => Passive(op)
    case Idle => true
    case WantGet => true
    case Getting => true
    case _ => false
  }

  ghost predicate Sole(s: State, w: nat) {
    && OneWriter(s, w)
    && (forall t :: 0 <= t < |s.threads| && t != w ==> PassivePC(s.threads[t].pc))
    && (w < |s.threads| && (s.threads[w].pc.WantWrite? || s.threads[w].pc.Storing?) ==>
         forall id :: id in s.x.cbs ==> id in s.threads[w].pc.cbs)
  }

  lemma SoleStep(s: State, w: nat, t: nat, start: Value)
    requires Base(s, start) && Sole(s, w)
    ensures Sole(After(s, t), w)
  {
    if t < |s.threads| && Next(s.x, t, s.threads[t]).Some? {
      var th := s.threads[t];
      assert ThreadOk(s.x, t, th);
      assert t != w ==> PassivePC(th.pc) && forall k :: 0 <= k < |th.todo| ==> Passive(th.todo[k]);
      if th.pc.Editing? && th.pc.op.Unlisten? {
        RemoveKeeps(s.x.cbs, th.pc.op.id);
      }
    }
  }

  lemma {:induction false} RunSole(s: State, schedule: seq<nat>, w: nat)
    requires Initial(s) && OneWriter(s, w)
    ensures Sole(Run(s, schedule), w)
  {
    if schedule != [] {
      var front := schedule[..|schedule| - 1];
      RunSole(s, front, w);
      RunBase(s, front);
      SoleStep(Run(s, front), w, schedule[|schedule| - 1], s.x.val);
    }
  }

  /** If only one thread sets the variable or adds listeners, every listener is always told
      faithfully, whatever the others read or remove. */
  lemma OneWriterIsEnough(s: State, schedule: seq<nat>, w: nat, id: nat)
    requires Initial(s) && OneWriter(s, w)
    ensures AlwaysFaithful(s, schedule, id) && Undisturbed(s, schedule, id)
  {
    forall k | 0 <= k < |schedule| ensures !DisturbedAt(s, schedule, k, id) {
      RunSole(s, schedule[..k], w);
    }
    FaithfulIffUndisturbed(s, schedule, id);
  }

  // ------------------------------------------------------------------ runs that fail

  lemma OneMore(s: State, schedule: seq<nat>, t: nat, r: State, e: Effect)
    requires r == Run(s, schedule) && t < |r.threads| && Next(r.x, t, r.threads[t]) == Some(e)
    ensures Run(s, schedule + [t]) == State(e.x, r.threads[t := e.thread])
  {
    assert (schedule + [t])[..|schedule|] == schedule;
  }

  /** Thread `t` is about to set the variable to another value, with no one in its way. */
  predicate CanSet(q: State, t: nat, v: Value, todo: seq<Op>) {
    && t < |q.threads| && q.threads[t] == Thread(Idle, q.threads[t].n, [Set(v)] + todo)
    && q.x.writer == None && q.x.val != v && t !in q.x.readers
  }

  /** Its first three steps: it starts, takes the read lock, and finds the value to be another. */
  lemma Begins(s: State, schedule: seq<nat>, t: nat, v: Value, todo: seq<Op>)
    requires CanSet(Run(s, schedule), t, v, todo)
    ensures var q := Run(s, schedule);
            Run(s, schedule + [t] + [t] + [t])
            == State(q.x.(readers := q.x.readers + {t}),
                     q.threads[t := Thread(Announcing(v, 0, q.x.val, q.x.cbs), q.threads[t].n + 1, todo)])
  {
    var q := Run(s, schedule);
    var n := q.threads[t].n + 1;
    var reading := q.x.(readers := q.x.readers + {t});
    var r1 := State(q.x, q.threads[t := Thread(WantRead(v), n, todo)]);
    var r2 := State(reading, r1.threads[t := Thread(Comparing(v), n, todo)]);
    assert q.threads[t].todo[1..] == todo;
    OneMore(s, schedule, t, q, Effect(r1.x, r1.threads[t]));
    OneMore(s, schedule + [t], t, r1, Effect(r2.x, r2.threads[t]));
    OneMore(s, schedule + [t] + [t], t, r2,
            Effect(reading, Thread(Announcing(v, 0, q.x.val, q.x.cbs), n, todo)));
  }

  /** With one listener, the thread tells it next. */
  lemma TellsOne(s: State, schedule: seq<nat>, t: nat, v: Value, todo: seq<Op>)
    requires CanSet(Run(s, schedule), t, v, todo) && |Run(s, schedule).x.cbs| == 1
    ensures var q := Run(s, schedule);
            var n := q.threads[t].n + 1;
            Run(s, schedule + [t] + [t] + [t] + [t])
            == State(q.x.(readers := q.x.readers + {t}, calls := q.x.calls + [Call(t, n, q.x.cbs[0], q.x.val, v)]),
                     q.threads[t := Thread(Announcing(v, 1, q.x.val, q.x.cbs), n, todo)])
  {
    Begins(s, schedule, t, v, todo);
    var r := Run(s, schedule + [t] + [t] + [t]);
    OneMore(s, schedule + [t] + [t] + [t], t, r, Next(r.x, t, r.threads[t]).value);
  }

  /** With no listener, the thread lets go of the read lock. */
  lemma TellsNobody(s: State, schedule: seq<nat>, t: nat, v: Value, todo: seq<Op>)
    requires CanSet(Run(s, schedule), t, v, todo) && Run(s, schedule).x.cbs == []
    ensures var q := Run(s, schedule);
            var n := q.threads[t].n + 1;
            Run(s, schedule + [t] + [t] + [t] + [t])
            == State(q.x.(announced := q.x.announced + [Announcement(t, n, q.x.val, v, [])]),
                     q.threads[t := Thread(WantWrite(v, q.x.val, []), n, todo)])
  {
    Begins(s, schedule, t, v, todo);
    var r := Run(s, schedule + [t] + [t] + [t]);
    OneMore(s, schedule + [t] + [t] + [t], t, r, Next(r.x, t, r.threads[t]).value);
    assert Run(s, schedule).x.readers + {t} - {t} == Run(s, schedule).x.readers;
  }

  /** The first part of the run below: thread 0 has told the listener. */
  lemma FirstTells(s: State) returns (schedule: seq<nat>)
    requires s.x == Var(0, [7], 7, {}, None, [], [], [], map[7 := Registered(0, 0)])
    requires s.threads == [Thread(Idle, 0, [Set(1)]), Thread(Idle, 0, [Set(2)])]
    ensures Run(s, schedule).x == s.x.(readers := {0}, calls := [Call(0, 1, 7, 0, 1)])
    ensures Run(s, schedule).threads == [Thread(Announcing(1, 1, 0, [7]), 1, []), s.threads[1]]
  {
    assert [Set(1)] + [] == [Set(1)] && Run(s, []) == s;
    TellsOne(s, [], 0, 1, []);
    schedule := [] + [0] + [0] + [0] + [0];
    assert [] + [Call(0, 1, 7, 0, 1)] == [Call(0, 1, 7, 0, 1)];
    assert {} + {0} == {0};
  }

  /** With two setters both may announce from the same old value. Thread 0 sets 1 and thread 1 sets
      2 while one listener is registered on a variable at 0. */
  lemma SettersMayShareOldValue() returns (s: State, schedule: seq<nat>)
    ensures Initial(s) && s.x.val == 0 && |s.threads| == 2
    ensures s.threads[0].todo == [Set(1)] && s.threads[1].todo == [Set(2)]
    ensures Run(s, schedule).x.calls == [Call(0, 1, 7, 0, 1), Call(1, 1, 7, 0, 2)]
    ensures !Faithful(Run(s, schedule).x, 7)
  {
    s := State(Var(0, [7], 7, {}, None, [], [], [], map[7 := Registered(0, 0)]),
               [Thread(Idle, 0, [Set(1)]), Thread(Idle, 0, [Set(2)])]);
    schedule := FirstTells(s);
    assert [Set(2)] + [] == [Set(2)];
    TellsOne(s, schedule, 1, 2, []);
    schedule := schedule + [1] + [1] + [1] + [1];
    TwoCalls(Run(s, schedule).x);
  }

  lemma TwoCalls(x: Var)
    requires x.calls == [Call(0, 1, 7, 0, 1)] + [Call(1, 1, 7, 0, 2)] && x.cbs == [7] && x.stores == []
    requires x.registered == map[7 := Registered(0, 0)]
    ensures !Faithful(x, 7)
  {
    SeenSnoc([Call(0, 1, 7, 0, 1)], Call(1, 1, 7, 0, 2), 7);
    SeenSnoc([], Call(0, 1, 7, 0, 1), 7);
    assert [] + [Call(0, 1, 7, 0, 1)] == [Call(0, 1, 7, 0, 1)];
  }

  /** Thread `t` registers a listener. */
  lemma Registers(s: State, schedule: seq<nat>, t: nat, todo: seq<Op>)
    requires var q := Run(s, schedule);
             && t < |q.threads| && q.threads[t] == Thread(Idle, q.threads[t].n, [Listen(0)] + todo)
             && q.x.writer == None && q.x.readers == {}
    ensures var q := Run(s, schedule);
            Run(s, schedule + [t] + [t] + [t])
            == State(Edited(q.x, Listen(0)), q.threads[t := Thread(Idle, q.threads[t].n + 1, todo)])
  {
    var q := Run(s, schedule);
    var n := q.threads[t].n + 1;
    var r1 := State(q.x, q.threads[t := Thread(WantEdit(Listen(0)), n, todo)]);
    var r2 := State(q.x.(writer := Some(t)), r1.threads[t := Thread(Editing(Listen(0)), n, todo)]);
    assert q.threads[t].todo[1..] == todo;
    OneMore(s, schedule, t, q, Effect(r1.x, r1.threads[t]));
    OneMore(s, schedule + [t], t, r1, Effect(r2.x, r2.threads[t]));
    OneMore(s, schedule + [t] + [t], t, r2, Effect(Edited(q.x, Listen(0)), Thread(Idle, n, todo)));
  }

  /** Thread `t` stores what it has announced. */
  lemma Stores(s: State, schedule: seq<nat>, t: nat)
    requires var q := Run(s, schedule);
             t < |q.threads| && q.threads[t].pc.WantWrite? && q.x.writer == None && q.x.readers == {}
    ensures var q := Run(s, schedule);
            var th := q.threads[t];
            Run(s, schedule + [t] + [t])
            == State(q.x.(val := th.pc.v, stores := q.x.stores + [Change(t, th.n, q.x.val, th.pc.v)]),
                     q.threads[t := th.(pc := Idle)])
  {
    var q := Run(s, schedule);
    var th := q.threads[t];
    var r1 := State(q.x.(writer := Some(t)), q.threads[t := th.(pc := Storing(th.pc.v, th.pc.before, th.pc.cbs))]);
    OneMore(s, schedule, t, q, Effect(r1.x, r1.threads[t]));
    var e := Next(r1.x, t, r1.threads[t]).value;
    OneMore(s, schedule + [t], t, r1, e);
  }

  /** The first part of the next two runs: thread 0 has announced 1 to nobody, and thread 1 has
      registered a listener since. */
  lemma RegistersLate(s: State, todo: seq<Op>) returns (schedule: seq<nat>)
    requires s.x == Var(0, [], 6, {}, None, [], [], [], map[])
    requires s.threads == [Thread(Idle, 0, [Set(1)]), Thread(Idle, 0, [Listen(0)] + todo)]
    ensures var r := Run(s, schedule);
            && r.threads == [Thread(WantWrite(1, 0, []), 1, []), Thread(Idle, 1, todo)]
            && r.x.val == 0 && r.x.cbs == [7] && r.x.registered == map[7 := Registered(0, 0)] && r.x.stores == []
            && r.x.calls == [] && r.x.readers == {} && r.x.writer == None
  {
    assert [Set(1)] + [] == [Set(1)] && Run(s, []) == s;
    TellsNobody(s, [], 0, 1, []);
    schedule := [] + [0] + [0] + [0] + [0];
    var th := Thread(WantWrite(1, 0, []), 1, []);
    var x1 := Run(s, schedule).x;
    assert Run(s, schedule).threads == [th, s.threads[1]];
    Registers(s, schedule, 1, todo);
    schedule := schedule + [1] + [1] + [1];
    var x2 := Edited(x1, Listen(0));
    assert x2.cbs == [7] && x2.registered == map[7 := Registered(0, 0)];
    assert Run(s, schedule) == State(x2, [th, Thread(Idle, 1, todo)]);
  }

  /** With one setter and one addListener the listener may miss the change: it is registered at 0
      after the announcement, the value becomes 1, and it is never called. */
  lemma LateListenerMisses() returns (s: State, schedule: seq<nat>)
    ensures Initial(s) && s.x.val == 0 && s.x.cbs == [] && |s.threads| == 2
    ensures s.threads[0].todo == [Set(1)] && s.threads[1].todo == [Listen(0)]
    ensures var x := Run(s, schedule).x; x.val == 1 && x.cbs == [7] && x.calls == [] && !Faithful(x, 7)
  {
    assert [Listen(0)] + [] == [Listen(0)];
    s := State(Var(0, [], 6, {}, None, [], [], [], map[]),
               [Thread(Idle, 0, [Set(1)]), Thread(Idle, 0, [Listen(0)])]);
    schedule := RegistersLate(s, []);
    Stores(s, schedule, 0);
    schedule := schedule + [0] + [0];
  }

  /** Thread `t` has told the last listener and lets go of the read lock. */
  lemma Finishes(s: State, schedule: seq<nat>, t: nat)
    requires var q := Run(s, schedule);
             && t < |q.threads| && q.threads[t].pc.Announcing? && q.threads[t].pc.i == |q.x.cbs|
             && q.x.readers == {t}
    ensures var q := Run(s, schedule);
            var th := q.threads[t];
            Run(s, schedule + [t])
            == State(q.x.(readers := {}, announced := q.x.announced
                            + [Announcement(t, th.n, th.pc.before, th.pc.v, th.pc.cbs)]),
                     q.threads[t := th.(pc := WantWrite(th.pc.v, th.pc.before, th.pc.cbs))])
  {
    var q := Run(s, schedule);
    assert q.x.readers - {t} == {};
    OneMore(s, schedule, t, q, Next(q.x, t, q.threads[t]).value);
  }

  /** The first part of the run below: besides, thread 1 has announced 1 to the listener. */
  lemma BothAnnounce(s: State) returns (schedule: seq<nat>)
    requires s == State(Var(0, [], 6, {}, None, [], [], [], map[]),
                        [Thread(Idle, 0, [Set(1)]), Thread(Idle, 0, [Listen(0), Set(1)])])
    ensures var r := Run(s, schedule);
            && r.threads == [Thread(WantWrite(1, 0, []), 1, []), Thread(Announcing(1, 1, 0, [7]), 2, [])]
            && r.x.val == 0 && r.x.cbs == [7] && r.x.registered == map[7 := Registered(0, 0)] && r.x.stores == []
            && r.x.calls == [Call(1, 2, 7, 0, 1)] && r.x.readers == {1} && r.x.writer == None
  {
    assert [Set(1)] + [] == [Set(1)] && [Listen(0)] + [Set(1)] == [Listen(0), Set(1)];
    schedule := RegistersLate(s, [Set(1)]);
    TellsOne(s, schedule, 1, 1, []);
    schedule := schedule + [1] + [1] + [1] + [1];
    assert [] + [Call(1, 2, 7, 0, 1)] == [Call(1, 2, 7, 0, 1)];
  }

  /** Values alone do not show all interference. Threads 0 and 1 both set 1 on a variable at 0; the
      listener is registered in between and hears of one change from 0 to 1, which looks unbroken;
      but the store it was told of replaced 1 by 1. */
  lemma EqualValuesHideInterference() returns (s: State, schedule: seq<nat>)
    ensures Initial(s) && s.x.val == 0 && |s.threads| == 2
    ensures s.threads[0].todo == [Set(1)] && s.threads[1].todo == [Listen(0), Set(1)]
    ensures var x := Run(s, schedule).x;
            && x.cbs == [7] && Live(x, 7) && !Faithful(x, 7)
            && ConfigVars.Chain(x.registered[7].value, Pairs(Seen(x.calls, 7)), x.val)
  {
    s := State(Var(0, [], 6, {}, None, [], [], [], map[]),
               [Thread(Idle, 0, [Set(1)]), Thread(Idle, 0, [Listen(0), Set(1)])]);
    schedule := BothAnnounce(s);
    Finishes(s, schedule, 1);
    schedule := schedule + [1];
    Stores(s, schedule, 0);
    schedule := schedule + [0] + [0];
    Stores(s, schedule, 1);
    schedule := schedule + [1] + [1];
    var x := Run(s, schedule).x;
    SeenSnoc([], Call(1, 2, 7, 0, 1), 7);
    assert [] + [Call(1, 2, 7, 0, 1)] == [Call(1, 2, 7, 0, 1)];
    assert Pairs([]) == [];
    ChainSnoc(0, [], 0, Change(1, 2, 0, 1));
    assert [] + [Change(1, 2, 0, 1)] == [Change(1, 2, 0, 1)];
    assert History(x, 7)[0] == Change(0, 1, 0, 1);
  }
}
