/** ConfigVar::setValue among concurrent setters, readers and listener edits.

    The read-write lock is modelled by who holds it. setValue compares and announces under the read
    lock, drops it, and stores under the write lock; other setters may run in between. */
module SetValue {
  import opened Wrappers

  /** Values are only ever compared for equality. */
  type Value = int

  /** Listen takes the next id of a counter that other variables of the type share; `skipped` ids
      have gone to them since. */
  datatype Op = Set(v: Value) | Get | Listen(skipped: nat) | Unlisten(id: nat) | ClearListeners

  datatype PC =
    | Idle
    | WantRead(v: Value)
    | Comparing(v: Value)
    | Announcing(v: Value, i: nat, before: Value, cbs: seq<nat>)
    | WantWrite(v: Value, before: Value, cbs: seq<nat>)
    | Storing(v: Value, before: Value, cbs: seq<nat>)
    | WantGet
    | Getting
    | WantEdit(op: Op)
    | Editing(op: Op)

  /** `n` numbers the operation the thread is in, or was in last. */
  datatype Thread = Thread(pc: PC, n: nat, todo: seq<Op>)

  /** A callback: operation `n` of thread `t` told listener `id` of a change. */
  datatype Call = Call(t: nat, n: nat, id: nat, before: Value, after: Value)

  /** An operation that has told all listeners there were, each of the same change. */
  datatype Announcement = Announcement(t: nat, n: nat, before: Value, after: Value, cbs: seq<nat>)

  /** Operation `n` of thread `t` changes the value. */
  datatype Change = Change(t: nat, n: nat, before: Value, after: Value)

  /** A listener was registered when the variable held `value` and `at` stores had been made. */
  datatype Registered = Registered(at: nat, value: Value)

  /** `cbs` lists the registered ids in increasing order, the order of the callbacks. `calls`,
      `announced`, `stores` and `registered` are history. */
  datatype Var = Var(val: Value, cbs: seq<nat>, lastId: nat, readers: set<nat>, writer: Option<nat>,
                     calls: seq<Call>, announced: seq<Announcement>, stores: seq<Change>,
                     registered: map<nat, Registered>)

  datatype State = State(x: Var, threads: seq<Thread>)

  datatype Effect = Effect(x: Var, thread: Thread)

  function Remove(cbs: seq<nat>, id: nat): seq<nat> {
    if cbs == [] then [] else if cbs[0] == id then cbs[1..] else [cbs[0]] + Remove(cbs[1..], id)
  }

  /** Ids only grow, so a new listener comes last in the map. */
  function Edited(x: Var, op: Op): Var {
    match op
    case Listen(skipped) =>
      var id := x.lastId + skipped + 1;
      x.(cbs := x.cbs + [id], lastId := id, registered := x.registered[id := Registered(|x.stores|, x.val)])
    case Unlisten(id) => x.(cbs := Remove(x.cbs, id))
    case ClearListeners => x.(cbs := [])
    case _ => x
  }

  function Start(op: Op): PC {
    match op
    case Set(v) => WantRead(v)
    case Get => WantGet
    case _ => WantEdit(op)
  }

  /** What thread `t` does next, or None when it has finished or waits for the lock. */
  function Next(x: Var, t: nat, th: Thread): Option<Effect> {
    match th.pc
    case Idle =>
      if th.todo == [] then None else Some(Effect(x, Thread(Start(th.todo[0]), th.n + 1, th.todo[1..])))
    case WantRead(v) =>
      if x.writer.Some? then None else Some(Effect(x.(readers := x.readers + {t}), th.(pc := Comparing(v))))
    case Comparing(v) =>
      if v == x.val then Some(Effect(x.(readers := x.readers - {t}), th.(pc := Idle)))
      else Some(Effect(x, th.(pc := Announcing(v, 0, x.val, x.cbs))))
    case Announcing(v, i, before, cbs) =>
      if i < |x.cbs| then
        Some(Effect(x.(calls := x.calls + [Call(t, th.n, x.cbs[i], x.val, v)]),
                    th.(pc := Announcing(v, i + 1, before, cbs))))
      else
        Some(Effect(x.(readers := x.readers - {t},
                       announced := x.announced + [Announcement(t, th.n, before, v, cbs)]),
                    th.(pc := WantWrite(v, before, cbs))))
    case WantWrite(v, before, cbs) =>
      if x.writer.Some? || x.readers != {} then None
      else Some(Effect(x.(writer := Some(t)), th.(pc := Storing(v, before, cbs))))
    case Storing(v, _, _) =>
      Some(Effect(x.(val := v, writer := None, stores := x.stores + [Change(t, th.n, x.val, v)]), th.(pc := Idle)))
    case WantGet =>
      if x.writer.Some? then None else Some(Effect(x.(readers := x.readers + {t}), th.(pc := Getting)))
    case Getting => Some(Effect(x.(readers := x.readers - {t}), th.(pc := Idle)))
    case WantEdit(op) =>
      if x.writer.Some? || x.readers != {} then None
      else Some(Effect(x.(writer := Some(t)), th.(pc := Editing(op))))
    case Editing(op) => Some(Effect(Edited(x, op).(writer := None), th.(pc := Idle)))
  }

  function After(s: State, t: nat): State {
    if t < |s.threads| && Next(s.x, t, s.threads[t]).Some? then
      var e := Next(s.x, t, s.threads[t]).value;
      State(e.x, s.threads[t := e.thread])
    else s
  }

  function Run(s: State, schedule: seq<nat>): State {
    if schedule == [] then s
    else After(Run(s, schedule[..|schedule| - 1]), schedule[|schedule| - 1])
  }

  // ----------------------------------------------------------------------- invariant

  predicate Reads(pc: PC) {
    pc.Comparing? || pc.Announcing? || pc.Getting?
  }

  predicate Writes(pc: PC) {
    pc.Storing? || pc.Editing?
  }

  /** The callbacks made by operation `n` of thread `t`, in order. */
  function CallsOf(calls: seq<Call>, t: nat, n: nat): seq<Call> {
    if calls == [] then []
    else
      var c := calls[|calls| - 1];
      CallsOf(calls[..|calls| - 1], t, n) + if c.t == t && c.n == n then [c] else []
  }

  /** What telling the first `i` of `cbs` of a change looks like. */
  function Told(t: nat, n: nat, before: Value, after: Value, cbs: seq<nat>, i: nat): seq<Call>
    requires i <= |cbs|
  {
    if i == 0 then [] else Told(t, n, before, after, cbs, i - 1) + [Call(t, n, cbs[i - 1], before, after)]
  }

  /** Every listener of the announcement was told, once, in order, of the same change. */
  predicate Complete(x: Var, a: Announcement) {
    a.before != a.after && CallsOf(x.calls, a.t, a.n) == Told(a.t, a.n, a.before, a.after, a.cbs, |a.cbs|)
  }

  predicate Announced(x: Var, v: Value) {
    exists k :: 0 <= k < |x.announced| && x.announced[k].after == v
  }

  /** No call and no announcement bears a number the thread has not reached. */
  ghost predicate Unused(x: Var, t: nat, n: nat) {
    && (forall m :: m >= n ==> CallsOf(x.calls, t, m) == [])
    && (forall k :: 0 <= k < |x.announced| && x.announced[k].t == t ==> x.announced[k].n < n)
  }

  /** The state of one thread's operation. */
  ghost predicate ThreadOk(x: Var, t: nat, th: Thread) {
    && (t in x.readers <==> Reads(th.pc))
    && (x.writer == Some(t) <==> Writes(th.pc))
    && Unused(x, t, th.n + 1)
    && match th.pc
       case WantRead(_) => Unused(x, t, th.n)
       case Comparing(_) => Unused(x, t, th.n)
       case Announcing(v, i, before, cbs) =>
         && x.val == before && x.cbs == cbs && i <= |cbs| && v != before
         && CallsOf(x.calls, t, th.n) == Told(t, th.n, before, v, cbs, i)
         && (forall k :: 0 <= k < |x.announced| && x.announced[k].t == t ==> x.announced[k].n < th.n)
       case WantWrite(v, before, cbs) => Announced(x, v)
       case Storing(v, before, cbs) => Announced(x, v)
       case _ => true
  }

  ghost predicate VarOk(x: Var, start: Value) {
    && (x.writer.Some? ==> x.readers == {})
    && (forall k :: 0 <= k < |x.announced| ==> Complete(x, x.announced[k]))
    && (x.val == start || Announced(x, x.val))
  }

  ghost predicate Inv(s: State, start: Value) {
    && VarOk(s.x, start)
    && (forall t :: 0 <= t < |s.threads| ==> ThreadOk(s.x, t, s.threads[t]))
  }

  /** What a step of thread `t` may do to the variable as others see it. */
  ghost predicate Guarantee(x: Var, x': Var, t: nat) {
    && (x'.val != x.val || x'.cbs != x.cbs ==> x.writer == Some(t))
    && (forall u :: u != t ==> (u in x'.readers <==> u in x.readers))
    && (x'.writer != x.writer ==>
         (x.writer == None && x'.writer == Some(t)) || (x.writer == Some(t) && x'.writer == None))
    && (x'.calls == x.calls || exists c: Call :: c.t == t && x'.calls == x.calls + [c])
    && (x'.announced == x.announced || exists a: Announcement :: a.t == t && x'.announced == x.announced + [a])
  }

  lemma CallsOfSnoc(calls: seq<Call>, c: Call, t: nat, n: nat)
    ensures CallsOf(calls + [c], t, n) == CallsOf(calls, t, n) + if c.t == t && c.n == n then [c] else []
  {
    assert (calls + [c])[..|calls|] == calls;
  }

  lemma CallsOfOthers(x: Var, x': Var, t: nat, u: nat, n: nat)
    requires Guarantee(x, x', t) && u != t
    ensures CallsOf(x'.calls, u, n) == CallsOf(x.calls, u, n)
  {
    if x'.calls != x.calls {
      var c: Call :| c.t == t && x'.calls == x.calls + [c];
      CallsOfSnoc(x.calls, c, u, n);
    }
  }

  lemma AnnouncedGrows(x: Var, x': Var, t: nat, v: Value)
    requires Guarantee(x, x', t) && Announced(x, v)
    ensures Announced(x', v)
  {
    var k :| 0 <= k < |x.announced| && x.announced[k].after == v;
    assert x'.announced[k] == x.announced[k];
  }

  /** A step of one thread does not disturb the operation of another. */
  lemma OthersUndisturbed(x: Var, x': Var, t: nat, u: nat, th: Thread)
    requires Guarantee(x, x', t) && u != t && ThreadOk(x, u, th) && (x.writer.Some? ==> x.readers == {})
    ensures ThreadOk(x', u, th)
  {
    forall n ensures CallsOf(x'.calls, u, n) == CallsOf(x.calls, u, n) {
      CallsOfOthers(x, x', t, u, n);
    }
    assert forall k :: 0 <= k < |x'.announced| && x'.announced[k].t == u ==>
      k < |x.announced| && x'.announced[k] == x.announced[k];
    if th.pc.WantWrite? || th.pc.Storing? {
      AnnouncedGrows(x, x', t, th.pc.v);
    }
  }

  /** Announcements stay complete as long as their operation makes no further call. */
  lemma StillComplete(x: Var, c: Call, a: Announcement)
    requires Complete(x, a) && !(c.t == a.t && c.n == a.n)
    ensures Complete(x.(calls := x.calls + [c]), a)
  {
    CallsOfSnoc(x.calls, c, a.t, a.n);
  }

  lemma TellOk(x: Var, t: nat, th: Thread, start: Value)
    requires VarOk(x, start) && ThreadOk(x, t, th) && th.pc.Announcing? && th.pc.i < |x.cbs|
    ensures var e := Next(x, t, th).value;
            Guarantee(x, e.x, t) && ThreadOk(e.x, t, e.thread) && VarOk(e.x, start)
  {
    var c := Call(t, th.n, x.cbs[th.pc.i], x.val, th.pc.v);
    var x' := x.(calls := x.calls + [c]);
    forall k | 0 <= k < |x.announced| ensures Complete(x', x.announced[k]) {
      StillComplete(x, c, x.announced[k]);
    }
    forall n ensures CallsOf(x'.calls, t, n) == CallsOf(x.calls, t, n) + if n == th.n then [c] else [] {
      CallsOfSnoc(x.calls, c, t, n);
    }
    assert Announced(x, x.val) ==> Announced(x', x.val);
  }

  lemma FinishOk(x: Var, t: nat, th: Thread, start: Value)
    requires VarOk(x, start) && ThreadOk(x, t, th) && th.pc.Announcing? && th.pc.i >= |x.cbs|
    ensures var e := Next(x, t, th).value;
            Guarantee(x, e.x, t) && ThreadOk(e.x, t, e.thread) && VarOk(e.x, start)
  {
    var a := Announcement(t, th.n, th.pc.before, th.pc.v, th.pc.cbs);
    var x' := Next(x, t, th).value.x;
    assert Complete(x, a);
    forall k | 0 <= k < |x'.announced| ensures Complete(x', x'.announced[k]) {
      assert x'.announced[k] == if k < |x.announced| then x.announced[k] else a;
    }
    assert x'.announced[|x.announced|] == a;
    if Announced(x, x.val) {
      AnnouncedGrows(x, x', t, x.val);
    }
  }

  lemma HistoryUnchanged(x: Var, x': Var)
    requires x'.calls == x.calls && x'.announced == x.announced
    ensures forall v :: Announced(x, v) ==> Announced(x', v)
    ensures forall a :: Complete(x, a) ==> Complete(x', a)
  {
  }

  lemma ReaderOk(x: Var, t: nat, th: Thread, start: Value)
    requires VarOk(x, start) && ThreadOk(x, t, th) && Next(x, t, th).Some?
    requires th.pc.Idle? || th.pc.WantRead? || th.pc.Comparing? || th.pc.WantGet? || th.pc.Getting?
    ensures var e := Next(x, t, th).value;
            Guarantee(x, e.x, t) && ThreadOk(e.x, t, e.thread) && VarOk(e.x, start)
  {
    HistoryUnchanged(x, Next(x, t, th).value.x);
  }

  lemma WriterOk(x: Var, t: nat, th: Thread, start: Value)
    requires VarOk(x, start) && ThreadOk(x, t, th) && Next(x, t, th).Some?
    requires th.pc.WantWrite? || th.pc.Storing? || th.pc.WantEdit? || th.pc.Editing?
    ensures var e := Next(x, t, th).value;
            Guarantee(x, e.x, t) && ThreadOk(e.x, t, e.thread) && VarOk(e.x, start)
  {
    HistoryUnchanged(x, Next(x, t, th).value.x);
  }

  lemma AfterInv(s: State, t: nat, start: Value)
    requires Inv(s, start)
    ensures Inv(After(s, t), start)
  {
    if t < |s.threads| && Next(s.x, t, s.threads[t]).Some? {
      var th := s.threads[t];
      var e := Next(s.x, t, th).value;
      if th.pc.WantWrite? || th.pc.Storing? || th.pc.WantEdit? || th.pc.Editing? {
        WriterOk(s.x, t, th, start);
      } else if !th.pc.Announcing? {
        ReaderOk(s.x, t, th, start);
      } else if th.pc.i < |s.x.cbs| {
        TellOk(s.x, t, th, start);
      } else {
        FinishOk(s.x, t, th, start);
      }
      forall u | 0 <= u < |s.threads| && u != t ensures ThreadOk(e.x, u, s.threads[u]) {
        OthersUndisturbed(s.x, e.x, t, u, s.threads[u]);
      }
    }
  }

  predicate Increasing(ids: seq<nat>) {
    forall i, j :: 0 <= i < j < |ids| ==> ids[i] < ids[j]
  }

  /** Nothing has happened yet; the listeners there are were registered at the present value. */
  predicate Initial(s: State) {
    && s.x.readers == {} && s.x.writer == None && s.x.calls == [] && s.x.announced == [] && s.x.stores == []
    && Increasing(s.x.cbs)
    && (forall id :: id in s.x.cbs ==>
         id <= s.x.lastId && id in s.x.registered && s.x.registered[id] == Registered(0, s.x.val))
    && forall t :: 0 <= t < |s.threads| ==> s.threads[t].pc == Idle && s.threads[t].n == 0
  }

  lemma {:induction false} RunInv(s: State, schedule: seq<nat>)
    requires Initial(s)
    ensures Inv(Run(s, schedule), s.x.val)
  {
    if schedule != [] {
      RunInv(s, schedule[..|schedule| - 1]);
      AfterInv(Run(s, schedule[..|schedule| - 1]), schedule[|schedule| - 1], s.x.val);
    }
  }

  // ------------------------------------------------------------------------- results

  /** While a setter announces, the value and the listeners stay what they were when it began, and
      it has told exactly the first `i` of them, each of the same change. */
  lemma AnnouncingIsStable(s: State, schedule: seq<nat>, t: nat)
    requires Initial(s)
    ensures var r := Run(s, schedule);
            t < |r.threads| && r.threads[t].pc.Announcing? ==>
              var pc := r.threads[t].pc;
              && r.x.val == pc.before && r.x.cbs == pc.cbs && pc.i <= |pc.cbs| && pc.v != pc.before
              && CallsOf(r.x.calls, t, r.threads[t].n) == Told(t, r.threads[t].n, pc.before, pc.v, pc.cbs, pc.i)
  {
    RunInv(s, schedule);
  }

  /** The variable only ever holds its first value or one that a setter has finished announcing to
      all listeners of one moment, once each, in id order, with one old value. */
  lemma OnlyAnnouncedValues(s: State, schedule: seq<nat>)
    requires Initial(s)
    ensures var x := Run(s, schedule).x;
            x.val == s.x.val
            || exists k :: 0 <= k < |x.announced| && x.announced[k].after == x.val && Complete(x, x.announced[k])
  {
    RunInv(s, schedule);
    var x := Run(s, schedule).x;
    if x.val != s.x.val {
      var k :| 0 <= k < |x.announced| && x.announced[k].after == x.val;
      assert Complete(x, x.announced[k]);
    }
  }
}
