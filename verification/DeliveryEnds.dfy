/** Every run of the delivery protocol can be continued to its end: each step uses up work, of which
    there is a finite amount, and some thread can always move. */
module DeliveryEnds {
  import opened Wrappers
  import opened Delivery
  import opened DeliveryRecords
  import opened DeliveryOrder
  import opened DeliveryTotals

  // -------------------------------------------------------- how large formatters get

  function Max(a: nat, b: nat): nat {
    if a < b then b else a
  }

  function OpSize(op: Op): nat {
    match op
    case Log(_, _) => 0
    case SetLoggerFormatter(_, f) => f.size
    case SetAppenderFormatter(_, f) => f.size
  }

  function OpsSize(ops: seq<Op>): nat {
    if ops == [] then 0 else Max(OpSize(ops[0]), OpsSize(ops[1..]))
  }

  function PCSize(pc: PC): nat {
    match pc
    case Writing(_, f, _) => f.size
    case SetWait(_, f) => f.size
    case SetLoop(_, f, _) => f.size
    case SetHold(_, f, _) => f.size
    case AppWait(_, f) => f.size
    case AppHold(_, f) => f.size
    case _ => 0
  }

  function ThreadSize(th: Thread): nat {
    Max(PCSize(th.pc), OpsSize(th.todo))
  }

  /** No formatter in use or still to be set has more than `size` items. */
  predicate Sized(s: State, size: nat) {
    && (forall l :: 0 <= l < |s.loggers| ==> s.loggers[l].fmt.size <= size)
    && (forall a :: 0 <= a < |s.apps| ==> s.apps[a].fmt.size <= size)
    && (forall t :: 0 <= t < |s.threads| ==> ThreadSize(s.threads[t]) <= size)
  }

  lemma {:induction false} Bound<T>(xs: seq<T>, f: T -> nat) returns (b: nat)
    ensures forall k :: 0 <= k < |xs| ==> f(xs[k]) <= b
  {
    b := 0;
    if xs != [] {
      var rest := Bound(xs[1..], f);
      b := Max(f(xs[0]), rest);
      assert forall k :: 0 < k < |xs| ==> xs[k] == xs[1..][k - 1];
    }
  }

  /** There is always a largest formatter. */
  lemma SomeSize(s: State) returns (size: nat)
    ensures Sized(s, size)
  {
    var l := Bound(s.loggers, (x: LoggerState) => x.fmt.size);
    var a := Bound(s.apps, (x: AppState) => x.fmt.size);
    var t := Bound(s.threads, ThreadSize);
    size := Max(l, Max(a, t));
  }

  // ----------------------------------------------------------------------- work

  /** Steps for `n` appenders, with records of at most `size` items. */
  function Span(n: nat, size: nat): nat {
    if n == 0 then 0 else size + 6 + Span(n - 1, size)
  }

  function LeaveWork(via: Option<nat>): nat {
    if via.Some? then 2 else 1
  }

  /** From the head of the delivery loop on, with `n` appenders to go. */
  function LoopWork(n: nat, via: Option<nat>, size: nat): nat {
    Span(n, size) + 1 + LeaveWork(via)
  }

  function Left(c: Config, j: Job): nat
    requires ValidJob(c, j)
  {
    |c.loggers[j.l].apps| - j.k
  }

  /** Steps after the record in hand. */
  function Later(c: Config, j: Job, size: nat): nat
    requires ValidJob(c, j)
  {
    LoopWork(if Left(c, j) == 0 then 0 else Left(c, j) - 1, j.via, size)
  }

  function PCWork(c: Config, pc: PC, size: nat): nat
    requires c.Valid() && ValidPC(c, pc)
  {
    match pc
    case Idle => 0
    case LogWait(j) =>
      1 + LoopWork(|c.loggers[j.l].apps|, j.via, size)
      + if j.l == 0 then 0 else 2 + LoopWork(|c.loggers[0].apps|, Some(j.l), size)
    case Deliver(j) => LoopWork(Left(c, j), j.via, size)
    case ReopenWait(j) => Later(c, j, size) + size + 5
    case Reopening(j) => Later(c, j, size) + size + 4
    case MarkTime(j) => Later(c, j, size) + size + 3
    case WriteWait(j) => Later(c, j, size) + size + 2
    case Writing(j, f, i) => Later(c, j, size) + (f.size - i) + 1
    case Leave(_, via) => LeaveWork(via)
    case SetWait(l, _) => 2 * |c.loggers[l].apps| + 3
    case SetLoop(l, _, k) => 2 * (|c.loggers[l].apps| - k) + 2
    case SetHold(l, _, k) => 2 * (|c.loggers[l].apps| - k) + 1
    case AppWait(_, _) => 2
    case AppHold(_, _) => 1
  }

  function OpsWork(c: Config, ops: seq<Op>, size: nat): nat
    requires c.Valid() && forall k :: 0 <= k < |ops| ==> ValidOp(c, ops[k])
  {
    if ops == [] then 0
    else
      assert ValidOp(c, ops[0]);
      1 + PCWork(c, Start(ops[0]), size) + OpsWork(c, ops[1..], size)
  }

  /** A bound on the steps the thread still makes. */
  function Work(c: Config, th: Thread, size: nat): nat
    requires c.Valid() && ValidThread(c, th)
  {
    PCWork(c, th.pc, size) + OpsWork(c, th.todo, size)
  }

  /** A step uses up work and brings in no larger formatter. */
  ghost predicate WorkRule(c: Config, s: State, t: nat, e: Effect, size: nat)
    requires Safe(c, s) && t < |s.threads| && ValidEffect(c, e)
  {
    && Work(c, e.thread, size) < Work(c, s.threads[t], size)
    && ThreadSize(e.thread) <= size
    && (e.lg.Some? ==> e.lg.value.x.fmt.size <= size)
    && (e.ap.Some? ==> e.ap.value.x.fmt.size <= size)
  }

  lemma EnteringWork(c: Config, s: State, t: nat, size: nat)
    requires Safe(c, s) && Sized(s, size) && t < |s.threads| && s.threads[t].pc.LogWait?
    requires Next(c, s, t).Some? && ValidEffect(c, Next(c, s, t).value)
    ensures WorkRule(c, s, t, Next(c, s, t).value, size)
  {
    assert ValidThread(c, s.threads[t]);
  }

  lemma IdleWork(c: Config, s: State, t: nat, size: nat)
    requires Safe(c, s) && Sized(s, size) && t < |s.threads| && s.threads[t].pc.Idle?
    requires Next(c, s, t).Some? && ValidEffect(c, Next(c, s, t).value)
    ensures WorkRule(c, s, t, Next(c, s, t).value, size)
  {
    assert ValidThread(c, s.threads[t]) && ThreadSize(s.threads[t]) <= size;
  }

  lemma DeliveringWork(c: Config, s: State, t: nat, size: nat)
    requires Safe(c, s) && Sized(s, size) && t < |s.threads|
    requires s.threads[t].pc.Deliver? || s.threads[t].pc.Writing?
    requires Next(c, s, t).Some? && ValidEffect(c, Next(c, s, t).value)
    ensures WorkRule(c, s, t, Next(c, s, t).value, size)
  {
    assert ValidThread(c, s.threads[t]) && ThreadSize(s.threads[t]) <= size;
  }

  lemma PreparingWork(c: Config, s: State, t: nat, size: nat)
    requires Safe(c, s) && Sized(s, size) && t < |s.threads|
    requires JobOf(s.threads[t].pc).Some? && !s.threads[t].pc.Deliver? && !s.threads[t].pc.Writing?
    requires Next(c, s, t).Some? && ValidEffect(c, Next(c, s, t).value)
    ensures WorkRule(c, s, t, Next(c, s, t).value, size)
  {
    assert ValidThread(c, s.threads[t]) && ThreadSize(s.threads[t]) <= size;
  }

  lemma SettingWork(c: Config, s: State, t: nat, size: nat)
    requires Safe(c, s) && Sized(s, size) && t < |s.threads|
    requires JobOf(s.threads[t].pc).None? && !s.threads[t].pc.Idle? && !s.threads[t].pc.LogWait?
    requires Next(c, s, t).Some? && ValidEffect(c, Next(c, s, t).value)
    ensures WorkRule(c, s, t, Next(c, s, t).value, size)
  {
    assert ValidThread(c, s.threads[t]) && ThreadSize(s.threads[t]) <= size;
  }

  function AllWork(c: Config, threads: seq<Thread>, size: nat): nat
    requires c.Valid() && forall t :: 0 <= t < |threads| ==> ValidThread(c, threads[t])
  {
    if threads == [] then 0 else Work(c, threads[0], size) + AllWork(c, threads[1..], size)
  }

  lemma {:induction false} AllWorkUpdate(c: Config, threads: seq<Thread>, t: nat, th: Thread, size: nat)
    requires c.Valid() && forall u :: 0 <= u < |threads| ==> ValidThread(c, threads[u])
    requires t < |threads| && ValidThread(c, th)
    ensures AllWork(c, threads[t := th], size) + Work(c, threads[t], size)
         == AllWork(c, threads, size) + Work(c, th, size)
  {
    if t == 0 {
      assert threads[t := th][1..] == threads[1..];
    } else {
      AllWorkUpdate(c, threads[1..], t - 1, th, size);
      assert threads[t := th][1..] == threads[1..][t - 1 := th];
    }
  }

  /** Every step that is made uses up work. */
  lemma StepsUseWork(c: Config, s: State, t: nat, size: nat)
    requires Safe(c, s) && Sized(s, size) && Next(c, s, t).Some?
    requires t < |s.threads| && ValidEffect(c, Next(c, s, t).value) && Safe(c, After(c, s, t))
    ensures Sized(After(c, s, t), size)
    ensures AllWork(c, After(c, s, t).threads, size) < AllWork(c, s.threads, size)
  {
    if s.threads[t].pc.LogWait? {
      EnteringWork(c, s, t, size);
    } else if s.threads[t].pc.Idle? {
      IdleWork(c, s, t, size);
    } else if s.threads[t].pc.Deliver? || s.threads[t].pc.Writing? {
      DeliveringWork(c, s, t, size);
    } else if JobOf(s.threads[t].pc).Some? {
      PreparingWork(c, s, t, size);
    } else {
      SettingWork(c, s, t, size);
    }
    AllWorkUpdate(c, s.threads, t, Next(c, s, t).value.thread, size);
  }

  lemma {:induction false} RunSized(c: Config, s: State, schedule: seq<nat>, size: nat)
    requires Safe(c, s) && Sized(s, size)
    ensures Sized(Run(c, s, schedule), size)
  {
    if schedule != [] {
      var last := |schedule| - 1;
      RunSized(c, s, schedule[..last], size);
      var before := Run(c, s, schedule[..last]);
      AfterSafe(c, before, schedule[last]);
      if Next(c, before, schedule[last]).Some? {
        StepsUseWork(c, before, schedule[last], size);
      }
    }
  }

  /** From wherever a run has come to, it can go on until all threads are done. */
  lemma {:induction false} CanFinish(c: Config, s: State, schedule: seq<nat>, size: nat) returns (whole: seq<nat>)
    requires Safe(c, s) && Sized(s, size)
    ensures schedule <= whole && Finished(Run(c, s, whole))
    decreases AllWork(c, Run(c, s, schedule).threads, size)
  {
    var r := Run(c, s, schedule);
    whole := schedule;
    if !Finished(r) {
      RunSized(c, s, schedule, size);
      var t :| 0 <= t < |r.threads| && r.threads[t] != Thread(Idle, []);
      var u := DeliveryGoesOn(c, r, t);
      AfterSafe(c, r, u);
      StepsUseWork(c, r, u, size);
      assert (schedule + [u])[..|schedule|] == schedule;
      whole := CanFinish(c, s, schedule + [u], size);
    }
  }

  // -------------------------------------------------------------------- results

  /** Every run can be continued until all threads are done, and then each logger has accepted every
      event routed to it exactly as often as it was logged. */
  lemma EverythingArrives(c: Config, s: State, schedule: seq<nat>) returns (whole: seq<nat>)
    requires Initial(c, s)
    ensures schedule <= whole && Finished(Run(c, s, whole))
    ensures forall m, x :: 0 <= m < |s.loggers| ==>
              m < |Run(c, s, whole).loggers|
              && Count(Run(c, s, whole).loggers[m].accepted, x) == Pending(c, s.threads, m, x)
  {
    var size := SomeSize(s);
    whole := CanFinish(c, s, schedule, size);
    forall m, x | 0 <= m < |s.loggers|
      ensures m < |Run(c, s, whole).loggers|
              && Count(Run(c, s, whole).loggers[m].accepted, x) == Pending(c, s.threads, m, x)
    {
      NoEventLost(c, s, whole, m, x);
    }
  }

  lemma {:induction false} CountedIsIn(es: seq<Event>, x: Event)
    ensures Count(es, x) > 0 <==> x in es
  {
    if es != [] {
      CountedIsIn(es[..|es| - 1], x);
      assert es == es[..|es| - 1] + [es[|es| - 1]];
    }
  }

  /** The operation makes logger `m` accept `x`. */
  predicate Brings(c: Config, op: Op, m: nat, x: Event) {
    op.Log? && Sends(c, op.l, op.event, m, x) == 1
  }

  lemma {:induction false} PlannedIsBrought(c: Config, ops: seq<Op>, m: nat, x: Event)
    ensures InOps(c, ops, m, x) > 0 <==> exists k :: 0 <= k < |ops| && Brings(c, ops[k], m, x)
  {
    if ops != [] {
      PlannedIsBrought(c, ops[1..], m, x);
      assert forall k :: 0 < k < |ops| ==> ops[k] == ops[1..][k - 1];
    }
  }

  lemma {:induction false} PendingIsBrought(c: Config, threads: seq<Thread>, m: nat, x: Event)
    requires forall t :: 0 <= t < |threads| ==> threads[t].pc == Idle
    ensures Pending(c, threads, m, x) > 0
            <==> exists t, k :: 0 <= t < |threads| && 0 <= k < |threads[t].todo| && Brings(c, threads[t].todo[k], m, x)
  {
    if threads != [] {
      PlannedIsBrought(c, threads[0].todo, m, x);
      PendingIsBrought(c, threads[1..], m, x);
      assert forall t :: 0 < t < |threads| ==> threads[t] == threads[1..][t - 1];
    }
  }

  /** What brings an event to a logger: logging it there, if the level passes and there are
      appenders; or logging it through a logger without any, if the root's level passes too. */
  lemma BringsMeans(c: Config, op: Op, m: nat, x: Event)
    requires c.Valid() && ValidOp(c, op)
    ensures Brings(c, op, m, x)
            <==> && op.Log? && op.event == x && x.level >= c.loggers[op.l].level
                 && if c.loggers[op.l].apps != [] then m == op.l
                    else op.l != 0 && m == 0 && x.level >= c.loggers[0].level && c.loggers[0].apps != []
  {
  }

  /** When all threads are done, a logger has accepted exactly what some thread brought it. */
  lemma ArrivesIffBrought(c: Config, s: State, schedule: seq<nat>, m: nat, x: Event)
    requires Initial(c, s) && m < |s.loggers| && Finished(Run(c, s, schedule))
    ensures m < |c.loggers|
    ensures x in Run(c, s, schedule).loggers[m].accepted
            <==> exists t, k :: 0 <= t < |s.threads| && 0 <= k < |s.threads[t].todo|
                             && Brings(c, s.threads[t].todo[k], m, x)
  {
    NoEventLost(c, s, schedule, m, x);
    CountedIsIn(Run(c, s, schedule).loggers[m].accepted, x);
    PendingIsBrought(c, s.threads, m, x);
  }
}
