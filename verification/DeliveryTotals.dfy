/** No event is lost or delivered twice, and file appenders are not reopened too often, in every
    interleaving. */
module DeliveryTotals {
  import opened Wrappers
  import opened Delivery
  import opened DeliveryRecords
  import opened DeliveryOrder

  // ----------------------------------------------------------------- conservation

  /** The logger that accepts an event logged through `l`: itself, or the root for a logger
      without appenders, or none when a level or an empty root stops it. */
  function Route(c: Config, l: nat, e: Event): Option<nat> {
    if l >= |c.loggers| || e.level < c.loggers[l].level then None
    else if c.loggers[l].apps != [] then Some(l)
    else if l != 0 && e.level >= c.loggers[0].level && c.loggers[0].apps != [] then Some(0)
    else None
  }

  /** How often logging `e` through `l` makes logger `m` accept `x`: once or not at all. */
  function Sends(c: Config, l: nat, e: Event, m: nat, x: Event): nat {
    if e == x && Route(c, l, e) == Some(m) then 1 else 0
  }

  function InOps(c: Config, ops: seq<Op>, m: nat, x: Event): nat {
    if ops == [] then 0
    else InOps(c, ops[1..], m, x) + if ops[0].Log? then Sends(c, ops[0].l, ops[0].event, m, x) else 0
  }

  function InPC(c: Config, pc: PC, m: nat, x: Event): nat {
    if pc.LogWait? then Sends(c, pc.job.l, pc.job.event, m, x) else 0
  }

  /** How often the threads will still make logger `m` accept `x`. */
  function Pending(c: Config, threads: seq<Thread>, m: nat, x: Event): nat {
    if threads == [] then 0
    else InOps(c, threads[0].todo, m, x) + InPC(c, threads[0].pc, m, x) + Pending(c, threads[1..], m, x)
  }

  lemma {:induction false} PendingUpdate(c: Config, threads: seq<Thread>, t: nat, th: Thread, m: nat, x: Event)
    requires t < |threads|
    ensures Pending(c, threads[t := th], m, x) + InOps(c, threads[t].todo, m, x) + InPC(c, threads[t].pc, m, x)
         == Pending(c, threads, m, x) + InOps(c, th.todo, m, x) + InPC(c, th.pc, m, x)
  {
    if t == 0 {
      assert threads[t := th][1..] == threads[1..];
    } else {
      PendingUpdate(c, threads[1..], t - 1, th, m, x);
      assert threads[t := th][1..] == threads[1..][t - 1 := th];
    }
  }

  function Count(es: seq<Event>, x: Event): nat {
    if es == [] then 0 else Count(es[..|es| - 1], x) + if es[|es| - 1] == x then 1 else 0
  }

  /** Events move from a thread's plans to the accepted list, one for one. */
  ghost predicate TransferRule(c: Config, s: State, t: nat, e: Effect, m: nat, x: Event)
    requires Safe(c, s) && t < |s.threads| && ValidEffect(c, e) && m < |s.loggers|
  {
    var th := s.threads[t];
    Count(LoggerAfter(s, e, m).accepted, x) + InOps(c, e.thread.todo, m, x) + InPC(c, e.thread.pc, m, x)
      == Count(s.loggers[m].accepted, x) + InOps(c, th.todo, m, x) + InPC(c, th.pc, m, x)
  }

  lemma TransferWhenEntering(c: Config, s: State, t: nat, m: nat, x: Event)
    requires Safe(c, s) && t < |s.threads| && s.threads[t].pc.LogWait? && m < |s.loggers|
    requires Next(c, s, t).Some? && ValidEffect(c, Next(c, s, t).value)
    ensures TransferRule(c, s, t, Next(c, s, t).value, m, x)
  {
    assert ValidThread(c, s.threads[t]);
    var j := s.threads[t].pc.job;
    var es := s.loggers[j.l].accepted;
    assert (es + [j.event])[..|es|] == es;
  }

  lemma TransferWhenStarting(c: Config, s: State, t: nat, m: nat, x: Event)
    requires Safe(c, s) && t < |s.threads| && s.threads[t].pc.Idle? && m < |s.loggers|
    requires Next(c, s, t).Some? && ValidEffect(c, Next(c, s, t).value)
    ensures TransferRule(c, s, t, Next(c, s, t).value, m, x)
  {
    var op := s.threads[t].todo[0];
    assert InPC(c, Start(op), m, x) == if op.Log? then Sends(c, op.l, op.event, m, x) else 0;
  }

  lemma TransferElsewhere(c: Config, s: State, t: nat, m: nat, x: Event)
    requires Safe(c, s) && t < |s.threads| && m < |s.loggers|
    requires !s.threads[t].pc.LogWait? && !s.threads[t].pc.Idle?
    requires Next(c, s, t).Some? && ValidEffect(c, Next(c, s, t).value)
    ensures TransferRule(c, s, t, Next(c, s, t).value, m, x)
  {
    var e := Next(c, s, t).value;
    assert ValidThread(c, s.threads[t]);
    assert e.thread.todo == s.threads[t].todo && !e.thread.pc.LogWait?;
    assert LoggerAfter(s, e, m).accepted == s.loggers[m].accepted;
  }

  ghost function Ledger(c: Config, s: State, m: nat, x: Event): nat
    requires m < |s.loggers|
  {
    Count(s.loggers[m].accepted, x) + Pending(c, s.threads, m, x)
  }

  lemma AfterLedger(c: Config, s: State, t: nat, m: nat, x: Event)
    requires Safe(c, s) && m < |s.loggers|
    requires Next(c, s, t).Some? ==> t < |s.threads| && ValidEffect(c, Next(c, s, t).value)
    requires Safe(c, After(c, s, t))
    ensures Ledger(c, After(c, s, t), m, x) == Ledger(c, s, m, x)
  {
    if Next(c, s, t).Some? {
      var e := Next(c, s, t).value;
      if s.threads[t].pc.LogWait? {
        TransferWhenEntering(c, s, t, m, x);
      } else if s.threads[t].pc.Idle? {
        TransferWhenStarting(c, s, t, m, x);
      } else {
        TransferElsewhere(c, s, t, m, x);
      }
      PendingUpdate(c, s.threads, t, e.thread, m, x);
      assert Apply(s, t, e).loggers[m] == LoggerAfter(s, e, m);
    }
  }

  /** What is accepted plus what is still to come never changes. */
  lemma {:induction false} LedgerConserved(c: Config, s: State, schedule: seq<nat>, m: nat, x: Event)
    requires Safe(c, s) && m < |s.loggers|
    ensures Ledger(c, Run(c, s, schedule), m, x) == Ledger(c, s, m, x)
  {
    if schedule != [] {
      var last := |schedule| - 1;
      LedgerConserved(c, s, schedule[..last], m, x);
      AfterSafe(c, Run(c, s, schedule[..last]), schedule[last]);
      AfterLedger(c, Run(c, s, schedule[..last]), schedule[last], m, x);
    }
  }

  predicate Finished(s: State) {
    forall t :: 0 <= t < |s.threads| ==> s.threads[t] == Thread(Idle, [])
  }

  lemma {:induction false} NothingPending(c: Config, threads: seq<Thread>, m: nat, x: Event)
    requires forall t :: 0 <= t < |threads| ==> threads[t] == Thread(Idle, [])
    ensures Pending(c, threads, m, x) == 0
  {
    if threads != [] {
      NothingPending(c, threads[1..], m, x);
    }
  }

  lemma FinishedIsFree(c: Config, s: State)
    requires Safe(c, s) && Finished(s)
    ensures forall l :: 0 <= l < |s.loggers| ==> s.loggers[l].lock == None
    ensures forall a :: 0 <= a < |s.apps| ==> s.apps[a].lock == None
  {
  }

  // --------------------------------------------------------------------- progress

  /** The holder of an appender's lock is never waiting. */
  lemma AppenderHolderMoves(c: Config, s: State, a: nat) returns (u: nat)
    requires Safe(c, s) && a < |s.apps| && s.apps[a].lock.Some?
    ensures Next(c, s, u).Some?
  {
    u := s.apps[a].lock.value;
    assert HoldsAppender(c, s.threads[u].pc, a);
  }

  /** The holder of the root's lock moves, or waits for an appender whose holder moves. */
  lemma RootHolderMoves(c: Config, s: State) returns (u: nat)
    requires Safe(c, s) && s.loggers[0].lock.Some?
    ensures Next(c, s, u).Some?
  {
    u := s.loggers[0].lock.value;
    assert HoldsLogger(s.threads[u].pc, 0) && ValidThread(c, s.threads[u]);
    if Next(c, s, u).None? {
      u := AppenderHolderMoves(c, s, WaitsForAppender(c, s.threads[u].pc));
    }
  }

  function WaitsForAppender(c: Config, pc: PC): nat
    requires ValidPC(c, pc)
  {
    match pc
    case ReopenWait(j) => Target(c, j)
    case WriteWait(j) => Target(c, j)
    case SetLoop(l, _, k) => if k < |c.loggers[l].apps| then c.loggers[l].apps[k] else 0
    case AppWait(a, _) => a
    case _ => 0
  }

  lemma LoggerHolderMoves(c: Config, s: State, l: nat) returns (u: nat)
    requires Safe(c, s) && l < |s.loggers| && s.loggers[l].lock.Some?
    ensures Next(c, s, u).Some?
  {
    u := s.loggers[l].lock.value;
    assert HoldsLogger(s.threads[u].pc, l) && ValidThread(c, s.threads[u]);
    if Next(c, s, u).None? {
      if s.threads[u].pc.LogWait? {
        u := RootHolderMoves(c, s);
      } else {
        u := AppenderHolderMoves(c, s, WaitsForAppender(c, s.threads[u].pc));
      }
    }
  }

  /** As long as some thread is not done, some thread can move. */
  lemma DeliveryGoesOn(c: Config, s: State, t: nat) returns (u: nat)
    requires Safe(c, s) && t < |s.threads| && s.threads[t] != Thread(Idle, [])
    ensures Next(c, s, u).Some?
  {
    u := t;
    assert ValidThread(c, s.threads[t]);
    if Next(c, s, t).None? {
      var pc := s.threads[t].pc;
      if pc.LogWait? {
        u := LoggerHolderMoves(c, s, pc.job.l);
      } else if pc.SetWait? {
        u := LoggerHolderMoves(c, s, pc.l);
      } else {
        u := AppenderHolderMoves(c, s, WaitsForAppender(c, pc));
      }
    }
  }

  /** When all threads are done, each logger has accepted every event routed to it exactly as often
      as it was logged. */
  lemma NoEventLost(c: Config, s: State, schedule: seq<nat>, m: nat, x: Event)
    requires Initial(c, s) && m < |s.loggers| && Finished(Run(c, s, schedule))
    ensures m < |c.loggers| && Count(Run(c, s, schedule).loggers[m].accepted, x) == Pending(c, s.threads, m, x)
  {
    LedgerConserved(c, s, schedule, m, x);
    NothingPending(c, Run(c, s, schedule).threads, m, x);
  }

  /** And the stream of each unshared appender is whole records for the accepted events that pass
      its level, in the one order its logger accepted them. */
  lemma StreamsInOrder(c: Config, s: State, schedule: seq<nat>, l: nat, k: nat)
    requires Initial(c, s) && c.Unshared() && Position(c, l, k) && Finished(Run(c, s, schedule))
    ensures var r := Run(c, s, schedule);
            var a := App(c, l, k);
            && r.apps[a].stream == Flat(r.apps[a].recs)
            && Events(r.apps[a].recs) == Filter(c.apps[a].level, r.loggers[l].accepted)
  {
    FinishedIsFree(c, Run(c, s, schedule));
    FreeStreamIsWhole(c, s, schedule, App(c, l, k));
    FreeMeansDelivered(c, s, schedule, l, k);
  }

  // ------------------------------------------------------------------ reopening

  /** How the reopen count and the last reopen time stand while a thread is at `pc`. */
  predicate PaceAt(c: Config, pc: PC, l: nat, k: nat, ap: AppState)
    requires Position(c, l, k)
  {
    if JobOf(pc).Some? && JobOf(pc).value.l == l && JobOf(pc).value.k == k then
      var now := JobOf(pc).value.event.time;
      match pc
      case ReopenWait(_) => 3 * ap.reopens <= ap.last && ap.last + 3 <= now
      case Reopening(_) => 3 * ap.reopens <= ap.last && ap.last + 3 <= now
      case MarkTime(_) => 3 * ap.reopens <= ap.last + 3 && ap.last + 3 <= now
      case WriteWait(_) => 3 * ap.reopens <= ap.last && (c.apps[App(c, l, k)].isFile ==> now < ap.last + 3)
      case Writing(_, _, _) => 3 * ap.reopens <= ap.last && (c.apps[App(c, l, k)].isFile ==> now < ap.last + 3)
      case _ => 3 * ap.reopens <= ap.last
    else 3 * ap.reopens <= ap.last
  }

  ghost predicate Paced(c: Config, s: State, l: nat, k: nat)
    requires Safe(c, s) && Position(c, l, k)
  {
    var lock := s.loggers[l].lock;
    PaceAt(c, if lock.Some? then s.threads[lock.value].pc else Idle, l, k, s.apps[App(c, l, k)])
  }

  ghost predicate PaceRule(c: Config, s: State, t: nat, e: Effect, l: nat, k: nat)
    requires Safe(c, s) && t < |s.threads| && ValidEffect(c, e) && Position(c, l, k)
  {
    var ap, ap' := s.apps[App(c, l, k)], AppAfter(s, e, App(c, l, k));
    if HoldsLogger(s.threads[t].pc, l) || HoldsLogger(e.thread.pc, l) then
      PaceAt(c, s.threads[t].pc, l, k, ap) ==> PaceAt(c, e.thread.pc, l, k, ap') && ap.last <= ap'.last
    else ap'.last == ap.last && ap'.reopens == ap.reopens
  }

  lemma PaceOfChoosing(c: Config, s: State, t: nat, l: nat, k: nat)
    requires c.Unshared() && Safe(c, s) && t < |s.threads| && Position(c, l, k)
    requires s.threads[t].pc.Deliver? || s.threads[t].pc.Writing?
    requires Next(c, s, t).Some? && ValidEffect(c, Next(c, s, t).value)
    ensures PaceRule(c, s, t, Next(c, s, t).value, l, k)
  {
    assert ValidThread(c, s.threads[t]);
  }

  lemma PaceOfReopening(c: Config, s: State, t: nat, l: nat, k: nat)
    requires c.Unshared() && Safe(c, s) && t < |s.threads| && Position(c, l, k)
    requires s.threads[t].pc.ReopenWait? || s.threads[t].pc.Reopening?
    requires Next(c, s, t).Some? && ValidEffect(c, Next(c, s, t).value)
    ensures PaceRule(c, s, t, Next(c, s, t).value, l, k)
  {
    assert ValidThread(c, s.threads[t]);
  }

  lemma PaceOfWaiting(c: Config, s: State, t: nat, l: nat, k: nat)
    requires c.Unshared() && Safe(c, s) && t < |s.threads| && Position(c, l, k)
    requires s.threads[t].pc.MarkTime? || s.threads[t].pc.WriteWait?
    requires Next(c, s, t).Some? && ValidEffect(c, Next(c, s, t).value)
    ensures PaceRule(c, s, t, Next(c, s, t).value, l, k)
  {
    assert ValidThread(c, s.threads[t]);
  }

  lemma PaceElsewhere(c: Config, s: State, t: nat, l: nat, k: nat)
    requires Safe(c, s) && t < |s.threads| && JobOf(s.threads[t].pc).None? && Position(c, l, k)
    requires Next(c, s, t).Some? && ValidEffect(c, Next(c, s, t).value)
    ensures PaceRule(c, s, t, Next(c, s, t).value, l, k)
  {
  }

  lemma AfterPaced(c: Config, s: State, t: nat, l: nat, k: nat)
    requires c.Unshared() && Safe(c, s) && Position(c, l, k) && Paced(c, s, l, k)
    requires Next(c, s, t).Some? ==> t < |s.threads| && LockRule(c, s, t, Next(c, s, t).value)
    requires Safe(c, After(c, s, t))
    ensures Paced(c, After(c, s, t), l, k)
    ensures s.apps[App(c, l, k)].last <= After(c, s, t).apps[App(c, l, k)].last
  {
    if Next(c, s, t).Some? {
      var e := Next(c, s, t).value;
      if s.threads[t].pc.Deliver? || s.threads[t].pc.Writing? {
        PaceOfChoosing(c, s, t, l, k);
      } else if s.threads[t].pc.ReopenWait? || s.threads[t].pc.Reopening? {
        PaceOfReopening(c, s, t, l, k);
      } else if JobOf(s.threads[t].pc).Some? {
        PaceOfWaiting(c, s, t, l, k);
      } else {
        PaceElsewhere(c, s, t, l, k);
      }
      var s' := Apply(s, t, e);
      assert s'.apps[App(c, l, k)] == AppAfter(s, e, App(c, l, k));
      assert s.loggers[l].lock == Some(t) <==> HoldsLogger(s.threads[t].pc, l);
      assert s'.loggers[l].lock == Some(t) <==> HoldsLogger(e.thread.pc, l);
    }
  }

  /** Reopening is throttled in every interleaving: the last reopen time never goes back, k reopens
      need at least 3k time units, and no event is written to a file 3 or more after that time. */
  lemma {:induction false} ReopensAreThrottled(c: Config, s: State, schedule: seq<nat>, l: nat, k: nat)
    requires Initial(c, s) && c.Unshared() && Position(c, l, k)
    ensures Paced(c, Run(c, s, schedule), l, k)
    ensures schedule != [] ==>
              var before := Run(c, s, schedule[..|schedule| - 1]);
              before.apps[App(c, l, k)].last <= Run(c, s, schedule).apps[App(c, l, k)].last
  {
    if schedule != [] {
      var last := |schedule| - 1;
      ReopensAreThrottled(c, s, schedule[..last], l, k);
      AfterSafe(c, Run(c, s, schedule[..last]), schedule[last]);
      AfterPaced(c, Run(c, s, schedule[..last]), schedule[last], l, k);
    }
  }

  /** What one step does to an appender's last reopen time and count. */
  ghost predicate Marks(c: Config, s: State, t: nat, e: Effect, a: nat)
    requires Safe(c, s) && t < |s.threads| && ValidEffect(c, e) && a < |s.apps|
  {
    var pc, ap, ap' := s.threads[t].pc, s.apps[a], AppAfter(s, e, a);
    var here := JobOf(pc).Some? && ActiveJob(c, JobOf(pc).value) && Delivery.Target(c, JobOf(pc).value) == a;
    && ap'.last == (if pc.MarkTime? && here then pc.job.event.time else ap.last)
    && ap'.reopens == ap.reopens + if pc.Reopening? && here then 1 else 0
  }

  lemma JobsMark(c: Config, s: State, t: nat, a: nat)
    requires Safe(c, s) && t < |s.threads| && a < |s.apps| && JobOf(s.threads[t].pc).Some?
    requires Next(c, s, t).Some? && ValidEffect(c, Next(c, s, t).value)
    ensures Marks(c, s, t, Next(c, s, t).value, a)
  {
    assert ValidThread(c, s.threads[t]);
  }

  lemma OthersMark(c: Config, s: State, t: nat, a: nat)
    requires Safe(c, s) && t < |s.threads| && a < |s.apps| && JobOf(s.threads[t].pc).None?
    requires Next(c, s, t).Some? && ValidEffect(c, Next(c, s, t).value)
    ensures Marks(c, s, t, Next(c, s, t).value, a)
  {
    assert ValidThread(c, s.threads[t]);
  }

  /** The last reopen time is always that of an event, and the count goes up by one at a time. */
  lemma ReopeningMarks(c: Config, s: State, t: nat, a: nat)
    requires Safe(c, s) && a < |s.apps| && Next(c, s, t).Some?
    ensures t < |s.threads| && ValidEffect(c, Next(c, s, t).value)
    ensures var pc, ap, ap' := s.threads[t].pc, s.apps[a], After(c, s, t).apps[a];
            && (ap'.last != ap.last ==> pc.MarkTime? && ap'.last == pc.job.event.time)
            && (ap'.reopens != ap.reopens ==> pc.Reopening? && ap'.reopens == ap.reopens + 1)
  {
    AfterSafe(c, s, t);
    if JobOf(s.threads[t].pc).Some? {
      JobsMark(c, s, t, a);
    } else {
      OthersMark(c, s, t, a);
    }
  }

  /** The same in plain words: while the logger is free, k reopens took 3k time units; at any time one
      more may be under way; and a record on its way to a file is less than 3 after the last. */
  lemma ThrottleMeans(c: Config, s: State, schedule: seq<nat>, l: nat, k: nat)
    requires Initial(c, s) && c.Unshared() && Position(c, l, k)
    ensures var r := Run(c, s, schedule);
            var ap := r.apps[App(c, l, k)];
            && 3 * ap.reopens <= ap.last + 3
            && (r.loggers[l].lock == None ==> 3 * ap.reopens <= ap.last)
            && (forall t :: 0 <= t < |r.threads| && r.threads[t].pc.Writing? && r.threads[t].pc.job.l == l
                            && r.threads[t].pc.job.k == k && c.apps[App(c, l, k)].isFile ==>
                 r.threads[t].pc.job.event.time < ap.last + 3)
  {
    ReopensAreThrottled(c, s, schedule, l, k);
    var r := Run(c, s, schedule);
    forall t | 0 <= t < |r.threads| && r.threads[t].pc.Writing? && r.threads[t].pc.job.l == l
               && r.threads[t].pc.job.k == k && c.apps[App(c, l, k)].isFile
      ensures r.threads[t].pc.job.event.time < r.apps[App(c, l, k)].last + 3
    {
      assert HoldsLogger(r.threads[t].pc, l);
    }
  }
}
