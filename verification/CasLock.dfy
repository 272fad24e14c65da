/** CASLock and the scoped guard: exactly when guards exclude each other, and no increment is lost.

    Each thread runs guarded sections. Inside one it may increment the shared counter, as a load
    and a store, and call unlock and lock on its guard. The destructor unlocks unconditionally. */
module CasLock {
  import opened Wrappers

  datatype GuardOp = Increment | GuardUnlock | GuardLock

  /** `locked` is the guard's m_locked. */
  datatype PC =
    | Outside
    | Constructing(ops: seq<GuardOp>)
    | Inside(locked: bool, ops: seq<GuardOp>)
    | Loaded(v: int, locked: bool, ops: seq<GuardOp>)
    | Relocking(ops: seq<GuardOp>)

  datatype Thread = Thread(pc: PC, sections: seq<seq<GuardOp>>)

  datatype State = State(flag: bool, count: int, threads: seq<Thread>)

  /** What a step leaves in the shared flag and counter and in the thread. */
  datatype Effect = Effect(flag: bool, count: int, thread: Thread)

  /** What a thread does next, or None when it is done or its test-and-set would find the flag set. */
  function Next(flag: bool, count: int, th: Thread): Option<Effect> {
    match th.pc
    case Outside =>
      if th.sections == [] then None
      else Some(Effect(flag, count, Thread(Constructing(th.sections[0]), th.sections[1..])))
    case Constructing(ops) => if flag then None else Some(Effect(true, count, th.(pc := Inside(true, ops))))
    case Inside(locked, ops) =>
      if ops == [] then Some(Effect(false, count, th.(pc := Outside)))
      else
        (match ops[0]
         case Increment => Some(Effect(flag, count, th.(pc := Loaded(count, locked, ops[1..]))))
         case GuardUnlock =>
           Some(Effect(if locked then false else flag, count, th.(pc := Inside(false, ops[1..]))))
         case GuardLock =>
           Some(Effect(flag, count, th.(pc := if locked then Inside(true, ops[1..]) else Relocking(ops[1..])))))
    case Loaded(v, locked, ops) => Some(Effect(flag, v + 1, th.(pc := Inside(locked, ops))))
    case Relocking(ops) => if flag then None else Some(Effect(true, count, th.(pc := Inside(true, ops))))
  }

  function After(s: State, t: nat): State {
    if t < |s.threads| && Next(s.flag, s.count, s.threads[t]).Some? then
      var e := Next(s.flag, s.count, s.threads[t]).value;
      State(e.flag, e.count, s.threads[t := e.thread])
    else s
  }

  function Run(s: State, schedule: seq<nat>): State {
    if schedule == [] then s
    else After(Run(s, schedule[..|schedule| - 1]), schedule[|schedule| - 1])
  }

  // ------------------------------------------------------------------- use of guards

  /** Whether the guard is locked after `ops`. */
  predicate EndsLocked(locked: bool, ops: seq<GuardOp>)
    decreases |ops|
  {
    if ops == [] then locked
    else
      match ops[0]
      case Increment => EndsLocked(locked, ops[1..])
      case GuardUnlock => EndsLocked(false, ops[1..])
      case GuardLock => EndsLocked(true, ops[1..])
  }

  /** The guard is locked at every increment. */
  predicate Guarded(locked: bool, ops: seq<GuardOp>)
    decreases |ops|
  {
    if ops == [] then true
    else
      match ops[0]
      case Increment => locked && Guarded(locked, ops[1..])
      case GuardUnlock => Guarded(false, ops[1..])
      case GuardLock => Guarded(true, ops[1..])
  }

  /** Every guard the thread destroys from here on is locked then. */
  predicate ThreadEndsLocked(th: Thread) {
    && (forall k :: 0 <= k < |th.sections| ==> EndsLocked(true, th.sections[k]))
    && match th.pc
       case Outside => true
       case Constructing(ops) => EndsLocked(true, ops)
       case Inside(locked, ops) => EndsLocked(locked, ops)
       case Loaded(_, locked, ops) => EndsLocked(locked, ops)
       case Relocking(ops) => EndsLocked(true, ops)
  }

  predicate ThreadGuarded(th: Thread) {
    && (forall k :: 0 <= k < |th.sections| ==> Guarded(true, th.sections[k]))
    && match th.pc
       case Outside => true
       case Constructing(ops) => Guarded(true, ops)
       case Inside(locked, ops) => Guarded(locked, ops)
       case Loaded(_, locked, ops) => locked && Guarded(locked, ops)
       case Relocking(ops) => Guarded(true, ops)
  }

  predicate Owns(pc: PC) {
    (pc.Inside? && pc.locked) || (pc.Loaded? && pc.locked)
  }

  /** The flag is set exactly when a guard holds the lock, and then one guard does. */
  ghost predicate Exclusive(s: State) {
    && (s.flag <==> exists t :: 0 <= t < |s.threads| && Owns(s.threads[t].pc))
    && (forall t, u | 0 <= t < |s.threads| && 0 <= u < |s.threads| && Owns(s.threads[t].pc) && Owns(s.threads[u].pc)
          :: t == u)
  }

  // -------------------------------------------------------------------- exclusion

  ghost predicate Held(s: State) {
    Exclusive(s) && forall t :: 0 <= t < |s.threads| ==> ThreadEndsLocked(s.threads[t])
  }

  /** The moving thread touches the flag only to take a free lock or give back its own. */
  lemma NextRule(flag: bool, count: int, th: Thread)
    requires ThreadEndsLocked(th) && (Owns(th.pc) ==> flag) && Next(flag, count, th).Some?
    ensures var e := Next(flag, count, th).value;
            && ThreadEndsLocked(e.thread)
            && (e.flag <==> if Owns(th.pc) || !flag then Owns(e.thread.pc) else true)
            && (flag && !Owns(th.pc) ==> !Owns(e.thread.pc))
  {
  }

  lemma AfterHeld(s: State, t: nat)
    requires Held(s)
    ensures Held(After(s, t))
  {
    if t < |s.threads| && Next(s.flag, s.count, s.threads[t]).Some? {
      var th := s.threads[t];
      assert Owns(th.pc) ==> s.flag;
      NextRule(s.flag, s.count, th);
      var e := Next(s.flag, s.count, th).value;
      var s' := After(s, t);
      assert forall u :: 0 <= u < |s.threads| && u != t ==> s'.threads[u] == s.threads[u];
      assert s'.threads[t] == e.thread;
      if s'.flag {
        var u :| 0 <= u < |s.threads| && if Owns(e.thread.pc) then u == t else Owns(s.threads[u].pc);
        assert Owns(s'.threads[u].pc);
      }
    }
  }

  lemma {:induction false} RunHeld(s: State, schedule: seq<nat>)
    requires Held(s)
    ensures Held(Run(s, schedule))
  {
    if schedule != [] {
      RunHeld(s, schedule[..|schedule| - 1]);
      AfterHeld(Run(s, schedule[..|schedule| - 1]), schedule[|schedule| - 1]);
    }
  }

  /** Nobody is inside a section and the lock is free. */
  predicate Initial(s: State) {
    !s.flag && forall t :: 0 <= t < |s.threads| ==> s.threads[t].pc == Outside
  }

  /** Every guard of every thread is locked when it is destroyed. */
  predicate AllEndLocked(s: State) {
    forall t :: 0 <= t < |s.threads| ==> ThreadEndsLocked(s.threads[t])
  }

  /** In every interleaving at most one guard holds the lock, and exactly when the flag is set,
      if all guards are locked when destroyed; increments need not be guarded for that. */
  lemma MutualExclusion(s: State, schedule: seq<nat>)
    requires Initial(s) && AllEndLocked(s)
    ensures Exclusive(Run(s, schedule))
  {
    RunHeld(s, schedule);
  }

  // ------------------------------------------------------- one thread on its own

  /** Threads other than `t` have nothing to do, and the flag is that of `t`'s guard. */
  ghost predicate Alone(s: State, t: nat) {
    && t < |s.threads| && (s.flag <==> Owns(s.threads[t].pc))
    && forall u :: 0 <= u < |s.threads| && u != t ==> s.threads[u] == Thread(Outside, [])
  }

  lemma {:induction false} RunAlone(s: State, t: nat, schedule: seq<nat>)
    requires Alone(s, t)
    ensures Alone(Run(s, schedule), t)
  {
    if schedule != [] {
      RunAlone(s, t, schedule[..|schedule| - 1]);
    }
  }

  lemma {:induction false} RunAppend(s: State, a: seq<nat>, b: seq<nat>)
    ensures Run(s, a + b) == Run(Run(s, a), b)
  {
    if b == [] {
      assert a + b == a;
    } else {
      RunAppend(s, a, b[..|b| - 1]);
      assert (a + b)[..|a + b| - 1] == a + b[..|b| - 1];
    }
  }

  lemma RunOne(s: State, t: nat)
    ensures Run(s, [t]) == After(s, t)
  {
    assert Run(s, [t][..0]) == s;
  }

  /** A thread whose guard agrees with the flag runs through the rest of its section. */
  lemma {:induction false} RunOps(s: State, t: nat) returns (schedule: seq<nat>)
    requires t < |s.threads| && s.threads[t].pc.Inside? && s.flag == s.threads[t].pc.locked
    ensures var pc := s.threads[t].pc;
            var end := EndsLocked(pc.locked, pc.ops);
            && Run(s, schedule).flag == end
            && Run(s, schedule).threads == s.threads[t := s.threads[t].(pc := Inside(end, []))]
    decreases |s.threads[t].pc.ops|
  {
    schedule := [];
    if s.threads[t].pc.ops != [] {
      var s1 := After(s, t);
      RunOne(s, t);
      schedule := [t];
      if !s1.threads[t].pc.Inside? {
        RunOne(s1, t);
        RunAppend(s, [t], [t]);
        s1 := After(s1, t);
        schedule := [t] + [t];
      }
      var rest := RunOps(s1, t);
      RunAppend(s, schedule, rest);
      schedule := schedule + rest;
    } else {
      assert s.threads == s.threads[t := s.threads[t]];
    }
  }

  /** From outside, with the lock free, up to the destruction of the guard of the next section. */
  lemma RunSection(s: State, t: nat) returns (schedule: seq<nat>)
    requires !s.flag && t < |s.threads| && s.threads[t].pc == Outside && s.threads[t].sections != []
    ensures var sections := s.threads[t].sections;
            var end := EndsLocked(true, sections[0]);
            && Run(s, schedule).flag == end
            && Run(s, schedule).threads == s.threads[t := Thread(Inside(end, []), sections[1..])]
  {
    var s1 := After(s, t);
    var s2 := After(s1, t);
    RunOne(s, t);
    RunOne(s1, t);
    RunAppend(s, [t], [t]);
    var rest := RunOps(s2, t);
    RunAppend(s, [t] + [t], rest);
    schedule := [t] + [t] + rest;
  }

  /** Up to the destruction of the guard of section `k`, if that guard ends unlocked. */
  lemma {:induction false} RunToSection(s: State, t: nat, k: nat) returns (schedule: seq<nat>)
    requires !s.flag && t < |s.threads| && s.threads[t].pc == Outside && k < |s.threads[t].sections|
    requires !EndsLocked(true, s.threads[t].sections[k])
    ensures !Run(s, schedule).flag
    ensures Run(s, schedule).threads
         == s.threads[t := Thread(Inside(false, []), s.threads[t].sections[k + 1..])]
    decreases k
  {
    schedule := RunSection(s, t);
    if k > 0 {
      var s1 := Run(s, schedule);
      var s2 := After(s1, t);
      RunOne(s1, t);
      RunAppend(s, schedule, [t]);
      var rest := RunToSection(s2, t, k - 1);
      RunAppend(s, schedule + [t], rest);
      schedule := schedule + [t] + rest;
    }
  }

  /** Destroying a guard keeps exclusion exactly when the guard holds the lock or the lock is free:
      a guard that was unlocked before would otherwise open another thread's lock. */
  lemma DestructorNeedsLock(s: State, t: nat)
    requires Exclusive(s) && t < |s.threads| && s.threads[t].pc.Inside? && s.threads[t].pc.ops == []
    ensures Exclusive(After(s, t)) <==> s.threads[t].pc.locked || !s.flag
  {
    var s' := After(s, t);
    assert forall u :: 0 <= u < |s.threads| && u != t ==> s'.threads[u] == s.threads[u];
    assert !Owns(s'.threads[t].pc);
    if s.flag {
      var u :| 0 <= u < |s.threads| && Owns(s.threads[u].pc);
      assert u != t ==> Owns(s'.threads[u].pc);
    }
  }

  /** A section that ends unlocked and any other thread with a section are enough to break
      exclusion: the first runs up to its destructor, the other enters, the destructor unlocks. */
  lemma BreakingRun(s: State, t: nat, k: nat, u: nat) returns (schedule: seq<nat>)
    requires Initial(s) && t < |s.threads| && u < |s.threads| && t != u
    requires k < |s.threads[t].sections| && !EndsLocked(true, s.threads[t].sections[k])
    requires s.threads[u].sections != []
    ensures !Exclusive(Run(s, schedule))
  {
    schedule := RunToSection(s, t, k);
    var s1 := Run(s, schedule);
    var s2 := After(s1, u);
    var s3 := After(s2, u);
    RunOne(s1, u);
    RunAppend(s, schedule, [u]);
    RunOne(s2, u);
    RunAppend(s, schedule + [u], [u]);
    RunOne(s3, t);
    RunAppend(s, schedule + [u] + [u], [t]);
    schedule := schedule + [u] + [u] + [t];
    assert Owns(s3.threads[u].pc) && s3.flag;
    assert s3.threads[t] == s1.threads[t];
    DestructorNeedsLock(s3, t);
  }

  /** The smallest case: one thread unlocks its guard and destroys it, another is inside. */
  lemma UnlockedGuardBreaks() returns (s: State, schedule: seq<nat>)
    ensures s == State(false, 0, [Thread(Outside, [[GuardUnlock]]), Thread(Outside, [[Increment]])])
    ensures Initial(s) && !Exclusive(Run(s, schedule))
  {
    s := State(false, 0, [Thread(Outside, [[GuardUnlock]]), Thread(Outside, [[Increment]])]);
    assert !EndsLocked(false, [GuardUnlock][1..]);
    schedule := BreakingRun(s, 0, 0, 1);
  }

  predicate AtMostOneBusy(s: State) {
    forall t, u | 0 <= t < |s.threads| && 0 <= u < |s.threads| && s.threads[t].sections != []
                  && s.threads[u].sections != [] :: t == u
  }

  /** Exactly when guards exclude each other in every interleaving: every guard is locked when it is
      destroyed, or there is nobody to exclude. */
  lemma ExclusionIff(s: State)
    requires Initial(s)
    ensures (forall schedule :: Exclusive(Run(s, schedule))) <==> AllEndLocked(s) || AtMostOneBusy(s)
  {
    if AllEndLocked(s) {
      forall schedule ensures Exclusive(Run(s, schedule)) {
        MutualExclusion(s, schedule);
      }
    } else {
      var t, k :| 0 <= t < |s.threads| && 0 <= k < |s.threads[t].sections|
                  && !EndsLocked(true, s.threads[t].sections[k]);
      if AtMostOneBusy(s) {
        forall schedule ensures Exclusive(Run(s, schedule)) {
          RunAlone(s, t, schedule);
        }
      } else {
        var u :| 0 <= u < |s.threads| && u != t && s.threads[u].sections != [];
        var schedule := BreakingRun(s, t, k, u);
      }
    }
  }

  // ---------------------------------------------------------------- counting

  function Increments(ops: seq<GuardOp>): nat {
    if ops == [] then 0 else Increments(ops[1..]) + if ops[0] == Increment then 1 else 0
  }

  function InSections(sections: seq<seq<GuardOp>>): nat {
    if sections == [] then 0 else Increments(sections[0]) + InSections(sections[1..])
  }

  /** Nobody has stored since a thread loaded. */
  ghost predicate LoadsCurrent(s: State) {
    forall t :: 0 <= t < |s.threads| && s.threads[t].pc.Loaded? ==> s.threads[t].pc.v == s.count
  }

  ghost predicate Inv(s: State) {
    Held(s) && LoadsCurrent(s) && forall t :: 0 <= t < |s.threads| ==> ThreadGuarded(s.threads[t])
  }

  /** The counter changes only under the lock. */
  lemma NextGuarded(flag: bool, count: int, th: Thread)
    requires ThreadGuarded(th) && (th.pc.Loaded? ==> th.pc.v == count) && Next(flag, count, th).Some?
    ensures var e := Next(flag, count, th).value;
            && ThreadGuarded(e.thread) && (e.count != count ==> Owns(th.pc))
            && (e.thread.pc.Loaded? ==> e.thread.pc.v == e.count)
  {
  }

  lemma AfterInv(s: State, t: nat)
    requires Inv(s)
    ensures Inv(After(s, t))
  {
    AfterHeld(s, t);
    if t < |s.threads| && Next(s.flag, s.count, s.threads[t]).Some? {
      NextGuarded(s.flag, s.count, s.threads[t]);
      var s' := After(s, t);
      forall u | 0 <= u < |s.threads| && s'.threads[u].pc.Loaded? ensures s'.threads[u].pc.v == s'.count {
        assert u != t ==> ThreadGuarded(s.threads[u]);
      }
    }
  }

  /** Stores the thread has still to make. */
  function Due(th: Thread): nat {
    InSections(th.sections)
    + match th.pc
      case Outside => 0
      case Constructing(ops) => Increments(ops)
      case Inside(_, ops) => Increments(ops)
      case Loaded(_, _, ops) => Increments(ops) + 1
      case Relocking(ops) => Increments(ops)
  }

  function AllDue(threads: seq<Thread>): nat {
    if threads == [] then 0 else Due(threads[0]) + AllDue(threads[1..])
  }

  lemma {:induction false} AllDueUpdate(threads: seq<Thread>, t: nat, th: Thread)
    requires t < |threads|
    ensures AllDue(threads[t := th]) + Due(threads[t]) == AllDue(threads) + Due(th)
  {
    if t == 0 {
      assert threads[t := th][1..] == threads[1..];
    } else {
      AllDueUpdate(threads[1..], t - 1, th);
      assert threads[t := th][1..] == threads[1..][t - 1 := th];
    }
  }

  lemma NextCounts(flag: bool, count: int, th: Thread)
    requires th.pc.Loaded? ==> th.pc.v == count
    requires Next(flag, count, th).Some?
    ensures var e := Next(flag, count, th).value; e.count + Due(e.thread) == count + Due(th)
  {
  }

  lemma {:induction false} RunCounts(s: State, schedule: seq<nat>)
    requires Inv(s)
    ensures Inv(Run(s, schedule))
    ensures Run(s, schedule).count + AllDue(Run(s, schedule).threads) == s.count + AllDue(s.threads)
  {
    if schedule != [] {
      var before, t := Run(s, schedule[..|schedule| - 1]), schedule[|schedule| - 1];
      RunCounts(s, schedule[..|schedule| - 1]);
      AfterInv(before, t);
      if t < |before.threads| && Next(before.flag, before.count, before.threads[t]).Some? {
        NextCounts(before.flag, before.count, before.threads[t]);
        AllDueUpdate(before.threads, t, Next(before.flag, before.count, before.threads[t]).value.thread);
      }
    }
  }

  // ---------------------------------------------------------------- results

  predicate Finished(s: State) {
    forall t :: 0 <= t < |s.threads| ==> s.threads[t] == Thread(Outside, [])
  }

  /** All guards are locked at every increment and when destroyed. */
  predicate WellUsed(s: State) {
    AllEndLocked(s) && forall t :: 0 <= t < |s.threads| ==> ThreadGuarded(s.threads[t])
  }

  lemma {:induction false} NothingDue(threads: seq<Thread>)
    requires forall t :: 0 <= t < |threads| ==> threads[t] == Thread(Outside, [])
    ensures AllDue(threads) == 0
  {
    if threads != [] {
      NothingDue(threads[1..]);
    }
  }

  /** When all threads are done the counter has every increment. */
  lemma NoLostUpdate(s: State, schedule: seq<nat>)
    requires Initial(s) && WellUsed(s) && Finished(Run(s, schedule))
    ensures Run(s, schedule).count == s.count + AllDue(s.threads)
  {
    RunCounts(s, schedule);
    NothingDue(Run(s, schedule).threads);
  }

  lemma {:induction false} SectionsOfOne(sections: seq<seq<GuardOp>>)
    requires forall k :: 0 <= k < |sections| ==> sections[k] == [Increment]
    ensures InSections(sections) == |sections|
  {
    if sections != [] {
      SectionsOfOne(sections[1..]);
      assert Increments(sections[0][1..]) == 0;
    }
  }

  lemma {:induction false} UniformDue(threads: seq<Thread>, m: nat)
    requires forall t :: 0 <= t < |threads| ==> threads[t].pc == Outside && |threads[t].sections| == m
    requires forall t, k :: 0 <= t < |threads| && 0 <= k < m ==> threads[t].sections[k] == [Increment]
    ensures AllDue(threads) == |threads| * m
  {
    if threads != [] {
      SectionsOfOne(threads[0].sections);
      UniformDue(threads[1..], m);
    }
  }

  // ----------------------------------------------------------------- runs end

  /** While a thread is not done, some thread can move: the lock's owner never waits. */
  lemma SomebodyMoves(s: State, t: nat) returns (u: nat)
    requires Exclusive(s) && t < |s.threads| && s.threads[t] != Thread(Outside, [])
    ensures u < |s.threads| && Next(s.flag, s.count, s.threads[u]).Some?
  {
    u := t;
    if s.flag {
      u :| 0 <= u < |s.threads| && Owns(s.threads[u].pc);
    }
  }

  function OpsWork(ops: seq<GuardOp>): nat {
    if ops == [] then 0 else OpsWork(ops[1..]) + if ops[0] == GuardUnlock then 1 else 2
  }

  function SectionsWork(sections: seq<seq<GuardOp>>): nat {
    if sections == [] then 0 else 3 + OpsWork(sections[0]) + SectionsWork(sections[1..])
  }

  /** A bound on the steps the thread still makes. */
  function Work(th: Thread): nat {
    SectionsWork(th.sections)
    + match th.pc
      case Outside => 0
      case Constructing(ops) => OpsWork(ops) + 2
      case Inside(_, ops) => OpsWork(ops) + 1
      case Loaded(_, _, ops) => OpsWork(ops) + 2
      case Relocking(ops) => OpsWork(ops) + 2
  }

  function AllWork(threads: seq<Thread>): nat {
    if threads == [] then 0 else Work(threads[0]) + AllWork(threads[1..])
  }

  lemma {:induction false} AllWorkUpdate(threads: seq<Thread>, t: nat, th: Thread)
    requires t < |threads|
    ensures AllWork(threads[t := th]) + Work(threads[t]) == AllWork(threads) + Work(th)
  {
    if t == 0 {
      assert threads[t := th][1..] == threads[1..];
    } else {
      AllWorkUpdate(threads[1..], t - 1, th);
      assert threads[t := th][1..] == threads[1..][t - 1 := th];
    }
  }

  /** Every step that is made uses up work. */
  lemma StepsUseWork(s: State, t: nat)
    requires t < |s.threads| && Next(s.flag, s.count, s.threads[t]).Some?
    ensures AllWork(After(s, t).threads) < AllWork(s.threads)
  {
    var e := Next(s.flag, s.count, s.threads[t]).value;
    assert Work(e.thread) < Work(s.threads[t]);
    AllWorkUpdate(s.threads, t, e.thread);
  }

  /** From wherever a run has come to, it can go on until all threads are done. */
  lemma {:induction false} CanFinish(s: State, schedule: seq<nat>) returns (whole: seq<nat>)
    requires Held(s)
    ensures schedule <= whole && Finished(Run(s, whole))
    decreases AllWork(Run(s, schedule).threads)
  {
    var r := Run(s, schedule);
    whole := schedule;
    if !Finished(r) {
      RunHeld(s, schedule);
      var t :| 0 <= t < |r.threads| && r.threads[t] != Thread(Outside, []);
      var u := SomebodyMoves(r, t);
      StepsUseWork(r, u);
      assert (schedule + [u])[..|schedule|] == schedule;
      whole := CanFinish(s, schedule + [u]);
    }
  }

  /** N threads that each do M guarded increments of a counter at 0 leave it at N * M when they are
      done, and every run can be continued to that point. */
  lemma CountIsProduct(s: State, schedule: seq<nat>, m: nat) returns (whole: seq<nat>)
    requires Initial(s) && s.count == 0
    requires forall t :: 0 <= t < |s.threads| ==> |s.threads[t].sections| == m
    requires forall t, k :: 0 <= t < |s.threads| && 0 <= k < m ==> s.threads[t].sections[k] == [Increment]
    ensures Finished(Run(s, schedule)) ==> Run(s, schedule).count == |s.threads| * m
    ensures schedule <= whole && Finished(Run(s, whole)) && Run(s, whole).count == |s.threads| * m
  {
    OneIncrementIsWellUsed();
    whole := CanFinish(s, schedule);
    UniformDue(s.threads, m);
    NoLostUpdate(s, whole);
    if Finished(Run(s, schedule)) {
      NoLostUpdate(s, schedule);
    }
  }

  lemma OneIncrementIsWellUsed()
    ensures EndsLocked(true, [Increment]) && Guarded(true, [Increment])
  {
    assert [Increment][1..] == [];
  }
}
