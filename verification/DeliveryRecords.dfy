/** Whole-record atomicity of appender streams, in every interleaving. */
module DeliveryRecords {
  import opened Wrappers
  import opened Delivery

  /** The first `i` items of a record. */
  function Part(e: Event, f: Formatter, i: nat): (r: seq<Chunk>)
    ensures |r| == i && forall k :: 0 <= k < i ==> r[k] == Chunk(e, f, k)
  {
    seq(i, k requires 0 <= k < i => Chunk(e, f, k))
  }

  function Flat(recs: seq<Record>): seq<Chunk> {
    if recs == [] then []
    else
      var r := recs[|recs| - 1];
      Flat(recs[..|recs| - 1]) + Part(r.event, r.formatter, r.formatter.size)
  }

  /** What a thread at `pc` has written of an unfinished record of appender `a`. */
  function Unfinished(c: Config, pc: PC, a: nat): seq<Chunk>
    requires ValidPC(c, pc)
  {
    if pc.Writing? && Target(c, pc.job) == a then Part(pc.job.event, pc.f, pc.i) else []
  }

  /** The stream is a run of complete records, then at most one partial record, which belongs to
      the thread that holds the lock. */
  ghost predicate WholeRecords(c: Config, s: State, a: nat)
    requires Safe(c, s) && a < |s.apps|
  {
    var ap := s.apps[a];
    ap.stream == Flat(ap.recs) + if ap.lock.Some? then Unfinished(c, s.threads[ap.lock.value].pc, a) else []
  }

  /** Whoever writes does so with the formatter the appender has now. */
  ghost predicate FormatterStable(c: Config, s: State)
    requires Safe(c, s)
  {
    forall t :: 0 <= t < |s.threads| && s.threads[t].pc.Writing? ==>
      s.threads[t].pc.f == s.apps[Target(c, s.threads[t].pc.job)].fmt
  }

  ghost predicate Atomic(c: Config, s: State)
    requires Safe(c, s)
  {
    FormatterStable(c, s) && forall a :: 0 <= a < |s.apps| ==> WholeRecords(c, s, a)
  }

  /** Only the holder of the lock changes what was written, and it keeps the shape. */
  ghost predicate WriteShape(c: Config, s: State, t: nat, e: Effect, a: nat)
    requires Safe(c, s) && t < |s.threads| && ValidEffect(c, e) && a < |s.apps|
  {
    var ap, x, pc, pc' := s.apps[a], AppAfter(s, e, a), s.threads[t].pc, e.thread.pc;
    || (x.stream == ap.stream && x.recs == ap.recs && Unfinished(c, pc', a) == Unfinished(c, pc, a))
    || (&& ap.lock == Some(t)
        && (ap.stream == Flat(ap.recs) + Unfinished(c, pc, a) ==>
              x.stream == Flat(x.recs) + Unfinished(c, pc', a)))
  }

  ghost predicate FormatterRule(c: Config, s: State, t: nat, e: Effect)
    requires Safe(c, s) && t < |s.threads| && ValidEffect(c, e)
  {
    && (e.ap.Some? && e.ap.value.x.fmt != s.apps[e.ap.value.a].fmt ==> s.apps[e.ap.value.a].lock == Some(t))
    && (e.thread.pc.Writing? ==>
         var j := e.thread.pc.job;
         e.thread.pc.f == AppAfter(s, e, Target(c, j)).fmt
         || (s.threads[t].pc.Writing? && s.threads[t].pc.f == e.thread.pc.f
           && s.threads[t].pc.job == j && AppAfter(s, e, Target(c, j)).fmt == s.apps[Target(c, j)].fmt))
  }

  lemma WritingShape(c: Config, s: State, t: nat, a: nat)
    requires Safe(c, s) && t < |s.threads| && s.threads[t].pc.Writing? && a < |s.apps|
    requires ValidEffect(c, Next(c, s, t).value)
    ensures WriteShape(c, s, t, Next(c, s, t).value, a)
  {
  }

  lemma QuietShape(c: Config, s: State, t: nat, a: nat)
    requires Safe(c, s) && t < |s.threads| && !s.threads[t].pc.Writing? && a < |s.apps|
    requires Next(c, s, t).Some? && ValidEffect(c, Next(c, s, t).value)
    ensures WriteShape(c, s, t, Next(c, s, t).value, a)
  {
  }

  lemma NextFormatter(c: Config, s: State, t: nat)
    requires Safe(c, s) && t < |s.threads|
    requires Next(c, s, t).Some? && ValidEffect(c, Next(c, s, t).value)
    ensures FormatterRule(c, s, t, Next(c, s, t).value)
  {
    assert ValidThread(c, s.threads[t]);
  }

  lemma ApplyKeepsWhole(c: Config, s: State, t: nat, e: Effect, a: nat)
    requires Safe(c, s) && t < |s.threads| && a < |s.apps| && LockRule(c, s, t, e)
    requires WholeRecords(c, s, a) && WriteShape(c, s, t, e, a)
    requires Safe(c, Apply(s, t, e))
    ensures WholeRecords(c, Apply(s, t, e), a)
  {
    var ap, x := s.apps[a], AppAfter(s, e, a);
    assert Apply(s, t, e).apps[a] == x;
    assert ap.lock == Some(t) <==> HoldsAppender(c, s.threads[t].pc, a);
    assert x.lock == Some(t) <==> HoldsAppender(c, e.thread.pc, a);
    assert Flat(x.recs) + [] == Flat(x.recs);
  }

  lemma ApplyKeepsAtomic(c: Config, s: State, t: nat, e: Effect)
    requires Safe(c, s) && Atomic(c, s) && t < |s.threads| && LockRule(c, s, t, e) && FormatterRule(c, s, t, e)
    requires forall a :: 0 <= a < |s.apps| ==> WriteShape(c, s, t, e, a)
    requires Safe(c, Apply(s, t, e))
    ensures Atomic(c, Apply(s, t, e))
  {
    forall a | 0 <= a < |s.apps| ensures WholeRecords(c, Apply(s, t, e), a) {
      ApplyKeepsWhole(c, s, t, e, a);
    }
  }

  lemma AfterAtomic(c: Config, s: State, t: nat)
    requires Safe(c, s) && Atomic(c, s)
    requires Next(c, s, t).Some? ==> t < |s.threads| && ValidEffect(c, Next(c, s, t).value)
    requires Safe(c, After(c, s, t))
    ensures Atomic(c, After(c, s, t))
  {
    if Next(c, s, t).Some? {
      var e := Next(c, s, t).value;
      AfterSafe(c, s, t);
      forall a | 0 <= a < |s.apps| ensures WriteShape(c, s, t, e, a) {
        if s.threads[t].pc.Writing? {
          WritingShape(c, s, t, a);
        } else {
          QuietShape(c, s, t, a);
        }
      }
      NextFormatter(c, s, t);
      ApplyKeepsAtomic(c, s, t, e);
    }
  }

  /** In every interleaving each stream is a sequence of complete records, each rendered by one
      formatter, plus at most the partial record of the lock's holder. */
  lemma {:induction false} RecordsAreWhole(c: Config, s: State, schedule: seq<nat>)
    requires Initial(c, s)
    ensures Atomic(c, Run(c, s, schedule))
  {
    if schedule != [] {
      var last := |schedule| - 1;
      RecordsAreWhole(c, s, schedule[..last]);
      AfterSafe(c, Run(c, s, schedule[..last]), schedule[last]);
      AfterAtomic(c, Run(c, s, schedule[..last]), schedule[last]);
    }
  }

  /** Once nobody holds an appender its stream is exactly its completed records. */
  lemma FreeStreamIsWhole(c: Config, s: State, schedule: seq<nat>, a: nat)
    requires Initial(c, s) && a < |s.apps|
    ensures var r := Run(c, s, schedule);
            a < |r.apps| && (r.apps[a].lock == None ==> r.apps[a].stream == Flat(r.apps[a].recs))
  {
    RecordsAreWhole(c, s, schedule);
    var r := Run(c, s, schedule);
    assert WholeRecords(c, r, a);
    assert Flat(r.apps[a].recs) + [] == Flat(r.apps[a].recs);
  }
}
