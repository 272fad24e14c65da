/** Total-order fan-out: every appender of a logger receives the accepted events it lets through,
    in the order the logger took its lock, whatever the interleaving. */
module DeliveryOrder {
  import opened Wrappers
  import opened Delivery

  function Events(recs: seq<Record>): seq<Event> {
    if recs == [] then [] else Events(recs[..|recs| - 1]) + [recs[|recs| - 1].event]
  }

  /** The events of at least the given level, in order. */
  function Filter(level: nat, events: seq<Event>): seq<Event> {
    if events == [] then []
    else
      var e := events[|events| - 1];
      Filter(level, events[..|events| - 1]) + if e.level >= level then [e] else []
  }

  lemma {:induction false} EventsInOrder(recs: seq<Record>)
    ensures |Events(recs)| == |recs| && forall k :: 0 <= k < |recs| ==> Events(recs)[k] == recs[k].event
  {
    if recs != [] {
      EventsInOrder(recs[..|recs| - 1]);
    }
  }

  lemma Selects(level: nat, events: seq<Event>, before: seq<nat>) returns (idx: seq<nat>)
    requires events != [] && forall i: nat :: i in before <==> i < |events| - 1 && events[i].level >= level
    ensures idx == before + if events[|events| - 1].level >= level then [|events| - 1] else []
    ensures forall i: nat :: i in idx <==> i < |events| && events[i].level >= level
  {
    var last := |events| - 1;
    idx := before + if events[last].level >= level then [last] else [];
    assert forall i: nat :: i in idx <==> i in before || (i == last && events[last].level >= level);
  }

  /** The filter selects, in order, exactly the positions with an event of at least the level. */
  lemma {:induction false} FilterSelects(level: nat, events: seq<Event>) returns (idx: seq<nat>)
    ensures |idx| == |Filter(level, events)| && forall j, k :: 0 <= j < k < |idx| ==> idx[j] < idx[k]
    ensures forall i: nat :: i in idx <==> i < |events| && events[i].level >= level
    ensures forall k :: 0 <= k < |idx| ==> idx[k] < |events| && Filter(level, events)[k] == events[idx[k]]
  {
    idx := [];
    if events != [] {
      var front := events[..|events| - 1];
      var before := FilterSelects(level, front);
      assert forall i: nat :: i < |front| ==> front[i] == events[i];
      idx := Selects(level, events, before);
      assert Filter(level, events)
          == Filter(level, front) + if events[|front|].level >= level then [events[|front|]] else [];
    }
  }

  /** The thread at `pc` is delivering for logger `l` and has not yet passed position `k`. */
  predicate Undelivered(pc: PC, l: nat, k: nat) {
    JobOf(pc).Some? && JobOf(pc).value.l == l && JobOf(pc).value.k <= k
  }

  /** The accepted events that position `k` must have received. */
  function Due(accepted: seq<Event>, undelivered: bool): seq<Event> {
    if undelivered && accepted != [] then accepted[..|accepted| - 1] else accepted
  }

  function App(c: Config, l: nat, k: nat): nat
    requires l < |c.loggers| && k < |c.loggers[l].apps|
  {
    c.loggers[l].apps[k]
  }

  predicate Position(c: Config, l: nat, k: nat) {
    c.Valid() && l < |c.loggers| && k < |c.loggers[l].apps|
  }

  /** Position `k` of logger `l` has received exactly what is due. */
  ghost predicate InOrder(c: Config, s: State, l: nat, k: nat)
    requires Safe(c, s) && Position(c, l, k)
  {
    var lg := s.loggers[l];
    Events(s.apps[App(c, l, k)].recs)
      == Filter(c.apps[App(c, l, k)].level,
                Due(lg.accepted, lg.lock.Some? && Undelivered(s.threads[lg.lock.value].pc, l, k)))
  }

  /** A running job delivers the event accepted last. */
  ghost predicate JobsCurrent(c: Config, s: State)
    requires Safe(c, s)
  {
    forall t :: 0 <= t < |s.threads| && JobOf(s.threads[t].pc).Some? ==>
      JobCurrent(s.loggers[JobOf(s.threads[t].pc).value.l].accepted, JobOf(s.threads[t].pc).value)
  }

  predicate JobCurrent(accepted: seq<Event>, j: Job) {
    accepted != [] && accepted[|accepted| - 1] == j.event
  }

  ghost predicate Ordered(c: Config, s: State)
    requires Safe(c, s)
  {
    JobsCurrent(c, s) && forall l, k :: Position(c, l, k) ==> InOrder(c, s, l, k)
  }

  /** What the step does to position `k` of logger `l`: nothing unless the thread holds the logger
      before or after, and then the position still has exactly what is due. */
  ghost predicate OrderRule(c: Config, s: State, t: nat, e: Effect, l: nat, k: nat)
    requires Safe(c, s) && t < |s.threads| && ValidEffect(c, e) && Position(c, l, k)
  {
    var a := App(c, l, k);
    var lg, lg' := s.loggers[l], LoggerAfter(s, e, l);
    var level := c.apps[a].level;
    if HoldsLogger(s.threads[t].pc, l) || HoldsLogger(e.thread.pc, l) then
      Events(s.apps[a].recs) == Filter(level, Due(lg.accepted, Undelivered(s.threads[t].pc, l, k)))
      ==> Events(AppAfter(s, e, a).recs) == Filter(level, Due(lg'.accepted, Undelivered(e.thread.pc, l, k)))
    else
      lg'.accepted == lg.accepted && AppAfter(s, e, a).recs == s.apps[a].recs
  }

  /** Only a thread that holds the logger extends its list of accepted events. */
  ghost predicate AcceptRule(c: Config, s: State, t: nat, e: Effect)
    requires Safe(c, s) && t < |s.threads| && ValidEffect(c, e)
  {
    && (forall l :: 0 <= l < |s.loggers| && LoggerAfter(s, e, l).accepted != s.loggers[l].accepted ==>
         HoldsLogger(e.thread.pc, l) && LoggerAfter(s, e, l).lock == Some(t))
    && (JobOf(e.thread.pc).Some? ==>
         var j := JobOf(e.thread.pc).value;
         j.l < |s.loggers| && JobCurrent(LoggerAfter(s, e, j.l).accepted, j))
  }

  lemma FilterSnoc(level: nat, accepted: seq<Event>)
    requires accepted != []
    ensures var e := accepted[|accepted| - 1];
            Filter(level, accepted) == Filter(level, Due(accepted, true)) + if e.level >= level then [e] else []
  {
  }

  lemma EnteringAccepts(c: Config, s: State, t: nat)
    requires Safe(c, s) && t < |s.threads| && s.threads[t].pc.LogWait?
    requires Next(c, s, t).Some? && ValidEffect(c, Next(c, s, t).value)
    ensures AcceptRule(c, s, t, Next(c, s, t).value)
  {
  }

  lemma JobsAccept(c: Config, s: State, t: nat)
    requires Safe(c, s) && JobsCurrent(c, s) && t < |s.threads| && JobOf(s.threads[t].pc).Some?
    requires Next(c, s, t).Some? && ValidEffect(c, Next(c, s, t).value)
    ensures AcceptRule(c, s, t, Next(c, s, t).value)
  {
    assert ValidThread(c, s.threads[t]);
  }

  lemma OthersAccept(c: Config, s: State, t: nat)
    requires Safe(c, s) && t < |s.threads| && JobOf(s.threads[t].pc).None? && !s.threads[t].pc.LogWait?
    requires Next(c, s, t).Some? && ValidEffect(c, Next(c, s, t).value)
    ensures AcceptRule(c, s, t, Next(c, s, t).value)
  {
  }

  lemma OrderWhenEntering(c: Config, s: State, t: nat, l: nat, k: nat)
    requires Safe(c, s) && t < |s.threads| && s.threads[t].pc.LogWait? && Position(c, l, k)
    requires Next(c, s, t).Some? && ValidEffect(c, Next(c, s, t).value)
    ensures OrderRule(c, s, t, Next(c, s, t).value, l, k)
  {
    assert ValidThread(c, s.threads[t]);
    var lg := s.loggers[s.threads[t].pc.job.l];
    assert Due(lg.accepted + [s.threads[t].pc.job.event], true) == lg.accepted;
  }

  lemma OrderWhenChoosing(c: Config, s: State, t: nat, l: nat, k: nat)
    requires Safe(c, s) && JobsCurrent(c, s) && t < |s.threads| && s.threads[t].pc.Deliver? && Position(c, l, k)
    requires Next(c, s, t).Some? && ValidEffect(c, Next(c, s, t).value)
    ensures OrderRule(c, s, t, Next(c, s, t).value, l, k)
  {
    assert ValidThread(c, s.threads[t]);
    var j := s.threads[t].pc.job;
    var pc' := Next(c, s, t).value.thread.pc;
    assert JobCurrent(s.loggers[j.l].accepted, j);
    if Undelivered(pc', l, k) != Undelivered(s.threads[t].pc, l, k) {
      assert l == j.l && k == j.k && j.event.level < c.apps[App(c, l, k)].level;
      FilterSnoc(c.apps[App(c, l, k)].level, s.loggers[l].accepted);
    }
  }

  lemma OrderInRecord(c: Config, s: State, t: nat, l: nat, k: nat)
    requires Safe(c, s) && t < |s.threads| && s.threads[t].pc.Writing? && Position(c, l, k)
    requires s.threads[t].pc.i < s.threads[t].pc.f.size
    requires Next(c, s, t).Some? && ValidEffect(c, Next(c, s, t).value)
    ensures OrderRule(c, s, t, Next(c, s, t).value, l, k)
  {
    assert ValidThread(c, s.threads[t]);
  }

  lemma EventsMore(recs: seq<Record>, r: Record)
    ensures Events(recs + [r]) == Events(recs) + [r.event]
  {
    assert (recs + [r])[..|recs|] == recs;
  }

  lemma OrderAtRecordEnd(c: Config, s: State, t: nat, l: nat, k: nat)
    requires c.Unshared() && Safe(c, s) && JobsCurrent(c, s) && t < |s.threads| && s.threads[t].pc.Writing?
    requires Position(c, l, k) && s.threads[t].pc.i >= s.threads[t].pc.f.size
    requires Next(c, s, t).Some? && ValidEffect(c, Next(c, s, t).value)
    ensures OrderRule(c, s, t, Next(c, s, t).value, l, k)
  {
    assert ValidThread(c, s.threads[t]);
    var j, f := s.threads[t].pc.job, s.threads[t].pc.f;
    FilterSnoc(c.apps[App(c, l, k)].level, s.loggers[j.l].accepted);
    EventsMore(s.apps[Target(c, j)].recs, Record(j.event, f));
  }

  lemma OrderWhenWriting(c: Config, s: State, t: nat, l: nat, k: nat)
    requires c.Unshared() && Safe(c, s) && JobsCurrent(c, s) && t < |s.threads| && s.threads[t].pc.Writing?
    requires Position(c, l, k)
    requires Next(c, s, t).Some? && ValidEffect(c, Next(c, s, t).value)
    ensures OrderRule(c, s, t, Next(c, s, t).value, l, k)
  {
    if s.threads[t].pc.i < s.threads[t].pc.f.size {
      OrderInRecord(c, s, t, l, k);
    } else {
      OrderAtRecordEnd(c, s, t, l, k);
    }
  }

  lemma OrderElsewhere(c: Config, s: State, t: nat, l: nat, k: nat)
    requires Safe(c, s) && t < |s.threads| && Position(c, l, k)
    requires JobOf(s.threads[t].pc).None? && !s.threads[t].pc.LogWait?
    requires Next(c, s, t).Some? && ValidEffect(c, Next(c, s, t).value)
    ensures OrderRule(c, s, t, Next(c, s, t).value, l, k)
  {
  }

  lemma OrderWhenPreparing(c: Config, s: State, t: nat, l: nat, k: nat)
    requires Safe(c, s) && t < |s.threads| && Position(c, l, k)
    requires JobOf(s.threads[t].pc).Some? && !s.threads[t].pc.Deliver? && !s.threads[t].pc.Writing?
    requires Next(c, s, t).Some? && ValidEffect(c, Next(c, s, t).value)
    ensures OrderRule(c, s, t, Next(c, s, t).value, l, k)
  {
  }

  lemma ApplyKeepsOrder(c: Config, s: State, t: nat, e: Effect, l: nat, k: nat)
    requires Safe(c, s) && t < |s.threads| && LockRule(c, s, t, e) && Safe(c, Apply(s, t, e))
    requires Position(c, l, k) && InOrder(c, s, l, k) && OrderRule(c, s, t, e, l, k)
    ensures InOrder(c, Apply(s, t, e), l, k)
  {
    var s' := Apply(s, t, e);
    assert s'.loggers[l] == LoggerAfter(s, e, l);
    assert s'.apps[App(c, l, k)] == AppAfter(s, e, App(c, l, k));
    assert s.loggers[l].lock == Some(t) <==> HoldsLogger(s.threads[t].pc, l);
    assert s'.loggers[l].lock == Some(t) <==> HoldsLogger(e.thread.pc, l);
  }

  lemma ApplyKeepsJobs(c: Config, s: State, t: nat, e: Effect)
    requires Safe(c, s) && t < |s.threads| && LockRule(c, s, t, e) && Safe(c, Apply(s, t, e))
    requires JobsCurrent(c, s) && AcceptRule(c, s, t, e)
    ensures JobsCurrent(c, Apply(s, t, e))
  {
    var s' := Apply(s, t, e);
    forall u | 0 <= u < |s'.threads| && JobOf(s'.threads[u].pc).Some?
      ensures JobCurrent(s'.loggers[JobOf(s'.threads[u].pc).value.l].accepted, JobOf(s'.threads[u].pc).value)
    {
      var l := JobOf(s'.threads[u].pc).value.l;
      assert ValidThread(c, s'.threads[u]);
      assert s'.loggers[l] == LoggerAfter(s, e, l);
      if u != t {
        assert HoldsLogger(s'.threads[u].pc, l);
      }
    }
  }

  lemma AfterOrdered(c: Config, s: State, t: nat)
    requires c.Unshared() && Safe(c, s) && Ordered(c, s)
    requires Next(c, s, t).Some? ==> t < |s.threads| && LockRule(c, s, t, Next(c, s, t).value)
    requires Safe(c, After(c, s, t))
    ensures Ordered(c, After(c, s, t))
  {
    if Next(c, s, t).Some? {
      var e := Next(c, s, t).value;
      if s.threads[t].pc.LogWait? {
        EnteringAccepts(c, s, t);
      } else if JobOf(s.threads[t].pc).Some? {
        JobsAccept(c, s, t);
      } else {
        OthersAccept(c, s, t);
      }
      ApplyKeepsJobs(c, s, t, e);
      forall l, k | Position(c, l, k) ensures InOrder(c, Apply(s, t, e), l, k) {
        if s.threads[t].pc.LogWait? {
          OrderWhenEntering(c, s, t, l, k);
        } else if s.threads[t].pc.Deliver? {
          OrderWhenChoosing(c, s, t, l, k);
        } else if s.threads[t].pc.Writing? {
          OrderWhenWriting(c, s, t, l, k);
        } else if JobOf(s.threads[t].pc).Some? {
          OrderWhenPreparing(c, s, t, l, k);
        } else {
          OrderElsewhere(c, s, t, l, k);
        }
        ApplyKeepsOrder(c, s, t, e, l, k);
      }
    }
  }

  lemma {:induction false} RunsAreOrdered(c: Config, s: State, schedule: seq<nat>)
    requires Initial(c, s) && c.Unshared()
    ensures Ordered(c, Run(c, s, schedule))
  {
    if schedule != [] {
      var last := |schedule| - 1;
      RunsAreOrdered(c, s, schedule[..last]);
      AfterSafe(c, Run(c, s, schedule[..last]), schedule[last]);
      AfterOrdered(c, Run(c, s, schedule[..last]), schedule[last]);
    }
  }

  // ------------------------------------------------------------------------ results

  predicate Prefix(short: seq<Event>, long: seq<Event>) {
    |short| <= |long| && short == long[..|short|]
  }

  /** Whenever the logger's lock is free, each of its appenders has received exactly the accepted
      events of its level, in lock-acquisition order. */
  lemma FreeMeansDelivered(c: Config, s: State, schedule: seq<nat>, l: nat, k: nat)
    requires Initial(c, s) && c.Unshared() && Position(c, l, k)
    requires Run(c, s, schedule).loggers[l].lock == None
    ensures var r := Run(c, s, schedule);
            Events(r.apps[App(c, l, k)].recs) == Filter(c.apps[App(c, l, k)].level, r.loggers[l].accepted)
  {
    RunsAreOrdered(c, s, schedule);
    assert InOrder(c, Run(c, s, schedule), l, k);
  }

  /** At every moment, of two appenders of one logger at equal levels the later one has received a
      prefix of what the earlier one has, at most one event shorter. */
  lemma LaterIsPrefix(c: Config, s: State, schedule: seq<nat>, l: nat, k: nat, m: nat)
    requires Initial(c, s) && c.Unshared() && Position(c, l, k) && Position(c, l, m) && k <= m
    requires c.apps[App(c, l, k)].level == c.apps[App(c, l, m)].level
    ensures var r := Run(c, s, schedule);
            var earlier, later := Events(r.apps[App(c, l, k)].recs), Events(r.apps[App(c, l, m)].recs);
            Prefix(later, earlier) && |earlier| <= |later| + 1
  {
    RunsAreOrdered(c, s, schedule);
    var r := Run(c, s, schedule);
    assert InOrder(c, r, l, k) && InOrder(c, r, l, m);
    if r.loggers[l].accepted != [] {
      FilterSnoc(c.apps[App(c, l, k)].level, r.loggers[l].accepted);
    }
  }
}
