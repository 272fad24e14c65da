/** What replacing formatters leaves behind, in every interleaving: an appender without its own
    formatter has its logger's, and one with its own keeps it until it is given another. */
module DeliveryFormatters {
  import opened Wrappers
  import opened Delivery
  import opened DeliveryOrder

  /** The position that a thread setting the formatter of logger `l` has come to. */
  function SetTo(pc: PC, l: nat): Option<nat> {
    match pc
    case SetLoop(m, _, k) => if m == l then Some(k) else None
    case SetHold(m, _, k) => if m == l then Some(k) else None
    case _ => None
  }

  /** The appender at position `k` has its own formatter, or that of its logger, or is still to be
      served by the thread at `pc`. */
  predicate FollowsAt(ap: AppState, fmt: Formatter, pc: PC, l: nat, k: nat) {
    ap.own || ap.fmt == fmt || (SetTo(pc, l).Some? && SetTo(pc, l).value <= k)
  }

  ghost predicate Follows(c: Config, s: State, l: nat, k: nat)
    requires Safe(c, s) && Position(c, l, k)
  {
    var lock := s.loggers[l].lock;
    FollowsAt(s.apps[App(c, l, k)], s.loggers[l].fmt, if lock.Some? then s.threads[lock.value].pc else Idle, l, k)
  }

  /** A thread setting the formatter of a logger has already set it there. */
  ghost predicate SettersCurrent(c: Config, s: State)
    requires Safe(c, s)
  {
    forall t, l :: 0 <= t < |s.threads| && 0 <= l < |s.loggers| && SetTo(s.threads[t].pc, l).Some? ==>
      s.threads[t].pc.f == s.loggers[l].fmt
  }

  // ----------------------------------------------------------------- single steps

  /** What one step may do to the formatters of an appender and of a logger. */
  ghost predicate FormatterSteps(c: Config, s: State, t: nat, e: Effect, a: nat, l: nat)
    requires Safe(c, s) && t < |s.threads| && ValidEffect(c, e) && a < |s.apps| && l < |s.loggers|
  {
    var pc, ap, ap' := s.threads[t].pc, s.apps[a], AppAfter(s, e, a);
    var fmt, fmt' := s.loggers[l].fmt, LoggerAfter(s, e, l).fmt;
    && (ap.own ==> ap'.own)
    && (ap.own && ap'.fmt != ap.fmt ==> pc == AppHold(a, ap'.fmt))
    && (pc.AppHold? && pc.a == a ==> ap'.own && ap'.fmt == pc.f)
    && (!ap.own && ap'.own ==> pc.AppHold? && pc.a == a)
    && (!ap'.own && ap'.fmt != ap.fmt ==>
         pc.SetHold? && Position(c, pc.l, pc.k) && App(c, pc.l, pc.k) == a && ap'.fmt == pc.f)
    && (fmt' != fmt ==> pc == SetWait(l, fmt'))
    && (pc.SetWait? && pc.l == l ==> fmt' == pc.f)
  }

  predicate SetsFormatter(pc: PC) {
    pc.SetWait? || pc.SetLoop? || pc.SetHold? || pc.AppWait? || pc.AppHold?
  }

  lemma LoggingLeavesFormatters(c: Config, s: State, t: nat, a: nat, l: nat)
    requires Safe(c, s) && t < |s.threads| && a < |s.apps| && l < |s.loggers| && !SetsFormatter(s.threads[t].pc)
    requires Next(c, s, t).Some? && ValidEffect(c, Next(c, s, t).value)
    ensures var e := Next(c, s, t).value;
            && LoggerAfter(s, e, l).fmt == s.loggers[l].fmt
            && AppAfter(s, e, a).fmt == s.apps[a].fmt && AppAfter(s, e, a).own == s.apps[a].own
  {
    assert ValidThread(c, s.threads[t]);
  }

  lemma SettingFormatters(c: Config, s: State, t: nat, a: nat, l: nat)
    requires Safe(c, s) && t < |s.threads| && a < |s.apps| && l < |s.loggers| && SetsFormatter(s.threads[t].pc)
    requires Next(c, s, t).Some? && ValidEffect(c, Next(c, s, t).value)
    ensures FormatterSteps(c, s, t, Next(c, s, t).value, a, l)
  {
    assert ValidThread(c, s.threads[t]);
  }

  lemma NextFormatters(c: Config, s: State, t: nat, a: nat, l: nat)
    requires Safe(c, s) && t < |s.threads| && a < |s.apps| && l < |s.loggers|
    requires Next(c, s, t).Some? && ValidEffect(c, Next(c, s, t).value)
    ensures FormatterSteps(c, s, t, Next(c, s, t).value, a, l)
  {
    if SetsFormatter(s.threads[t].pc) {
      SettingFormatters(c, s, t, a, l);
    } else {
      LoggingLeavesFormatters(c, s, t, a, l);
    }
  }

  /** An appender's own formatter changes only by a setFormatter on the appender, and only to what
      that sets; it never stops being its own. */
  lemma OwnFormatterStays(c: Config, s: State, t: nat, a: nat)
    requires Safe(c, s) && a < |s.apps| && s.apps[a].own && Next(c, s, t).Some?
    ensures t < |s.threads| && ValidEffect(c, Next(c, s, t).value)
    ensures var ap := After(c, s, t).apps[a];
            ap.own && (ap.fmt == s.apps[a].fmt || s.threads[t].pc == AppHold(a, ap.fmt))
  {
    AfterSafe(c, s, t);
    NextFormatters(c, s, t, a, 0);
  }

  /** A setFormatter sets what it is given: a logger's formatter changes by nothing else, and an
      appender gets one of its own by nothing else. */
  lemma SetFormatterSets(c: Config, s: State, t: nat, l: nat, a: nat)
    requires Safe(c, s) && l < |s.loggers| && a < |s.apps| && Next(c, s, t).Some?
    ensures t < |s.threads| && ValidEffect(c, Next(c, s, t).value)
    ensures var pc, r := s.threads[t].pc, After(c, s, t);
            && r.loggers[l].fmt == (if pc.SetWait? && pc.l == l then pc.f else s.loggers[l].fmt)
            && r.apps[a].own == (s.apps[a].own || (pc.AppHold? && pc.a == a))
            && (pc.AppHold? && pc.a == a ==> r.apps[a].fmt == pc.f)
  {
    AfterSafe(c, s, t);
    NextFormatters(c, s, t, a, l);
  }

  // ---------------------------------------------------------------- whole runs

  lemma AfterSetters(c: Config, s: State, t: nat)
    requires Safe(c, s) && SettersCurrent(c, s)
    requires Next(c, s, t).Some? ==> t < |s.threads| && LockRule(c, s, t, Next(c, s, t).value)
    requires Safe(c, After(c, s, t))
    ensures SettersCurrent(c, After(c, s, t))
  {
    if Next(c, s, t).Some? {
      var e := Next(c, s, t).value;
      var s' := After(c, s, t);
      forall u, l | 0 <= u < |s'.threads| && 0 <= l < |s'.loggers| && SetTo(s'.threads[u].pc, l).Some?
        ensures s'.threads[u].pc.f == s'.loggers[l].fmt
      {
        assert s'.loggers[l] == LoggerAfter(s, e, l);
        if u == t {
          MovingSetter(c, s, t, l);
        } else {
          assert HoldsLogger(s.threads[u].pc, l);
          SetterUndisturbed(c, s, t, u, l);
        }
      }
    }
  }

  lemma MovingSetter(c: Config, s: State, t: nat, l: nat)
    requires Safe(c, s) && SettersCurrent(c, s) && t < |s.threads| && l < |s.loggers|
    requires Next(c, s, t).Some? && ValidEffect(c, Next(c, s, t).value)
    requires SetTo(Next(c, s, t).value.thread.pc, l).Some?
    ensures var e := Next(c, s, t).value; e.thread.pc.f == LoggerAfter(s, e, l).fmt
  {
    assert ValidThread(c, s.threads[t]);
    assert SetTo(s.threads[t].pc, l).Some? ==> s.threads[t].pc.f == s.loggers[l].fmt;
  }

  lemma SetterUndisturbed(c: Config, s: State, t: nat, u: nat, l: nat)
    requires Safe(c, s) && t < |s.threads| && u < |s.threads| && t != u && l < |s.loggers|
    requires HoldsLogger(s.threads[u].pc, l)
    requires Next(c, s, t).Some? && ValidEffect(c, Next(c, s, t).value)
    ensures LoggerAfter(s, Next(c, s, t).value, l).fmt == s.loggers[l].fmt
  {
    assert s.loggers[l].lock == Some(u);
    assert ValidThread(c, s.threads[t]);
  }

  /** What the step does to the appender at position `k` of logger `l`. */
  ghost predicate FollowRule(c: Config, s: State, t: nat, e: Effect, l: nat, k: nat)
    requires Safe(c, s) && t < |s.threads| && ValidEffect(c, e) && Position(c, l, k)
  {
    var a := App(c, l, k);
    var ap, ap', fmt, fmt' := s.apps[a], AppAfter(s, e, a), s.loggers[l].fmt, LoggerAfter(s, e, l).fmt;
    if HoldsLogger(s.threads[t].pc, l) || HoldsLogger(e.thread.pc, l) then
      FollowsAt(ap, fmt, s.threads[t].pc, l, k) ==> FollowsAt(ap', fmt', e.thread.pc, l, k)
    else fmt' == fmt && (ap'.own || (ap'.fmt == ap.fmt && ap'.own == ap.own))
  }

  lemma FollowWhenSetting(c: Config, s: State, t: nat, l: nat, k: nat)
    requires c.Unshared() && Safe(c, s) && SettersCurrent(c, s) && t < |s.threads| && Position(c, l, k)
    requires s.threads[t].pc.SetWait? || s.threads[t].pc.SetLoop? || s.threads[t].pc.SetHold?
    requires Next(c, s, t).Some? && ValidEffect(c, Next(c, s, t).value)
    ensures FollowRule(c, s, t, Next(c, s, t).value, l, k)
  {
    assert ValidThread(c, s.threads[t]);
    assert SetTo(s.threads[t].pc, l).Some? ==> s.threads[t].pc.f == s.loggers[l].fmt;
  }

  lemma FollowElsewhere(c: Config, s: State, t: nat, l: nat, k: nat)
    requires Safe(c, s) && t < |s.threads| && Position(c, l, k)
    requires !s.threads[t].pc.SetWait? && !s.threads[t].pc.SetLoop? && !s.threads[t].pc.SetHold?
    requires Next(c, s, t).Some? && ValidEffect(c, Next(c, s, t).value)
    ensures FollowRule(c, s, t, Next(c, s, t).value, l, k)
  {
    assert ValidThread(c, s.threads[t]);
    NextFormatters(c, s, t, App(c, l, k), l);
  }

  lemma ApplyKeepsFollowing(c: Config, s: State, t: nat, e: Effect, l: nat, k: nat)
    requires Safe(c, s) && t < |s.threads| && LockRule(c, s, t, e) && Safe(c, Apply(s, t, e))
    requires Position(c, l, k) && Follows(c, s, l, k) && FollowRule(c, s, t, e, l, k)
    ensures Follows(c, Apply(s, t, e), l, k)
  {
    var s' := Apply(s, t, e);
    assert s'.loggers[l] == LoggerAfter(s, e, l);
    assert s'.apps[App(c, l, k)] == AppAfter(s, e, App(c, l, k));
    assert s.loggers[l].lock == Some(t) <==> HoldsLogger(s.threads[t].pc, l);
    assert s'.loggers[l].lock == Some(t) <==> HoldsLogger(e.thread.pc, l);
  }

  lemma AfterFollows(c: Config, s: State, t: nat, l: nat, k: nat)
    requires c.Unshared() && Safe(c, s) && SettersCurrent(c, s) && Position(c, l, k) && Follows(c, s, l, k)
    requires Next(c, s, t).Some? ==> t < |s.threads| && LockRule(c, s, t, Next(c, s, t).value)
    requires Safe(c, After(c, s, t))
    ensures Follows(c, After(c, s, t), l, k)
  {
    if Next(c, s, t).Some? {
      if s.threads[t].pc.SetWait? || s.threads[t].pc.SetLoop? || s.threads[t].pc.SetHold? {
        FollowWhenSetting(c, s, t, l, k);
      } else {
        FollowElsewhere(c, s, t, l, k);
      }
      ApplyKeepsFollowing(c, s, t, Next(c, s, t).value, l, k);
    }
  }

  lemma {:induction false} RunFollows(c: Config, s: State, schedule: seq<nat>, l: nat, k: nat)
    requires Initial(c, s) && c.Unshared() && Position(c, l, k)
    requires s.apps[App(c, l, k)].own || s.apps[App(c, l, k)].fmt == s.loggers[l].fmt
    ensures SettersCurrent(c, Run(c, s, schedule)) && Follows(c, Run(c, s, schedule), l, k)
  {
    if schedule != [] {
      var last := |schedule| - 1;
      var before := Run(c, s, schedule[..last]);
      RunFollows(c, s, schedule[..last], l, k);
      AfterSafe(c, before, schedule[last]);
      AfterSetters(c, before, schedule[last]);
      AfterFollows(c, before, schedule[last], l, k);
    }
  }

  // -------------------------------------------------------------------- results

  /** Whenever a logger is free, each of its appenders without its own formatter has exactly the
      logger's; and while one thread sets it, the appenders already served have the new one. */
  lemma BareAppendersFollow(c: Config, s: State, schedule: seq<nat>, l: nat, k: nat)
    requires Initial(c, s) && c.Unshared() && Position(c, l, k)
    requires !s.apps[App(c, l, k)].own ==> s.apps[App(c, l, k)].fmt == s.loggers[l].fmt
    ensures var r := Run(c, s, schedule);
            var ap := r.apps[App(c, l, k)];
            && (r.loggers[l].lock == None && !ap.own ==> ap.fmt == r.loggers[l].fmt)
            && (forall t :: 0 <= t < |r.threads| && r.threads[t].pc.SetLoop? && r.threads[t].pc.l == l ==>
                 && r.loggers[l].fmt == r.threads[t].pc.f
                 && (k < r.threads[t].pc.k && !ap.own ==> ap.fmt == r.threads[t].pc.f))
  {
    RunFollows(c, s, schedule, l, k);
    var r := Run(c, s, schedule);
    forall t | 0 <= t < |r.threads| && r.threads[t].pc.SetLoop? && r.threads[t].pc.l == l
      ensures r.loggers[l].fmt == r.threads[t].pc.f
      ensures k < r.threads[t].pc.k && !r.apps[App(c, l, k)].own ==> r.apps[App(c, l, k)].fmt == r.threads[t].pc.f
    {
      assert HoldsLogger(r.threads[t].pc, l);
      assert SetTo(r.threads[t].pc, l).Some?;
    }
  }
}
