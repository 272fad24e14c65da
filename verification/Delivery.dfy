/** Concurrent delivery of log events, as a step system.

    Any number of threads log, and replace formatters, under the spin locks of loggers and
    appenders. A step of a thread is everything between two points where another thread can
    interfere; a schedule says which thread moves next, and a thread that waits for a taken lock
    does not move. Logger 0 is the root, to which loggers without appenders pass events on. */
module Delivery {
  import opened Wrappers

  datatype Event = Event(id: nat, level: nat, time: nat)

  /** A formatter writes `size` items per record, one after the other. */
  datatype Formatter = Formatter(id: nat, size: nat)

  /** The text that item `index` of `formatter` produces for `event`. */
  datatype Chunk = Chunk(event: Event, formatter: Formatter, index: nat)

  datatype Record = Record(event: Event, formatter: Formatter)

  // ---------------------------------------------------------------- configuration

  datatype LoggerConfig = LoggerConfig(level: nat, apps: seq<nat>)

  datatype AppenderConfig = AppenderConfig(level: nat, isFile: bool)

  datatype Config = Config(loggers: seq<LoggerConfig>, apps: seq<AppenderConfig>) {
    predicate Valid() {
      && |loggers| > 0
      && forall l, k :: 0 <= l < |loggers| && 0 <= k < |loggers[l].apps| ==> loggers[l].apps[k] < |apps|
    }

    /** No appender is listed twice, in one logger or in two. */
    predicate Unshared() {
      forall l, k, m, j | 0 <= l < |loggers| && 0 <= k < |loggers[l].apps| && 0 <= m < |loggers|
                          && 0 <= j < |loggers[m].apps| && loggers[l].apps[k] == loggers[m].apps[j] ::
        l == m && k == j
    }
  }

  // -------------------------------------------------------------------------- state

  /** Delivery of `event` by logger `l`, at position `k` of its list; `via` is the logger that
      fell back to the root and still holds its own lock. */
  datatype Job = Job(l: nat, event: Event, k: nat, via: Option<nat>)

  datatype Op = Log(l: nat, event: Event)
              | SetLoggerFormatter(l: nat, f: Formatter)
              | SetAppenderFormatter(a: nat, f: Formatter)

  datatype PC =
    | Idle
    | LogWait(job: Job)
    | Deliver(job: Job)
    | ReopenWait(job: Job)
    | Reopening(job: Job)
    | MarkTime(job: Job)
    | WriteWait(job: Job)
    | Writing(job: Job, f: Formatter, i: nat)
    | Leave(l: nat, via: Option<nat>)
    | SetWait(l: nat, f: Formatter)
    | SetLoop(l: nat, f: Formatter, k: nat)
    | SetHold(l: nat, f: Formatter, k: nat)
    | AppWait(a: nat, f: Formatter)
    | AppHold(a: nat, f: Formatter)

  datatype Thread = Thread(pc: PC, todo: seq<Op>)

  /** `accepted` lists the events the logger set out to deliver, in the order it took its lock. */
  datatype LoggerState = LoggerState(lock: Option<nat>, fmt: Formatter, accepted: seq<Event>)

  /** `recs` lists the records completed so far; `stream` is what was written. */
  datatype AppState = AppState(lock: Option<nat>, fmt: Formatter, own: bool, last: nat, reopens: nat,
                               stream: seq<Chunk>, recs: seq<Record>)

  datatype State = State(loggers: seq<LoggerState>, apps: seq<AppState>, threads: seq<Thread>)

  /** What one step does: the moving thread afterwards, and at most one logger and one appender. */
  datatype Effect = Effect(thread: Thread, lg: Option<LoggerPut>, ap: Option<AppPut>)

  datatype LoggerPut = LoggerPut(l: nat, x: LoggerState)

  datatype AppPut = AppPut(a: nat, x: AppState)

  // ---------------------------------------------------------------- well-formedness

  predicate ValidJob(c: Config, j: Job) {
    && j.l < |c.loggers| && j.k <= |c.loggers[j.l].apps|
    && (j.via.Some? ==> j.l == 0 && 0 < j.via.value < |c.loggers|)
  }

  /** The job is past the level check of the appender at its position. */
  predicate ActiveJob(c: Config, j: Job) {
    && ValidJob(c, j) && j.k < |c.loggers[j.l].apps| && Target(c, j) < |c.apps|
    && j.event.level >= c.apps[Target(c, j)].level
  }

  function Target(c: Config, j: Job): nat
    requires j.l < |c.loggers| && j.k < |c.loggers[j.l].apps|
  {
    c.loggers[j.l].apps[j.k]
  }

  predicate ValidPC(c: Config, pc: PC) {
    match pc
    case Idle => true
    case LogWait(j) => ValidJob(c, j) && j.k == 0
    case Deliver(j) => ValidJob(c, j)
    case ReopenWait(j) => ActiveJob(c, j)
    case Reopening(j) => ActiveJob(c, j)
    case MarkTime(j) => ActiveJob(c, j)
    case WriteWait(j) => ActiveJob(c, j)
    case Writing(j, f, i) => ActiveJob(c, j) && i <= f.size
    case Leave(l, via) => l < |c.loggers| && (via.Some? ==> l == 0 && 0 < via.value < |c.loggers|)
    case SetWait(l, f) => l < |c.loggers|
    case SetLoop(l, f, k) => l < |c.loggers| && k <= |c.loggers[l].apps|
    case SetHold(l, f, k) => l < |c.loggers| && k < |c.loggers[l].apps| && c.loggers[l].apps[k] < |c.apps|
    case AppWait(a, f) => a < |c.apps|
    case AppHold(a, f) => a < |c.apps|
  }

  predicate ValidOp(c: Config, op: Op) {
    match op
    case Log(l, _) => l < |c.loggers|
    case SetLoggerFormatter(l, _) => l < |c.loggers|
    case SetAppenderFormatter(a, _) => a < |c.apps|
  }

  predicate ValidThread(c: Config, th: Thread) {
    ValidPC(c, th.pc) && forall k :: 0 <= k < |th.todo| ==> ValidOp(c, th.todo[k])
  }

  predicate ValidState(c: Config, s: State) {
    && c.Valid() && |s.loggers| == |c.loggers| && |s.apps| == |c.apps|
    && forall t :: 0 <= t < |s.threads| ==> ValidThread(c, s.threads[t])
  }

  // -------------------------------------------------------------------------- steps

  function Start(op: Op): PC {
    match op
    case Log(l, e) => LogWait(Job(l, e, 0, None))
    case SetLoggerFormatter(l, f) => SetWait(l, f)
    case SetAppenderFormatter(a, f) => AppWait(a, f)
  }

  function Move(th: Thread, pc: PC): Effect {
    Effect(th.(pc := pc), None, None)
  }

  function MoveL(th: Thread, pc: PC, l: nat, x: LoggerState): Effect {
    Effect(th.(pc := pc), Some(LoggerPut(l, x)), None)
  }

  function MoveA(th: Thread, pc: PC, a: nat, x: AppState): Effect {
    Effect(th.(pc := pc), None, Some(AppPut(a, x)))
  }

  /** Logger::log with the lock of `j.l` just taken. */
  function EnterLogger(c: Config, s: State, t: nat, j: Job): Effect
    requires ValidState(c, s) && t < |s.threads| && ValidJob(c, j)
  {
    var lg := s.loggers[j.l].(lock := Some(t));
    var th := s.threads[t];
    if j.event.level < c.loggers[j.l].level then MoveL(th, Leave(j.l, j.via), j.l, lg)
    else if c.loggers[j.l].apps != [] then
      MoveL(th, Deliver(j), j.l, lg.(accepted := lg.accepted + [j.event]))
    else if j.l != 0 then MoveL(th, LogWait(Job(0, j.event, 0, Some(j.l))), j.l, lg)
    else MoveL(th, Leave(j.l, j.via), j.l, lg)
  }

  /** The head of the delivery loop and the checks of the appender's log. */
  function NextAppender(c: Config, s: State, t: nat, j: Job): Effect
    requires ValidState(c, s) && t < |s.threads| && ValidJob(c, j)
  {
    var th := s.threads[t];
    if j.k == |c.loggers[j.l].apps| then Move(th, Leave(j.l, j.via))
    else
      var a := Target(c, j);
      if j.event.level < c.apps[a].level then Move(th, Deliver(j.(k := j.k + 1)))
      else if c.apps[a].isFile && j.event.time >= s.apps[a].last + 3 then Move(th, ReopenWait(j))
      else Move(th, WriteWait(j))
  }

  /** LogFormatter::format writes item after item; after the last one the lock is dropped. */
  function WriteItem(c: Config, s: State, t: nat, j: Job, f: Formatter, i: nat): Effect
    requires ValidState(c, s) && t < |s.threads| && ActiveJob(c, j) && i <= f.size
  {
    var a := Target(c, j);
    var ap := s.apps[a];
    if i < f.size then
      MoveA(s.threads[t], Writing(j, f, i + 1), a, ap.(stream := ap.stream + [Chunk(j.event, f, i)]))
    else
      MoveA(s.threads[t], Deliver(j.(k := j.k + 1)), a,
            ap.(lock := None, recs := ap.recs + [Record(j.event, f)]))
  }

  /** What thread `t` does next, or None when it has finished or waits for a taken lock. */
  function Next(c: Config, s: State, t: nat): Option<Effect>
    requires ValidState(c, s)
  {
    if t >= |s.threads| then None
    else
      var th := s.threads[t];
      match th.pc
      case Idle =>
        if th.todo == [] then None
        else Some(Effect(Thread(Start(th.todo[0]), th.todo[1..]), None, None))
      case LogWait(j) =>
        if s.loggers[j.l].lock.Some? then None else Some(EnterLogger(c, s, t, j))
      case Deliver(j) => Some(NextAppender(c, s, t, j))
      case ReopenWait(j) =>
        var a := Target(c, j);
        if s.apps[a].lock.Some? then None
        else Some(MoveA(th, Reopening(j), a, s.apps[a].(lock := Some(t))))
      case Reopening(j) =>
        var a := Target(c, j);
        Some(MoveA(th, MarkTime(j), a, s.apps[a].(lock := None, reopens := s.apps[a].reopens + 1)))
      case MarkTime(j) =>
        var a := Target(c, j);
        Some(MoveA(th, WriteWait(j), a, s.apps[a].(last := j.event.time)))
      case WriteWait(j) =>
        var a := Target(c, j);
        if s.apps[a].lock.Some? then None
        else Some(MoveA(th, Writing(j, s.apps[a].fmt, 0), a, s.apps[a].(lock := Some(t))))
      case Writing(j, f, i) => Some(WriteItem(c, s, t, j, f, i))
      case Leave(l, via) =>
        Some(MoveL(th, if via.Some? then Leave(via.value, None) else Idle, l, s.loggers[l].(lock := None)))
      case SetWait(l, f) =>
        if s.loggers[l].lock.Some? then None
        else Some(MoveL(th, SetLoop(l, f, 0), l, s.loggers[l].(lock := Some(t), fmt := f)))
      case SetLoop(l, f, k) =>
        if k == |c.loggers[l].apps| then Some(Move(th, Leave(l, None)))
        else
          var a := c.loggers[l].apps[k];
          if s.apps[a].lock.Some? then None
          else Some(MoveA(th, SetHold(l, f, k), a, s.apps[a].(lock := Some(t))))
      case SetHold(l, f, k) =>
        var a := c.loggers[l].apps[k];
        var ap := s.apps[a];
        Some(MoveA(th, SetLoop(l, f, k + 1), a, ap.(lock := None, fmt := if ap.own then ap.fmt else f)))
      case AppWait(a, f) =>
        if s.apps[a].lock.Some? then None
        else Some(MoveA(th, AppHold(a, f), a, s.apps[a].(lock := Some(t))))
      case AppHold(a, f) =>
        Some(MoveA(th, Idle, a, s.apps[a].(lock := None, fmt := f, own := true)))
  }

  function Apply(s: State, t: nat, e: Effect): State
    requires t < |s.threads|
    requires e.lg.Some? ==> e.lg.value.l < |s.loggers|
    requires e.ap.Some? ==> e.ap.value.a < |s.apps|
  {
    State(if e.lg.Some? then s.loggers[e.lg.value.l := e.lg.value.x] else s.loggers,
          if e.ap.Some? then s.apps[e.ap.value.a := e.ap.value.x] else s.apps,
          s.threads[t := e.thread])
  }

  /** A part of the state after the effect. */
  function LoggerAfter(s: State, e: Effect, l: nat): LoggerState
    requires l < |s.loggers|
  {
    if e.lg.Some? && e.lg.value.l == l then e.lg.value.x else s.loggers[l]
  }

  function AppAfter(s: State, e: Effect, a: nat): AppState
    requires a < |s.apps|
  {
    if e.ap.Some? && e.ap.value.a == a then e.ap.value.x else s.apps[a]
  }

  // ----------------------------------------------------------------- lock ownership

  function JobOf(pc: PC): Option<Job> {
    match pc
    case Deliver(j) => Some(j)
    case ReopenWait(j) => Some(j)
    case Reopening(j) => Some(j)
    case MarkTime(j) => Some(j)
    case WriteWait(j) => Some(j)
    case Writing(j, _, _) => Some(j)
    case _ => None
  }

  predicate HoldsLogger(pc: PC, l: nat) {
    match pc
    case LogWait(j) => j.via == Some(l)
    case Leave(m, via) => m == l || via == Some(l)
    case SetLoop(m, _, _) => m == l
    case SetHold(m, _, _) => m == l
    case _ => JobOf(pc).Some? && (JobOf(pc).value.l == l || JobOf(pc).value.via == Some(l))
  }

  predicate HoldsAppender(c: Config, pc: PC, a: nat)
    requires ValidPC(c, pc)
  {
    match pc
    case Reopening(j) => Target(c, j) == a
    case Writing(j, _, _) => Target(c, j) == a
    case SetHold(l, _, k) => c.loggers[l].apps[k] == a
    case AppHold(b, _) => a == b
    case _ => false
  }

  /** A lock is taken by exactly the thread whose program counter says so. */
  ghost predicate LocksAgree(c: Config, s: State)
    requires ValidState(c, s)
  {
    && (forall l, t :: 0 <= l < |s.loggers| && 0 <= t < |s.threads| ==>
         (s.loggers[l].lock == Some(t) <==> HoldsLogger(s.threads[t].pc, l)))
    && (forall a, t :: 0 <= a < |s.apps| && 0 <= t < |s.threads| ==>
         (s.apps[a].lock == Some(t) <==> HoldsAppender(c, s.threads[t].pc, a)))
    && (forall l :: 0 <= l < |s.loggers| && s.loggers[l].lock.Some? ==> s.loggers[l].lock.value < |s.threads|)
    && (forall a :: 0 <= a < |s.apps| && s.apps[a].lock.Some? ==> s.apps[a].lock.value < |s.threads|)
  }

  /** The effect names existing parts and leaves the thread in a valid place. */
  predicate ValidEffect(c: Config, e: Effect) {
    && ValidThread(c, e.thread)
    && (e.lg.Some? ==> e.lg.value.l < |c.loggers|)
    && (e.ap.Some? ==> e.ap.value.a < |c.apps|)
  }

  /** Locks move between free and held by the moving thread, in step with its program counter. */
  ghost predicate LockRule(c: Config, s: State, t: nat, e: Effect)
    requires ValidState(c, s) && t < |s.threads|
  {
    && ValidEffect(c, e)
    && (e.lg.Some? ==> var was := s.loggers[e.lg.value.l].lock;
                       (was == None || was == Some(t)) && (e.lg.value.x.lock == None || e.lg.value.x.lock == Some(t)))
    && (e.ap.Some? ==> var was := s.apps[e.ap.value.a].lock;
                       (was == None || was == Some(t) || was == e.ap.value.x.lock)
                       && (e.ap.value.x.lock == None || e.ap.value.x.lock == Some(t) || e.ap.value.x.lock == was))
    && (forall l :: HoldsLogger(e.thread.pc, l) <==>
         if e.lg.Some? && e.lg.value.l == l then e.lg.value.x.lock == Some(t) else HoldsLogger(s.threads[t].pc, l))
    && (forall a :: HoldsAppender(c, e.thread.pc, a) <==>
         if e.ap.Some? && e.ap.value.a == a then e.ap.value.x.lock == Some(t) else HoldsAppender(c, s.threads[t].pc, a))
  }

  lemma IdleRule(c: Config, s: State, t: nat)
    requires Safe(c, s) && t < |s.threads| && s.threads[t].pc.Idle?
    requires Next(c, s, t).Some?
    ensures LockRule(c, s, t, Next(c, s, t).value)
  {
  }

  lemma LogWaitRule(c: Config, s: State, t: nat)
    requires Safe(c, s) && t < |s.threads| && s.threads[t].pc.LogWait?
    requires Next(c, s, t).Some?
    ensures LockRule(c, s, t, Next(c, s, t).value)
  {
    assert ValidThread(c, s.threads[t]);
  }

  lemma LeaveRule(c: Config, s: State, t: nat)
    requires Safe(c, s) && t < |s.threads|
    requires s.threads[t].pc.Leave? || s.threads[t].pc.SetWait?
    requires Next(c, s, t).Some?
    ensures LockRule(c, s, t, Next(c, s, t).value)
  {
  }

  lemma DeliverRule(c: Config, s: State, t: nat)
    requires Safe(c, s) && t < |s.threads| && s.threads[t].pc.Deliver?
    requires Next(c, s, t).Some?
    ensures LockRule(c, s, t, Next(c, s, t).value)
  {
    assert ValidThread(c, s.threads[t]);
  }

  lemma ReopenRule(c: Config, s: State, t: nat)
    requires Safe(c, s) && t < |s.threads|
    requires s.threads[t].pc.ReopenWait? || s.threads[t].pc.Reopening?
    requires Next(c, s, t).Some?
    ensures LockRule(c, s, t, Next(c, s, t).value)
  {
  }

  lemma MarkRule(c: Config, s: State, t: nat)
    requires Safe(c, s) && t < |s.threads|
    requires s.threads[t].pc.MarkTime? || s.threads[t].pc.WriteWait?
    requires Next(c, s, t).Some?
    ensures LockRule(c, s, t, Next(c, s, t).value)
  {
  }

  lemma WriteRule(c: Config, s: State, t: nat)
    requires Safe(c, s) && t < |s.threads| && s.threads[t].pc.Writing?
    requires Next(c, s, t).Some?
    ensures LockRule(c, s, t, Next(c, s, t).value)
  {
  }

  lemma SetFormatterRule(c: Config, s: State, t: nat)
    requires Safe(c, s) && t < |s.threads|
    requires s.threads[t].pc.SetLoop? || s.threads[t].pc.SetHold?
    requires Next(c, s, t).Some?
    ensures LockRule(c, s, t, Next(c, s, t).value)
  {
  }

  lemma AppFormatterRule(c: Config, s: State, t: nat)
    requires Safe(c, s) && t < |s.threads|
    requires s.threads[t].pc.AppWait? || s.threads[t].pc.AppHold?
    requires Next(c, s, t).Some?
    ensures LockRule(c, s, t, Next(c, s, t).value)
  {
  }

  lemma NextLockRule(c: Config, s: State, t: nat)
    requires Safe(c, s) && Next(c, s, t).Some?
    ensures t < |s.threads| && LockRule(c, s, t, Next(c, s, t).value)
  {
    match s.threads[t].pc
    case Idle => IdleRule(c, s, t);
    case LogWait(_) => LogWaitRule(c, s, t);
    case Leave(_, _) => LeaveRule(c, s, t);
    case SetWait(_, _) => LeaveRule(c, s, t);
    case Deliver(_) => DeliverRule(c, s, t);
    case ReopenWait(_) => ReopenRule(c, s, t);
    case Reopening(_) => ReopenRule(c, s, t);
    case MarkTime(_) => MarkRule(c, s, t);
    case WriteWait(_) => MarkRule(c, s, t);
    case Writing(_, _, _) => WriteRule(c, s, t);
    case SetLoop(_, _, _) => SetFormatterRule(c, s, t);
    case SetHold(_, _, _) => SetFormatterRule(c, s, t);
    case AppWait(_, _) => AppFormatterRule(c, s, t);
    case AppHold(_, _) => AppFormatterRule(c, s, t);
  }

  lemma ApplyKeepsLocks(c: Config, s: State, t: nat, e: Effect)
    requires ValidState(c, s) && t < |s.threads| && LocksAgree(c, s)
    requires LockRule(c, s, t, e)
    ensures ValidState(c, Apply(s, t, e)) && LocksAgree(c, Apply(s, t, e))
  {
  }

  // --------------------------------------------------------------------------- runs

  /** Nobody holds a lock and nothing is written yet. */
  ghost predicate Initial(c: Config, s: State)
    ensures Initial(c, s) ==> Safe(c, s)
  {
    && ValidState(c, s)
    && (forall t :: 0 <= t < |s.threads| ==> s.threads[t].pc == Idle)
    && (forall l :: 0 <= l < |s.loggers| ==> s.loggers[l].lock == None && s.loggers[l].accepted == [])
    && (forall a :: 0 <= a < |s.apps| ==>
         s.apps[a].lock == None && s.apps[a].stream == [] && s.apps[a].recs == []
         && s.apps[a].last == 0 && s.apps[a].reopens == 0)
  }

  ghost predicate Safe(c: Config, s: State) {
    ValidState(c, s) && LocksAgree(c, s)
  }

  /** The state after one scheduling choice; a thread that cannot move stays where it is. */
  function After(c: Config, s: State, t: nat): State
    requires ValidState(c, s)
    requires Next(c, s, t).Some? ==> t < |s.threads| && ValidEffect(c, Next(c, s, t).value)
  {
    if Next(c, s, t).Some? then Apply(s, t, Next(c, s, t).value) else s
  }

  lemma AfterSafe(c: Config, s: State, t: nat)
    requires Safe(c, s)
    ensures Next(c, s, t).Some? ==> t < |s.threads| && LockRule(c, s, t, Next(c, s, t).value)
    ensures Safe(c, After(c, s, t))
  {
    if Next(c, s, t).Some? {
      NextLockRule(c, s, t);
      ApplyKeepsLocks(c, s, t, Next(c, s, t).value);
    }
  }

  /** The state after a whole schedule. */
  ghost function Run(c: Config, s: State, schedule: seq<nat>): (r: State)
    requires Safe(c, s)
    ensures Safe(c, r)
  {
    if schedule == [] then s
    else
      var before := Run(c, s, schedule[..|schedule| - 1]);
      AfterSafe(c, before, schedule[|schedule| - 1]);
      After(c, before, schedule[|schedule| - 1])
  }
}
