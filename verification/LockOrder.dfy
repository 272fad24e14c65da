/** Deadlock freedom of the locks of loggers, appenders, manager, variables and registry.

    A thread's program is a list of lock operations and calls. A call is expanded when it is
    reached, from the state the world has then: which appenders a logger has, how many listeners a
    variable has. What the listeners do is chosen anew for every announcement, among the operations
    the `logs` listener is made of. */
module LockOrder {
  import opened Wrappers

  /** Logger 0 is the root. */
  datatype Lock = Registry | VarLock(v: nat) | Manager | LoggerLock(l: nat) | AppenderLock(a: nat)

  /** Mutexes and spin locks are always exclusive; only variables and the registry are read-locked. */
  datatype Mode = Shared | Exclusive

  function Rank(k: Lock): nat {
    match k
    case Registry => 0
    case VarLock(_) => 1
    case Manager => 2
    case LoggerLock(l) => if l == 0 then 4 else 3
    case AppenderLock(_) => 5
  }

  datatype Call =
    | Log(l: nat, level: nat, time: nat)
    | Fan(l: nat, level: nat, time: nat)
    | AppendTo(a: nat, level: nat, time: nat)
    | SetLoggerFormatter(l: nat)
    | LoggerYaml(l: nat)
    | EachAppender(l: nat)
    | AddAppender(l: nat, a: nat, bare: bool)
    | DelAppender(l: nat, a: nat)
    | ClearAppender(l: nat)
    | LoggerFormatter(l: nat)
    | TouchAppender(a: nat)
    | SetLevel(l: nat, level: nat)
    | GetLogger(l: nat)
    | ManagerYaml
    | EachLogger
    | ReadVar(v: nat)
    | SetValue(v: nat, x: int, react: seq<seq<Call>>)
    | Announce(v: nat, x: int, react: seq<seq<Call>>)
    | EditListeners(v: nat, count: nat)
    | Lookup(v: nat, sameType: bool)
    | LookupBody(v: nat, sameType: bool)
    | LookupBase
    | LookupTyped
    | Visit
    | EachVar
    | Load(todo: seq<Loading>)

  /** A path of a loaded tree: the variable there, its new value if the text converts, and what
      each of its listeners makes of the change. */
  datatype Loading = Loading(v: nat, x: Option<int>, react: seq<seq<Call>>)

  /** What a program does to the shared data: the first group changes the world below, the second
      only uses data of which the world keeps no record. */
  datatype Edit =
    | Push(l: nat, a: nat)
    | Drop(l: nat, a: nat)
    | Clear(l: nat)
    | Level(l: nat, level: nat)
    | Know(l: nat)
    | Reopened(a: nat, time: nat)
    | Value(v: nat, x: int)
    | Listeners(v: nat, count: nat)
    | Register(v: nat)
    | UseAppender(a: nat)
    | UseFormatter(l: nat)
    | ReadValue(v: nat)
    | ReadRegistry

  datatype Prog =
    | Done
    | Acquire(lock: Lock, mode: Mode, next: Prog)
    | Release(lock: Lock, next: Prog)
    | Do(call: Call, next: Prog)
    | Set(edit: Edit, next: Prog)

  /** The parts of the shared state that decide which locks a call takes. Files are the appenders
      with a last reopen time. */
  datatype World = World(apps: map<nat, seq<nat>>, level: map<nat, nat>, appLevel: map<nat, nat>,
                         lastTime: map<nat, nat>, known: seq<nat>, vars: seq<nat>, values: map<nat, int>,
                         listeners: map<nat, nat>)

  function Apps(w: World, l: nat): seq<nat> {
    if l in w.apps then w.apps[l] else []
  }

  function At(m: map<nat, nat>, i: nat): nat {
    if i in m then m[i] else 0
  }

  /** What the registered listeners of `v` do: one entry of `react` each. */
  function Reactions(w: World, v: nat, react: seq<seq<Call>>): seq<seq<Call>> {
    if At(w.listeners, v) < |react| then react[..At(w.listeners, v)] else react
  }

  function Without(xs: seq<nat>, x: nat): seq<nat> {
    if xs == [] then [] else if xs[0] == x then xs[1..] else [xs[0]] + Without(xs[1..], x)
  }

  function Edited(w: World, e: Edit): World {
    match e
    case Push(l, a) => w.(apps := w.apps[l := Apps(w, l) + [a]])
    case Drop(l, a) => w.(apps := w.apps[l := Without(Apps(w, l), a)])
    case Clear(l) => w.(apps := w.apps[l := []])
    case Level(l, level) => w.(level := w.level[l := level])
    case Know(l) => if l in w.known then w else w.(known := w.known + [l])
    case Reopened(a, time) => w.(lastTime := w.lastTime[a := time])
    case Value(v, x) => w.(values := w.values[v := x])
    case Listeners(v, count) => w.(listeners := w.listeners[v := count])
    case Register(v) => if v in w.vars then w else w.(vars := w.vars + [v])
    case _ => w
  }

  // ------------------------------------------------------------------ what calls do

  function Under(k: Lock, mode: Mode, e: Edit, next: Prog): Prog {
    Acquire(k, mode, Set(e, Release(k, next)))
  }

  function UsingAppender(a: nat, next: Prog): Prog {
    Under(AppenderLock(a), Exclusive, UseAppender(a), next)
  }

  function DoAll(calls: seq<Call>, next: Prog): Prog {
    if calls == [] then next else Do(calls[0], DoAll(calls[1..], next))
  }

  function DoEach(react: seq<seq<Call>>, next: Prog): Prog {
    if react == [] then next else DoAll(react[0], DoEach(react[1..], next))
  }

  function AppendCalls(apps: seq<nat>, level: nat, time: nat): seq<Call> {
    seq(|apps|, i requires 0 <= i < |apps| => AppendTo(apps[i], level, time))
  }

  function TouchCalls(apps: seq<nat>): seq<Call> {
    seq(|apps|, i requires 0 <= i < |apps| => TouchAppender(apps[i]))
  }

  function YamlCalls(loggers: seq<nat>): seq<Call> {
    seq(|loggers|, i requires 0 <= i < |loggers| => LoggerYaml(loggers[i]))
  }

  /** A visitor that prints each variable: its value is read, then a line goes to the root. */
  function VisitCalls(vars: seq<nat>): seq<Call> {
    if vars == [] then [] else [ReadVar(vars[0]), Log(0, 2, 0)] + VisitCalls(vars[1..])
  }

  /** Loading looks every path up, then sets the variable or reports a failed conversion. */
  function LoadCalls(todo: seq<Loading>): seq<Call> {
    if todo == [] then []
    else
      var m := todo[0];
      [LookupBase, if m.x.Some? then SetValue(m.v, m.x.value, m.react) else Log(0, 4, 0)] + LoadCalls(todo[1..])
  }

  /** The program that carries the call out and then goes on with `next`. */
  function Expand(w: World, c: Call, next: Prog): Prog {
    match c
    case Log(l, level, time) =>
      Acquire(LoggerLock(l), Exclusive, Do(Fan(l, level, time), Release(LoggerLock(l), next)))
    case Fan(l, level, time) =>
      if level < At(w.level, l) then next
      else if Apps(w, l) != [] then DoAll(AppendCalls(Apps(w, l), level, time), next)
      else if l != 0 then Do(Log(0, level, time), next)
      else next
    case AppendTo(a, level, time) =>
      if level < At(w.appLevel, a) then next
      else if a in w.lastTime && time >= w.lastTime[a] + 3 then
        UsingAppender(a, Set(Reopened(a, time), UsingAppender(a, next)))
      else UsingAppender(a, next)
    case SetLoggerFormatter(l) =>
      Acquire(LoggerLock(l), Exclusive, Set(UseFormatter(l), Do(EachAppender(l), Release(LoggerLock(l), next))))
    case LoggerYaml(l) =>
      Acquire(LoggerLock(l), Exclusive, Set(UseFormatter(l), Do(EachAppender(l), Release(LoggerLock(l), next))))
    case EachAppender(l) => DoAll(TouchCalls(Apps(w, l)), next)
    case AddAppender(l, a, bare) =>
      var push := Set(Push(l, a), Release(LoggerLock(l), next));
      Acquire(LoggerLock(l), Exclusive, UsingAppender(a, if bare then UsingAppender(a, push) else push))
    case DelAppender(l, a) => Under(LoggerLock(l), Exclusive, Drop(l, a), next)
    case ClearAppender(l) => Under(LoggerLock(l), Exclusive, Clear(l), next)
    case LoggerFormatter(l) => Under(LoggerLock(l), Exclusive, UseFormatter(l), next)
    case TouchAppender(a) => UsingAppender(a, next)
    case SetLevel(l, level) => Set(Level(l, level), next)
    case GetLogger(l) => Under(Manager, Exclusive, Know(l), next)
    case ManagerYaml => Acquire(Manager, Exclusive, Do(EachLogger, Release(Manager, next)))
    case EachLogger => DoAll(YamlCalls(w.known), next)
    case ReadVar(v) => Under(VarLock(v), Shared, ReadValue(v), next)
    case SetValue(v, x, react) => Acquire(VarLock(v), Shared, Do(Announce(v, x, react), next))
    case Announce(v, x, react) =>
      if v in w.values && w.values[v] == x then Release(VarLock(v), next)
      else
        DoEach(Reactions(w, v, react), Release(VarLock(v), Under(VarLock(v), Exclusive, Value(v, x), next)))
    case EditListeners(v, count) => Under(VarLock(v), Exclusive, Listeners(v, count), next)
    case Lookup(v, sameType) =>
      Acquire(Registry, Exclusive, Do(LookupBody(v, sameType), Release(Registry, next)))
    case LookupBody(v, sameType) =>
      if v !in w.vars then Set(Register(v), next)
      else if sameType then Do(Log(0, 2, 0), next)
      else Do(ReadVar(v), Do(Log(0, 4, 0), next))
    case LookupBase => Under(Registry, Exclusive, ReadRegistry, next)
    case LookupTyped => Under(Registry, Shared, ReadRegistry, next)
    case Visit => Acquire(Registry, Shared, Do(EachVar, Release(Registry, next)))
    case EachVar => DoAll(VisitCalls(w.vars), next)
    case Load(todo) => DoAll(LoadCalls(todo), next)
  }

  // ------------------------------------------------------------------- steps

  datatype Thread = Thread(held: map<Lock, Mode>, prog: Prog)

  datatype State = State(world: World, threads: seq<Thread>)

  /** The thread does not hold the lock itself, and nobody else holds it in a way that excludes
      `mode`. */
  predicate Available(s: State, t: nat, k: Lock, mode: Mode)
    requires t < |s.threads|
  {
    && k !in s.threads[t].held
    && forall u :: 0 <= u < |s.threads| && u != t && k in s.threads[u].held ==>
         mode == Shared && s.threads[u].held[k] == Shared
  }

  /** One step of thread `t`, or None when it has finished or waits. */
  function Step(s: State, t: nat): Option<State>
    requires t < |s.threads|
  {
    var th := s.threads[t];
    match th.prog
    case Done => None
    case Acquire(k, mode, next) =>
      if Available(s, t, k, mode) then Some(s.(threads := s.threads[t := Thread(th.held[k := mode], next)]))
      else None
    case Release(k, next) => Some(s.(threads := s.threads[t := Thread(th.held - {k}, next)]))
    case Do(c, next) => Some(s.(threads := s.threads[t := Thread(th.held, Expand(s.world, c, next))]))
    case Set(e, next) => Some(State(Edited(s.world, e), s.threads[t := Thread(th.held, next)]))
  }

  // ------------------------------------------------------- the climbing discipline

  /** The least rank of a lock that a call may take. */
  function MinRank(c: Call): nat {
    match c
    case Log(l, _, _) => Rank(LoggerLock(l))
    case Fan(l, _, _) => Rank(LoggerLock(l)) + 1
    case AppendTo(_, _, _) => 5
    case SetLoggerFormatter(l) => Rank(LoggerLock(l))
    case LoggerYaml(l) => Rank(LoggerLock(l))
    case EachAppender(_) => 5
    case AddAppender(l, _, _) => Rank(LoggerLock(l))
    case DelAppender(l, _) => Rank(LoggerLock(l))
    case ClearAppender(l) => Rank(LoggerLock(l))
    case LoggerFormatter(l) => Rank(LoggerLock(l))
    case TouchAppender(_) => 5
    case SetLevel(_, _) => 6
    case GetLogger(_) => 2
    case ManagerYaml => 2
    case EachLogger => 3
    case ReadVar(_) => 1
    case SetValue(_, _, _) => 1
    case Announce(_, _, _) => 1
    case EditListeners(_, _) => 1
    case Lookup(_, _) => 0
    case LookupBody(_, _) => 1
    case LookupBase => 0
    case LookupTyped => 0
    case Visit => 0
    case EachVar => 1
    case Load(_) => 0
  }

  /** A call may enter holding one lock that it gives back itself. */
  function HandedOver(c: Call): set<Lock> {
    if c.Announce? then {VarLock(c.v)} else {}
  }

  /** What the listener on `logs` does: log to the root, look loggers up and patch them. */
  predicate ListenerCall(c: Call) {
    || (c.Log? && c.l == 0) || c.GetLogger? || c.SetLevel? || c.SetLoggerFormatter? || c.ClearAppender?
    || c.AddAppender? || c.TouchAppender?
  }

  predicate GoodReactions(react: seq<seq<Call>>) {
    forall i, j :: 0 <= i < |react| && 0 <= j < |react[i]| ==> ListenerCall(react[i][j])
  }

  predicate GoodCall(c: Call) {
    match c
    case SetValue(_, _, react) => GoodReactions(react)
    case Announce(_, _, react) => GoodReactions(react)
    case Load(todo) => forall i :: 0 <= i < |todo| ==> GoodReactions(todo[i].react)
    case _ => true
  }

  predicate Below(held: set<Lock>, rank: nat) {
    forall k :: k in held ==> Rank(k) < rank
  }

  /** Every acquisition climbs above everything held, releases give back held locks, and nothing
      is held at the end. */
  ghost predicate Climbs(held: set<Lock>, p: Prog)
    decreases p
  {
    match p
    case Done => held == {}
    case Acquire(k, _, next) => Below(held, Rank(k)) && Climbs(held + {k}, next)
    case Release(k, next) => k in held && Climbs(held - {k}, next)
    case Do(c, next) =>
      GoodCall(c) && HandedOver(c) <= held && Below(held - HandedOver(c), MinRank(c))
      && Climbs(held - HandedOver(c), next)
    case Set(_, next) => Climbs(held, next)
  }

  lemma InAndOut(held: set<Lock>, k: Lock)
    requires Below(held, Rank(k))
    ensures held + {k} - {k} == held
  {
  }

  lemma UnderClimbs(held: set<Lock>, k: Lock, mode: Mode, e: Edit, next: Prog)
    requires Below(held, Rank(k)) && Climbs(held, next)
    ensures Climbs(held, Under(k, mode, e, next))
  {
    InAndOut(held, k);
    assert Climbs(held + {k}, Release(k, next));
  }

  lemma CallClimbs(held: set<Lock>, k: Lock, mode: Mode, c: Call, next: Prog)
    requires Below(held, Rank(k)) && Climbs(held, next)
    requires GoodCall(c) && HandedOver(c) == {} && Rank(k) < MinRank(c)
    ensures Climbs(held, Acquire(k, mode, Do(c, Release(k, next))))
  {
    InAndOut(held, k);
    assert held + {k} - {} == held + {k};
    assert Climbs(held + {k}, Release(k, next));
    assert Climbs(held + {k}, Do(c, Release(k, next)));
  }

  lemma {:induction false} DoAllClimbs(held: set<Lock>, calls: seq<Call>, next: Prog)
    requires Climbs(held, next)
    requires forall i :: 0 <= i < |calls| ==>
               GoodCall(calls[i]) && HandedOver(calls[i]) == {} && Below(held, MinRank(calls[i]))
    ensures Climbs(held, DoAll(calls, next))
  {
    if calls != [] {
      DoAllClimbs(held, calls[1..], next);
      assert held - {} == held;
    }
  }

  lemma {:induction false} DoEachClimbs(held: set<Lock>, react: seq<seq<Call>>, next: Prog)
    requires Climbs(held, next) && Below(held, 2) && GoodReactions(react)
    ensures Climbs(held, DoEach(react, next))
  {
    if react != [] {
      assert forall i, j :: 0 <= i < |react[1..]| && 0 <= j < |react[1..][i]| ==> react[1..][i][j] == react[i + 1][j];
      DoEachClimbs(held, react[1..], next);
      DoAllClimbs(held, react[0], DoEach(react[1..], next));
    }
  }

  lemma {:induction false} VisitCallsGood(vars: seq<nat>, i: nat)
    requires i < |VisitCalls(vars)|
    ensures var c := VisitCalls(vars)[i]; c.ReadVar? || (c.Log? && c.l == 0)
  {
    if i >= 2 {
      VisitCallsGood(vars[1..], i - 2);
    }
  }

  lemma {:induction false} LoadCallsGood(todo: seq<Loading>, i: nat)
    requires i < |LoadCalls(todo)| && GoodCall(Load(todo))
    ensures var c := LoadCalls(todo)[i]; GoodCall(c) && (c.LookupBase? || c.SetValue? || c.Log?)
  {
    if i >= 2 {
      LoadCallsGood(todo[1..], i - 2);
    }
  }

  /** The operations on loggers and appenders keep the discipline. */
  lemma LoggerCallsClimb(w: World, held: set<Lock>, c: Call, next: Prog)
    requires c.Log? || c.Fan? || c.AppendTo? || c.SetLoggerFormatter? || c.LoggerYaml? || c.EachAppender?
    requires Below(held, MinRank(c)) && Climbs(held, next)
    ensures Climbs(held, Expand(w, c, next))
  {
    match c
    case Log(l, level, time) => CallClimbs(held, LoggerLock(l), Exclusive, Fan(l, level, time), next);
    case SetLoggerFormatter(l) => CallClimbs(held, LoggerLock(l), Exclusive, EachAppender(l), next);
    case LoggerYaml(l) => CallClimbs(held, LoggerLock(l), Exclusive, EachAppender(l), next);
    case Fan(l, level, time) =>
      DoAllClimbs(held, AppendCalls(Apps(w, l), level, time), next);
      assert held - {} == held;
    case AppendTo(a, _, time) =>
      UnderClimbs(held, AppenderLock(a), Exclusive, UseAppender(a), next);
      UnderClimbs(held, AppenderLock(a), Exclusive, UseAppender(a), Set(Reopened(a, time), UsingAppender(a, next)));
    case EachAppender(l) => DoAllClimbs(held, TouchCalls(Apps(w, l)), next);
  }

  lemma AppenderListCallsClimb(w: World, held: set<Lock>, c: Call, next: Prog)
    requires c.AddAppender? || c.DelAppender? || c.ClearAppender? || c.LoggerFormatter? || c.TouchAppender?
             || c.SetLevel?
    requires Below(held, MinRank(c)) && Climbs(held, next)
    ensures Climbs(held, Expand(w, c, next))
  {
    match c
    case AddAppender(l, a, bare) =>
      var inside := held + {LoggerLock(l)};
      var push := Set(Push(l, a), Release(LoggerLock(l), next));
      InAndOut(held, LoggerLock(l));
      assert Climbs(inside, Release(LoggerLock(l), next));
      UnderClimbs(inside, AppenderLock(a), Exclusive, UseAppender(a), push);
      UnderClimbs(inside, AppenderLock(a), Exclusive, UseAppender(a), UsingAppender(a, push));
    case DelAppender(l, a) => UnderClimbs(held, LoggerLock(l), Exclusive, Drop(l, a), next);
    case ClearAppender(l) => UnderClimbs(held, LoggerLock(l), Exclusive, Clear(l), next);
    case LoggerFormatter(l) => UnderClimbs(held, LoggerLock(l), Exclusive, UseFormatter(l), next);
    case TouchAppender(a) => UnderClimbs(held, AppenderLock(a), Exclusive, UseAppender(a), next);
    case SetLevel(_, _) =>
  }

  lemma ConfigCallsClimb(w: World, held: set<Lock>, c: Call, next: Prog)
    requires c.GetLogger? || c.ManagerYaml? || c.EachLogger? || c.ReadVar? || c.EditListeners?
    requires GoodCall(c) && Below(held, MinRank(c)) && Climbs(held, next)
    ensures Climbs(held, Expand(w, c, next))
  {
    match c
    case GetLogger(l) => UnderClimbs(held, Manager, Exclusive, Know(l), next);
    case ManagerYaml => CallClimbs(held, Manager, Exclusive, EachLogger, next);
    case EachLogger => DoAllClimbs(held, YamlCalls(w.known), next);
    case ReadVar(v) => UnderClimbs(held, VarLock(v), Shared, ReadValue(v), next);
    case EditListeners(v, count) => UnderClimbs(held, VarLock(v), Exclusive, Listeners(v, count), next);
  }

  lemma RegistryCallsClimb(w: World, held: set<Lock>, c: Call, next: Prog)
    requires c.Lookup? || c.LookupBase? || c.LookupTyped? || c.Visit?
    requires Below(held, MinRank(c)) && Climbs(held, next)
    ensures Climbs(held, Expand(w, c, next))
  {
    match c
    case Lookup(v, sameType) => CallClimbs(held, Registry, Exclusive, LookupBody(v, sameType), next);
    case LookupBase => UnderClimbs(held, Registry, Exclusive, ReadRegistry, next);
    case LookupTyped => UnderClimbs(held, Registry, Shared, ReadRegistry, next);
    case Visit => CallClimbs(held, Registry, Shared, EachVar, next);
  }

  lemma LookupBodyClimbs(w: World, held: set<Lock>, v: nat, sameType: bool, next: Prog)
    requires Below(held, 1) && Climbs(held, next)
    ensures Climbs(held, Expand(w, LookupBody(v, sameType), next))
  {
    assert held - {} == held;
    assert Climbs(held, Do(Log(0, 4, 0), next));
  }

  lemma EachVarClimbs(held: set<Lock>, vars: seq<nat>, next: Prog)
    requires Below(held, 1) && Climbs(held, next)
    ensures Climbs(held, DoAll(VisitCalls(vars), next))
  {
    var calls := VisitCalls(vars);
    forall i | 0 <= i < |calls|
      ensures GoodCall(calls[i]) && HandedOver(calls[i]) == {} && Below(held, MinRank(calls[i]))
    {
      VisitCallsGood(vars, i);
    }
    DoAllClimbs(held, calls, next);
  }

  lemma LoadClimbs(held: set<Lock>, todo: seq<Loading>, next: Prog)
    requires GoodCall(Load(todo)) && Below(held, 0) && Climbs(held, next)
    ensures Climbs(held, DoAll(LoadCalls(todo), next))
  {
    var calls := LoadCalls(todo);
    forall i | 0 <= i < |calls|
      ensures GoodCall(calls[i]) && HandedOver(calls[i]) == {} && Below(held, MinRank(calls[i]))
    {
      LoadCallsGood(todo, i);
    }
    DoAllClimbs(held, calls, next);
  }

  /** setValue gives its read lock back before it takes the write lock. */
  lemma AnnounceClimbs(w: World, held: set<Lock>, v: nat, x: int, react: seq<seq<Call>>, next: Prog)
    requires GoodReactions(react) && VarLock(v) in held && Below(held - {VarLock(v)}, 1)
    requires Climbs(held - {VarLock(v)}, next)
    ensures Climbs(held, Expand(w, Announce(v, x, react), next))
  {
    var k := VarLock(v);
    var write := Under(k, Exclusive, Value(v, x), next);
    UnderClimbs(held - {k}, k, Exclusive, Value(v, x), next);
    assert Climbs(held, Release(k, write));
    DoEachClimbs(held, Reactions(w, v, react), Release(k, write));
  }

  lemma SetValueClimbs(held: set<Lock>, v: nat, x: int, react: seq<seq<Call>>, next: Prog)
    requires GoodReactions(react) && Below(held, 1) && Climbs(held, next)
    ensures Climbs(held, Acquire(VarLock(v), Shared, Do(Announce(v, x, react), next)))
  {
  }

  lemma ExpandClimbs(w: World, held: set<Lock>, c: Call, next: Prog)
    requires Climbs(held, Do(c, next))
    ensures Climbs(held, Expand(w, c, next))
  {
    if c.Announce? {
      AnnounceClimbs(w, held, c.v, c.x, c.react, next);
    } else {
      assert held - {} == held;
      if c.SetValue? {
        SetValueClimbs(held, c.v, c.x, c.react, next);
      } else if c.EachVar? {
        EachVarClimbs(held, w.vars, next);
      } else if c.Load? {
        LoadClimbs(held, c.todo, next);
      } else if c.LookupBody? {
        LookupBodyClimbs(w, held, c.v, c.sameType, next);
      } else if c.Lookup? || c.LookupBase? || c.LookupTyped? || c.Visit? {
        RegistryCallsClimb(w, held, c, next);
      } else if c.GetLogger? || c.ManagerYaml? || c.EachLogger? || c.ReadVar? || c.EditListeners? {
        ConfigCallsClimb(w, held, c, next);
      } else if c.Log? || c.Fan? || c.AppendTo? || c.SetLoggerFormatter? || c.LoggerYaml? || c.EachAppender? {
        LoggerCallsClimb(w, held, c, next);
      } else {
        AppenderListCallsClimb(w, held, c, next);
      }
    }
  }

  // ---------------------------------------------------------------------- invariant

  /** Two threads hold one lock only if both read. */
  ghost predicate Exclusion(s: State) {
    forall t, u, k :: 0 <= t < |s.threads| && 0 <= u < |s.threads| && t != u
                      && k in s.threads[t].held && k in s.threads[u].held ==>
      s.threads[t].held[k] == Shared && s.threads[u].held[k] == Shared
  }

  ghost predicate Disciplined(s: State) {
    Exclusion(s) && forall t :: 0 <= t < |s.threads| ==> Climbs(s.threads[t].held.Keys, s.threads[t].prog)
  }

  lemma StepClimbs(s: State, t: nat)
    requires Disciplined(s) && t < |s.threads| && Step(s, t).Some?
    ensures Climbs(Step(s, t).value.threads[t].held.Keys, Step(s, t).value.threads[t].prog)
  {
    var th := s.threads[t];
    match th.prog
    case Acquire(k, mode, _) => assert th.held[k := mode].Keys == th.held.Keys + {k};
    case Release(k, _) => assert (th.held - {k}).Keys == th.held.Keys - {k};
    case Do(c, next) => ExpandClimbs(s.world, th.held.Keys, c, next);
    case Set(_, _) =>
  }

  /** A step takes no lock that another thread holds in a conflicting way. */
  lemma StepCompatible(s: State, t: nat, u: nat, k: Lock)
    requires Exclusion(s) && t < |s.threads| && u < |s.threads| && t != u && Step(s, t).Some?
    requires k in Step(s, t).value.threads[t].held && k in s.threads[u].held
    ensures Step(s, t).value.threads[t].held[k] == Shared && s.threads[u].held[k] == Shared
  {
  }

  lemma StepDisciplined(s: State, t: nat)
    requires Disciplined(s) && t < |s.threads| && Step(s, t).Some?
    ensures Disciplined(Step(s, t).value)
  {
    StepClimbs(s, t);
    var s' := Step(s, t).value;
    var th := s'.threads[t];
    assert s'.threads == s.threads[t := th];
    forall u, k | 0 <= u < |s.threads| && u != t && k in th.held && k in s.threads[u].held
      ensures th.held[k] == Shared && s.threads[u].held[k] == Shared
    {
      StepCompatible(s, t, u, k);
    }
  }

  ghost function Run(s: State, schedule: seq<nat>): State {
    if schedule == [] then s
    else
      var before := Run(s, schedule[..|schedule| - 1]);
      var t := schedule[|schedule| - 1];
      if t < |before.threads| && Step(before, t).Some? then Step(before, t).value else before
  }

  lemma {:induction false} RunDisciplined(s: State, schedule: seq<nat>)
    requires Disciplined(s)
    ensures Disciplined(Run(s, schedule))
  {
    if schedule != [] {
      var last := |schedule| - 1;
      RunDisciplined(s, schedule[..last]);
      var before := Run(s, schedule[..last]);
      if schedule[last] < |before.threads| && Step(before, schedule[last]).Some? {
        StepDisciplined(before, schedule[last]);
      }
    }
  }

  /** From a thread that is not done, following who holds what it waits for ends at one that runs. */
  lemma {:induction false} SomeoneRuns(s: State, t: nat) returns (u: nat)
    requires Disciplined(s) && t < |s.threads| && s.threads[t].prog != Done
    ensures u < |s.threads| && Step(s, u).Some?
    decreases if s.threads[t].prog.Acquire? then 6 - Rank(s.threads[t].prog.lock) else 7
  {
    if Step(s, t).Some? {
      return t;
    }
    var k := s.threads[t].prog.lock;
    var holder :| 0 <= holder < |s.threads| && holder != t && k in s.threads[holder].held
                  && !(s.threads[t].prog.mode == Shared && s.threads[holder].held[k] == Shared);
    assert s.threads[holder].prog != Done;
    if Step(s, holder).Some? {
      return holder;
    }
    u := SomeoneRuns(s, holder);
  }

  /** A thread about to run a list of calls, holding nothing. */
  predicate Fresh(th: Thread) {
    th.held == map[] && FreshProg(th.prog)
  }

  predicate FreshProg(p: Prog) {
    p.Done? || (p.Do? && GoodCall(p.call) && !p.call.Announce? && FreshProg(p.next))
  }

  lemma {:induction false} FreshClimbs(p: Prog)
    requires FreshProg(p)
    ensures Climbs({}, p)
  {
    if p.Do? {
      FreshClimbs(p.next);
      assert {} - HandedOver(p.call) == {};
    }
  }

  /** Deadlock freedom: whatever finite lists of operations the threads run and however they are
      scheduled, as long as one thread is not done, some thread can take a step. */
  lemma NoDeadlock(s: State, schedule: seq<nat>, t: nat) returns (u: nat)
    requires forall i :: 0 <= i < |s.threads| ==> Fresh(s.threads[i])
    requires t < |Run(s, schedule).threads| && Run(s, schedule).threads[t].prog != Done
    ensures u < |Run(s, schedule).threads| && Step(Run(s, schedule), u).Some?
  {
    forall i | 0 <= i < |s.threads| ensures Climbs(s.threads[i].held.Keys, s.threads[i].prog) {
      FreshClimbs(s.threads[i].prog);
      assert s.threads[i].held.Keys == {};
    }
    RunDisciplined(s, schedule);
    u := SomeoneRuns(Run(s, schedule), t);
  }
}
