/** Every access to shared data is made under the lock that guards it, in every interleaving. */
module LockGuards {
  import opened Wrappers
  import opened LockOrder

  datatype Access = Access(lock: Lock, mode: Mode)

  /** The lock an edit needs. Levels and the last reopen time are changed without one. */
  function GuardOf(e: Edit): Option<Access> {
    match e
    case Push(l, _) => Some(Access(LoggerLock(l), Exclusive))
    case Drop(l, _) => Some(Access(LoggerLock(l), Exclusive))
    case Clear(l) => Some(Access(LoggerLock(l), Exclusive))
    case UseFormatter(l) => Some(Access(LoggerLock(l), Exclusive))
    case UseAppender(a) => Some(Access(AppenderLock(a), Exclusive))
    case Know(_) => Some(Access(Manager, Exclusive))
    case Value(v, _) => Some(Access(VarLock(v), Exclusive))
    case Listeners(v, _) => Some(Access(VarLock(v), Exclusive))
    case ReadValue(v) => Some(Access(VarLock(v), Shared))
    case Register(_) => Some(Access(Registry, Exclusive))
    case ReadRegistry => Some(Access(Registry, Shared))
    case Level(_, _) => None
    case Reopened(_, _) => None
  }

  /** The lock that covers what a call reads when it is expanded. */
  function ReadBy(c: Call): Option<Access> {
    match c
    case Fan(l, _, _) => Some(Access(LoggerLock(l), Shared))
    case EachAppender(l) => Some(Access(LoggerLock(l), Shared))
    case EachLogger => Some(Access(Manager, Shared))
    case LookupBody(_, _) => Some(Access(Registry, Exclusive))
    case EachVar => Some(Access(Registry, Shared))
    case Announce(v, _, _) => Some(Access(VarLock(v), Shared))
    case _ => None
  }

  predicate Allowed(held: map<Lock, Mode>, a: Option<Access>) {
    a.Some? ==> a.value.lock in held && (a.value.mode == Exclusive ==> held[a.value.lock] == Exclusive)
  }

  /** No access is made without its lock, and no lock is taken twice. */
  ghost predicate Guarded(held: map<Lock, Mode>, p: Prog)
    decreases p
  {
    match p
    case Done => true
    case Acquire(k, mode, next) => k !in held && Guarded(held[k := mode], next)
    case Release(k, next) => Guarded(held - {k}, next)
    case Do(c, next) => Allowed(held, ReadBy(c)) && Guarded(held - HandedOver(c), next)
    case Set(e, next) => Allowed(held, GuardOf(e)) && Guarded(held, next)
  }

  // --------------------------------------------------------------- calls keep to it

  lemma InOut(held: map<Lock, Mode>, k: Lock, mode: Mode)
    requires k !in held
    ensures held[k := mode] - {k} == held
  {
  }

  lemma NotHeld(held: map<Lock, Mode>, k: Lock, rank: nat)
    requires Below(held.Keys, rank) && rank <= Rank(k)
    ensures k !in held
  {
  }

  lemma UnderGuarded(held: map<Lock, Mode>, k: Lock, mode: Mode, e: Edit, next: Prog)
    requires k !in held && Allowed(held[k := mode], GuardOf(e)) && Guarded(held, next)
    ensures Guarded(held, Under(k, mode, e, next))
  {
    InOut(held, k, mode);
    assert Guarded(held[k := mode], Release(k, next));
  }

  lemma CallGuarded(held: map<Lock, Mode>, k: Lock, mode: Mode, c: Call, next: Prog)
    requires k !in held && Allowed(held[k := mode], ReadBy(c)) && HandedOver(c) == {} && Guarded(held, next)
    ensures Guarded(held, Acquire(k, mode, Do(c, Release(k, next))))
    ensures Guarded(held[k := mode], Do(c, Release(k, next)))
  {
    InOut(held, k, mode);
    assert held[k := mode] - {} == held[k := mode];
    assert Guarded(held[k := mode], Release(k, next));
  }

  /** Calls that read nothing before they take a lock. */
  predicate Public(c: Call) {
    ReadBy(c) == None && HandedOver(c) == {}
  }

  lemma {:induction false} DoAllGuarded(held: map<Lock, Mode>, calls: seq<Call>, next: Prog)
    requires Guarded(held, next) && forall i :: 0 <= i < |calls| ==> Public(calls[i])
    ensures Guarded(held, DoAll(calls, next))
  {
    if calls != [] {
      DoAllGuarded(held, calls[1..], next);
      assert held - {} == held;
    }
  }

  lemma {:induction false} DoEachGuarded(held: map<Lock, Mode>, react: seq<seq<Call>>, next: Prog)
    requires Guarded(held, next) && GoodReactions(react)
    ensures Guarded(held, DoEach(react, next))
  {
    if react != [] {
      assert forall i, j :: 0 <= i < |react[1..]| && 0 <= j < |react[1..][i]| ==> react[1..][i][j] == react[i + 1][j];
      DoEachGuarded(held, react[1..], next);
      forall j | 0 <= j < |react[0]| ensures Public(react[0][j]) {
        assert ListenerCall(react[0][j]);
      }
      DoAllGuarded(held, react[0], DoEach(react[1..], next));
    }
  }

  lemma LoggerCallsGuarded(w: World, held: map<Lock, Mode>, c: Call, next: Prog)
    requires c.Log? || c.SetLoggerFormatter? || c.LoggerYaml?
    requires Below(held.Keys, MinRank(c)) && Guarded(held, next)
    ensures Guarded(held, Expand(w, c, next))
  {
    var k := LoggerLock(c.l);
    NotHeld(held, k, MinRank(c));
    CallGuarded(held, k, Exclusive, if c.Log? then Fan(c.l, c.level, c.time) else EachAppender(c.l), next);
  }

  lemma DeliveryGuarded(w: World, held: map<Lock, Mode>, c: Call, next: Prog)
    requires c.Fan? || c.EachAppender? || c.AppendTo? || c.TouchAppender?
    requires Below(held.Keys, MinRank(c)) && Guarded(held, next)
    ensures Guarded(held, Expand(w, c, next))
  {
    match c
    case Fan(l, level, time) =>
      DoAllGuarded(held, AppendCalls(Apps(w, l), level, time), next);
      assert held - {} == held;
    case EachAppender(l) => DoAllGuarded(held, TouchCalls(Apps(w, l)), next);
    case AppendTo(a, _, time) =>
      NotHeld(held, AppenderLock(a), 5);
      UnderGuarded(held, AppenderLock(a), Exclusive, UseAppender(a), next);
      UnderGuarded(held, AppenderLock(a), Exclusive, UseAppender(a), Set(Reopened(a, time), UsingAppender(a, next)));
    case TouchAppender(a) =>
      NotHeld(held, AppenderLock(a), 5);
      UnderGuarded(held, AppenderLock(a), Exclusive, UseAppender(a), next);
  }

  lemma AddAppenderGuarded(held: map<Lock, Mode>, l: nat, a: nat, bare: bool, w: World, next: Prog)
    requires Below(held.Keys, Rank(LoggerLock(l))) && Guarded(held, next)
    ensures Guarded(held, Expand(w, AddAppender(l, a, bare), next))
  {
    var inside := held[LoggerLock(l) := Exclusive];
    var push := Set(Push(l, a), Release(LoggerLock(l), next));
    InOut(held, LoggerLock(l), Exclusive);
    assert Guarded(inside, Release(LoggerLock(l), next));
    UnderGuarded(inside, AppenderLock(a), Exclusive, UseAppender(a), push);
    UnderGuarded(inside, AppenderLock(a), Exclusive, UseAppender(a), UsingAppender(a, push));
  }

  lemma EditingCallsGuarded(w: World, held: map<Lock, Mode>, c: Call, next: Prog)
    requires c.DelAppender? || c.ClearAppender? || c.LoggerFormatter? || c.SetLevel? || c.GetLogger?
    requires Below(held.Keys, MinRank(c)) && Guarded(held, next)
    ensures Guarded(held, Expand(w, c, next))
  {
    match c
    case DelAppender(l, a) => UnderGuarded(held, LoggerLock(l), Exclusive, Drop(l, a), next);
    case ClearAppender(l) => UnderGuarded(held, LoggerLock(l), Exclusive, Clear(l), next);
    case LoggerFormatter(l) => UnderGuarded(held, LoggerLock(l), Exclusive, UseFormatter(l), next);
    case GetLogger(l) => UnderGuarded(held, Manager, Exclusive, Know(l), next);
    case SetLevel(_, _) =>
  }

  lemma VariableCallsGuarded(w: World, held: map<Lock, Mode>, c: Call, next: Prog)
    requires c.EditListeners? || c.ReadVar? || c.LookupBase? || c.LookupTyped?
    requires Below(held.Keys, MinRank(c)) && Guarded(held, next)
    ensures Guarded(held, Expand(w, c, next))
  {
    match c
    case EditListeners(v, count) => UnderGuarded(held, VarLock(v), Exclusive, Listeners(v, count), next);
    case ReadVar(v) => UnderGuarded(held, VarLock(v), Shared, ReadValue(v), next);
    case LookupBase => UnderGuarded(held, Registry, Exclusive, ReadRegistry, next);
    case LookupTyped => UnderGuarded(held, Registry, Shared, ReadRegistry, next);
  }

  lemma ListingCallsGuarded(w: World, held: map<Lock, Mode>, c: Call, next: Prog)
    requires c.ManagerYaml? || c.EachLogger? || c.Lookup? || c.Visit?
    requires Below(held.Keys, MinRank(c)) && Guarded(held, next)
    ensures Guarded(held, Expand(w, c, next))
  {
    match c
    case ManagerYaml => CallGuarded(held, Manager, Exclusive, EachLogger, next);
    case EachLogger => DoAllGuarded(held, YamlCalls(w.known), next);
    case Lookup(v, sameType) => CallGuarded(held, Registry, Exclusive, LookupBody(v, sameType), next);
    case Visit => CallGuarded(held, Registry, Shared, EachVar, next);
  }

  lemma RegistryBodiesGuarded(w: World, held: map<Lock, Mode>, c: Call, next: Prog)
    requires c.LookupBody? || c.EachVar? || c.Load?
    requires GoodCall(c) && Allowed(held, ReadBy(c)) && Guarded(held, next)
    ensures Guarded(held, Expand(w, c, next))
  {
    match c
    case LookupBody(v, _) =>
      assert held - {} == held;
      assert Guarded(held, Do(Log(0, 4, 0), next));
    case EachVar =>
      forall i | 0 <= i < |VisitCalls(w.vars)| ensures Public(VisitCalls(w.vars)[i]) {
        VisitCallsGood(w.vars, i);
      }
      DoAllGuarded(held, VisitCalls(w.vars), next);
    case Load(todo) =>
      forall i | 0 <= i < |LoadCalls(todo)| ensures Public(LoadCalls(todo)[i]) {
        LoadCallsGood(todo, i);
      }
      DoAllGuarded(held, LoadCalls(todo), next);
  }

  lemma SetValueGuarded(held: map<Lock, Mode>, v: nat, x: int, react: seq<seq<Call>>, w: World, next: Prog)
    requires VarLock(v) !in held && Guarded(held, next)
    ensures Guarded(held, Expand(w, SetValue(v, x, react), next))
  {
    InOut(held, VarLock(v), Shared);
    assert Guarded(held[VarLock(v) := Shared], Do(Announce(v, x, react), next));
  }

  lemma AnnounceGuarded(w: World, held: map<Lock, Mode>, v: nat, x: int, react: seq<seq<Call>>, next: Prog)
    requires GoodReactions(react) && VarLock(v) in held && Guarded(held - {VarLock(v)}, next)
    ensures Guarded(held, Expand(w, Announce(v, x, react), next))
  {
    var k := VarLock(v);
    UnderGuarded(held - {k}, k, Exclusive, Value(v, x), next);
    var write := Under(k, Exclusive, Value(v, x), next);
    assert Guarded(held, Release(k, write));
    DoEachGuarded(held, Reactions(w, v, react), Release(k, write));
  }

  lemma ExpandGuarded(w: World, held: map<Lock, Mode>, c: Call, next: Prog)
    requires Climbs(held.Keys, Do(c, next)) && Guarded(held, Do(c, next))
    ensures Guarded(held, Expand(w, c, next))
  {
    if c.Announce? {
      AnnounceGuarded(w, held, c.v, c.x, c.react, next);
    } else {
      assert held - {} == held && held.Keys - {} == held.Keys;
      if c.SetValue? {
        SetValueGuarded(held, c.v, c.x, c.react, w, next);
      } else if c.AddAppender? {
        AddAppenderGuarded(held, c.l, c.a, c.bare, w, next);
      } else if c.LookupBody? || c.EachVar? || c.Load? {
        RegistryBodiesGuarded(w, held, c, next);
      } else if c.ManagerYaml? || c.EachLogger? || c.Lookup? || c.Visit? {
        ListingCallsGuarded(w, held, c, next);
      } else if c.Log? || c.SetLoggerFormatter? || c.LoggerYaml? {
        LoggerCallsGuarded(w, held, c, next);
      } else if c.Fan? || c.EachAppender? || c.AppendTo? || c.TouchAppender? {
        DeliveryGuarded(w, held, c, next);
      } else if c.EditListeners? || c.ReadVar? || c.LookupBase? || c.LookupTyped? {
        VariableCallsGuarded(w, held, c, next);
      } else {
        EditingCallsGuarded(w, held, c, next);
      }
    }
  }

  // ------------------------------------------------------------ what calls get done

  /** The edits the program makes itself, in order. */
  function EditsOf(p: Prog): seq<Edit> {
    match p
    case Done => []
    case Acquire(_, _, next) => EditsOf(next)
    case Release(_, next) => EditsOf(next)
    case Do(_, next) => EditsOf(next)
    case Set(e, next) => [e] + EditsOf(next)
  }

  /** The calls it makes, in order. */
  function CallsOf(p: Prog): seq<Call> {
    match p
    case Done => []
    case Acquire(_, _, next) => CallsOf(next)
    case Release(_, next) => CallsOf(next)
    case Do(c, next) => [c] + CallsOf(next)
    case Set(_, next) => CallsOf(next)
  }

  lemma UnderMakes(k: Lock, mode: Mode, e: Edit, next: Prog)
    ensures EditsOf(Under(k, mode, e, next)) == [e] + EditsOf(next)
  {
    assert EditsOf(Set(e, Release(k, next))) == [e] + EditsOf(next);
  }

  lemma {:induction false} DoAllMakes(calls: seq<Call>, next: Prog)
    ensures CallsOf(DoAll(calls, next)) == calls + CallsOf(next) && EditsOf(DoAll(calls, next)) == EditsOf(next)
  {
    if calls != [] {
      DoAllMakes(calls[1..], next);
    }
  }

  lemma {:induction false} DoEachMakes(react: seq<seq<Call>>, next: Prog)
    ensures EditsOf(DoEach(react, next)) == EditsOf(next)
  {
    if react != [] {
      DoEachMakes(react[1..], next);
      DoAllMakes(react[0], DoEach(react[1..], next));
    }
  }

  /** Each editing call makes its one edit. */
  lemma EditingCallsEdit(w: World, c: Call, next: Prog)
    ensures var made := EditsOf(Expand(w, c, next));
            && (c.ClearAppender? ==> made == [Clear(c.l)] + EditsOf(next))
            && (c.DelAppender? ==> made == [Drop(c.l, c.a)] + EditsOf(next))
            && (c.GetLogger? ==> made == [Know(c.l)] + EditsOf(next))
            && (c.SetLevel? ==> made == [Level(c.l, c.level)] + EditsOf(next))
            && (c.EditListeners? ==> made == [Listeners(c.v, c.count)] + EditsOf(next))
            && (c.LookupBody? && c.v !in w.vars ==> made == [Register(c.v)] + EditsOf(next))
  {
    match c
    case ClearAppender(l) => UnderMakes(LoggerLock(l), Exclusive, Clear(l), next);
    case DelAppender(l, a) => UnderMakes(LoggerLock(l), Exclusive, Drop(l, a), next);
    case GetLogger(l) => UnderMakes(Manager, Exclusive, Know(l), next);
    case EditListeners(v, count) => UnderMakes(VarLock(v), Exclusive, Listeners(v, count), next);
    case _ =>
  }

  /** Each reading call makes its one access. */
  lemma ReadingCallsRead(w: World, c: Call, next: Prog)
    ensures var made := EditsOf(Expand(w, c, next));
            && (c.LoggerFormatter? ==> made == [UseFormatter(c.l)] + EditsOf(next))
            && (c.TouchAppender? ==> made == [UseAppender(c.a)] + EditsOf(next))
            && (c.ReadVar? ==> made == [ReadValue(c.v)] + EditsOf(next))
            && (c.LookupBase? || c.LookupTyped? ==> made == [ReadRegistry] + EditsOf(next))
  {
    match c
    case LoggerFormatter(l) => UnderMakes(LoggerLock(l), Exclusive, UseFormatter(l), next);
    case TouchAppender(a) => UnderMakes(AppenderLock(a), Exclusive, UseAppender(a), next);
    case ReadVar(v) => UnderMakes(VarLock(v), Shared, ReadValue(v), next);
    case LookupBase => UnderMakes(Registry, Exclusive, ReadRegistry, next);
    case LookupTyped => UnderMakes(Registry, Shared, ReadRegistry, next);
    case _ =>
  }

  lemma TakesMakes(k: Lock, mode: Mode, c: Call, next: Prog)
    ensures CallsOf(Acquire(k, mode, Do(c, Release(k, next)))) == [c] + CallsOf(next)
  {
    assert CallsOf(Do(c, Release(k, next))) == [c] + CallsOf(next);
  }

  /** A call that walks over something does so under its lock, and reaches all of it in order. */
  lemma WalkingCallsReach(w: World, c: Call, next: Prog)
    ensures var made := CallsOf(Expand(w, c, next));
            && (c.ManagerYaml? ==> made == [EachLogger] + CallsOf(next))
            && (c.EachLogger? ==> made == YamlCalls(w.known) + CallsOf(next))
            && (c.EachAppender? ==> made == TouchCalls(Apps(w, c.l)) + CallsOf(next))
            && (c.Lookup? ==> made == [LookupBody(c.v, c.sameType)] + CallsOf(next))
            && (c.Visit? ==> made == [EachVar] + CallsOf(next))
            && (c.EachVar? ==> made == VisitCalls(w.vars) + CallsOf(next))
            && (c.SetValue? ==> made == [Announce(c.v, c.x, c.react)] + CallsOf(next))
  {
    match c
    case ManagerYaml => TakesMakes(Manager, Exclusive, EachLogger, next);
    case Lookup(v, sameType) => TakesMakes(Registry, Exclusive, LookupBody(v, sameType), next);
    case Visit => TakesMakes(Registry, Shared, EachVar, next);
    case EachLogger => DoAllMakes(YamlCalls(w.known), next);
    case EachAppender(l) => DoAllMakes(TouchCalls(Apps(w, l)), next);
    case EachVar => DoAllMakes(VisitCalls(w.vars), next);
    case _ =>
  }

  /** Removing takes out the first occurrence, if there is one. */
  lemma {:induction false} WithoutFirst(xs: seq<nat>, k: nat, x: nat)
    requires k < |xs| && xs[k] == x && forall j :: 0 <= j < k ==> xs[j] != x
    ensures Without(xs, x) == xs[..k] + xs[k + 1..]
  {
    if k > 0 {
      WithoutFirst(xs[1..], k - 1, x);
      assert xs[..k] == [xs[0]] + xs[1..][..k - 1];
    }
  }

  lemma {:induction false} WithoutNone(xs: seq<nat>, x: nat)
    requires x !in xs
    ensures Without(xs, x) == xs
  {
    if xs != [] {
      WithoutNone(xs[1..], x);
    }
  }

  /** What each edit does to the lists of appenders. */
  lemma ListEditsChange(w: World, e: Edit, l: nat)
    ensures Apps(Edited(w, e), l)
         == if e.Push? && e.l == l then Apps(w, l) + [e.a]
            else if e.Drop? && e.l == l then Without(Apps(w, l), e.a)
            else if e.Clear? && e.l == l then []
            else Apps(w, l)
  {
  }

  /** What each edit does to levels, times and listeners. */
  lemma NumberEditsChange(w: World, e: Edit, l: nat)
    ensures At(Edited(w, e).level, l) == if e.Level? && e.l == l then e.level else At(w.level, l)
    ensures At(Edited(w, e).listeners, l) == if e.Listeners? && e.v == l then e.count else At(w.listeners, l)
    ensures At(Edited(w, e).lastTime, l) == if e.Reopened? && e.a == l then e.time else At(w.lastTime, l)
    ensures Edited(w, e).appLevel == w.appLevel
  {
  }

  /** What each edit does to the manager, */
  lemma KnownEditsChange(w: World, e: Edit, l: nat)
    ensures l in Edited(w, e).known <==> l in w.known || e == Know(l)
  {
    if e.Know? {
      assert Edited(w, e).known == if e.l in w.known then w.known else w.known + [e.l];
    } else {
      assert Edited(w, e).known == w.known;
    }
  }

  /** to the registry, */
  lemma RegistryEditsChange(w: World, e: Edit, v: nat)
    ensures v in Edited(w, e).vars <==> v in w.vars || e == Register(v)
  {
    if e.Register? {
      assert Edited(w, e).vars == if e.v in w.vars then w.vars else w.vars + [e.v];
    } else {
      assert Edited(w, e).vars == w.vars;
    }
  }

  /** and to the values of variables. */
  lemma ValueEditsChange(w: World, e: Edit, l: nat)
    ensures l in Edited(w, e).values <==> l in w.values || (e.Value? && e.v == l)
    ensures l in Edited(w, e).values ==>
              Edited(w, e).values[l] == if e.Value? && e.v == l then e.x else w.values[l]
  {
  }

  /** An appender is looked at before it is added, and once more if it is given a formatter. */
  lemma AddAppenderAdds(w: World, l: nat, a: nat, bare: bool, next: Prog)
    ensures EditsOf(Expand(w, AddAppender(l, a, bare), next))
         == (if bare then [UseAppender(a), UseAppender(a)] else [UseAppender(a)]) + [Push(l, a)] + EditsOf(next)
  {
    var push := Set(Push(l, a), Release(LoggerLock(l), next));
    assert EditsOf(push) == [Push(l, a)] + EditsOf(next);
    UnderMakes(AppenderLock(a), Exclusive, UseAppender(a), push);
    UnderMakes(AppenderLock(a), Exclusive, UseAppender(a), UsingAppender(a, push));
  }

  /** A changed value is stored once, after the listeners have been called. */
  lemma AnnounceStores(w: World, v: nat, x: int, react: seq<seq<Call>>, next: Prog)
    requires !(v in w.values && w.values[v] == x)
    ensures EditsOf(Expand(w, Announce(v, x, react), next)) == [Value(v, x)] + EditsOf(next)
  {
    var write := Under(VarLock(v), Exclusive, Value(v, x), next);
    UnderMakes(VarLock(v), Exclusive, Value(v, x), next);
    DoEachMakes(Reactions(w, v, react), Release(VarLock(v), write));
  }

  /** A log call reaches each appender of the logger once, in order, or the root when there is none. */
  lemma LoggingReaches(w: World, l: nat, level: nat, time: nat, next: Prog)
    ensures CallsOf(Expand(w, Log(l, level, time), next)) == [Fan(l, level, time)] + CallsOf(next)
    ensures level >= At(w.level, l) ==>
              CallsOf(Expand(w, Fan(l, level, time), next))
              == (if Apps(w, l) != [] then AppendCalls(Apps(w, l), level, time)
                  else if l != 0 then [Log(0, level, time)] else [])
                 + CallsOf(next)
  {
    assert CallsOf(Do(Fan(l, level, time), Release(LoggerLock(l), next))) == [Fan(l, level, time)] + CallsOf(next);
    DoAllMakes(AppendCalls(Apps(w, l), level, time), next);
  }

  /** An appender that lets the event through is used, and used before that when it reopens. */
  lemma AppendingUses(w: World, a: nat, level: nat, time: nat, next: Prog)
    requires level >= At(w.appLevel, a)
    ensures EditsOf(Expand(w, AppendTo(a, level, time), next))
         == (if a in w.lastTime && time >= w.lastTime[a] + 3 then [UseAppender(a), Reopened(a, time)] else [])
            + [UseAppender(a)] + EditsOf(next)
  {
    var write := UsingAppender(a, next);
    UnderMakes(AppenderLock(a), Exclusive, UseAppender(a), next);
    assert EditsOf(Set(Reopened(a, time), write)) == [Reopened(a, time)] + EditsOf(write);
    UnderMakes(AppenderLock(a), Exclusive, UseAppender(a), Set(Reopened(a, time), write));
  }

  /** Loading looks each path up, and then sets the variable or logs the failure, in order. */
  lemma {:induction false} LoadingSets(todo: seq<Loading>, k: nat)
    requires k < |todo|
    ensures |LoadCalls(todo)| == 2 * |todo| && LoadCalls(todo)[2 * k] == LookupBase
    ensures LoadCalls(todo)[2 * k + 1]
         == if todo[k].x.Some? then SetValue(todo[k].v, todo[k].x.value, todo[k].react) else Log(0, 4, 0)
  {
    if |todo| > 1 {
      LoadingSets(todo[1..], if k == 0 then 0 else k - 1);
    }
  }

  // ----------------------------------------------------------------------- runs

  ghost predicate AllGuarded(s: State) {
    Disciplined(s) && forall t :: 0 <= t < |s.threads| ==> Guarded(s.threads[t].held, s.threads[t].prog)
  }

  lemma StepGuarded(s: State, t: nat)
    requires AllGuarded(s) && t < |s.threads| && Step(s, t).Some?
    ensures AllGuarded(Step(s, t).value)
  {
    StepDisciplined(s, t);
    var th := s.threads[t];
    if th.prog.Do? {
      ExpandGuarded(s.world, th.held, th.prog.call, th.prog.next);
    }
  }

  lemma {:induction false} RunGuarded(s: State, schedule: seq<nat>)
    requires AllGuarded(s)
    ensures AllGuarded(Run(s, schedule))
  {
    if schedule != [] {
      var last := |schedule| - 1;
      RunGuarded(s, schedule[..last]);
      var before := Run(s, schedule[..last]);
      if schedule[last] < |before.threads| && Step(before, schedule[last]).Some? {
        StepGuarded(before, schedule[last]);
      }
    }
  }

  /** The program is a list of public calls. */
  predicate PublicProg(p: Prog) {
    p.Done? || (p.Do? && Public(p.call) && PublicProg(p.next))
  }

  predicate Initial(s: State) {
    forall t :: 0 <= t < |s.threads| ==> Fresh(s.threads[t]) && PublicProg(s.threads[t].prog)
  }

  lemma {:induction false} PublicIsGuarded(p: Prog)
    requires PublicProg(p)
    ensures Guarded(map[], p)
  {
    if p.Do? {
      PublicIsGuarded(p.next);
      var none: map<Lock, Mode> := map[];
      assert none - HandedOver(p.call) == none;
    }
  }

  lemma InitialIsGuarded(s: State)
    requires Initial(s)
    ensures AllGuarded(s)
  {
    forall t | 0 <= t < |s.threads|
      ensures Climbs(s.threads[t].held.Keys, s.threads[t].prog) && Guarded(s.threads[t].held, s.threads[t].prog)
    {
      FreshClimbs(s.threads[t].prog);
      PublicIsGuarded(s.threads[t].prog);
      assert s.threads[t].held.Keys == {};
    }
  }

  // ---------------------------------------------------------------------- results

  predicate HeldExclusively(th: Thread, k: Lock) {
    k in th.held && th.held[k] == Exclusive
  }

  /** Whoever is about to edit shared data holds the lock that guards it, exclusively. */
  lemma EditsAreGuarded(s: State, schedule: seq<nat>, t: nat)
    requires Initial(s) && t < |Run(s, schedule).threads| && Run(s, schedule).threads[t].prog.Set?
    ensures var th := Run(s, schedule).threads[t];
            var e := th.prog.edit;
            && (e.Push? || e.Drop? || e.Clear? || e.UseFormatter? ==> HeldExclusively(th, LoggerLock(e.l)))
            && (e.UseAppender? ==> HeldExclusively(th, AppenderLock(e.a)))
            && (e.Know? ==> HeldExclusively(th, Manager))
            && (e.Value? || e.Listeners? ==> HeldExclusively(th, VarLock(e.v)))
            && (e.ReadValue? ==> VarLock(e.v) in th.held)
            && (e.Register? ==> HeldExclusively(th, Registry))
            && (e.ReadRegistry? ==> Registry in th.held)
  {
    InitialIsGuarded(s);
    RunGuarded(s, schedule);
    var th := Run(s, schedule).threads[t];
    assert Guarded(th.held, th.prog);
  }

  /** Whoever is about to read a list of appenders, loggers, variables or listeners holds its lock. */
  lemma ReadsAreGuarded(s: State, schedule: seq<nat>, t: nat)
    requires Initial(s) && t < |Run(s, schedule).threads| && Run(s, schedule).threads[t].prog.Do?
    ensures var th := Run(s, schedule).threads[t];
            var c := th.prog.call;
            && (c.Fan? || c.EachAppender? ==> LoggerLock(c.l) in th.held)
            && (c.EachLogger? ==> Manager in th.held)
            && (c.LookupBody? ==> HeldExclusively(th, Registry))
            && (c.EachVar? ==> Registry in th.held)
            && (c.Announce? ==> VarLock(c.v) in th.held)
  {
    InitialIsGuarded(s);
    RunGuarded(s, schedule);
    var th := Run(s, schedule).threads[t];
    assert Guarded(th.held, th.prog);
  }

  function AccessOf(p: Prog): Option<Access> {
    match p
    case Set(e, _) => GuardOf(e)
    case Do(c, _) => ReadBy(c)
    case _ => None
  }

  /** No two threads are ever about to make conflicting accesses to what one lock guards. */
  lemma NoRace(s: State, schedule: seq<nat>, t: nat, u: nat)
    requires Initial(s)
    ensures var r := Run(s, schedule);
            t < |r.threads| && u < |r.threads| && t != u ==>
              var a, b := AccessOf(r.threads[t].prog), AccessOf(r.threads[u].prog);
              a.Some? && b.Some? && a.value.lock == b.value.lock ==> a.value.mode == Shared && b.value.mode == Shared
  {
    InitialIsGuarded(s);
    RunGuarded(s, schedule);
    var r := Run(s, schedule);
    if t < |r.threads| && u < |r.threads| && t != u {
      assert Guarded(r.threads[t].held, r.threads[t].prog) && Guarded(r.threads[u].held, r.threads[u].prog);
    }
  }
}
