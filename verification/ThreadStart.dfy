/** Thread start-up, joining and destruction.

    The owner constructs a Thread, joins it any number of times and destroys it; the child runs
    `Thread::run`. The two share the Thread object and its semaphore. */
module ThreadStart {
  import opened Wrappers

  /** A join that fails throws and changes nothing. */
  datatype OwnerPC =
    | Creating(createFails: bool)
    | Waiting
    | Owning(joins: seq<bool>)
    | Gone
    | Thrown

  datatype ChildPC =
    | NotStarted | SetThis | CopyName | PublishId | NameOsThread | TakeCallback | Notify | CallBack | Exited

  /** The Thread object: `alive` until its destructor ends, `handle` is a non-zero m_thread. */
  datatype Object = Object(alive: bool, id: Option<nat>, handle: bool, hasCallback: bool, name: string,
                           semaphore: nat)

  datatype State = State(
    owner: OwnerPC,
    child: ChildPC,
    obj: Object,
    // the child's thread-locals and its own copy of the callback
    thisSet: bool,
    threadName: string,
    callbackTaken: bool,
    // history
    joined: nat,
    detached: nat)

  function Construct(name: string, createFails: bool): State {
    State(Creating(createFails), NotStarted,
          Object(true, None, false, true, if name == "" then "UNKNOW" else name, 0),
          false, "UNKNOW", false, 0, 0)
  }

  /** The owner's next step; `joins` says how the joins before destruction turn out. */
  function OwnerStep(s: State, joins: seq<bool>): Option<State> {
    match s.owner
    case Creating(fails) =>
      if fails then Some(s.(owner := Thrown, obj := s.obj.(alive := false)))
      else Some(s.(owner := Waiting, child := SetThis, obj := s.obj.(handle := true)))
    case Waiting =>
      if s.obj.semaphore == 0 then None
      else Some(s.(owner := Owning(joins), obj := s.obj.(semaphore := s.obj.semaphore - 1)))
    case Owning(todo) =>
      if todo == [] then
        Some(s.(owner := Gone, obj := s.obj.(alive := false),
                detached := s.detached + if s.obj.handle then 1 else 0))
      else if !s.obj.handle then Some(s.(owner := Owning(todo[1..])))
      else if !todo[0] then Some(s.(owner := Owning(todo[1..])))
      else if s.child != Exited then None
      else Some(s.(owner := Owning(todo[1..]), obj := s.obj.(handle := false), joined := s.joined + 1))
    case Gone => None
    case Thrown => None
  }

  /** `Thread::run`, one access at a time; `tid` is the id of the new thread. */
  function ChildStep(s: State, tid: nat): Option<State> {
    match s.child
    case NotStarted => None
    case SetThis => Some(s.(child := CopyName, thisSet := true))
    case CopyName => Some(s.(child := PublishId, threadName := s.obj.name))
    case PublishId => Some(s.(child := NameOsThread, obj := s.obj.(id := Some(tid))))
    case NameOsThread => Some(s.(child := TakeCallback))
    case TakeCallback =>
      Some(s.(child := Notify, callbackTaken := s.obj.hasCallback, obj := s.obj.(hasCallback := false)))
    case Notify => Some(s.(child := CallBack, obj := s.obj.(semaphore := s.obj.semaphore + 1)))
    case CallBack => Some(s.(child := Exited))
    case Exited => None
  }

  /** The child's next step reads or writes the Thread object. */
  predicate TouchesObject(pc: ChildPC) {
    pc == CopyName || pc == PublishId || pc == NameOsThread || pc == TakeCallback || pc == Notify
  }

  /** A schedule: true lets the owner move, false the child; who cannot move stays. */
  function Run(s: State, joins: seq<bool>, tid: nat, schedule: seq<bool>): State {
    if schedule == [] then s
    else
      var before := Run(s, joins, tid, schedule[..|schedule| - 1]);
      var next := if schedule[|schedule| - 1] then OwnerStep(before, joins) else ChildStep(before, tid);
      if next.Some? then next.value else before
  }

  /** How far the child has come. */
  function Stage(pc: ChildPC): nat {
    match pc
    case NotStarted => 0
    case SetThis => 1
    case CopyName => 2
    case PublishId => 3
    case NameOsThread => 4
    case TakeCallback => 5
    case Notify => 6
    case CallBack => 7
    case Exited => 8
  }

  predicate Inv(s: State, name: string, tid: nat) {
    && s.obj.name == name
    && (s.owner.Creating? || s.owner.Thrown? <==> s.child == NotStarted)
    && (s.owner.Owning? || s.owner.Gone? ==> Stage(s.child) >= 7)
    && (s.obj.alive <==> s.owner.Creating? || s.owner.Waiting? || s.owner.Owning?)
    && s.obj.semaphore == (if s.owner.Waiting? && Stage(s.child) >= 7 then 1 else 0)
    && (s.thisSet <==> Stage(s.child) >= 2)
    && (Stage(s.child) >= 3 ==> s.threadName == name)
    && (Stage(s.child) >= 4 ==> s.obj.id == Some(tid))
    && s.obj.hasCallback == (Stage(s.child) < 6) && s.callbackTaken == (Stage(s.child) >= 6)
    && s.joined + s.detached + (if s.obj.handle && !s.owner.Gone? then 1 else 0)
         == (if s.owner.Creating? || s.owner.Thrown? then 0 else 1)
    && (s.joined > 0 ==> s.child == Exited)
    && (s.detached > 0 ==> s.owner.Gone?)
  }

  lemma {:induction false} RunInv(name: string, fails: bool, joins: seq<bool>, tid: nat, schedule: seq<bool>)
    ensures var s := Construct(name, fails); Inv(Run(s, joins, tid, schedule), s.obj.name, tid)
  {
    if schedule != [] {
      RunInv(name, fails, joins, tid, schedule[..|schedule| - 1]);
    }
  }

  /** When the constructor has returned, the child has set its thread-locals, published its id and
      taken the callback out of the object. */
  lemma ConstructorHandsOff(name: string, fails: bool, joins: seq<bool>, tid: nat, schedule: seq<bool>)
    ensures var r := Run(Construct(name, fails), joins, tid, schedule);
            r.owner.Owning? || r.owner.Gone? ==>
              && r.thisSet && r.threadName == (if name == "" then "UNKNOW" else name)
              && r.obj.id == Some(tid) && r.callbackTaken && !r.obj.hasCallback
  {
    RunInv(name, fails, joins, tid, schedule);
  }

  /** The child never touches a Thread object that is gone, however soon it is destroyed. */
  lemma NoUseAfterDestruction(name: string, fails: bool, joins: seq<bool>, tid: nat, schedule: seq<bool>)
    ensures var r := Run(Construct(name, fails), joins, tid, schedule);
            TouchesObject(r.child) ==> r.obj.alive && r.owner.Waiting?
  {
    RunInv(name, fails, joins, tid, schedule);
  }

  /** Once the object is gone, its handle has been joined or detached, and only once; it was joined
      only if the child had exited. Before that it has been detached never and joined at most once. */
  lemma HandleReleasedOnce(name: string, fails: bool, joins: seq<bool>, tid: nat, schedule: seq<bool>)
    ensures var r := Run(Construct(name, fails), joins, tid, schedule);
            && (r.owner.Gone? ==> r.joined + r.detached == 1)
            && (r.owner.Owning? ==> r.detached == 0 && r.joined == if r.obj.handle then 0 else 1)
            && (r.joined > 0 ==> r.child == Exited)
            && (r.owner.Thrown? ==> r.joined == 0 && r.detached == 0 && r.child == NotStarted)
  {
    RunInv(name, fails, joins, tid, schedule);
  }

  /** Neither side waits for ever: until the child has exited and the owner is done, one can move. */
  lemma SomebodyMoves(name: string, fails: bool, joins: seq<bool>, tid: nat, schedule: seq<bool>)
    ensures var r := Run(Construct(name, fails), joins, tid, schedule);
            OwnerStep(r, joins).Some? || ChildStep(r, tid).Some?
            || (r.owner.Gone? && r.child == Exited) || r.owner.Thrown?
  {
    RunInv(name, fails, joins, tid, schedule);
  }
}
