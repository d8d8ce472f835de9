/**
 * The value held by one `State` object of the `states` namespace: its id, its
 * enter and exit handlers, its append-only list of loop handlers, its activity
 * flag and its two timers, together with the pure functions that say how
 * `updateProps`, `enter`, `exit` and one iteration of a loop task change that
 * value, and which handler invocations `enter` and `exit` make.
 */
module StateModel {
  import opened Wrappers

  /** The id of the sentinel state every machine starts in. */
  const NONE: int := -1

  /**
   * A callback supplied by the program. The engine never looks inside one, so
   * a handler is a token: the built-in `() => {}` or a program callback.
   */
  datatype Handler = NoOp | Callback(token: nat)

  /** The argument of `updateProps` and `addState`: an id and the handlers to attach. */
  datatype StateProps = StateProps(
    id: int,
    enterHandler: Option<Handler>,
    exitHandler: Option<Handler>,
    loopUpdateHandler: Option<Handler>)

  /** Everything one `State` object holds. */
  datatype StateData = StateData(
    id: int,
    enterHandler: Handler,
    exitHandler: Handler,
    loopUpdateHandlers: seq<Handler>,
    isActive: bool,
    startTime: int,
    runningTime: int)

  /** What `currentId` and `previousId` of the owning machine return while a handler runs. */
  datatype View = View(currentId: int, previousId: int)

  /** One invocation of a handler, or the start of one background loop task. */
  datatype Event =
    | EnterFired(state: int, handler: Handler, view: View)
    | ExitFired(state: int, handler: Handler, view: View)
    | LoopStarted(state: int, handler: Handler)
    | LoopFired(state: int, handler: Handler)
    | ChangeFired(handler: Handler, view: View)

  /** A state's id and handlers: what `enter`, `exit` and a loop iteration never touch. */
  predicate SameSetup(a: StateData, b: StateData)
  {
    a.id == b.id && a.enterHandler == b.enterHandler && a.exitHandler == b.exitHandler
    && a.loopUpdateHandlers == b.loopUpdateHandlers
  }

  /** The fields of a `State` before its constructor runs `updateProps`. */
  const Blank: StateData := StateData(NONE, NoOp, NoOp, [], false, 0, 0)

  /**
   * `updateProps`: the id is overwritten, a supplied enter or exit handler
   * replaces the old one, and a supplied loop handler is appended.
   */
  function WithProps(d: StateData, p: StateProps): (r: StateData)
    ensures r.id == p.id
    ensures p.enterHandler.None? ==> r.enterHandler == d.enterHandler
    ensures p.enterHandler.Some? ==> r.enterHandler == p.enterHandler.value
    ensures p.exitHandler.None? ==> r.exitHandler == d.exitHandler
    ensures p.exitHandler.Some? ==> r.exitHandler == p.exitHandler.value
    ensures d.loopUpdateHandlers <= r.loopUpdateHandlers
    ensures |r.loopUpdateHandlers| == |d.loopUpdateHandlers| + (if p.loopUpdateHandler.Some? then 1 else 0)
    ensures p.loopUpdateHandler.Some? ==> r.loopUpdateHandlers[|d.loopUpdateHandlers|] == p.loopUpdateHandler.value
    ensures r.isActive == d.isActive && r.startTime == d.startTime && r.runningTime == d.runningTime
  {
    StateData(
      p.id,
      p.enterHandler.GetOr(d.enterHandler),
      p.exitHandler.GetOr(d.exitHandler),
      if p.loopUpdateHandler.Some? then d.loopUpdateHandlers + [p.loopUpdateHandler.value]
      else d.loopUpdateHandlers,
      d.isActive, d.startTime, d.runningTime)
  }

  /**
   * `new State(props)`: an inactive state with zero timers whose missing
   * enter or exit handler is the no-op and whose loop list holds at most the
   * supplied loop handler.
   */
  function NewState(p: StateProps): (r: StateData)
    ensures r.id == p.id && !r.isActive && r.startTime == 0 && r.runningTime == 0
    ensures r.enterHandler == p.enterHandler.GetOr(NoOp)
    ensures r.exitHandler == p.exitHandler.GetOr(NoOp)
    ensures r.loopUpdateHandlers == if p.loopUpdateHandler.Some? then [p.loopUpdateHandler.value] else []
  {
    WithProps(Blank, p)
  }

  /** `enter`: active, started at `now`, running time reset to 0; handlers untouched. */
  function Entered(d: StateData, now: int): (r: StateData)
    ensures SameSetup(r, d)
    ensures r.isActive && r.startTime == now && r.runningTime == 0
  {
    d.(isActive := true, startTime := now, runningTime := 0)
  }

  /** `exit`: inactive; timers and handlers untouched. */
  function Exited(d: StateData): (r: StateData)
    ensures SameSetup(r, d)
    ensures !r.isActive && r.startTime == d.startTime && r.runningTime == d.runningTime
  {
    d.(isActive := false)
  }

  /**
   * One iteration of a background loop task: while the state is active the
   * cached running time becomes the time elapsed since `enter`; once the
   * state is inactive the task stops and changes nothing.
   */
  function Ticked(d: StateData, now: int): (r: StateData)
    ensures SameSetup(r, d) && r.isActive == d.isActive && r.startTime == d.startTime
    ensures d.isActive ==> r.runningTime == now - d.startTime
    ensures !d.isActive ==> r == d
  {
    if d.isActive then d.(runningTime := now - d.startTime) else d
  }

  /** One `LoopStarted` event per loop handler, in list order: the effect of `_startLoops`. */
  function LoopStarts(id: int, hs: seq<Handler>): (r: seq<Event>)
    ensures |r| == |hs|
    ensures forall i :: 0 <= i < |hs| ==> r[i] == LoopStarted(id, hs[i])
  {
    if hs == [] then []
    else LoopStarts(id, hs[..|hs| - 1]) + [LoopStarted(id, hs[|hs| - 1])]
  }

  /** What `enter` invokes: the enter handler, then one loop task per loop handler. */
  function EnterEvents(d: StateData, view: View): seq<Event>
  {
    [EnterFired(d.id, d.enterHandler, view)] + LoopStarts(d.id, d.loopUpdateHandlers)
  }

  /** What `exit` invokes: the exit handler. */
  function ExitEvents(d: StateData, view: View): seq<Event>
  {
    [ExitFired(d.id, d.exitHandler, view)]
  }
}
