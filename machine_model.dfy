/**
 * The abstract value of a `StateMachine`: its map from id to state, the states
 * its `_currentState` and `_previousState` pointers designate and its change
 * handler, with one pure function per operation that changes it. The methods
 * of `States.StateMachine` are proved to act on this value exactly as these
 * functions say, and the lemmas here state what the operations promise.
 */
module MachineModel {
  import opened Wrappers
  import opened StateModel

  /**
   * What a pointer designates: nothing, the state stored in the map under an
   * id, or a state object no longer in the map (`addState` on an id already
   * present replaces the entry, and a pointer to the old object keeps it).
   */
  datatype Ref = Unset | Mapped(key: int) | Orphan(data: StateData)

  datatype Machine = Machine(
    states: map<int, StateData>,
    current: Ref,
    previous: Ref,
    changeHandler: Handler)

  /** The machine after an operation and the handler invocations it made, in order. */
  datatype Outcome = Outcome(machine: Machine, events: seq<Event>)

  predicate RefOk(m: Machine, r: Ref)
  {
    r.Mapped? ==> r.key in m.states
  }

  /** The state a set pointer designates. */
  function Deref(m: Machine, r: Ref): StateData
    requires RefOk(m, r) && r != Unset
  {
    match r
    case Mapped(k) => m.states[k]
    case Orphan(d) => d
  }

  /** The id behind a pointer, `NONE` when the pointer is unset. */
  function RefId(m: Machine, r: Ref): int
    requires RefOk(m, r)
  {
    match r
    case Unset => NONE
    case Mapped(k) => k
    case Orphan(d) => d.id
  }

  /**
   * Every state is stored under its own id, both pointers designate existing
   * states, and the current and previous states never share an id (so they
   * are never one object).
   */
  predicate Valid(m: Machine)
  {
    (forall k :: k in m.states ==> m.states[k].id == k)
    && RefOk(m, m.current) && RefOk(m, m.previous)
    && (m.current != Unset && m.previous != Unset ==> RefId(m, m.current) != RefId(m, m.previous))
  }

  /**
   * At most one state is active: the current one. Every state in the map
   * other than the current one is inactive, and so is a previous state that
   * has left the map.
   */
  predicate OneActive(m: Machine)
    requires Valid(m)
  {
    (m.current != Unset ==> Deref(m, m.current).isActive)
    && (forall k :: k in m.states && m.states[k].isActive ==> m.current == Mapped(k))
    && (m.previous.Orphan? ==> !m.previous.data.isActive)
  }

  // ---- the read-only accessors ----

  /** `currentId`: the current state's id, `NONE` while `_currentState` is unset. */
  function CurrentId(m: Machine): int
    requires Valid(m)
  {
    RefId(m, m.current)
  }

  /** `previousId`: the previous state's id, `NONE` while `_previousState` is unset. */
  function PreviousId(m: Machine): int
    requires Valid(m)
  {
    RefId(m, m.previous)
  }

  /** `matchCurrent(id)`. */
  function MatchCurrent(m: Machine, id: int): (r: bool)
    requires Valid(m)
    ensures r <==> CurrentId(m) == id
    ensures m.current == Unset ==> (r <==> id == NONE)
  {
    CurrentId(m) == id
  }

  /** `matchPrevious(id)`. */
  function MatchPrevious(m: Machine, id: int): (r: bool)
    requires Valid(m)
    ensures r <==> PreviousId(m) == id
    ensures m.previous == Unset ==> (r <==> id == NONE)
  {
    PreviousId(m) == id
  }

  /** `has(id)`: a state is stored under `id`. */
  function Has(m: Machine, id: int): bool
  {
    id in m.states
  }

  /** `runningTime`: the cached running time of the current state. */
  function RunningTime(m: Machine): int
    requires Valid(m) && m.current != Unset
  {
    Deref(m, m.current).runningTime
  }

  // ---- the operations ----

  /** The machine before its constructor body runs: no states, no pointers, a no-op change handler. */
  const Empty: Machine := Machine(map[], Unset, Unset, NoOp)

  /** The sentinel state the constructor adds: no-op enter, exit and loop handlers. */
  const SentinelProps: StateProps := StateProps(NONE, Some(NoOp), Some(NoOp), Some(NoOp))

  /** A pointer to the entry stored under `id` loses it when that entry is replaced. */
  function Detach(m: Machine, r: Ref, id: int): (r': Ref)
    requires RefOk(m, r)
  {
    if r == Mapped(id) then Orphan(m.states[id]) else r
  }

  /**
   * `addState(props)`: a fresh state is stored under `props.id`, replacing
   * any entry there; the pointers keep designating the objects they did.
   */
  function AddState(m: Machine, p: StateProps): (r: Machine)
    requires Valid(m)
    ensures Valid(r)
    ensures r.states.Keys == m.states.Keys + {p.id}
    ensures r.states[p.id] == NewState(p)
    ensures forall k :: k in m.states && k != p.id ==> r.states[k] == m.states[k]
    ensures CurrentId(r) == CurrentId(m) && PreviousId(r) == PreviousId(m)
    ensures (r.current == Unset <==> m.current == Unset) && (r.previous == Unset <==> m.previous == Unset)
    ensures m.current != Unset ==> Deref(r, r.current) == Deref(m, m.current)
    ensures m.previous != Unset ==> Deref(r, r.previous) == Deref(m, m.previous)
    ensures m.current != Mapped(p.id) ==> r.current == m.current
    ensures m.current == Mapped(p.id) ==> r.current == Orphan(m.states[p.id])
    ensures m.previous != Mapped(p.id) ==> r.previous == m.previous
    ensures m.previous == Mapped(p.id) ==> r.previous == Orphan(m.states[p.id])
    ensures r.changeHandler == m.changeHandler
  {
    Machine(m.states[p.id := NewState(p)], Detach(m, m.current, p.id), Detach(m, m.previous, p.id),
            m.changeHandler)
  }

  /**
   * `updateOrAddState(props)`: an existing entry has the props applied in
   * place (so a pointer to it sees the change); otherwise a state is added.
   */
  function UpdateOrAddState(m: Machine, p: StateProps): (r: Machine)
    requires Valid(m)
    ensures Valid(r)
    ensures Has(r, p.id)
    ensures r.states.Keys == m.states.Keys + {p.id}
    ensures forall k :: k in m.states && k != p.id ==> r.states[k] == m.states[k]
    ensures p.id in m.states ==> r.states[p.id] == WithProps(m.states[p.id], p)
    ensures p.id !in m.states ==> r.states[p.id] == NewState(p)
    ensures r.current == m.current && r.previous == m.previous && r.changeHandler == m.changeHandler
  {
    if p.id in m.states then m.(states := m.states[p.id := WithProps(m.states[p.id], p)])
    else AddState(m, p)
  }

  /** `setChangeHandler(handler)`. */
  function SetChangeHandler(m: Machine, h: Handler): (r: Machine)
    ensures r.changeHandler == h
    ensures r.states == m.states && r.current == m.current && r.previous == m.previous
  {
    m.(changeHandler := h)
  }

  /**
   * `setState` acts only when the target differs from the current state and
   * is stored in the map.
   */
  predicate Accepts(m: Machine, id: int)
    requires Valid(m)
  {
    !(m.current != Unset && CurrentId(m) == id) && id in m.states
  }

  /** The current state after its `exit` has run, wherever it is stored. */
  function ExitCurrent(m: Machine): (r: Machine)
    requires Valid(m)
  {
    match m.current
    case Unset => m
    case Mapped(k) => m.(states := m.states[k := Exited(m.states[k])])
    case Orphan(d) => m.(current := Orphan(Exited(d)))
  }

  /** What the exit step of `setState` invokes: nothing when no state was current. */
  function ExitStep(m: Machine, view: View): seq<Event>
    requires Valid(m)
  {
    if m.current == Unset then [] else ExitEvents(Deref(m, m.current), view)
  }

  /**
   * `setState(id)` with the clock reading `now`. When it acts: the pointers
   * move (the old current becomes previous, the target becomes current), the
   * old current state exits, the target enters, and the change handler runs,
   * each handler seeing the pointers already moved.
   */
  function SetState(m: Machine, id: int, now: int): (r: Outcome)
    requires Valid(m)
    ensures Valid(r.machine)
    ensures r.machine.states.Keys == m.states.Keys && r.machine.changeHandler == m.changeHandler
    ensures !Accepts(m, id) ==> r == Outcome(m, [])
    ensures Accepts(m, id) ==> CurrentId(r.machine) == id && r.machine.current == Mapped(id)
    ensures Accepts(m, id) ==> PreviousId(r.machine) == CurrentId(m)
    ensures Accepts(m, id) ==> (r.machine.previous == Unset <==> m.current == Unset)
    ensures forall k :: k in m.states ==> SameSetup(r.machine.states[k], m.states[k])
    ensures Accepts(m, id) ==> r.machine.states[id] == Entered(m.states[id], now)
    ensures Accepts(m, id) && m.current.Mapped? ==>
              r.machine.previous == m.current && r.machine.states[m.current.key] == Exited(m.states[m.current.key])
    ensures Accepts(m, id) && m.current.Orphan? ==> r.machine.previous == Orphan(Exited(m.current.data))
    ensures forall k :: k in m.states && k != id && m.current != Mapped(k) ==> r.machine.states[k] == m.states[k]
    ensures OneActive(m) ==> OneActive(r.machine)
  {
    if !Accepts(m, id) then Outcome(m, [])
    else
      var view := View(id, CurrentId(m));
      var m1 := ExitCurrent(m);
      var next := m.states[id];
      Outcome(
        Machine(m1.states[id := Entered(next, now)], Mapped(id), m1.current, m.changeHandler),
        ExitStep(m, view) + EnterEvents(next, view) + [ChangeFired(m.changeHandler, view)])
  }

  /** The constructor: add the sentinel state, then `setState(NONE)`. */
  function Initial(now: int): (r: Outcome)
    ensures Valid(r.machine) && OneActive(r.machine) && TimersAtZero(r.machine)
    ensures r.machine.states.Keys == {NONE}
    ensures CurrentId(r.machine) == NONE && PreviousId(r.machine) == NONE
    ensures r.machine.current == Mapped(NONE) && r.machine.previous == Unset && r.machine.changeHandler == NoOp
    ensures r.machine.states[NONE].isActive && r.machine.states[NONE].startTime == now
    ensures r.machine.states[NONE].loopUpdateHandlers == [NoOp]
    ensures r.events == [EnterFired(NONE, NoOp, View(NONE, NONE)), LoopStarted(NONE, NoOp),
                         ChangeFired(NoOp, View(NONE, NONE))]
  {
    SetState(AddState(Empty, SentinelProps), NONE, now)
  }

  // ---- what a transition promises ----

  /**
   * The handler invocations of an accepted `setState(id)`, in order: the old
   * current state's exit handler (if a state was current), the target's enter
   * handler, one loop task per loop handler of the target, and last the
   * change handler. Every handler sees `currentId == id` and
   * `previousId` equal to the old current id.
   */
  lemma SetStateEventOrder(m: Machine, id: int, now: int)
    requires Valid(m) && Accepts(m, id)
    ensures var r := SetState(m, id, now);
            var view := View(id, CurrentId(m));
            var x := if m.current == Unset then 0 else 1;
            var next := m.states[id];
            && |r.events| == x + 1 + |next.loopUpdateHandlers| + 1
            && (x == 1 ==> r.events[0] == ExitFired(CurrentId(m), Deref(m, m.current).exitHandler, view))
            && r.events[x] == EnterFired(id, next.enterHandler, view)
            && (forall i :: 0 <= i < |next.loopUpdateHandlers| ==>
                  r.events[x + 1 + i] == LoopStarted(id, next.loopUpdateHandlers[i]))
            && r.events[|r.events| - 1] == ChangeFired(m.changeHandler, view)
            && view.currentId == CurrentId(r.machine) && view.previousId == PreviousId(r.machine)
  {
  }

  /**
   * A handler attached with `setStateEnter` to a state that is not current
   * (creating the state if need be) runs exactly once on the next
   * `setState` to that state.
   */
  lemma AttachedEnterHandlerRunsOnce(m: Machine, id: int, h: Handler, now: int)
    requires Valid(m) && !(m.current != Unset && CurrentId(m) == id)
    ensures var m1 := UpdateOrAddState(m, StateProps(id, Some(h), None, None));
            var r := SetState(m1, id, now);
            && CurrentId(r.machine) == id
            && multiset(r.events)[EnterFired(id, h, View(id, CurrentId(m)))] == 1
  {
    var m1 := UpdateOrAddState(m, StateProps(id, Some(h), None, None));
    assert CurrentId(m1) == CurrentId(m) && Accepts(m1, id) && m1.states[id].enterHandler == h;
    var view := View(id, CurrentId(m));
    var next := m1.states[id];
    var exits := ExitStep(m1, view);
    var entered := EnterEvents(next, view);
    var change := ChangeFired(m1.changeHandler, view);
    var e := EnterFired(id, h, view);
    assert SetState(m1, id, now).events == exits + entered + [change];
    assert multiset(exits)[e] == 0;
    assert entered == [e] + LoopStarts(id, next.loopUpdateHandlers);
    assert e !in LoopStarts(id, next.loopUpdateHandlers);
    assert multiset(entered)[e] == 1;
  }

  // ---- sequences of operations ----

  /** The operations a program can call on a machine after construction. */
  datatype Op =
    | SetStateOp(id: int, now: int)
    | UpdateOrAddStateOp(props: StateProps)
    | AddStateOp(props: StateProps)
    | SetChangeHandlerOp(handler: Handler)

  function Apply(m: Machine, op: Op): (r: Outcome)
    requires Valid(m)
    ensures Valid(r.machine)
    ensures OneActive(m) ==> OneActive(r.machine)
  {
    match op
    case SetStateOp(id, now) => SetState(m, id, now)
    case UpdateOrAddStateOp(p) => Outcome(UpdateOrAddState(m, p), [])
    case AddStateOp(p) => Outcome(AddState(m, p), [])
    case SetChangeHandlerOp(h) => Outcome(SetChangeHandler(m, h), [])
  }

  /** The machine after running `ops` in order, and every handler invocation they made. */
  function Run(m: Machine, ops: seq<Op>): (r: Outcome)
    requires Valid(m)
    ensures Valid(r.machine)
    decreases |ops|
  {
    if ops == [] then Outcome(m, [])
    else
      var first := Apply(m, ops[0]);
      var rest := Run(first.machine, ops[1..]);
      Outcome(rest.machine, first.events + rest.events)
  }

  /** No sequence of operations ever makes a state other than the current one active. */
  lemma {:induction false} RunKeepsOneActive(m: Machine, ops: seq<Op>)
    requires Valid(m) && OneActive(m)
    ensures OneActive(Run(m, ops).machine)
    decreases |ops|
  {
    if ops != [] {
      RunKeepsOneActive(Apply(m, ops[0]).machine, ops[1..]);
    }
  }

  /** States are never removed from the map. */
  lemma {:induction false} RunNeverRemovesStates(m: Machine, ops: seq<Op>)
    requires Valid(m)
    ensures m.states.Keys <= Run(m, ops).machine.states.Keys
    decreases |ops|
  {
    if ops != [] {
      RunNeverRemovesStates(Apply(m, ops[0]).machine, ops[1..]);
    }
  }

  /** `a`'s loop handlers are a prefix of `b`'s: the list only ever grew. */
  predicate HandlersGrew(a: StateData, b: StateData)
  {
    a.loopUpdateHandlers <= b.loopUpdateHandlers
  }

  /**
   * Without direct `addState` calls (the only operation that replaces an
   * entry), the loop-handler list of every state only ever grows.
   */
  lemma {:induction false} RunGrowsLoopHandlers(m: Machine, ops: seq<Op>)
    requires Valid(m)
    requires forall i :: 0 <= i < |ops| ==> !ops[i].AddStateOp?
    ensures forall k :: k in m.states ==>
              k in Run(m, ops).machine.states && HandlersGrew(m.states[k], Run(m, ops).machine.states[k])
    decreases |ops|
  {
    if ops != [] {
      var m1 := Apply(m, ops[0]).machine;
      RunGrowsLoopHandlers(m1, ops[1..]);
      var mn := Run(m, ops).machine;
      forall k | k in m.states
        ensures k in mn.states && HandlersGrew(m.states[k], mn.states[k])
      {
        assert HandlersGrew(m.states[k], m1.states[k]);
      }
    }
  }

  /** Every state the machine stores or points to has a running time of 0. */
  predicate TimersAtZero(m: Machine)
    requires Valid(m)
  {
    (forall k :: k in m.states ==> m.states[k].runningTime == 0)
    && (m.current != Unset ==> Deref(m, m.current).runningTime == 0)
    && (m.previous != Unset ==> Deref(m, m.previous).runningTime == 0)
  }

  /**
   * `runningTime` is a cached value that only a background loop iteration
   * advances: no sequence of machine operations moves a state's running time
   * off 0, so a state whose loop tasks never tick (one without loop handlers)
   * reads 0 however long it has been current.
   */
  lemma {:induction false} RunKeepsTimerAtZero(m: Machine, ops: seq<Op>, k: int)
    requires Valid(m) && k in m.states && m.states[k].runningTime == 0
    ensures k in Run(m, ops).machine.states && Run(m, ops).machine.states[k].runningTime == 0
    decreases |ops|
  {
    if ops != [] {
      RunKeepsTimerAtZero(Apply(m, ops[0]).machine, ops[1..], k);
    }
  }
}
