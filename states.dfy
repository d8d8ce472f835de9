/**
 * The two classes of the `states` namespace. A `State` holds one state's
 * handlers, activity flag and timers; a `StateMachine` owns a map from id to
 * `State` and moves between them. Every method is proved to change the
 * objects exactly as the functions of `StateModel` and `MachineModel` say,
 * and to record each handler it invokes in the ghost `trace`.
 */
module States {
  import opened Wrappers
  import opened StateModel
  import MachineModel

  class State {
    var id: int
    var enterHandler: Handler
    var exitHandler: Handler
    var loopUpdateHandlers: seq<Handler>
    var isActive: bool
    var startTime: int
    var runningTime: int

    /** The value this object holds. */
    function Data(): StateData
      reads this
    {
      StateData(id, enterHandler, exitHandler, loopUpdateHandlers, isActive, startTime, runningTime)
    }

    constructor (props: StateProps)
      ensures Data() == NewState(props)
    {
      id, enterHandler, exitHandler, loopUpdateHandlers := NONE, NoOp, NoOp, [];
      isActive, startTime, runningTime := false, 0, 0;
      new;
      UpdateProps(props);
      isActive := false;
    }

    method UpdateProps(props: StateProps)
      modifies this
      ensures Data() == WithProps(old(Data()), props)
    {
      id := props.id;
      if props.enterHandler.Some? {
        enterHandler := props.enterHandler.value;
      }
      if props.exitHandler.Some? {
        exitHandler := props.exitHandler.value;
      }
      if props.loopUpdateHandler.Some? {
        loopUpdateHandlers := loopUpdateHandlers + [props.loopUpdateHandler.value];
      }
    }

    /**
     * Activates the state at clock reading `now`, runs the enter handler and
     * starts one background loop task per loop handler. `view` is what the
     * owning machine's id getters return meanwhile.
     */
    method Enter(now: int, ghost view: View) returns (ghost fired: seq<Event>)
      modifies this
      ensures Data() == Entered(old(Data()), now)
      ensures fired == EnterEvents(old(Data()), view)
    {
      isActive := true;
      startTime := now;
      runningTime := 0;
      fired := [EnterFired(id, enterHandler, view)];
      ghost var started := StartLoops();
      fired := fired + started;
    }

    /** `_startLoops`: spawns one loop task per loop handler, in list order. */
    method StartLoops() returns (ghost started: seq<Event>)
      ensures started == LoopStarts(id, loopUpdateHandlers)
    {
      started := [];
      for i := 0 to |loopUpdateHandlers|
        invariant started == LoopStarts(id, loopUpdateHandlers[..i])
      {
        assert loopUpdateHandlers[..i + 1][..i] == loopUpdateHandlers[..i];
        started := started + [LoopStarted(id, loopUpdateHandlers[i])];
      }
      assert loopUpdateHandlers[..|loopUpdateHandlers|] == loopUpdateHandlers;
    }

    /** Deactivates the state, which tells its loop tasks to stop, and runs the exit handler. */
    method Exit(ghost view: View) returns (ghost fired: seq<Event>)
      modifies this
      ensures Data() == Exited(old(Data()))
      ensures fired == ExitEvents(old(Data()), view)
    {
      isActive := false;
      fired := [ExitFired(id, exitHandler, view)];
    }

    /**
     * One iteration of a background loop task at clock reading `now`: the
     * task goes on only while the state is active, and then refreshes the
     * cached running time before calling `handler`, the loop handler the task
     * was started with.
     */
    method LoopIteration(now: int, handler: Handler) returns (ran: bool, ghost fired: seq<Event>)
      modifies this
      ensures ran == old(isActive)
      ensures Data() == Ticked(old(Data()), now)
      ensures fired == if ran then [LoopFired(id, handler)] else []
    {
      ran := isActive;
      fired := [];
      if isActive {
        runningTime := now - startTime;
        fired := [LoopFired(id, handler)];
      }
    }
  }

  class StateMachine {
    var states: map<int, State>
    var current: State?
    var previous: State?
    var changeHandler: Handler
    /** Every handler invocation this machine has made, oldest first. */
    ghost var trace: seq<Event>
    /** Every `State` object this machine has created. */
    ghost var Repr: set<State>

    ghost predicate Valid()
      reads this, Repr
    {
      (forall k :: k in states ==> states[k] in Repr && states[k].id == k)
      && (current != null ==> current in Repr)
      && (previous != null ==> previous in Repr)
      && (current != null && previous != null ==> current.id != previous.id)
    }

    /** What a pointer of this machine designates. */
    ghost function RefOf(s: State?): MachineModel.Ref
      reads this, Repr
      requires Valid() && (s != null ==> s in Repr)
    {
      if s == null then MachineModel.Unset
      else if s.id in states && states[s.id] == s then MachineModel.Mapped(s.id)
      else MachineModel.Orphan(s.Data())
    }

    /** The abstract value of this machine. */
    ghost function Abstract(): (m: MachineModel.Machine)
      reads this, Repr
      requires Valid()
      ensures MachineModel.Valid(m)
      ensures m.states.Keys == states.Keys
      ensures forall k :: k in states ==> m.states[k] == states[k].Data()
      ensures current == null <==> m.current == MachineModel.Unset
      ensures current != null ==> MachineModel.CurrentId(m) == current.id
                                  && MachineModel.Deref(m, m.current) == current.Data()
      ensures previous == null <==> m.previous == MachineModel.Unset
      ensures previous != null ==> MachineModel.PreviousId(m) == previous.id
                                   && MachineModel.Deref(m, m.previous) == previous.Data()
      ensures m.changeHandler == changeHandler
    {
      MachineModel.Machine(map k | k in states :: states[k].Data(), RefOf(current), RefOf(previous),
                           changeHandler)
    }

    /**
     * Adds the sentinel state and transitions to it at clock reading `now`:
     * the map holds exactly the sentinel, which is current and active.
     */
    constructor (now: int)
      ensures Valid() && fresh(Repr)
      ensures Abstract() == MachineModel.Initial(now).machine
      ensures trace == MachineModel.Initial(now).events
    {
      states := map[];
      current, previous := null, null;
      changeHandler := NoOp;
      trace := [];
      Repr := {};
      new;
      AddState(MachineModel.SentinelProps);
      SetState(NONE, now);
    }

    /** Stores a fresh state under `props.id`, replacing any entry already there. */
    method AddState(props: StateProps)
      requires Valid()
      modifies this
      ensures Valid() && fresh(Repr - old(Repr)) && old(Repr) <= Repr
      ensures Abstract() == MachineModel.AddState(old(Abstract()), props)
      ensures trace == old(trace)
    {
      var s := new State(props);
      states := states[props.id := s];
      Repr := Repr + {s};
      AddedKeepsValid(props);
      AddedRefines(props);
    }

    /**
     * The heap after `AddState(props)` stored the fresh object `states[props.id]`
     * and changed nothing else still satisfies `Valid`.
     */
    twostate lemma AddedKeepsValid(props: StateProps)
      requires old(Valid()) && props.id in states && states[props.id] !in old(Repr)
      requires states == old(states)[props.id := states[props.id]] && Repr == old(Repr) + {states[props.id]}
      requires states[props.id].Data() == NewState(props)
      requires current == old(current) && previous == old(previous)
      requires forall o :: o in old(Repr) ==> o.Data() == old(o.Data())
      ensures Valid()
    {
    }

    /** That heap is the abstract machine `MachineModel.AddState` describes. */
    twostate lemma AddedRefines(props: StateProps)
      requires old(Valid()) && Valid() && props.id in states && states[props.id] !in old(Repr)
      requires states == old(states)[props.id := states[props.id]] && Repr == old(Repr) + {states[props.id]}
      requires states[props.id].Data() == NewState(props)
      requires current == old(current) && previous == old(previous) && changeHandler == old(changeHandler)
      requires forall o :: o in old(Repr) ==> o.Data() == old(o.Data())
      ensures Abstract() == MachineModel.AddState(old(Abstract()), props)
    {
      var s := states[props.id];
      var spec := MachineModel.AddState(old(Abstract()), props);
      var a := Abstract();
      assert a.states == spec.states by {
        forall k | k in states && k != props.id
          ensures a.states[k] == spec.states[k]
        {
          assert states[k] == old(states)[k] && states[k] in old(Repr);
        }
      }
      assert a.current == spec.current by {
        if current != null && current.id == props.id {
          assert current != s;
        }
      }
      assert a.previous == spec.previous by {
        if previous != null && previous.id == props.id {
          assert previous != s;
        }
      }
    }

    /** Applies `props` to the state stored under `props.id`, or adds one. */
    method UpdateOrAddState(props: StateProps)
      requires Valid()
      modifies this, Repr
      ensures Valid() && fresh(Repr - old(Repr)) && old(Repr) <= Repr
      ensures Abstract() == MachineModel.UpdateOrAddState(old(Abstract()), props)
      ensures trace == old(trace)
    {
      var present := Has(props.id);
      if present {
        var s := states[props.id];
        s.UpdateProps(props);
        UpdatedKeepsValid(props);
        UpdatedRefines(props);
      } else {
        AddState(props);
      }
    }

    /**
     * The heap after `UpdateOrAddState(props)` applied `props` to the object
     * already stored under `props.id`, changing nothing else, still satisfies
     * `Valid`.
     */
    twostate lemma UpdatedKeepsValid(props: StateProps)
      requires old(Valid()) && props.id in old(states)
      requires states == old(states) && Repr == old(Repr) && changeHandler == old(changeHandler)
      requires current == old(current) && previous == old(previous)
      requires var s := states[props.id]; s.Data() == WithProps(old(s.Data()), props)
      requires forall o :: o in Repr && o != states[props.id] ==> o.Data() == old(o.Data())
      ensures Valid()
    {
      forall k | k in states
        ensures states[k].id == k
      {
        assert old(states[k].id) == k;
      }
    }

    /** That heap is the abstract machine `MachineModel.UpdateOrAddState` describes. */
    twostate lemma UpdatedRefines(props: StateProps)
      requires old(Valid()) && props.id in old(states)
      requires states == old(states) && Repr == old(Repr) && changeHandler == old(changeHandler)
      requires current == old(current) && previous == old(previous)
      requires var s := states[props.id]; s.Data() == WithProps(old(s.Data()), props)
      requires forall o :: o in Repr && o != states[props.id] ==> o.Data() == old(o.Data())
      requires Valid()
      ensures Abstract() == MachineModel.UpdateOrAddState(old(Abstract()), props)
    {
      var s := states[props.id];
      var spec := MachineModel.UpdateOrAddState(old(Abstract()), props);
      var a := Abstract();
      assert a.current == spec.current by {
        if current != null && current != s {
          assert current.Data() == old(current.Data());
        }
      }
      assert a.previous == spec.previous by {
        if previous != null && previous != s {
          assert previous.Data() == old(previous.Data());
        }
      }
      assert a.states == spec.states by {
        forall k | k in states
          ensures a.states[k] == spec.states[k]
        {
          if k != props.id {
            assert states[k] != s;
          }
        }
      }
    }

    method SetStateEnter(id: int, enterHandler: Handler)
      requires Valid()
      modifies this, Repr
      ensures Valid() && fresh(Repr - old(Repr)) && old(Repr) <= Repr
      ensures Abstract() == MachineModel.UpdateOrAddState(old(Abstract()), StateProps(id, Some(enterHandler), None, None))
      ensures trace == old(trace)
    {
      UpdateOrAddState(StateProps(id, Some(enterHandler), None, None));
    }

    method SetStateExit(id: int, exitHandler: Handler)
      requires Valid()
      modifies this, Repr
      ensures Valid() && fresh(Repr - old(Repr)) && old(Repr) <= Repr
      ensures Abstract() == MachineModel.UpdateOrAddState(old(Abstract()), StateProps(id, None, Some(exitHandler), None))
      ensures trace == old(trace)
    {
      UpdateOrAddState(StateProps(id, None, Some(exitHandler), None));
    }

    method SetStateLoopUpdate(id: int, loopUpdateHandler: Handler)
      requires Valid()
      modifies this, Repr
      ensures Valid() && fresh(Repr - old(Repr)) && old(Repr) <= Repr
      ensures Abstract() == MachineModel.UpdateOrAddState(old(Abstract()), StateProps(id, None, None, Some(loopUpdateHandler)))
      ensures trace == old(trace)
    {
      UpdateOrAddState(StateProps(id, None, None, Some(loopUpdateHandler)));
    }

    method SetChangeHandler(handler: Handler)
      requires Valid()
      modifies this
      ensures Valid() && Repr == old(Repr)
      ensures Abstract() == MachineModel.SetChangeHandler(old(Abstract()), handler)
      ensures trace == old(trace)
    {
      changeHandler := handler;
    }

    /**
     * Moves to the state stored under `id`, the clock reading `now`; see
     * `MachineModel.SetState` for what this means.
     */
    method SetState(id: int, now: int)
      requires Valid()
      modifies this, Repr
      ensures Valid() && Repr == old(Repr)
      ensures Abstract() == MachineModel.SetState(old(Abstract()), id, now).machine
      ensures trace == old(trace) + MachineModel.SetState(old(Abstract()), id, now).events
    {
      ghost var m := Abstract();
      var prev := current;
      if prev != null && prev.id == id {
        return;
      }
      if id !in states {
        // `setState` warns that the state is not defined
        return;
      }
      var next := states[id];
      ghost var view := View(id, if prev == null then NONE else prev.id);
      assert MachineModel.Accepts(m, id) && view == View(id, MachineModel.CurrentId(m));
      ghost var events := Transition(next, now, view);
      assert events == MachineModel.SetState(m, id, now).events by {
        assert prev != null ==> prev == old(current) && old(current.Data()) == MachineModel.Deref(m, m.current);
        assert old(next.Data()) == m.states[id];
      }
      TransitionKeepsValid(now);
      TransitionRefines(now);
    }

    /** What `currentId` and `previousId` return at this moment. */
    ghost function Seen(): View
      reads this, current, previous
    {
      View(if current == null then NONE else current.id, if previous == null then NONE else previous.id)
    }

    /**
     * The success path of `setState`: the pointers move to `next` and the old
     * current state, then the old current state exits, `next` enters and the
     * change handler runs. Each handler is recorded with the ids the getters
     * return when it is called, which are `view`: the new current id and the
     * old one.
     */
    method Transition(next: State, now: int, ghost view: View) returns (ghost events: seq<Event>)
      requires next != current
      requires view == View(next.id, if current == null then NONE else current.id)
      modifies this, next, current
      ensures current == next && previous == old(current)
      ensures states == old(states) && Repr == old(Repr) && changeHandler == old(changeHandler)
      ensures next.Data() == Entered(old(next.Data()), now)
      ensures old(current) != null ==> old(current).Data() == Exited(old(current.Data()))
      ensures events == (if old(current) == null then [] else ExitEvents(old(current.Data()), view))
                        + EnterEvents(old(next.Data()), view) + [ChangeFired(changeHandler, view)]
      ensures trace == old(trace) + events
    {
      var prev := current;
      current, previous := next, prev;
      ghost var fired: seq<Event> := [];
      if prev != null {
        fired := prev.Exit(Seen());
      }
      ghost var entered := next.Enter(now, Seen());
      events := fired + entered + [ChangeFired(changeHandler, Seen())];
      trace := trace + events;
    }

    /**
     * The heap after the success path of `SetState` at clock reading `now`
     * (the pointers moved, the old current state exited, the new one entered
     * and no other state object changed) still satisfies `Valid`.
     */
    twostate lemma TransitionKeepsValid(now: int)
      requires old(Valid()) && current != null && current.id in old(states)
      requires MachineModel.Accepts(old(Abstract()), current.id)
      requires states == old(states) && Repr == old(Repr) && changeHandler == old(changeHandler)
      requires previous == old(current) && current == old(states)[current.id]
      requires var next := current; next.Data() == Entered(old(next.Data()), now)
      requires var prev := previous; prev != null ==> prev.Data() == Exited(old(prev.Data()))
      requires forall s :: s in Repr && s != previous && s != current ==> s.Data() == old(s.Data())
      ensures Valid()
    {
      forall k | k in states
        ensures states[k].id == k
      {
        assert old(states[k].id) == k;
      }
    }

    /**
     * That heap is the abstract machine `MachineModel.SetState` describes.
     */
    twostate lemma TransitionRefines(now: int)
      requires old(Valid()) && current != null && current.id in old(states)
      requires MachineModel.Accepts(old(Abstract()), current.id)
      requires states == old(states) && Repr == old(Repr) && changeHandler == old(changeHandler)
      requires previous == old(current) && current == old(states)[current.id]
      requires var next := current; next.Data() == Entered(old(next.Data()), now)
      requires var prev := previous; prev != null ==> prev.Data() == Exited(old(prev.Data()))
      requires forall s :: s in Repr && s != previous && s != current ==> s.Data() == old(s.Data())
      requires Valid()
      ensures Abstract() == MachineModel.SetState(old(Abstract()), current.id, now).machine
    {
      var id := current.id;
      var r := MachineModel.SetState(old(Abstract()), id, now);
      var a := Abstract();
      assert a.states == r.machine.states by {
        forall k | k in states
          ensures a.states[k] == r.machine.states[k]
        {
          if k != id && (previous == null || k != previous.id) {
            assert states[k] != current && states[k] != previous;
          }
        }
      }
      assert a.current == r.machine.current;
      assert a.previous == r.machine.previous;
    }

    /** `currentId`. */
    function CurrentId(): (r: int)
      reads this, Repr
      requires Valid()
      ensures r == MachineModel.CurrentId(Abstract())
    {
      if current == null then NONE else current.id
    }

    /** `previousId`. */
    function PreviousId(): (r: int)
      reads this, Repr
      requires Valid()
      ensures r == MachineModel.PreviousId(Abstract())
    {
      if previous == null then NONE else previous.id
    }

    /** `runningTime`: `states.ts` dereferences `_currentState`, so one must be set. */
    function RunningTime(): (r: int)
      reads this, Repr
      requires Valid() && current != null
      ensures r == MachineModel.RunningTime(Abstract())
    {
      current.runningTime
    }

    function MatchCurrent(id: int): (r: bool)
      reads this, Repr
      requires Valid()
      ensures r == MachineModel.MatchCurrent(Abstract(), id)
    {
      CurrentId() == id
    }

    function MatchPrevious(id: int): (r: bool)
      reads this, Repr
      requires Valid()
      ensures r == MachineModel.MatchPrevious(Abstract(), id)
    {
      PreviousId() == id
    }

    function Has(id: int): (r: bool)
      reads this, Repr
      requires Valid()
      ensures r == MachineModel.Has(Abstract(), id)
    {
      id in states
    }
  }
}
