# pxt-states: the numeric-id state machine, modelled in Dafny

This project models the `states` namespace of pxt-states (`states.ts`): a
finite-state machine for MakeCode programs in which each state has a numeric
id, an enter handler, an exit handler and any number of "while" (loop)
handlers, and a `StateMachine` moves between states with `setState`.

The model has four modules:

- `Wrappers` (`wrappers.dfy`): the `Option` type, for the handlers a caller
  may leave out of a `StateProps` record.
- `StateModel` (`state_model.dfy`): the value of one `State` object
  (`StateData`) and pure functions for `updateProps`, the constructor,
  `enter`, `exit` and one iteration of a loop task. A handler is an opaque
  token (`NoOp` or `Callback(n)`). Each handler invocation is an `Event`. An
  invocation of an enter, exit or change handler also records the
  `currentId`/`previousId` the handler would observe. A loop handler call
  (`LoopFired`) records only the state and the handler.
- `MachineModel` (`machine_model.dfy`): the abstract value of a
  `StateMachine`. Its `states` map goes from id to `StateData`. Each of
  `_currentState` and `_previousState` is a `Ref`: `Unset`, `Mapped(id)` for
  the object stored under `id`, or `Orphan(data)` for an object that `addState`
  pushed out of the map. The module has one pure function per operation. Its
  lemmas state what the operations promise, one at a time and over any
  sequence of calls (`Run`).
- `States` (`states.dfy`): the two classes, `State` and `StateMachine`. Their
  fields are those of `State` and `StateMachine` in `states.ts`. Their methods are proved to change the heap
  exactly as the `StateModel`/`MachineModel` functions say. Each handler
  invocation a machine operation makes is appended to the ghost `trace`; a
  loop iteration returns its handler call as a ghost event of its own. The read-only getters are
  functions tied to the abstract ones.

Behaviour as written, which the model follows:

- `setState(id)` to the current id does nothing. `setState` to an id not in the
  map is ignored: no state is created.
- In a transition the pointers move first. Then the old state's exit handler
  runs, then the new state's enter handler, then its loop tasks start, and
  the change handler runs last. All of them see the new `currentId` and
  `previousId`.
- `runningTime` is a cached field. `enter` resets it to 0 and only a
  background loop iteration refreshes it, to `now - startTime`. A state
  without loop handlers therefore always reads 0.
- `addState` on an id already present replaces the entry. A current or
  previous pointer to the old object keeps that object, which is no longer in
  the map.

## Model

| member | source | states |
|---|---|---|
| StateModel.NewState | states.ts:97-111 | a new state is inactive with zero timers; an enter or exit handler not supplied is the no-op; the loop list holds exactly the supplied loop handler, if any |
| StateModel.WithProps | states.ts:135-142 | `updateProps` replaces the enter/exit handler only when one is supplied; it appends a supplied loop handler, so the old list is a prefix and the length grows by exactly 1 when one is supplied and 0 otherwise; the flag and timers are untouched |
| StateModel.Entered | states.ts:121-127 | `enter` makes the state active, sets `startTime` to `now` and `runningTime` to 0, and leaves the id and handlers alone |
| StateModel.Exited | states.ts:130-133 | `exit` makes the state inactive and changes nothing else |
| StateModel.Ticked | states.ts:147-150 | one loop iteration on an active state sets `runningTime = now - startTime`; on an inactive state the task stops and nothing changes |
| StateModel.LoopStarts | states.ts:144-153 | `_startLoops` starts exactly one loop task per loop handler, in list order |
| MachineModel.MatchCurrent | states.ts:255-257 | `matchCurrent(id)` holds iff `currentId == id`; while `_currentState` is unset it holds iff `id == NONE` |
| MachineModel.MatchPrevious | states.ts:259-261 | `matchPrevious(id)` holds iff `previousId == id`; while `_previousState` is unset it holds iff `id == NONE` |
| MachineModel.AddState | states.ts:185-187 | the map gains `props.id` and holds a fresh state there; every other entry and the change handler are unchanged; a pointer to another entry stays bound to that entry, a pointer to the replaced entry keeps the old object, now out of the map |
| MachineModel.UpdateOrAddState | states.ts:208-214 | afterwards `has(props.id)` holds; an existing entry has `updateProps` applied in place, otherwise a fresh state is stored; no other entry, pointer or handler changes |
| MachineModel.SetChangeHandler | states.ts:230-232 | only the change handler changes |
| MachineModel.SetState | states.ts:240-253 | to the current id, or to an id not in the map, nothing changes and no handler runs; otherwise `currentId == id` and `previousId` is the old current id. The key set, change handler and every state's handlers are unchanged. Only the old and the new current state change (an entry that merely shares an orphaned current state's id is untouched): the old one exits, the new one enters. If only the current state was active before, only the new current state is active after |
| MachineModel.Initial | states.ts:174-183 | after the constructor the map holds exactly `NONE`; `currentId == previousId == NONE` with `_previousState` unset; `_currentState` is the sentinel, which is active with `startTime == now` and is the only active state; the handler invocations are the sentinel's enter handler, its one loop task, and the change handler |
| MachineModel.SetStateEventOrder | states.ts:248-252 | an accepted transition invokes, in this order: the old state's exit handler (if a state was current), the new state's enter handler, one loop-task start per loop handler, and the change handler; every one sees the new `currentId` and the new `previousId` |
| MachineModel.AttachedEnterHandlerRunsOnce | states.ts:196-198 | an enter handler attached to a state that is not current (creating the state if absent) runs exactly once on the next `setState` to it |
| MachineModel.Run | states.ts:168-172 | the machine's invariant (each state stored under its own id, pointers designate real states, current and previous ids differ) holds after any sequence of calls |
| MachineModel.RunKeepsOneActive | states.ts:240-253 | over any sequence of calls no state other than the current one is ever active |
| MachineModel.RunNeverRemovesStates | states.ts:185-214 | no sequence of calls removes a state from the map |
| MachineModel.RunGrowsLoopHandlers | states.ts:135-142 | without direct `addState` calls, every state's loop-handler list only grows (the old list stays a prefix) |
| MachineModel.RunKeepsTimerAtZero | states.ts:117-128 | a state whose `runningTime` is 0 still has it at 0 after any sequence of machine calls (and is still in the map); only a loop iteration advances it |
| States.State.constructor | states.ts:108-111 | the object holds `NewState(props)` |
| States.State.UpdateProps | states.ts:135-142 | the object holds `WithProps` of its old value |
| States.State.Enter | states.ts:121-128 | the object holds `Entered` of its old value; it invokes the enter handler, then starts the loop tasks |
| States.State.StartLoops | states.ts:144-153 | the loop records one task start per loop handler, in order |
| States.State.Exit | states.ts:130-133 | the object holds `Exited` of its old value; it invokes the exit handler |
| States.State.LoopIteration | states.ts:147-150 | the iteration runs iff the state was active, and then calls its loop handler once; the object holds `Ticked` of its old value |
| States.StateMachine.constructor | states.ts:174-183 | the machine holds `Initial(now)` and its trace is the constructor's handler invocations |
| States.StateMachine.AddState | states.ts:185-187 | the machine holds `MachineModel.AddState` of its old value; no handler runs |
| States.StateMachine.UpdateOrAddState | states.ts:208-214 | the machine holds `MachineModel.UpdateOrAddState` of its old value; no handler runs |
| States.StateMachine.SetStateEnter | states.ts:196-198 | `updateOrAddState` with only an enter handler |
| States.StateMachine.SetStateExit | states.ts:200-202 | `updateOrAddState` with only an exit handler |
| States.StateMachine.SetStateLoopUpdate | states.ts:204-206 | `updateOrAddState` with only a loop handler |
| States.StateMachine.SetChangeHandler | states.ts:230-232 | the machine holds `MachineModel.SetChangeHandler` of its old value |
| States.StateMachine.SetState | states.ts:240-253 | the machine holds `MachineModel.SetState` of its old value, and the trace grows by exactly that transition's handler invocations, each recorded with the ids read from `_currentState`/`_previousState` at the moment it is called |
| States.StateMachine.CurrentId | states.ts:216-219 | equals the abstract `currentId` (`NONE` when `_currentState` is unset) |
| States.StateMachine.PreviousId | states.ts:221-224 | equals the abstract `previousId` (`NONE` when `_previousState` is unset) |
| States.StateMachine.RunningTime | states.ts:226-228 | equals the current state's cached running time; a current state must exist, since `states.ts` dereferences `_currentState` |
| States.StateMachine.MatchCurrent | states.ts:255-257 | equals the abstract `matchCurrent` |
| States.StateMachine.MatchPrevious | states.ts:259-261 | equals the abstract `matchPrevious` |
| States.StateMachine.Has | states.ts:263-265 | holds iff a state is stored under `id` |

## Left out

- Background loop tasks (`control.inBackground` and the `while (this._isActive)` spin) are concurrency. `enter` records one `LoopStarted` event per loop handler. `State.LoopIteration` models one iteration of one task and returns its handler call as a `LoopFired` event. Iterations are not interleaved into machine runs (`MachineModel.Run`), so their handler calls are not in a machine's `trace`.
- A loop handler attached while its state is already active gets no task until the state is next entered. `State.LoopIteration` does not tell such a handler from one whose task is running.
- The clock `input.runningTime()` becomes the parameter `now` of `enter`, `setState`, the constructor and `State.LoopIteration`.
- `console.log` and `console.warn` are logging only. The ignored-`setState` path keeps only a comment where the warning is.
- The MakeCode block shims `_stateEnumShim` and `_customStateEnumShim` and the `//%` annotations are editor metadata.
- The namespace-level functions that only delegate to `defaultStateMachine`, `addStateMachine` and the `defaultStateMachine` global add no logic. A program gets the same behaviour from a `StateMachine` of its own.
- Handler bodies are opaque tokens. A handler that calls `setState` again (re-entrancy) is not modelled: handlers are assumed to return without touching the machine.
- Ids are mathematical integers. JavaScript numbers that are not integers, `NaN` (for which `===` fails) and `-0` are not modelled.
- The `State` getters `id` and `runningTime` are plain field reads of `State.id` and `State.runningTime`.
- Calls a program makes directly on a `State` object, such as `enter` or `exit` outside its machine, are not part of `MachineModel.Run`.
- MachineModel.RunGrowsLoopHandlers: holds only for runs without direct `addState` calls, because `addState` on an id already present replaces the entry together with its loop-handler list.
- test.ts is a hardware demo script that drives a string-based API not present in states.ts, so it is not part of this model.
