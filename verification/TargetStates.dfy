/** The table of src/control/state-machine.ts and its class. */
module TargetStates {
  import opened Basics

  datatype TargetState = Starting | Ready | Measuring | Stopping | Stopped | Failed

  function Transitions(from: TargetState): set<TargetState> {
    match from
    case Starting => {Ready, Failed}
    case Ready => {Measuring, Stopping, Failed}
    case Measuring => {Ready, Stopping, Failed}
    case Stopping => {Stopped, Failed}
    case Stopped => {}
    case Failed => {}
  }

  predicate CanTransition(from: TargetState, to: TargetState) {
    to in Transitions(from)
  }

  class TargetStateMachine {
    var state: TargetState

    constructor (initial: TargetState)
      ensures state == initial
    {
      state := initial;
    }

    /** Refuses a transition that the table does not list, leaving the state as it is. */
    method Transition(to: TargetState) returns (r: Result<TargetState, TargetState>)
      modifies this
      ensures r == if CanTransition(old(state), to) then Ok(to) else Err(old(state))
      ensures state == if r.Ok? then to else old(state)
    {
      if !CanTransition(state, to) {
        return Err(state);
      }
      state := to;
      return Ok(state);
    }
  }
}
