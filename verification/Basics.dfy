/** Identifiers and the messages exchanged between load agents and the controller. */
module Basics {

  datatype Option<+T> = None | Some(value: T)

  type AgentId = nat
  type RunId = nat

  /** The three terminal run events an agent can report. */
  datatype EndKind = EndFinished | EndAborted | EndFailed

  /** Sequenced uplink payloads (agent to controller). */
  datatype Message =
    | Ready(run: RunId, partition: nat)
    | Started(run: RunId)
    | PrepFailed(run: RunId)
    | Ended(run: RunId, kind: EndKind)
    | Metrics(run: RunId, delta: int)
    | ControlAck(run: RunId)

  /** Downlink orders (controller to agent); `Halt` stands for both `stop` and `kill`. */
  datatype Order =
    | Assignment(run: RunId, index: nat, count: nat)
    | Start(run: RunId, at: int)
    | Halt(run: RunId)

  /** Subtraction that stops at zero. */
  function SatSub(a: nat, b: nat): nat {
    if a < b then 0 else a - b
  }

  function Max(a: nat, b: nat): nat {
    if a < b then b else a
  }
}
