/** The vocabulary shared by the call-control model: states, messages and the actions a call
    manager performs on its transport and on its observer. */
module CallTypes {

  type Name = string

  type CallId = string

  datatype CallState = Idle | Calling | Receiving | Connecting | Connected | Ending

  /** The call-control messages; `id` is the call id every one of them carries. */
  datatype Message =
    | Request(id: CallId)
    | Response(id: CallId, accepted: bool, reason: string)
    | Cancel(id: CallId, reason: string)
    | End(id: CallId, reason: string)

  /** A message handed to the transport. */
  datatype Letter = Letter(to: Name, message: Message)

  /** Everything a call manager does to the outside world, in the order it does it. */
  datatype Action =
    | Send(letter: Letter)
    | StateChanged(state: CallState, peer: Name)
    | IncomingCall(peer: Name)
    | CallAccepted(peer: Name)
    | CallRejected(peer: Name, reason: string)
    | CallCancelled(peer: Name, reason: string)
    | CallEnded(peer: Name, reason: string)
    | CallTimeout
    | NeedCreate(peer: Name, isCaller: bool)
    | NeedClose
}
