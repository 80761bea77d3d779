/** The call manager of one client (src/callmanager.cc).

    `Perform` gives the meaning of every public operation, of every incoming message and of the
    request timer as one atomic step on a value. The class `CallManager` is the object whose
    fields the source updates; each of its methods is proved to perform exactly that step. */
module CallManagers {
  import opened Wrappers
  import opened CallTypes

  /** The request-timer thread: the generation it captured, and (as history) the call that started it. */
  datatype Timer = Timer(generation: nat, call: CallId)

  datatype Manager = Manager(
    state: CallState,
    peer: Name,
    id: CallId,
    isCaller: bool,
    generation: nat,
    timer: Option<Timer>)

  datatype Operation =
    | InitiateCall(connected: bool, target: Name, newId: CallId)
    | CancelCall
    | AcceptCall
    | RejectCall(reason: string)
    | EndCall
    | PeerConnectionEstablished
    | TimerFires
    | Handle(from: Name, message: Message)

  /** What one operation leaves behind: the new manager, and its actions around the one message
      it may send. */
  datatype Outcome = Outcome(
    after: Manager,
    before: seq<Action>,
    letter: Option<Letter>,
    rest: seq<Action>)
  {
    function Actions(): (r: seq<Action>) {
      before + (if letter.Some? then [Send(letter.value)] else []) + rest
    }
  }

  const INITIAL := Manager(Idle, "", "", false, 0, None)

  function Ignored(m: Manager): Outcome {
    Outcome(m, [], None, [])
  }

  function Cleaned(m: Manager): Manager {
    Manager(Idle, "", "", false, m.generation + 1, m.timer)
  }

  predicate TimerCurrent(m: Manager) {
    m.timer.Some? && m.timer.value.generation == m.generation
  }

  function ToPeer(m: Manager, message: Message): Option<Letter> {
    if m.peer == "" then None else Some(Letter(m.peer, message))
  }

  function Initiate(m: Manager, connected: bool, target: Name, newId: CallId): Outcome {
    if !connected || m.state != Idle then Ignored(m)
    else
      var g := m.generation + 1;
      Outcome(Manager(Calling, target, newId, true, g, Some(Timer(g, newId))),
              [StateChanged(Calling, target)], Some(Letter(target, Request(newId))), [])
  }

  function Cancelled(m: Manager): Outcome {
    if m.state != Calling then Ignored(m)
    else Outcome(Cleaned(m), [], ToPeer(m, Cancel(m.id, "cancelled")), [StateChanged(Idle, "")])
  }

  function Accepted(m: Manager): Outcome {
    if m.state != Receiving then Ignored(m)
    else Outcome(m.(state := Connecting), [], Some(Letter(m.peer, Response(m.id, true, ""))),
                 [StateChanged(Connecting, m.peer), NeedCreate(m.peer, false)])
  }

  function Rejected(m: Manager, reason: string): Outcome {
    if m.state != Receiving then Ignored(m)
    else Outcome(Cleaned(m), [],
                 ToPeer(m, Response(m.id, false, if reason == "" then "rejected" else reason)),
                 [StateChanged(Idle, "")])
  }

  function Ended(m: Manager): Outcome {
    if m.state == Idle || m.state == Ending then Ignored(m)
    else Outcome(Cleaned(m), [], ToPeer(m, End(m.id, "hangup")),
                 [NeedClose, CallEnded(m.peer, "hangup"), StateChanged(Idle, "")])
  }

  function Established(m: Manager): Outcome {
    if m.state != Connecting then Ignored(m)
    else Outcome(m.(state := Connected), [], None,
                 [StateChanged(Connected, m.peer), CallAccepted(m.peer)])
  }

  function TimedOut(m: Manager): Outcome {
    if m.state != Calling then Ignored(m)
    else Outcome(Cleaned(m), [], None, [CallTimeout, StateChanged(Idle, "")])
  }

  /** The timer thread wakes up at its deadline, compares generations, and is gone afterwards. */
  function TimerFired(m: Manager): Outcome {
    var done := m.(timer := None);
    if TimerCurrent(m) then TimedOut(done) else Ignored(done)
  }

  function Requested(m: Manager, from: Name, id: CallId): Outcome {
    if id == "" then Ignored(m)
    else if m.state != Idle then Outcome(m, [], Some(Letter(from, Response(id, false, "busy"))), [])
    else Outcome(m.(state := Receiving, peer := from, id := id, isCaller := false), [], None,
                 [StateChanged(Receiving, from), IncomingCall(from)])
  }

  predicate Concerns(m: Manager, from: Name, id: CallId) {
    m.peer == from && m.id == id && id != ""
  }

  function Answered(m: Manager, from: Name, id: CallId, accepted: bool, reason: string): Outcome {
    if m.state != Calling || !Concerns(m, from, id) then Ignored(m)
    else if accepted then
      Outcome(m.(state := Connecting, generation := m.generation + 1), [], None,
              [StateChanged(Connecting, from), CallAccepted(from), NeedCreate(from, true)])
    else
      Outcome(Cleaned(m.(generation := m.generation + 1)), [], None,
              [StateChanged(Idle, from), CallRejected(from, reason), StateChanged(Idle, "")])
  }

  function CancelledByPeer(m: Manager, from: Name, id: CallId, reason: string): Outcome {
    if m.state != Receiving || !Concerns(m, from, id) then Ignored(m)
    else Outcome(Cleaned(m), [], None, [CallCancelled(from, reason), StateChanged(Idle, "")])
  }

  function EndedByPeer(m: Manager, from: Name, id: CallId, reason: string): Outcome {
    if !Concerns(m, from, id) || m.state == Idle || m.state == Ending then Ignored(m)
    else Outcome(Cleaned(m), [], None, [CallEnded(from, reason), NeedClose, StateChanged(Idle, "")])
  }

  function Perform(m: Manager, op: Operation): Outcome {
    match op
    case InitiateCall(connected, target, newId) => Initiate(m, connected, target, newId)
    case CancelCall => Cancelled(m)
    case AcceptCall => Accepted(m)
    case RejectCall(reason) => Rejected(m, reason)
    case EndCall => Ended(m)
    case PeerConnectionEstablished => Established(m)
    case TimerFires => TimerFired(m)
    case Handle(from, Request(id)) => Requested(m, from, id)
    case Handle(from, Response(id, accepted, reason)) => Answered(m, from, id, accepted, reason)
    case Handle(from, Cancel(id, reason)) => CancelledByPeer(m, from, id, reason)
    case Handle(from, End(id, reason)) => EndedByPeer(m, from, id, reason)
  }

  /** In the media phase of its call. */
  predicate InMedia(m: Manager) {
    m.state in {Connecting, Connected}
  }

  /** What holds of every manager between two steps. */
  predicate Sound(m: Manager) {
    && m.state != Ending
    && (m.state == Idle <==> m.id == "")
    && (m.state == Idle ==> m.peer == "" && !m.isCaller)
    && (m.state == Calling ==> m.isCaller)
    && (m.state == Receiving ==> !m.isCaller)
    && TimerSound(m)
  }

  /** A timer whose generation is current belongs to the call being placed right now, and a call
      being placed has such a timer. */
  predicate TimerSound(m: Manager) {
    && (m.timer.Some? ==> m.timer.value.generation <= m.generation)
    && (TimerCurrent(m) <==> m.state == Calling)
    && (TimerCurrent(m) ==> m.timer.value.call == m.id)
  }

  lemma PerformKeepsSound(m: Manager, op: Operation)
    requires Sound(m)
    requires op.InitiateCall? ==> op.newId != ""
    ensures Sound(Perform(m, op).after)
  {
  }

  function PerformAll(m: Manager, ops: seq<Operation>): Manager {
    if ops == [] then m else Perform(PerformAll(m, ops[..|ops| - 1]), ops[|ops| - 1]).after
  }

  /** Whatever happened before, a timer that fires ends a call only if it is the very call that
      started the timer; any other firing changes nothing but the timer itself. */
  lemma {:induction false} TimerEndsOnlyItsOwnCall(ops: seq<Operation>)
    requires forall op <- ops :: op.InitiateCall? ==> op.newId != ""
    ensures var m := PerformAll(INITIAL, ops);
            && Sound(m)
            && var fired := Perform(m, TimerFires);
               if m.state == Calling
               then m.timer.Some? && m.timer.value.call == m.id && fired.after.state == Idle
               else fired.after == m.(timer := None) && fired.Actions() == []
  {
    if ops != [] {
      var prefix := ops[..|ops| - 1];
      TimerEndsOnlyItsOwnCall(prefix);
      PerformKeepsSound(PerformAll(INITIAL, prefix), ops[|ops| - 1]);
    }
  }

  /** The manager as the source writes it: fields changed in place, helpers called in the same
      order, every use of the transport and the observer appended to `actions`. */
  class CallManager {
    var state: CallState
    var peer: Name
    var id: CallId
    var isCaller: bool
    var generation: nat
    var timer: Option<Timer>
    var actions: seq<Action>

    ghost function View(): Manager
      reads this
    {
      Manager(state, peer, id, isCaller, generation, timer)
    }

    twostate predicate Did(o: Outcome)
      reads this
    {
      View() == o.after && actions == old(actions) + o.Actions()
    }

    constructor ()
      ensures View() == INITIAL && actions == []
    {
      state, peer, id, isCaller, generation, timer := Idle, "", "", false, 0, None;
      actions := [];
    }

    method SetCallState(next: CallState)
      modifies this`state, this`actions
      ensures state == next
      ensures actions == old(actions) + (if old(state) == next then [] else [StateChanged(next, peer)])
    {
      if state == next {
        return;
      }
      state := next;
      actions := actions + [StateChanged(next, peer)];
    }

    method StopCallRequestTimerLocked()
      modifies this`generation
      ensures generation == old(generation) + 1
    {
      generation := generation + 1;
    }

    method CleanupCall()
      modifies this
      ensures View() == Cleaned(old(View()))
      ensures actions == old(actions) + (if old(state) == Idle then [] else [StateChanged(Idle, "")])
    {
      StopCallRequestTimerLocked();
      var notify := state != Idle;
      state, peer, id, isCaller := Idle, "", "", false;
      if notify {
        actions := actions + [StateChanged(Idle, "")];
      }
    }

    method StartCallRequestTimer()
      modifies this`generation, this`timer
      ensures generation == old(generation) + 1 && timer == Some(Timer(generation, id))
    {
      generation := generation + 1;
      timer := Some(Timer(generation, id));
    }

    method InitiateCall(connected: bool, target: Name, newId: CallId) returns (started: bool)
      modifies this
      ensures Did(Initiate(old(View()), connected, target, newId))
      ensures started <==> connected && old(state) == Idle
    {
      if !connected || state != Idle {
        return false;
      }
      peer, id, isCaller := target, newId, true;
      SetCallState(Calling);
      actions := actions + [Send(Letter(target, Request(newId)))];
      StartCallRequestTimer();
      return true;
    }

    method CancelCall()
      modifies this
      ensures Did(Cancelled(old(View())))
    {
      if state != Calling {
        return;
      }
      if peer != "" {
        actions := actions + [Send(Letter(peer, Cancel(id, "cancelled")))];
      }
      CleanupCall();
    }

    method AcceptCall()
      modifies this
      ensures Did(Accepted(old(View())))
    {
      if state != Receiving {
        return;
      }
      actions := actions + [Send(Letter(peer, Response(id, true, "")))];
      SetCallState(Connecting);
      actions := actions + [NeedCreate(peer, false)];
    }

    method RejectCall(reason: string)
      modifies this
      ensures Did(Rejected(old(View()), reason))
    {
      if state != Receiving {
        return;
      }
      if peer != "" {
        actions := actions + [Send(Letter(peer, Response(id, false, if reason == "" then "rejected" else reason)))];
      }
      CleanupCall();
    }

    method EndCall()
      modifies this
      ensures Did(Ended(old(View())))
    {
      if state == Idle || state == Ending {
        return;
      }
      state := Ending;
      if peer != "" {
        actions := actions + [Send(Letter(peer, End(id, "hangup")))];
      }
      actions := actions + [NeedClose, CallEnded(peer, "hangup")];
      CleanupCall();
    }

    method NotifyPeerConnectionEstablished()
      modifies this
      ensures Did(Established(old(View())))
    {
      if state != Connecting {
        return;
      }
      state := Connected;
      actions := actions + [StateChanged(Connected, peer), CallAccepted(peer)];
    }

    method HandleCallRequest(from: Name, callId: CallId)
      modifies this
      ensures Did(Requested(old(View()), from, callId))
    {
      if callId == "" {
        return;
      }
      if state != Idle {
        actions := actions + [Send(Letter(from, Response(callId, false, "busy")))];
        return;
      }
      peer, id, isCaller, state := from, callId, false, Receiving;
      actions := actions + [StateChanged(Receiving, from), IncomingCall(from)];
    }

    method HandleCallResponse(from: Name, callId: CallId, accepted: bool, reason: string)
      modifies this
      ensures Did(Answered(old(View()), from, callId, accepted, reason))
    {
      if state != Calling || peer != from || id != callId || callId == "" {
        return;
      }
      StopCallRequestTimerLocked();
      if accepted {
        state := Connecting;
      }
      actions := actions + [StateChanged(if accepted then Connecting else Idle, from)];
      if accepted {
        actions := actions + [CallAccepted(from), NeedCreate(from, true)];
      } else {
        actions := actions + [CallRejected(from, reason)];
        CleanupCall();
      }
    }

    method HandleCallCancel(from: Name, callId: CallId, reason: string)
      modifies this
      ensures Did(CancelledByPeer(old(View()), from, callId, reason))
    {
      if state != Receiving || peer != from || id != callId || callId == "" {
        return;
      }
      actions := actions + [CallCancelled(from, reason)];
      CleanupCall();
    }

    method HandleCallEnd(from: Name, callId: CallId, reason: string)
      modifies this
      ensures Did(EndedByPeer(old(View()), from, callId, reason))
    {
      if peer != from || id != callId || state == Idle || state == Ending || callId == "" {
        return;
      }
      actions := actions + [CallEnded(from, reason), NeedClose];
      CleanupCall();
    }

    method OnCallRequestTimeout()
      modifies this
      ensures Did(TimedOut(old(View())))
    {
      if state != Calling {
        return;
      }
      actions := actions + [CallTimeout];
      CleanupCall();
    }

    /** The end of the timer thread's body, taken as one atomic step. */
    method RunTimer()
      modifies this
      ensures Did(TimerFired(old(View())))
    {
      var expired := timer;
      timer := None;
      if expired.None? || expired.value.generation != generation {
        return;
      }
      OnCallRequestTimeout();
    }
  }
}
