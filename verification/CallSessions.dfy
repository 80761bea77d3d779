/** The coordinator and the WebRTC engine of one client (src/call_coordinator.cc,
    src/webrtcengine.cc, src/webrtcengine_peer_connection.cc).

    `Endpoint` is what the two keep between callbacks. A peer connection and the callback guard made
    for it share a serial number, which stands for the identity of the two heap objects. The
    functions give the meaning of each callback; the class changes the fields as the source does. */
module CallSessions {
  import opened Wrappers
  import opened CallTypes
  import opened CallManagers

  datatype Endpoint = Endpoint(
    peer: Name,               // current_peer_id_
    isCaller: bool,           // is_caller_
    armed: bool,              // the ICE watchdog
    connection: Option<nat>,  // peer_connection_
    guard: Option<nat>)       // peer_connection_callback_guard_

  const FRESH := Endpoint("", false, false, None, None)

  /** The answers of the foreign library when a connection is made: whether it could be created,
      and whether the local tracks could be attached. */
  datatype Library = Library(created: bool, tracks: bool)

  /** An asynchronous completion with the weak pointer it captured; `connection` is the one it was
      issued on. */
  datatype Task =
    | Described(guard: Option<nat>, connection: nat, offer: bool)
    | LocalSet(guard: Option<nat>, connection: nat, offer: bool)
    | RemoteSet(guard: Option<nat>, connection: nat, answer: bool)

  datatype Media = Offer | Answer | Candidate

  /** A media message; `usable` says whether its SDP or candidate text is present and parses. */
  datatype MediaPacket = MediaPacket(from: Name, to: Name, kind: Media, id: CallId, usable: bool)

  /** An endpoint after callbacks, whether they made a connection, and the task they started. */
  datatype Reaction = Reaction(end: Endpoint, created: bool, task: Option<Task>)

  /** Whether a captured weak pointer no longer points to the current guard. */
  predicate Expired(e: Endpoint, captured: Option<nat>) {
    captured.None? || captured != e.guard
  }

  function Closed(e: Endpoint): Endpoint {
    e.(connection := None, guard := None)
  }

  function Create(e: Endpoint, peer: Name, isCaller: bool, serial: nat, library: Library): Reaction {
    var ready := e.(peer := peer, isCaller := isCaller, armed := false);
    if e.connection.Some? then Reaction(ready, false, None)
    else if !library.created then Reaction(ready.(guard := None), false, None)
    else if !library.tracks then Reaction(Closed(ready), true, None)
    else
      var open := ready.(connection := Some(serial), guard := Some(serial));
      Reaction(open, true, if isCaller then Some(Described(open.guard, serial, true)) else None)
  }

  /** What one action of the call manager makes the coordinator and the engine do. */
  function React(r: Reaction, a: Action, serial: nat, library: Library): Reaction {
    var e := r.end;
    match a
    case StateChanged(state, _) =>
      r.(end := e.(peer := if state == Idle then "" else e.peer, armed := e.armed && state == Connected))
    case CallRejected(_, _) => r.(end := Closed(e))
    case CallCancelled(_, _) => r.(end := Closed(e))
    case CallTimeout => r.(end := Closed(e))
    case NeedClose => r.(end := Closed(e).(armed := false))
    case NeedCreate(peer, isCaller) => Create(e, peer, isCaller, serial, library)
    case _ => r
  }

  function ReactAll(r: Reaction, actions: seq<Action>, serial: nat, library: Library): Reaction
    decreases |actions|
  {
    if actions == [] then r
    else ReactAll(React(r, actions[0], serial, library), actions[1..], serial, library)
  }

  /** A media message arriving while the call manager is on `currentId`; the flag says whether it
      reached the peer connection. */
  function Receive(e: Endpoint, currentId: CallId, pk: MediaPacket): (Reaction, bool) {
    var stale := pk.id == "" || pk.id != currentId;
    match pk.kind
    case Offer =>
      if e.connection.None? || stale then (Reaction(e, false, None), false)
      else
        var e' := e.(peer := pk.from, isCaller := false);
        if !pk.usable then (Reaction(e', false, None), false)
        else (Reaction(e', false, Some(RemoteSet(e'.guard, e.connection.value, true))), true)
    case Answer =>
      if pk.from != e.peer || stale || !pk.usable || e.connection.None? then (Reaction(e, false, None), false)
      else (Reaction(e, false, Some(RemoteSet(e.guard, e.connection.value, false))), true)
    case Candidate =>
      (Reaction(e, false, None), pk.from == e.peer && !stale && pk.usable && e.connection.Some?)
  }

  /** A completion that succeeded on a connection whose guard is still current: the task it starts. */
  function FollowUp(e: Endpoint, task: Task, library: Library): Option<Task> {
    if e.connection.None? then None
    else match task
      case Described(_, _, offer) => Some(LocalSet(e.guard, e.connection.value, offer))
      case LocalSet(_, _, _) => None
      case RemoteSet(_, _, answer) =>
        if answer && library.tracks then Some(Described(e.guard, e.connection.value, false)) else None
  }

  datatype IceState = IceUp | IceDown | IceOther

  function IceChanged(e: Endpoint, ice: IceState, state: CallState): Endpoint {
    e.(armed := ice == IceDown && state == Connected)
  }

  /** The coordinator and the engine as the source writes them. `serials` numbers the guards. */
  class CallCoordinator {
    var peer: Name
    var isCaller: bool
    var armed: bool
    var connection: Option<nat>
    var guard: Option<nat>
    var serials: nat
    var started: Option<Task>

    ghost function View(): Endpoint
      reads this
    {
      Endpoint(peer, isCaller, armed, connection, guard)
    }

    constructor ()
      ensures View() == FRESH && serials == 0
    {
      peer, isCaller, armed, connection, guard := "", false, false, None, None;
      serials, started := 0, None;
    }

    method RenewPeerConnectionCallbackGuard()
      modifies this`guard, this`serials
      ensures guard == Some(old(serials)) && serials == old(serials) + 1
    {
      guard := Some(serials);
      serials := serials + 1;
    }

    method CreatePeerConnection(created: bool) returns (ok: bool)
      requires connection.None?
      modifies this`guard, this`serials, this`connection
      ensures ok == created && serials == old(serials) + 1
      ensures guard == connection == if created then Some(old(serials)) else None
    {
      RenewPeerConnectionCallbackGuard();
      if created {
        connection := guard;
        return true;
      }
      guard := None;
      return false;
    }

    method ClosePeerConnection()
      modifies this`guard, this`connection
      ensures View() == Closed(old(View()))
    {
      guard := None;
      if connection.Some? {
        connection := None;
      }
    }

    method CreateOffer()
      requires connection.Some?
      modifies this`started
      ensures started == Some(Described(guard, connection.value, true))
    {
      started := Some(Described(guard, connection.value, true));
    }

    method OnCallStateChanged(state: CallState)
      modifies this`peer, this`armed
      ensures View() == React(Reaction(old(View()), false, None), StateChanged(state, ""), 0, Library(true, true)).end
    {
      if state == Idle {
        peer := "";
      }
      if state != Connected {
        armed := false;
      }
    }

    method OnNeedClosePeerConnection()
      modifies this`guard, this`connection, this`armed
      ensures View() == React(Reaction(old(View()), false, None), NeedClose, 0, Library(true, true)).end
    {
      armed := false;
      ClosePeerConnection();
    }

    method OnNeedCreatePeerConnection(peerId: Name, caller: bool, library: Library)
      modifies this
      ensures var r := Create(old(View()), peerId, caller, old(serials), library);
              View() == r.end && started == r.task
      ensures serials == old(serials) + (if old(connection).None? then 1 else 0)
    {
      started := None;
      armed := false;
      peer, isCaller := peerId, caller;
      if connection.Some? {
        return;
      }
      var ok := CreatePeerConnection(library.created);
      if !ok {
        return;
      }
      if !library.tracks {
        ClosePeerConnection();
        return;
      }
      if caller {
        CreateOffer();
      }
    }

    method SetRemoteDescription(offer: bool)
      modifies this`started
      ensures started == if connection.Some? then Some(RemoteSet(guard, connection.value, offer)) else old(started)
    {
      if connection.None? {
        return;
      }
      started := Some(RemoteSet(guard, connection.value, offer));
    }

    method ProcessOffer(currentId: CallId, pk: MediaPacket)
      requires pk.kind == Offer
      modifies this`peer, this`isCaller, this`started
      ensures var r := Receive(old(View()), currentId, pk).0;
              View() == r.end && started == r.task
    {
      started := None;
      if connection.None? {
        return;
      }
      if pk.id == "" || pk.id != currentId {
        return;
      }
      peer := pk.from;
      isCaller := false;
      if !pk.usable {
        return;
      }
      SetRemoteDescription(true);
    }

    method ProcessAnswer(currentId: CallId, pk: MediaPacket)
      requires pk.kind == Answer
      modifies this`started
      ensures var r := Receive(old(View()), currentId, pk).0;
              View() == r.end && started == r.task
    {
      started := None;
      if pk.from != peer || !pk.usable || pk.id == "" || pk.id != currentId {
        return;
      }
      SetRemoteDescription(false);
    }

    method ProcessIceCandidate(currentId: CallId, pk: MediaPacket) returns (reached: bool)
      requires pk.kind == Candidate
      ensures reached == Receive(View(), currentId, pk).1
    {
      if pk.from != peer || pk.id == "" || pk.id != currentId {
        return false;
      }
      if !pk.usable {
        return false;
      }
      return connection.Some?;
    }

    /** The observer of CreateOffer or CreateAnswer: a success goes on to SetLocalDescription, which
        the source calls without checking that there still is a connection. */
    method OnDescriptionCreated(captured: Option<nat>, offer: bool)
      requires !Expired(View(), captured) ==> connection.Some?
      modifies this`started
      ensures started == (if Expired(View(), captured) then None
                          else FollowUp(View(), Described(captured, connection.value, offer), Library(true, true)))
    {
      started := None;
      if captured.None? || captured != guard {
        return;
      }
      started := Some(LocalSet(guard, connection.value, offer));
    }

    /** The observer of SetLocalDescription: whether the description is sent to the peer. */
    method OnLocalDescriptionSet(captured: Option<nat>, ok: bool) returns (sends: bool)
      ensures sends <==> !Expired(View(), captured) && ok
    {
      if captured.None? || captured != guard {
        return false;
      }
      return ok;
    }

    /** The observer of SetRemoteDescription: an offer is answered once local tracks are attached. */
    method OnRemoteDescriptionSet(captured: Option<nat>, ok: bool, answer: bool, tracks: bool)
      modifies this`started
      ensures started == (if Expired(View(), captured) || !ok || connection.None? then None
                          else FollowUp(View(), RemoteSet(captured, connection.value, answer), Library(true, tracks)))
    {
      started := None;
      if captured.None? || captured != guard || !ok {
        return;
      }
      if answer {
        if connection.None? || !tracks {
          return;
        }
        started := Some(Described(guard, connection.value, false));
      }
    }

    method IceConnectionTask(ice: IceState, state: CallState)
      modifies this`armed
      ensures View() == IceChanged(old(View()), ice, state)
    {
      if ice == IceUp {
        armed := false;
        return;
      }
      if ice == IceDown {
        if state == Connected {
          armed := true;
        } else {
          armed := false;
        }
        return;
      }
      armed := false;
    }
  }
}
