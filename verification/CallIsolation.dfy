/** All clients together: the call network of `CallNetwork`, one endpoint per client, and a media
    network that may lose, reorder and duplicate. The histories record for which call each peer
    connection was made, and every pair of a connection and a call id that met. */
module CallIsolation {
  import opened Wrappers
  import opened CallTypes
  import opened CallManagers
  import opened CallNetwork
  import opened CallSessions

  /** History: who made a connection, and for which call. */
  datatype Epoch = Epoch(owner: Name, call: CallId)

  /** History: a remote message with this id reached the connection, or it sent one out. */
  datatype Contact = Contact(connection: nat, id: CallId)

  datatype World = World(
    calls: System,
    ends: map<Name, Endpoint>,
    media: set<MediaPacket>,  // every media message ever sent; delivery does not take it away
    tasks: set<Task>,         // completions that have not run yet
    epochs: seq<Epoch>,
    offers: seq<Epoch>,       // history: every CreateOffer
    contacts: set<Contact>)

  datatype Happening =
    | Call(event: Event, library: Library)
    | Arrive(pk: MediaPacket)
    | Complete(task: Task, ok: bool, library: Library)
    | Gathered(connection: nat, usable: bool)
    | Ice(who: Name, state: IceState)
    | WatchdogExpired(who: Name)
    | PeerOffline(who: Name, offline: Name)

  function Begin(names: set<Name>): World {
    World(Start(names), map n | n in names :: FRESH, {}, {}, [], [], {})
  }

  predicate Possible(w: World, h: Happening) {
    match h
    case Call(e, _) => Enabled(w.calls, e)
    case Arrive(pk) => pk in w.media && pk.to in w.calls.clients && pk.to in w.ends
    case Complete(task, _, _) =>
      task in w.tasks && task.connection < |w.epochs| && w.epochs[task.connection].owner in w.ends
    case Gathered(k, _) => k < |w.epochs| && w.epochs[k].owner in w.ends && w.epochs[k].owner in w.calls.clients
    case Ice(p, _) => p in w.calls.clients && p in w.ends
    case WatchdogExpired(p) => p in w.calls.clients
    case PeerOffline(p, _) => p in w.calls.clients && p in w.ends
  }

  function Actor(s: System, e: Event): Name
    requires Enabled(s, e) && !e.Lose?
  {
    if e.Act? then e.who else s.net[e.index].to
  }

  function Doing(s: System, e: Event): Operation
    requires Enabled(s, e) && !e.Lose?
  {
    if e.Act? then e.op else Handle(s.net[e.index].from, s.net[e.index].message)
  }

  function Added<T>(ts: set<T>, t: Option<T>): set<T> {
    if t.Some? then ts + {t.value} else ts
  }

  /** A call-control step with the reactions of the acting client's endpoint. */
  function CallStep(w: World, e: Event, library: Library): World
    requires Enabled(w.calls, e)
  {
    var calls := Step(w.calls, e);
    if e.Lose? || Actor(w.calls, e) !in w.ends then w.(calls := calls)
    else
      var who := Actor(w.calls, e);
      var o := Perform(w.calls.clients[who], Doing(w.calls, e));
      Reacted(w.(calls := calls), who, o.after.id,
              ReactAll(Reaction(w.ends[who], false, None), o.Actions(), |w.epochs|, library))
  }

  function Reacted(w: World, who: Name, id: CallId, r: Reaction): World {
    w.(ends := w.ends[who := r.end],
       epochs := if r.created then w.epochs + [Epoch(who, id)] else w.epochs,
       tasks := Added(w.tasks, r.task),
       offers := if r.task.Some? then w.offers + [Epoch(who, id)] else w.offers)
  }

  /** A message of kind `kind` sent on behalf of connection `k`, stamped with the current call. */
  function Sent(w: World, who: Name, k: nat, kind: Media, usable: bool): World
    requires who in w.calls.clients && who in w.ends
  {
    var id := w.calls.clients[who].id;
    w.(media := w.media + {MediaPacket(who, w.ends[who].peer, kind, id, usable)},
       contacts := w.contacts + {Contact(k, id)})
  }

  function ArriveStep(w: World, pk: MediaPacket): World
    requires pk.to in w.calls.clients && pk.to in w.ends
  {
    var (r, reached) := Receive(w.ends[pk.to], w.calls.clients[pk.to].id, pk);
    Arrived(w, pk, r, reached)
  }

  function Arrived(w: World, pk: MediaPacket, r: Reaction, reached: bool): World
    requires pk.to in w.ends
  {
    var e := w.ends[pk.to];
    w.(ends := w.ends[pk.to := r.end], tasks := Added(w.tasks, r.task),
       contacts := if reached && e.connection.Some? then w.contacts + {Contact(e.connection.value, pk.id)}
                   else w.contacts)
  }

  function CompleteStep(w: World, task: Task, ok: bool, library: Library): World
    requires task.connection < |w.epochs| && w.epochs[task.connection].owner in w.ends
  {
    var who := w.epochs[task.connection].owner;
    var e := w.ends[who];
    var done := w.(tasks := w.tasks - {task});
    if Expired(e, task.guard) || !ok || who !in w.calls.clients then done
    else if task.LocalSet? then Sent(done, who, task.connection, if task.offer then Offer else Answer, true)
    else done.(tasks := Added(done.tasks, FollowUp(e, task, library)))
  }

  function Advance(w: World, h: Happening): World
    requires Possible(w, h)
  {
    match h
    case Call(e, library) => CallStep(w, e, library)
    case Arrive(pk) => ArriveStep(w, pk)
    case Complete(task, ok, library) => CompleteStep(w, task, ok, library)
    case Gathered(k, usable) =>
      if Expired(w.ends[w.epochs[k].owner], Some(k)) then w
      else Sent(w, w.epochs[k].owner, k, Candidate, usable)
    case Ice(p, state) =>
      var w' := w.(ends := w.ends[p := IceChanged(w.ends[p], state, w.calls.clients[p].state)]);
      if state == IceUp then CallStep(w', Act(p, PeerConnectionEstablished), Library(true, true)) else w'
    case WatchdogExpired(p) =>
      if w.calls.clients[p].state == Connected then CallStep(w, Act(p, EndCall), Library(true, true)) else w
    case PeerOffline(p, offline) =>
      if offline != w.ends[p].peer || w.calls.clients[p].state == Connected then w
      else CallStep(w, Act(p, EndCall), Library(true, true))
  }

  ghost predicate WorldNext(w: World, v: World) {
    exists h :: Possible(w, h) && v == Advance(w, h)
  }

  ghost predicate WorldStepAt(r: seq<World>, i: nat)
    requires i + 1 < |r|
  {
    WorldNext(r[i], r[i + 1])
  }

  ghost predicate WorldRun(names: set<Name>, r: seq<World>) {
    && "" !in names && |r| > 0 && r[0] == Begin(names)
    && forall i | 0 <= i < |r| - 1 :: WorldStepAt(r, i)
  }

  // ----- The invariant -----

  /** One client: manager, coordinator and engine agree. */
  predicate EndpointSound(p: Name, m: Manager, e: Endpoint, epochs: seq<Epoch>) {
    && e.guard == e.connection
    && (e.connection.Some? ==>
          InMedia(m) && e.connection.value < |epochs| && epochs[e.connection.value] == Epoch(p, m.id))
    && (if InMedia(m) then e.peer == m.peer && e.isCaller == m.isCaller else e.peer == "")
    && (e.armed ==> m.state == Connected)
  }

  predicate EndpointsSound(w: World) {
    && w.ends.Keys == w.calls.clients.Keys
    && forall p <- w.ends :: EndpointSound(p, w.calls.clients[p], w.ends[p], w.epochs)
  }

  predicate EpochsSound(w: World) {
    forall k | 0 <= k < |w.epochs| :: w.epochs[k].owner in w.calls.clients && w.epochs[k].call in w.calls.ids
  }

  predicate MediaGenuine(pk: MediaPacket, ids: map<CallId, Owner>) {
    && pk.id in ids
    && match pk.kind
       case Offer => ids[pk.id] == Owner(pk.from, pk.to)
       case Answer => ids[pk.id] == Owner(pk.to, pk.from)
       case Candidate => ids[pk.id] == Owner(pk.from, pk.to) || ids[pk.id] == Owner(pk.to, pk.from)
  }

  /** Only the caller of a connection's call works on an offer there, only its callee on an answer. */
  predicate TaskGenuine(task: Task, epochs: seq<Epoch>, ids: map<CallId, Owner>) {
    && task.connection < |epochs| && task.guard == Some(task.connection)
    && var epoch := epochs[task.connection];
       epoch.call in ids &&
       match task
       case Described(_, _, offer) => epoch.owner == (if offer then ids[epoch.call].caller else ids[epoch.call].callee)
       case LocalSet(_, _, offer) => epoch.owner == (if offer then ids[epoch.call].caller else ids[epoch.call].callee)
       case RemoteSet(_, _, answer) => answer ==> epoch.owner == ids[epoch.call].callee
  }

  predicate ContactSound(c: Contact, epochs: seq<Epoch>) {
    c.connection < |epochs| && epochs[c.connection].call == c.id
  }

  predicate TrafficSound(w: World) {
    && (forall pk <- w.media :: MediaGenuine(pk, w.calls.ids))
    && (forall task <- w.tasks :: TaskGenuine(task, w.epochs, w.calls.ids))
    && (forall c <- w.contacts :: ContactSound(c, w.epochs))
  }

  predicate Dialling(s: System, p: Name, c: CallId) {
    HoldsAsCaller(s, p, c) && s.clients[p].state == Calling
  }

  /** At most one offer for each call, made by its caller after the call was accepted. */
  predicate OffersSound(w: World) {
    && (forall i, j | 0 <= i < j < |w.offers| :: w.offers[i].call != w.offers[j].call)
    && (forall o <- w.offers :: o.call in w.calls.ids && o.owner == w.calls.ids[o.call].caller
          && o.call in w.calls.accepted && !Dialling(w.calls, o.owner, o.call))
  }

  predicate WorldInv(w: World) {
    Inv(w.calls) && EndpointsSound(w) && EpochsSound(w) && TrafficSound(w) && OffersSound(w)
  }

  // ----- One client's reactions -----

  lemma ThreeUnrolled(r: Reaction, a: Action, b: Action, c: Action, serial: nat, library: Library)
    ensures ReactAll(r, [a, b, c], serial, library) ==
            React(React(React(r, a, serial, library), b, serial, library), c, serial, library)
  {
    assert [a, b, c][1..] == [b, c] && [b, c][1..] == [c] && [c][1..] == [];
    var r2 := React(React(r, a, serial, library), b, serial, library);
    assert ReactAll(r2, [c], serial, library) == ReactAll(React(r2, c, serial, library), [], serial, library);
  }

  function EpochsAfter(epochs: seq<Epoch>, p: Name, id: CallId, r: Reaction): seq<Epoch> {
    if r.created then epochs + [Epoch(p, id)] else epochs
  }

  /** What an outcome of the manager does to its own endpoint: a connection is only ever asked for
      while there is none, and an offer only by a caller just accepted. */
  predicate ReactsWell(p: Name, m: Manager, o: Outcome, e: Endpoint, epochs: seq<Epoch>, library: Library) {
    var r := ReactAll(Reaction(e, false, None), o.Actions(), |epochs|, library);
    && EndpointSound(p, o.after, r.end, EpochsAfter(epochs, p, o.after.id, r))
    && (r.created ==> InMedia(o.after) && e.connection.None?)
    && (r.task.Some? ==> Offers(m, o.after) && r.created && r.task.value == Described(Some(|epochs|), |epochs|, true))
    && Provides(m, o.after, e, r, library)
  }

  /** What a client gets: a connection on entering the media phase if the library can make one, and an
      offer with it for the caller; it keeps its connection during the media phase and stays armed as
      long as it is Connected. */
  predicate Provides(m: Manager, after: Manager, e: Endpoint, r: Reaction, library: Library) {
    && (!InMedia(m) && InMedia(after) ==> (r.end.connection.Some? <==> library.created && library.tracks))
    && (!InMedia(m) && InMedia(after) && after.isCaller && r.end.connection.Some? ==>
          r.task == Some(Described(r.end.guard, r.end.connection.value, true)))
    && (InMedia(m) && InMedia(after) ==>
          r.end.connection == e.connection && after.id == m.id && after.isCaller == m.isCaller)
    && (r.end.armed <==> e.armed && after.state == Connected)
  }

  predicate Offers(m: Manager, after: Manager) {
    m.state == Calling && after.state == Connecting && after.isCaller && after.id == m.id
  }

  lemma CallerAcceptedReacts(p: Name, m: Manager, from: Name, id: CallId, reason: string,
                             e: Endpoint, epochs: seq<Epoch>, library: Library)
    requires Sound(m) && EndpointSound(p, m, e, epochs) && m.state == Calling && Concerns(m, from, id)
    ensures ReactsWell(p, m, Answered(m, from, id, true, reason), e, epochs, library)
  {
    var o := Answered(m, from, id, true, reason);
    var a1, a2, a3 := StateChanged(Connecting, from), CallAccepted(from), NeedCreate(from, true);
    assert o.Actions() == [a1, a2, a3];
    ThreeUnrolled(Reaction(e, false, None), a1, a2, a3, |epochs|, library);
  }

  lemma RejectionActions(m: Manager, from: Name, id: CallId, reason: string)
    requires m.state == Calling && Concerns(m, from, id)
    ensures Answered(m, from, id, false, reason).Actions() ==
            [StateChanged(Idle, from), CallRejected(from, reason), StateChanged(Idle, "")]
    ensures Answered(m, from, id, false, reason).after.state == Idle
  {
  }

  lemma AcceptedReacts(p: Name, m: Manager, e: Endpoint, epochs: seq<Epoch>, library: Library)
    requires Sound(m) && EndpointSound(p, m, e, epochs)
    ensures ReactsWell(p, m, Accepted(m), e, epochs, library)
  {
    var o := Accepted(m);
    if m.state == Receiving {
      assert o.Actions() == [Send(o.letter.value), o.rest[0], o.rest[1]];
      ThreeUnrolled(Reaction(e, false, None), Send(o.letter.value), o.rest[0], o.rest[1], |epochs|, library);
    }
  }

  /** Actions that make no connection, the last of them the return to Idle, leave nothing open. */
  lemma {:induction false} BackToIdle(r: Reaction, a: seq<Action>, serial: nat, library: Library)
    requires a != [] && a[|a| - 1] == StateChanged(Idle, "")
    requires forall x <- a :: !x.NeedCreate?
    requires r.end.guard == r.end.connection
    requires r.end.connection.None? || NeedClose in a
    ensures var r' := ReactAll(r, a, serial, library);
            && r' == r.(end := r'.end) && r'.end.peer == "" && !r'.end.armed
            && r'.end.connection.None? && r'.end.guard.None?
    decreases |a|
  {
    var first := React(r, a[0], serial, library);
    if |a| == 1 {
      assert a[1..] == [];
    } else {
      assert a == [a[0]] + a[1..];
      BackToIdle(first, a[1..], serial, library);
    }
  }

  lemma LeavingReacts(p: Name, m: Manager, o: Outcome, e: Endpoint, epochs: seq<Epoch>, library: Library)
    requires EndpointSound(p, m, e, epochs)
    requires o.after.state == Idle
    requires var a := o.Actions();
             && a != [] && a[|a| - 1] == StateChanged(Idle, "") && (forall x <- a :: !x.NeedCreate?)
             && (InMedia(m) ==> NeedClose in a)
    ensures ReactsWell(p, m, o, e, epochs, library)
  {
    BackToIdle(Reaction(e, false, None), o.Actions(), |epochs|, library);
  }

  /** Actions that concern only the user interface or the transport. */
  predicate Plain(a: Action, state: CallState) {
    a.Send? || a.IncomingCall? || a.CallAccepted? || (a.StateChanged? && a.state == state && state != Idle)
  }

  lemma {:induction false} PlainReacts(r: Reaction, a: seq<Action>, state: CallState, serial: nat, library: Library)
    requires forall x <- a :: Plain(x, state)
    requires r.end.armed ==> state == Connected
    ensures ReactAll(r, a, serial, library) == r
    decreases |a|
  {
    if a != [] {
      assert Plain(a[0], state) && React(r, a[0], serial, library) == r;
      PlainReacts(r, a[1..], state, serial, library);
    }
  }

  lemma StayingReacts(p: Name, m: Manager, o: Outcome, e: Endpoint, epochs: seq<Epoch>, library: Library)
    requires EndpointSound(p, m, e, epochs)
    requires forall x <- o.Actions() :: Plain(x, o.after.state)
    requires InMedia(m) == InMedia(o.after) && (e.armed ==> o.after.state == Connected)
    requires InMedia(m) ==> o.after.peer == m.peer && o.after.id == m.id && o.after.isCaller == m.isCaller
    ensures ReactsWell(p, m, o, e, epochs, library)
  {
    PlainReacts(Reaction(e, false, None), o.Actions(), o.after.state, |epochs|, library);
  }

  lemma ActionParts(o: Outcome)
    ensures forall x <- o.Actions() :: x.Send? || x in o.before || x in o.rest
    ensures forall x <- o.rest :: x in o.Actions()
    ensures o.rest != [] ==> o.Actions() != [] && o.Actions()[|o.Actions()| - 1] == o.rest[|o.rest| - 1]
  {
  }

  lemma LeavingParts(m: Manager, op: Operation)
    requires m.state != Idle && Perform(m, op).after.state == Idle && !(op.Handle? && op.message.Response?)
    ensures var o := Perform(m, op);
            && o.before == [] && o.rest != [] && o.rest[|o.rest| - 1] == StateChanged(Idle, "")
            && (forall x <- o.rest :: !x.NeedCreate?) && (InMedia(m) ==> NeedClose in o.rest)
  {
  }

  lemma LeavingActions(m: Manager, op: Operation)
    requires m.state != Idle && Perform(m, op).after.state == Idle && !(op.Handle? && op.message.Response?)
    ensures var a := Perform(m, op).Actions();
            && a != [] && a[|a| - 1] == StateChanged(Idle, "") && (forall x <- a :: !x.NeedCreate?)
            && (InMedia(m) ==> NeedClose in a)
  {
    LeavingParts(m, op);
    ActionParts(Perform(m, op));
  }

  lemma StayingParts(m: Manager, op: Operation)
    requires Sound(m) && !op.AcceptCall? && !(op.Handle? && op.message.Response?)
    requires m.state == Idle || Perform(m, op).after.state != Idle
    ensures var o := Perform(m, op);
            && (forall x <- o.before :: Plain(x, o.after.state)) && (forall x <- o.rest :: Plain(x, o.after.state))
            && InMedia(m) == InMedia(o.after) && (m.state == Connected ==> o.after.state == Connected)
            && (InMedia(m) ==> o.after.peer == m.peer && o.after.id == m.id && o.after.isCaller == m.isCaller)
  {
  }

  lemma StayingActions(m: Manager, op: Operation)
    requires Sound(m) && !op.AcceptCall? && !(op.Handle? && op.message.Response?)
    requires m.state == Idle || Perform(m, op).after.state != Idle
    ensures var o := Perform(m, op);
            && (forall x <- o.Actions() :: Plain(x, o.after.state))
            && InMedia(m) == InMedia(o.after) && (m.state == Connected ==> o.after.state == Connected)
            && (InMedia(m) ==> o.after.peer == m.peer && o.after.id == m.id && o.after.isCaller == m.isCaller)
  {
    StayingParts(m, op);
    ActionParts(Perform(m, op));
  }

  lemma ResponseReacts(p: Name, m: Manager, from: Name, id: CallId, accepted: bool, reason: string,
                       e: Endpoint, epochs: seq<Epoch>, library: Library)
    requires Sound(m) && EndpointSound(p, m, e, epochs)
    ensures ReactsWell(p, m, Answered(m, from, id, accepted, reason), e, epochs, library)
  {
    var o := Answered(m, from, id, accepted, reason);
    if m.state != Calling || !Concerns(m, from, id) {
      StayingReacts(p, m, o, e, epochs, library);
    } else if accepted {
      CallerAcceptedReacts(p, m, from, id, reason, e, epochs, library);
    } else {
      RejectionActions(m, from, id, reason);
      LeavingReacts(p, m, o, e, epochs, library);
    }
  }

  lemma ReactionFacts(p: Name, m: Manager, op: Operation, e: Endpoint, epochs: seq<Epoch>, library: Library)
    requires Sound(m) && EndpointSound(p, m, e, epochs)
    ensures ReactsWell(p, m, Perform(m, op), e, epochs, library)
  {
    if op.AcceptCall? {
      AcceptedReacts(p, m, e, epochs, library);
    } else if op.Handle? && op.message.Response? {
      ResponseReacts(p, m, op.from, op.message.id, op.message.accepted, op.message.reason, e, epochs, library);
    } else {
      OtherReacts(p, m, op, e, epochs, library);
    }
  }

  lemma OtherReacts(p: Name, m: Manager, op: Operation, e: Endpoint, epochs: seq<Epoch>, library: Library)
    requires Sound(m) && EndpointSound(p, m, e, epochs)
    requires !op.AcceptCall? && !(op.Handle? && op.message.Response?)
    ensures ReactsWell(p, m, Perform(m, op), e, epochs, library)
  {
    var o := Perform(m, op);
    if m.state != Idle && o.after.state == Idle {
      LeavingActions(m, op);
      LeavingReacts(p, m, o, e, epochs, library);
    } else {
      StayingActions(m, op);
      StayingReacts(p, m, o, e, epochs, library);
    }
  }

  // ----- Every step keeps the invariant -----

  predicate Extends(ids: map<CallId, Owner>, ids': map<CallId, Owner>) {
    forall c <- ids :: c in ids' && ids'[c] == ids[c]
  }

  /** What a call-control step leaves alone. */
  predicate Framed(s: System, who: Name, after: Manager, t: System) {
    && who in s.clients && t.clients == s.clients[who := after]
    && Extends(s.ids, t.ids) && s.accepted <= t.accepted
    && (after.state == Calling ==>
          (s.clients[who].state == Calling && s.clients[who].id == after.id) || after.id !in s.ids)
  }

  lemma OnlyInitiateDials(m: Manager, op: Operation)
    ensures var after := Perform(m, op).after;
            after.state == Calling ==>
              (m.state == Calling && m.id == after.id) || (op.InitiateCall? && after.id == op.newId)
  {
  }

  lemma StepFramed(s: System, e: Event)
    requires Enabled(s, e) && !e.Lose?
    ensures Framed(s, Actor(s, e), Perform(s.clients[Actor(s, e)], Doing(s, e)).after, Step(s, e))
  {
    OnlyInitiateDials(s.clients[Actor(s, e)], Doing(s, e));
  }

  lemma ReactedKeepsEndpoints(w: World, calls: System, who: Name, after: Manager, r: Reaction)
    requires EndpointsSound(w) && Framed(w.calls, who, after, calls)
    requires EndpointSound(who, after, r.end, EpochsAfter(w.epochs, who, after.id, r))
    ensures EndpointsSound(Reacted(w.(calls := calls), who, after.id, r))
  {
    var v := Reacted(w.(calls := calls), who, after.id, r);
    forall p <- v.ends ensures EndpointSound(p, v.calls.clients[p], v.ends[p], v.epochs) {
      if p != who {
        assert EndpointSound(p, w.calls.clients[p], w.ends[p], w.epochs);
      }
    }
  }

  lemma ReactedKeepsTraffic(w: World, calls: System, who: Name, after: Manager, r: Reaction)
    requires EpochsSound(w) && TrafficSound(w) && Framed(w.calls, who, after, calls)
    requires r.created ==> after.id in calls.ids
    requires r.task.Some? ==>
      && r.created && r.task.value == Described(Some(|w.epochs|), |w.epochs|, true)
      && calls.ids[after.id].caller == who
    ensures var v := Reacted(w.(calls := calls), who, after.id, r);
            EpochsSound(v) && TrafficSound(v)
  {
    var v := Reacted(w.(calls := calls), who, after.id, r);
    forall pk <- v.media ensures MediaGenuine(pk, v.calls.ids) {
      assert MediaGenuine(pk, w.calls.ids);
    }
    forall task <- v.tasks ensures TaskGenuine(task, v.epochs, v.calls.ids) {
      if task in w.tasks {
        assert TaskGenuine(task, w.epochs, w.calls.ids);
      }
    }
    forall c <- v.contacts ensures ContactSound(c, v.epochs) {
      assert ContactSound(c, w.epochs);
    }
  }

  lemma OfferStaysSound(s: System, who: Name, after: Manager, t: System, o: Epoch)
    requires Framed(s, who, after, t) && Sound(s.clients[who])
    requires o.call in s.ids && o.owner == s.ids[o.call].caller && o.call in s.accepted && !Dialling(s, o.owner, o.call)
    ensures o.call in t.ids && o.owner == t.ids[o.call].caller && o.call in t.accepted && !Dialling(t, o.owner, o.call)
  {
  }

  lemma ReactedKeepsOffers(w: World, calls: System, who: Name, after: Manager, r: Reaction)
    requires OffersSound(w) && Framed(w.calls, who, after, calls)
    requires Roles(who, w.calls.clients[who], w.calls.ids) && Sound(w.calls.clients[who])
    requires r.task.Some? ==> Offers(w.calls.clients[who], after) && after.id in calls.accepted
    ensures OffersSound(Reacted(w.(calls := calls), who, after.id, r))
  {
    var v, m := Reacted(w.(calls := calls), who, after.id, r), w.calls.clients[who];
    forall o <- w.offers
      ensures o.call in calls.ids && o.owner == calls.ids[o.call].caller && o.call in calls.accepted
      ensures !Dialling(calls, o.owner, o.call)
      ensures r.task.Some? ==> o.call != after.id
    {
      OfferStaysSound(w.calls, who, after, calls, o);
    }
    if r.task.Some? {
      assert v.offers == w.offers + [Epoch(who, after.id)];
      assert calls.ids[after.id] == w.calls.ids[after.id];
    }
  }

  lemma CallStepKeepsWorld(w: World, e: Event, library: Library)
    requires WorldInv(w) && Enabled(w.calls, e)
    ensures WorldInv(CallStep(w, e, library))
  {
    StepKeepsInv(w.calls, e);
    if e.Lose? {
      LossKeepsWorld(w, e);
    } else {
      StepFramed(w.calls, e);
      ActKeepsWorld(w, e, library);
    }
  }

  lemma ActKeepsWorld(w: World, e: Event, library: Library)
    requires WorldInv(w) && Enabled(w.calls, e) && !e.Lose? && Inv(Step(w.calls, e))
    requires Framed(w.calls, Actor(w.calls, e),
                    Perform(w.calls.clients[Actor(w.calls, e)], Doing(w.calls, e)).after, Step(w.calls, e))
    ensures WorldInv(CallStep(w, e, library))
  {
    var who, op := Actor(w.calls, e), Doing(w.calls, e);
    var m := w.calls.clients[who];
    var o, calls := Perform(m, op), Step(w.calls, e);
    assert Sound(m) && EndpointSound(who, m, w.ends[who], w.epochs) && Roles(who, m, w.calls.ids);
    ReactionFacts(who, m, op, w.ends[who], w.epochs, library);
    var r := ReactAll(Reaction(w.ends[who], false, None), o.Actions(), |w.epochs|, library);
    assert calls.clients[who] == o.after && Roles(who, o.after, calls.ids);
    ReactedKeepsEndpoints(w, calls, who, o.after, r);
    ReactedKeepsTraffic(w, calls, who, o.after, r);
    ReactedKeepsOffers(w, calls, who, o.after, r);
  }

  lemma LossKeepsWorld(w: World, e: Event)
    requires WorldInv(w) && Enabled(w.calls, e) && e.Lose? && Inv(Step(w.calls, e))
    ensures WorldInv(w.(calls := Step(w.calls, e)))
  {
  }

  /** A caller past Calling is on a call to somebody else. */
  lemma CallerCallsAnother(s: System, p: Name)
    requires Inv(s) && p in s.clients && s.clients[p].isCaller && InMedia(s.clients[p])
    ensures s.clients[p].peer != p
  {
    assert Roles(p, s.clients[p], s.ids) && HoldsAsCaller(s, p, s.clients[p].id);
  }

  /** What gets past the coordinator's filter belongs to the current call, comes from its peer, and
      leaves the coordinator's peer and role as they were. */
  lemma ReceiveFacts(p: Name, m: Manager, e: Endpoint, epochs: seq<Epoch>, ids: map<CallId, Owner>, pk: MediaPacket)
    requires EndpointSound(p, m, e, epochs) && Roles(p, m, ids) && pk.to == p && MediaGenuine(pk, ids)
    requires m.isCaller && InMedia(m) ==> m.peer != p
    ensures var (r, reached) := Receive(e, m.id, pk);
            && r.end == e && !r.created
            && (r.task.Some? ==> TaskGenuine(r.task.value, epochs, ids))
            && (reached ==> e.connection.Some? && ContactSound(Contact(e.connection.value, pk.id), epochs))
  {
  }

  lemma ArriveFacts(w: World, pk: MediaPacket)
    requires WorldInv(w) && Possible(w, Arrive(pk))
    ensures var e := w.ends[pk.to];
            var (r, reached) := Receive(e, w.calls.clients[pk.to].id, pk);
            && r.end == e
            && (r.task.Some? ==> TaskGenuine(r.task.value, w.epochs, w.calls.ids))
            && (reached ==> e.connection.Some? && ContactSound(Contact(e.connection.value, pk.id), w.epochs))
  {
    var p := pk.to;
    var m := w.calls.clients[p];
    if m.isCaller && InMedia(m) {
      CallerCallsAnother(w.calls, p);
    }
    assert MediaGenuine(pk, w.calls.ids);
    ReceiveFacts(p, m, w.ends[p], w.epochs, w.calls.ids, pk);
  }

  /** Without a change of its endpoint, an arrival adds at most one task and one contact. */
  lemma ArrivedShape(w: World, pk: MediaPacket, r: Reaction, reached: bool)
    requires pk.to in w.ends && r.end == w.ends[pk.to]
    requires reached ==> w.ends[pk.to].connection.Some?
    ensures var v := Arrived(w, pk, r, reached);
            && v == w.(tasks := v.tasks, contacts := v.contacts)
            && (forall task <- v.tasks :: task in w.tasks || r.task == Some(task))
            && (forall c <- v.contacts ::
                  c in w.contacts || (reached && c == Contact(w.ends[pk.to].connection.value, pk.id)))
  {
    assert w.ends[pk.to := r.end] == w.ends;
  }

  lemma ArrivedKeepsWorld(w: World, pk: MediaPacket, r: Reaction, reached: bool)
    requires WorldInv(w) && pk.to in w.ends && r.end == w.ends[pk.to]
    requires r.task.Some? ==> TaskGenuine(r.task.value, w.epochs, w.calls.ids)
    requires var e := w.ends[pk.to];
             reached ==> e.connection.Some? && ContactSound(Contact(e.connection.value, pk.id), w.epochs)
    ensures WorldInv(Arrived(w, pk, r, reached))
  {
    var v := Arrived(w, pk, r, reached);
    ArrivedShape(w, pk, r, reached);
    TrafficKeepsWorld(w, v.tasks, v.contacts);
  }

  lemma ArriveKeepsWorld(w: World, pk: MediaPacket)
    requires WorldInv(w) && Possible(w, Arrive(pk))
    ensures WorldInv(ArriveStep(w, pk))
  {
    ArriveFacts(w, pk);
    var (r, reached) := Receive(w.ends[pk.to], w.calls.clients[pk.to].id, pk);
    ArrivedKeepsWorld(w, pk, r, reached);
  }

  lemma TrafficKeepsWorld(w: World, tasks: set<Task>, contacts: set<Contact>)
    requires WorldInv(w)
    requires forall task <- tasks :: task in w.tasks || TaskGenuine(task, w.epochs, w.calls.ids)
    requires forall c <- contacts :: c in w.contacts || ContactSound(c, w.epochs)
    ensures WorldInv(w.(tasks := tasks, contacts := contacts))
  {
  }

  lemma TaskKeepsWorld(w: World, next: Option<Task>)
    requires WorldInv(w) && (next.Some? ==> TaskGenuine(next.value, w.epochs, w.calls.ids))
    ensures WorldInv(w.(tasks := Added(w.tasks, next)))
  {
    TrafficKeepsWorld(w, Added(w.tasks, next), w.contacts);
    assert w.(tasks := Added(w.tasks, next)) == w.(tasks := Added(w.tasks, next), contacts := w.contacts);
  }

  lemma EndpointKeepsWorld(w: World, p: Name, e: Endpoint)
    requires WorldInv(w) && p in w.ends && EndpointSound(p, w.calls.clients[p], e, w.epochs)
    ensures WorldInv(w.(ends := w.ends[p := e]))
  {
  }

  /** A completion whose guard is current runs on the very connection it was issued on. */
  lemma CurrentCompletion(w: World, task: Task, ok: bool, library: Library)
    requires WorldInv(w) && Possible(w, Complete(task, ok, library))
    requires !Expired(w.ends[w.epochs[task.connection].owner], task.guard)
    ensures var p := w.epochs[task.connection].owner;
            && w.ends[p].connection == w.ends[p].guard == Some(task.connection)
            && InMedia(w.calls.clients[p]) && w.calls.clients[p].id == w.epochs[task.connection].call
            && w.ends[p].peer == w.calls.clients[p].peer
            && Roles(p, w.calls.clients[p], w.calls.ids)
  {
    var p := w.epochs[task.connection].owner;
    assert TaskGenuine(task, w.epochs, w.calls.ids);
    assert EndpointSound(p, w.calls.clients[p], w.ends[p], w.epochs);
  }

  lemma SentIsGenuine(p: Name, m: Manager, e: Endpoint, epochs: seq<Epoch>, ids: map<CallId, Owner>,
                      kind: Media, usable: bool)
    requires EndpointSound(p, m, e, epochs) && Roles(p, m, ids) && e.connection.Some?
    requires m.id in ids ==> (kind == Offer ==> ids[m.id].caller == p) && (kind == Answer ==> ids[m.id].callee == p)
    ensures MediaGenuine(MediaPacket(p, e.peer, kind, m.id, usable), ids)
    ensures ContactSound(Contact(e.connection.value, m.id), epochs)
  {
  }

  lemma MediaKeepsWorld(w: World, pk: MediaPacket, c: Contact)
    requires WorldInv(w) && MediaGenuine(pk, w.calls.ids) && ContactSound(c, w.epochs)
    ensures WorldInv(w.(media := w.media + {pk}, contacts := w.contacts + {c}))
  {
    MediaKeepsTraffic(w, pk, c);
    TrafficApart(w, w.(media := w.media + {pk}, contacts := w.contacts + {c}));
  }

  lemma MediaKeepsTraffic(w: World, pk: MediaPacket, c: Contact)
    requires TrafficSound(w) && MediaGenuine(pk, w.calls.ids) && ContactSound(c, w.epochs)
    ensures TrafficSound(w.(media := w.media + {pk}, contacts := w.contacts + {c}))
  {
  }

  /** Nothing but the soundness of the traffic depends on it. */
  lemma TrafficApart(w: World, v: World)
    requires WorldInv(w) && TrafficSound(v) && v == w.(tasks := v.tasks, media := v.media, contacts := v.contacts)
    ensures WorldInv(v)
  {
  }

  lemma SentKeepsWorld(w: World, who: Name, k: nat, kind: Media, usable: bool)
    requires WorldInv(w) && who in w.ends && w.ends[who].connection == Some(k)
    requires var m := w.calls.clients[who];
             m.id in w.calls.ids ==>
               && (kind == Offer ==> w.calls.ids[m.id].caller == who)
               && (kind == Answer ==> w.calls.ids[m.id].callee == who)
    ensures WorldInv(Sent(w, who, k, kind, usable))
  {
    var m := w.calls.clients[who];
    assert EndpointSound(who, m, w.ends[who], w.epochs) && Roles(who, m, w.calls.ids);
    SentIsGenuine(who, m, w.ends[who], w.epochs, w.calls.ids, kind, usable);
    MediaKeepsWorld(w, MediaPacket(who, w.ends[who].peer, kind, m.id, usable), Contact(k, m.id));
  }

  lemma DescribedKeepsWorld(w: World, task: Task, library: Library)
    requires WorldInv(w) && Possible(w, Complete(task, true, library)) && task.LocalSet?
    requires !Expired(w.ends[w.epochs[task.connection].owner], task.guard)
    ensures WorldInv(Sent(w, w.epochs[task.connection].owner, task.connection,
                          if task.offer then Offer else Answer, true))
  {
    CurrentCompletion(w, task, true, library);
    assert TaskGenuine(task, w.epochs, w.calls.ids);
    SentKeepsWorld(w, w.epochs[task.connection].owner, task.connection, if task.offer then Offer else Answer, true);
  }

  /** What follows a genuine completion on its own connection is genuine again. */
  lemma FollowUpGenuine(e: Endpoint, task: Task, epochs: seq<Epoch>, ids: map<CallId, Owner>, library: Library)
    requires TaskGenuine(task, epochs, ids) && e.connection == Some(task.connection) && e.guard == e.connection
    ensures var next := FollowUp(e, task, library);
            next.Some? ==> TaskGenuine(next.value, epochs, ids)
  {
    match task
    case Described(_, _, _) =>
    case LocalSet(_, _, _) =>
    case RemoteSet(_, _, _) =>
  }

  lemma FollowedKeepsWorld(w: World, task: Task, library: Library)
    requires WorldInv(w) && Possible(w, Complete(task, true, library))
    requires !Expired(w.ends[w.epochs[task.connection].owner], task.guard)
    ensures WorldInv(w.(tasks := Added(w.tasks, FollowUp(w.ends[w.epochs[task.connection].owner], task, library))))
  {
    var p := w.epochs[task.connection].owner;
    CurrentCompletion(w, task, true, library);
    assert TaskGenuine(task, w.epochs, w.calls.ids);
    FollowUpGenuine(w.ends[p], task, w.epochs, w.calls.ids, library);
    TaskKeepsWorld(w, FollowUp(w.ends[p], task, library));
  }

  lemma CompleteShape(w: World, task: Task, ok: bool, library: Library)
    requires Possible(w, Complete(task, ok, library)) && w.epochs[task.connection].owner in w.calls.clients
    ensures var p := w.epochs[task.connection].owner;
            var v := if Expired(w.ends[p], task.guard) || !ok then w
                     else if task.LocalSet? then Sent(w, p, task.connection, if task.offer then Offer else Answer, true)
                     else w.(tasks := Added(w.tasks, FollowUp(w.ends[p], task, library)));
            var c := CompleteStep(w, task, ok, library);
            c == v.(tasks := c.tasks) && c.tasks <= v.tasks
  {
  }

  lemma CompleteKeepsWorld(w: World, task: Task, ok: bool, library: Library)
    requires WorldInv(w) && Possible(w, Complete(task, ok, library))
    ensures WorldInv(CompleteStep(w, task, ok, library))
  {
    var p := w.epochs[task.connection].owner;
    CompleteShape(w, task, ok, library);
    var c := CompleteStep(w, task, ok, library);
    if Expired(w.ends[p], task.guard) || !ok {
      TrafficKeepsWorld(w, c.tasks, w.contacts);
    } else if task.LocalSet? {
      DescribedKeepsWorld(w, task, library);
      var v := Sent(w, p, task.connection, if task.offer then Offer else Answer, true);
      TrafficKeepsWorld(v, c.tasks, v.contacts);
    } else {
      FollowedKeepsWorld(w, task, library);
      TrafficKeepsWorld(w.(tasks := Added(w.tasks, FollowUp(w.ends[p], task, library))), c.tasks, w.contacts);
    }
  }

  lemma GatheredKeepsWorld(w: World, k: nat, usable: bool)
    requires WorldInv(w) && Possible(w, Gathered(k, usable))
    ensures WorldInv(Advance(w, Gathered(k, usable)))
  {
    var p := w.epochs[k].owner;
    assert EndpointSound(p, w.calls.clients[p], w.ends[p], w.epochs);
    if !Expired(w.ends[p], Some(k)) {
      SentKeepsWorld(w, p, k, Candidate, usable);
    }
  }

  lemma IceKeepsWorld(w: World, p: Name, state: IceState)
    requires WorldInv(w) && Possible(w, Ice(p, state))
    ensures WorldInv(Advance(w, Ice(p, state)))
  {
    var e := IceChanged(w.ends[p], state, w.calls.clients[p].state);
    assert EndpointSound(p, w.calls.clients[p], w.ends[p], w.epochs);
    var w' := w.(ends := w.ends[p := e]);
    EndpointKeepsWorld(w, p, e);
    if state == IceUp {
      CallStepKeepsWorld(w', Act(p, PeerConnectionEstablished), Library(true, true));
    }
  }

  lemma AdvanceKeepsWorld(w: World, h: Happening)
    requires WorldInv(w) && Possible(w, h)
    ensures WorldInv(Advance(w, h))
  {
    match h
    case Call(e, library) => CallStepKeepsWorld(w, e, library);
    case Arrive(pk) => ArriveKeepsWorld(w, pk);
    case Complete(task, ok, library) => CompleteKeepsWorld(w, task, ok, library);
    case Gathered(k, usable) => GatheredKeepsWorld(w, k, usable);
    case Ice(p, state) => IceKeepsWorld(w, p, state);
    case WatchdogExpired(p) => CallStepKeepsWorld(w, Act(p, EndCall), Library(true, true));
    case PeerOffline(p, _) => CallStepKeepsWorld(w, Act(p, EndCall), Library(true, true));
  }

  lemma WorldNextKeeps(w: World, v: World)
    requires WorldInv(w) && WorldNext(w, v)
    ensures WorldInv(v)
  {
    var h :| Possible(w, h) && v == Advance(w, h);
    AdvanceKeepsWorld(w, h);
  }

  lemma {:induction false} WorldRunKeeps(names: set<Name>, r: seq<World>, k: nat)
    requires WorldRun(names, r) && k < |r|
    ensures WorldInv(r[k])
  {
    if k > 0 {
      WorldRunKeeps(names, r, k - 1);
      assert WorldStepAt(r, k - 1);
      WorldNextKeeps(r[k - 1], r[k]);
    }
  }

  // ----- What the invariant says -----

  /** Calls are isolated from each other. In every run, whatever the media network loses, delays or
      repeats and whenever completions of closed connections arrive: every remote offer, answer or
      candidate that reaches a peer connection, and every one it sends, carries the id of the call
      that connection was made for. */
  lemma CallsAreIsolated(names: set<Name>, r: seq<World>, k: nat, c: Contact)
    requires WorldRun(names, r) && k < |r| && c in r[k].contacts
    ensures c.connection < |r[k].epochs| && c.id == r[k].epochs[c.connection].call
  {
    WorldRunKeeps(names, r, k);
  }

  /** A peer connection exists only while its own call is in the media phase; coordinator and
      manager agree on peer and role; the watchdog is armed only in Connected. */
  lemma ConnectionLifecycle(names: set<Name>, r: seq<World>, k: nat, p: Name)
    requires WorldRun(names, r) && k < |r| && p in r[k].ends
    ensures p in r[k].calls.clients
    ensures var m, e := r[k].calls.clients[p], r[k].ends[p];
            && (e.connection.Some? ==>
                  && m.state in {Connecting, Connected}
                  && e.connection.value < |r[k].epochs| && r[k].epochs[e.connection.value] == Epoch(p, m.id)
                  && e.peer == m.peer && e.isCaller == m.isCaller)
            && (m.state == Idle ==> e == FRESH.(isCaller := e.isCaller))
            && (e.armed ==> m.state == Connected)
  {
    WorldRunKeeps(names, r, k);
    assert EndpointSound(p, r[k].calls.clients[p], r[k].ends[p], r[k].epochs);
    assert Sound(r[k].calls.clients[p]);
  }

  /** Whenever the manager asks for a peer connection there is none: the coordinator's early return
      that would reuse an old one is never taken. */
  lemma NoConnectionIsReused(names: set<Name>, r: seq<World>, k: nat, e: Event)
    requires WorldRun(names, r) && k < |r| && Enabled(r[k].calls, e) && !e.Lose?
    requires var o := Perform(r[k].calls.clients[Actor(r[k].calls, e)], Doing(r[k].calls, e));
             exists a <- o.Actions() :: a.NeedCreate?
    ensures Actor(r[k].calls, e) in r[k].ends && r[k].ends[Actor(r[k].calls, e)].connection.None?
  {
    WorldRunKeeps(names, r, k);
    var p := Actor(r[k].calls, e);
    assert EndpointSound(p, r[k].calls.clients[p], r[k].ends[p], r[k].epochs);
    OnlyEnteringMediaCreates(r[k].calls.clients[p], Doing(r[k].calls, e));
  }

  lemma OnlyEnteringMediaCreates(m: Manager, op: Operation)
    requires Sound(m)
    requires exists a <- Perform(m, op).Actions() :: a.NeedCreate?
    ensures m.state in {Receiving, Calling} && InMedia(Perform(m, op).after)
  {
    if !op.AcceptCall? && !(op.Handle? && op.message.Response?) {
      if m.state != Idle && Perform(m, op).after.state == Idle {
        LeavingActions(m, op);
      } else {
        StayingActions(m, op);
      }
    }
  }

  /** Each call sees at most one offer, made by its caller once the callee had accepted. */
  lemma OneOfferPerCall(names: set<Name>, r: seq<World>, k: nat, i: nat, j: nat)
    requires WorldRun(names, r) && k < |r| && i < |r[k].offers| && j < |r[k].offers|
    ensures r[k].offers[i].call == r[k].offers[j].call ==> i == j
    ensures var o := r[k].offers[i];
            o.call in r[k].calls.ids && o.owner == r[k].calls.ids[o.call].caller && o.call in r[k].calls.accepted
  {
    WorldRunKeeps(names, r, k);
    assert r[k].offers[i] in r[k].offers;
  }

  /** A description completion with a current guard always finds a connection to work on. */
  lemma CompletionHasConnection(names: set<Name>, r: seq<World>, k: nat, task: Task, ok: bool, library: Library)
    requires WorldRun(names, r) && k < |r| && Possible(r[k], Complete(task, ok, library))
    requires !Expired(r[k].ends[r[k].epochs[task.connection].owner], task.guard)
    ensures r[k].ends[r[k].epochs[task.connection].owner].connection == Some(task.connection)
  {
    WorldRunKeeps(names, r, k);
    CurrentCompletion(r[k], task, ok, library);
  }

  /** Every step of the whole system is a step of the call network or leaves it alone. */
  lemma CallsRunInside(w: World, h: Happening)
    requires Possible(w, h)
    ensures Advance(w, h).calls == w.calls || Next(w.calls, Advance(w, h).calls)
  {
    match h
    case Call(e, _) => assert Next(w.calls, Step(w.calls, e));
    case Ice(p, state) =>
      if state == IceUp {
        assert Enabled(w.calls, Act(p, PeerConnectionEstablished));
      }
    case WatchdogExpired(p) => assert Enabled(w.calls, Act(p, EndCall));
    case PeerOffline(p, _) => assert Enabled(w.calls, Act(p, EndCall));
    case _ =>
  }

  lemma WorldNextInside(w: World, v: World)
    requires WorldNext(w, v)
    ensures v.calls == w.calls || Next(w.calls, v.calls)
  {
    var h :| Possible(w, h) && v == Advance(w, h);
    CallsRunInside(w, h);
  }

  lemma OneCallMore(names: set<Name>, q: seq<System>, t: System) returns (q': seq<System>)
    requires Run(names, q) && Next(q[|q| - 1], t)
    ensures Run(names, q') && q'[|q'| - 1] == t
  {
    q' := q + [t];
    forall i | 0 <= i < |q'| - 1 ensures StepAt(q', i) {
      if i < |q| - 1 {
        assert StepAt(q, i);
      }
    }
  }

  /** Call control inside a run of the whole system is a run of the call network: what holds of every
      state such a run reaches holds here. */
  lemma {:induction false} CallsAreARun(names: set<Name>, r: seq<World>, k: nat) returns (q: seq<System>)
    requires WorldRun(names, r) && k < |r|
    ensures Run(names, q) && q[|q| - 1] == r[k].calls
  {
    if k == 0 {
      q := [Start(names)];
    } else {
      q := CallsAreARun(names, r, k - 1);
      assert WorldStepAt(r, k - 1);
      WorldNextInside(r[k - 1], r[k]);
      if r[k].calls != r[k - 1].calls {
        q := OneCallMore(names, q, r[k].calls);
      }
    }
  }
}
