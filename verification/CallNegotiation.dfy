/** What the coordinators and engines do achieve, in every run of the whole system: connections are made
    and offered on, what belongs to a call arrives, descriptions are exchanged, and the watchdog is
    armed and acts when it should. */
module CallNegotiation {
  import opened Wrappers
  import opened CallTypes
  import opened CallManagers
  import opened CallNetwork
  import CallAgreement
  import opened CallSessions
  import opened CallIsolation

  // ----- Connections and offers -----

  /** A caller with a connection has offered on it. */
  predicate Offered(w: World, p: Name) {
    p in w.ends && p in w.calls.clients && w.ends[p].connection.Some? && w.calls.clients[p].isCaller ==>
      Epoch(p, w.calls.clients[p].id) in w.offers
  }

  predicate AllOffered(w: World) {
    forall p <- w.ends :: Offered(w, p)
  }

  /** What a call-control step does to the acting client, seen from its endpoint. */
  lemma ActorReacts(w: World, e: Event, library: Library)
    requires WorldInv(w) && Enabled(w.calls, e) && !e.Lose?
    ensures var who := Actor(w.calls, e);
            var o := Perform(w.calls.clients[who], Doing(w.calls, e));
            var r := ReactAll(Reaction(w.ends[who], false, None), o.Actions(), |w.epochs|, library);
            && who in w.ends && Provides(w.calls.clients[who], o.after, w.ends[who], r, library)
            && Step(w.calls, e).clients == w.calls.clients[who := o.after]
            && CallStep(w, e, library) == Reacted(w.(calls := Step(w.calls, e)), who, o.after.id, r)
            && (r.end.connection.Some? ==> InMedia(o.after))
            && (w.ends[who].connection.Some? ==> InMedia(w.calls.clients[who]))
  {
    var who := Actor(w.calls, e);
    ClientOf(w, who);
    ReactionFacts(who, w.calls.clients[who], Doing(w.calls, e), w.ends[who], w.epochs, library);
  }

  /** A step of `who` that reacts as `r` keeps every caller's offer. */
  lemma ReactedOffers(w: World, calls: System, who: Name, m: Manager, after: Manager, r: Reaction,
                      library: Library, p: Name)
    requires who in w.ends && who in w.calls.clients && m == w.calls.clients[who]
    requires calls.clients == w.calls.clients[who := after]
    requires Provides(m, after, w.ends[who], r, library)
    requires r.end.connection.Some? ==> InMedia(after)
    requires p in w.ends && Offered(w, p)
    ensures Offered(Reacted(w.(calls := calls), who, after.id, r), p)
  {
    if p == who {
      var e := Epoch(who, after.id);
      assert e in w.offers + [e];
    }
  }

  lemma CallStepOffers(w: World, e: Event, library: Library)
    requires WorldInv(w) && AllOffered(w) && Enabled(w.calls, e)
    ensures AllOffered(CallStep(w, e, library))
  {
    var v := CallStep(w, e, library);
    if !e.Lose? {
      ActorReacts(w, e, library);
      var who := Actor(w.calls, e);
      var o := Perform(w.calls.clients[who], Doing(w.calls, e));
      var r := ReactAll(Reaction(w.ends[who], false, None), o.Actions(), |w.epochs|, library);
      forall p <- v.ends ensures Offered(v, p) {
        assert Offered(w, p);
        ReactedOffers(w, Step(w.calls, e), who, w.calls.clients[who], o.after, r, library, p);
      }
    } else {
      forall p <- v.ends ensures Offered(v, p) {
        assert Offered(w, p);
      }
    }
  }

  /** Happenings that concern no call leave clients, connections and offers alone. */
  predicate KeepsCalls(w: World, v: World) {
    && v.calls == w.calls && v.offers == w.offers && v.epochs == w.epochs && v.ends.Keys == w.ends.Keys
    && forall p <- w.ends :: v.ends[p] == w.ends[p].(armed := v.ends[p].armed)
  }

  lemma KeepingOffers(w: World, v: World)
    requires AllOffered(w) && KeepsCalls(w, v)
    ensures AllOffered(v)
  {
    forall p <- v.ends ensures Offered(v, p) {
      assert Offered(w, p);
    }
  }

  lemma ArriveKeepsCalls(w: World, pk: MediaPacket)
    requires WorldInv(w) && Possible(w, Arrive(pk))
    ensures var v := ArriveStep(w, pk); v == w.(tasks := v.tasks, contacts := v.contacts)
  {
    ArriveFacts(w, pk);
    var (r, reached) := Receive(w.ends[pk.to], w.calls.clients[pk.to].id, pk);
    ArrivedShape(w, pk, r, reached);
  }

  lemma CompleteKeepsCalls(w: World, task: Task, ok: bool, library: Library)
    requires Possible(w, Complete(task, ok, library))
    ensures var v := CompleteStep(w, task, ok, library);
            v == w.(tasks := v.tasks, contacts := v.contacts, media := v.media)
  {
  }

  lemma MediaKeepsCalls(w: World, h: Happening)
    requires WorldInv(w) && Possible(w, h) && (h.Arrive? || h.Complete? || h.Gathered?)
    ensures var v := Advance(w, h); v == w.(tasks := v.tasks, contacts := v.contacts, media := v.media)
  {
    match h
    case Arrive(pk) => ArriveKeepsCalls(w, pk);
    case Complete(task, ok, library) => CompleteKeepsCalls(w, task, ok, library);
    case Gathered(_, _) =>
  }

  /** What the invariant says of one client. */
  lemma ClientOf(w: World, p: Name)
    requires WorldInv(w) && p in w.ends
    ensures p in w.calls.clients && Sound(w.calls.clients[p]) && Roles(p, w.calls.clients[p], w.calls.ids)
    ensures EndpointSound(p, w.calls.clients[p], w.ends[p], w.epochs)
  {
  }

  /** The endpoint after an ICE report, before the manager hears of it. */
  function Noted(w: World, p: Name, state: IceState): World
    requires p in w.ends && p in w.calls.clients
  {
    w.(ends := w.ends[p := IceChanged(w.ends[p], state, w.calls.clients[p].state)])
  }

  lemma NotedIsSound(p: Name, m: Manager, e: Endpoint, epochs: seq<Epoch>, state: IceState)
    requires EndpointSound(p, m, e, epochs)
    ensures EndpointSound(p, m, IceChanged(e, state, m.state), epochs)
  {
  }

  lemma NotedKeepsWorld(w: World, p: Name, state: IceState)
    requires WorldInv(w) && p in w.ends && p in w.calls.clients
    ensures WorldInv(Noted(w, p, state))
  {
    ClientOf(w, p);
    NotedIsSound(p, w.calls.clients[p], w.ends[p], w.epochs, state);
    EndpointKeepsWorld(w, p, IceChanged(w.ends[p], state, w.calls.clients[p].state));
  }

  lemma NotedKeeps(w: World, p: Name, state: IceState)
    requires p in w.ends && p in w.calls.clients
    ensures KeepsCalls(w, Noted(w, p, state))
  {
  }

  lemma AdvanceOffers(w: World, h: Happening)
    requires WorldInv(w) && AllOffered(w) && Possible(w, h)
    ensures AllOffered(Advance(w, h))
  {
    match h
    case Call(e, library) => CallStepOffers(w, e, library);
    case Ice(p, state) =>
      NotedKeepsWorld(w, p, state);
      NotedKeeps(w, p, state);
      KeepingOffers(w, Noted(w, p, state));
      if state == IceUp {
        CallStepOffers(Noted(w, p, state), Act(p, PeerConnectionEstablished), Library(true, true));
      }
    case WatchdogExpired(p) => CallStepOffers(w, Act(p, EndCall), Library(true, true));
    case PeerOffline(p, _) => CallStepOffers(w, Act(p, EndCall), Library(true, true));
    case _ =>
      MediaKeepsCalls(w, h);
      KeepingOffers(w, Advance(w, h));
  }

  lemma NextOffers(w: World, v: World)
    requires WorldInv(w) && AllOffered(w) && WorldNext(w, v)
    ensures AllOffered(v)
  {
    var h :| Possible(w, h) && v == Advance(w, h);
    AdvanceOffers(w, h);
  }

  /** In every run, a caller that has a connection has made its offer for that very call. */
  lemma {:induction false} CallerHasOffered(names: set<Name>, r: seq<World>, k: nat, p: Name)
    requires WorldRun(names, r) && k < |r|
    ensures AllOffered(r[k])
    ensures p in r[k].ends && p in r[k].calls.clients && r[k].ends[p].connection.Some?
            && r[k].calls.clients[p].isCaller ==>
              Epoch(p, r[k].calls.clients[p].id) in r[k].offers
  {
    if k > 0 {
      CallerHasOffered(names, r, k - 1, p);
      WorldRunKeeps(names, r, k - 1);
      assert WorldStepAt(r, k - 1);
      NextOffers(r[k - 1], r[k]);
    }
    assert p in r[k].ends ==> Offered(r[k], p);
  }

  /** A client that enters the media phase has a connection afterwards exactly when the library can make
      it and attach the local tracks; a caller with one has an offer under way on it. */
  lemma EnteringMediaConnects(names: set<Name>, r: seq<World>, k: nat, e: Event, library: Library)
    requires WorldRun(names, r) && k < |r| && Enabled(r[k].calls, e) && !e.Lose?
    requires var p := Actor(r[k].calls, e);
             !InMedia(r[k].calls.clients[p]) && InMedia(Step(r[k].calls, e).clients[p])
    ensures var p, v := Actor(r[k].calls, e), Advance(r[k], Call(e, library));
            && p in v.ends && (v.ends[p].connection.Some? <==> library.created && library.tracks)
            && (v.ends[p].connection.Some? && v.calls.clients[p].isCaller ==>
                  Described(v.ends[p].guard, v.ends[p].connection.value, true) in v.tasks)
  {
    WorldRunKeeps(names, r, k);
    ActorReacts(r[k], e, library);
  }

  // ----- What arrives -----

  lemma ReceivesIff(p: Name, m: Manager, e: Endpoint, epochs: seq<Epoch>, ids: map<CallId, Owner>, pk: MediaPacket)
    requires Sound(m) && EndpointSound(p, m, e, epochs) && Roles(p, m, ids) && pk.to == p && MediaGenuine(pk, ids)
    ensures var (r, reached) := Receive(e, m.id, pk);
            && (reached <==> e.connection.Some? && pk.usable && pk.id == epochs[e.connection.value].call)
            && (!reached ==> r.task.None?)
            && (reached && pk.kind == Offer ==> r.task == Some(RemoteSet(e.connection, e.connection.value, true)))
            && (reached && pk.kind == Answer ==> r.task == Some(RemoteSet(e.connection, e.connection.value, false)))
  {
  }

  lemma ArrivingIff(w: World, pk: MediaPacket)
    requires WorldInv(w) && Possible(w, Arrive(pk))
    ensures var v := ArriveStep(w, pk);
            if w.ends[pk.to].connection.Some? && pk.usable
               && w.ends[pk.to].connection.value < |w.epochs|
               && pk.id == w.epochs[w.ends[pk.to].connection.value].call
            then
              var c := w.ends[pk.to].connection.value;
              && Contact(c, pk.id) in v.contacts
              && (pk.kind == Offer ==> RemoteSet(Some(c), c, true) in v.tasks)
              && (pk.kind == Answer ==> RemoteSet(Some(c), c, false) in v.tasks)
            else v == w
  {
    var p := pk.to;
    ClientOf(w, p);
    assert MediaGenuine(pk, w.calls.ids);
    ReceivesIff(p, w.calls.clients[p], w.ends[p], w.epochs, w.calls.ids, pk);
    ArriveKeepsCalls(w, pk);
  }

  /** In every run, a media message reaches the connection of the client it is addressed to exactly when
      it is usable and carries the id of the call that connection was made for; it is then worked on,
      and otherwise changes nothing. */
  lemma ArrivesIff(names: set<Name>, r: seq<World>, k: nat, pk: MediaPacket)
    requires WorldRun(names, r) && k < |r| && Possible(r[k], Arrive(pk))
    ensures var w, v := r[k], Advance(r[k], Arrive(pk));
            if w.ends[pk.to].connection.Some? && pk.usable
               && w.ends[pk.to].connection.value < |w.epochs|
               && pk.id == w.epochs[w.ends[pk.to].connection.value].call
            then
              var c := w.ends[pk.to].connection.value;
              && Contact(c, pk.id) in v.contacts
              && (pk.kind == Offer ==> RemoteSet(Some(c), c, true) in v.tasks)
              && (pk.kind == Answer ==> RemoteSet(Some(c), c, false) in v.tasks)
            else v == w
  {
    WorldRunKeeps(names, r, k);
    ArrivingIff(r[k], pk);
  }

  // ----- What completions lead to -----

  /** In every run, a completion that succeeds while its guard is current leads on: a created description
      is set locally, a description set locally goes to the peer of the call with the call's id, and a
      remote offer that was set is answered once the local tracks are attached. */
  lemma CompletionsLeadOn(names: set<Name>, r: seq<World>, k: nat, task: Task, library: Library)
    requires WorldRun(names, r) && k < |r| && Possible(r[k], Complete(task, true, library))
    requires !Expired(r[k].ends[r[k].epochs[task.connection].owner], task.guard)
    ensures LeadsOn(r[k], task, library)
  {
    WorldRunKeeps(names, r, k);
    CompletionLeadsOn(r[k], task, library);
  }

  predicate LeadsOn(w: World, task: Task, library: Library)
    requires Possible(w, Complete(task, true, library))
  {
    var v, p := CompleteStep(w, task, true, library), w.epochs[task.connection].owner;
    p in w.calls.clients &&
    match task
    case Described(_, c, offer) => LocalSet(task.guard, c, offer) in v.tasks
    case LocalSet(_, c, offer) =>
      var kind := if offer then Offer else Answer;
      MediaPacket(p, w.calls.clients[p].peer, kind, w.epochs[c].call, true) in v.media
      && Contact(c, w.epochs[c].call) in v.contacts
    case RemoteSet(_, c, answer) => answer && library.tracks ==> Described(task.guard, c, false) in v.tasks
  }

  lemma CompletionLeadsOn(w: World, task: Task, library: Library)
    requires WorldInv(w) && Possible(w, Complete(task, true, library))
    requires !Expired(w.ends[w.epochs[task.connection].owner], task.guard)
    ensures LeadsOn(w, task, library)
  {
    var p := w.epochs[task.connection].owner;
    CurrentCompletion(w, task, true, library);
    ClientOf(w, p);
  }

  /** In every run, a candidate gathered by a connection that still exists goes to the peer of its call. */
  lemma GatheredIsSent(names: set<Name>, r: seq<World>, k: nat, c: nat, usable: bool)
    requires WorldRun(names, r) && k < |r| && Possible(r[k], Gathered(c, usable))
    requires r[k].ends[r[k].epochs[c].owner].connection == Some(c)
    ensures var p := r[k].epochs[c].owner;
            var v := Advance(r[k], Gathered(c, usable));
            && MediaPacket(p, r[k].calls.clients[p].peer, Candidate, r[k].epochs[c].call, usable) in v.media
            && Contact(c, r[k].epochs[c].call) in v.contacts
  {
    WorldRunKeeps(names, r, k);
    ClientOf(r[k], r[k].epochs[c].owner);
  }

  // ----- The exchange of descriptions -----

  /** Caller `a` and callee `b` are on one call, each with a connection, `a` about to offer on its own. */
  predicate AboutToOffer(w: World, a: Name, b: Name, ka: nat, kb: nat, id: CallId) {
    && a in w.ends && b in w.ends && a in w.calls.clients && b in w.calls.clients
    && w.ends[a].connection == Some(ka) && w.ends[b].connection == Some(kb)
    && ka < |w.epochs| && kb < |w.epochs|
    && w.epochs[ka] == Epoch(a, id) && w.epochs[kb] == Epoch(b, id)
    && w.calls.clients[a].peer == b && w.calls.clients[b].peer == a
    && Described(Some(ka), ka, true) in w.tasks
  }

  lemma OneMore(names: set<Name>, r: seq<World>, h: Happening) returns (q: seq<World>)
    requires WorldRun(names, r) && Possible(r[|r| - 1], h)
    ensures WorldRun(names, q) && r <= q && |q| == |r| + 1 && q[|r|] == Advance(r[|r| - 1], h)
  {
    q := r + [Advance(r[|r| - 1], h)];
    forall i | 0 <= i < |q| - 1 ensures WorldStepAt(q, i) {
      if i < |r| - 1 {
        assert WorldStepAt(r, i);
      }
    }
  }

  /** Everything but the traffic is as before. */
  predicate OnlyTraffic(w: World, v: World) {
    v == w.(tasks := v.tasks, media := v.media, contacts := v.contacts)
  }

  /** A completion on the connection that its client has now. */
  lemma CompleteNow(names: set<Name>, r: seq<World>, task: Task, p: Name) returns (q: seq<World>)
    requires WorldRun(names, r)
    requires var w := r[|r| - 1];
             && task in w.tasks && p in w.ends && w.ends[p].connection == Some(task.connection)
             && task.guard == Some(task.connection)
             && task.connection < |w.epochs| && w.epochs[task.connection].owner == p
    ensures WorldRun(names, q) && r <= q && |q| == |r| + 1 && OnlyTraffic(r[|r| - 1], q[|r|])
    ensures Possible(r[|r| - 1], Complete(task, true, Library(true, true)))
    ensures q[|r|] == CompleteStep(r[|r| - 1], task, true, Library(true, true))
    ensures LeadsOn(r[|r| - 1], task, Library(true, true))
  {
    var w := r[|r| - 1];
    WorldRunKeeps(names, r, |r| - 1);
    ClientOf(w, p);
    CompletionLeadsOn(w, task, Library(true, true));
    CompleteKeepsCalls(w, task, true, Library(true, true));
    q := OneMore(names, r, Complete(task, true, Library(true, true)));
  }

  /** A usable message for the call of the connection that its receiver has now. */
  lemma ArriveNow(names: set<Name>, r: seq<World>, pk: MediaPacket, c: nat) returns (q: seq<World>)
    requires WorldRun(names, r)
    requires var w := r[|r| - 1];
             && pk in w.media && pk.usable && pk.to in w.ends && w.ends[pk.to].connection == Some(c)
             && c < |w.epochs| && pk.id == w.epochs[c].call
    ensures WorldRun(names, q) && r <= q && |q| == |r| + 1 && OnlyTraffic(r[|r| - 1], q[|r|])
    ensures Contact(c, pk.id) in q[|r|].contacts
    ensures pk.kind == Offer ==> RemoteSet(Some(c), c, true) in q[|r|].tasks
    ensures pk.kind == Answer ==> RemoteSet(Some(c), c, false) in q[|r|].tasks
  {
    var w := r[|r| - 1];
    WorldRunKeeps(names, r, |r| - 1);
    ClientOf(w, pk.to);
    ArriveKeepsCalls(w, pk);
    ArrivingIff(w, pk);
    q := OneMore(names, r, Arrive(pk));
  }

  /** From every reachable state in which caller and callee both have a connection and the caller is
      about to offer, the descriptions can be exchanged: in seven further happenings the offer reaches
      the callee's connection and the answer made on it reaches the caller's. */
  lemma DescriptionsCanBeExchanged(names: set<Name>, r: seq<World>, a: Name, b: Name, ka: nat, kb: nat, id: CallId)
    returns (q: seq<World>)
    requires WorldRun(names, r) && AboutToOffer(r[|r| - 1], a, b, ka, kb, id)
    ensures WorldRun(names, q) && r <= q && |q| == |r| + 7
    ensures Contact(kb, id) in q[|r| + 2].contacts
    ensures Contact(ka, id) in q[|r| + 6].contacts && RemoteSet(Some(ka), ka, false) in q[|r| + 6].tasks
  {
    var q3 := OfferArrives(names, r, a, b, ka, kb, id);
    var q4 := CompleteNow(names, q3, RemoteSet(Some(kb), kb, true), b);
    var q5 := CompleteNow(names, q4, Described(Some(kb), kb, false), b);
    var q6 := CompleteNow(names, q5, LocalSet(Some(kb), kb, false), b);
    q := ArriveNow(names, q6, MediaPacket(b, a, Answer, id, true), ka);
  }

  lemma OfferArrives(names: set<Name>, r: seq<World>, a: Name, b: Name, ka: nat, kb: nat, id: CallId)
    returns (q: seq<World>)
    requires WorldRun(names, r) && AboutToOffer(r[|r| - 1], a, b, ka, kb, id)
    ensures WorldRun(names, q) && r <= q && |q| == |r| + 3 && OnlyTraffic(r[|r| - 1], q[|r| + 2])
    ensures Contact(kb, id) in q[|r| + 2].contacts && RemoteSet(Some(kb), kb, true) in q[|r| + 2].tasks
  {
    var q1 := CompleteNow(names, r, Described(Some(ka), ka, true), a);
    var q2 := CompleteNow(names, q1, LocalSet(Some(ka), ka, true), a);
    q := ArriveNow(names, q2, MediaPacket(a, b, Offer, id, true), kb);
  }

  // ----- The watchdog -----

  predicate Armed(w: World, p: Name) {
    p in w.ends && w.ends[p].armed
  }

  predicate IsConnected(w: World, p: Name) {
    p in w.calls.clients && w.calls.clients[p].state == Connected
  }

  /** A step of `who` that reacts as `r`: who is armed stays so while Connected. */
  lemma ReactedArms(w: World, calls: System, who: Name, after: Manager, r: Reaction, p: Name)
    requires who in w.ends && who in w.calls.clients && p in w.ends && p in w.calls.clients
    requires calls.clients == w.calls.clients[who := after]
    requires r.end.armed <==> w.ends[who].armed && after.state == Connected
    requires Armed(w, p) ==> IsConnected(w, p)
    ensures var v := Reacted(w.(calls := calls), who, after.id, r);
            && p in v.ends && p in v.calls.clients
            && (Armed(v, p) <==> Armed(w, p) && IsConnected(v, p))
  {
  }

  lemma CallStepArms(w: World, e: Event, library: Library, p: Name)
    requires WorldInv(w) && Enabled(w.calls, e) && p in w.ends
    ensures var v := CallStep(w, e, library);
            && p in v.ends && p in v.calls.clients
            && (Armed(v, p) <==> Armed(w, p) && IsConnected(v, p))
  {
    ClientOf(w, p);
    if !e.Lose? {
      ActorReacts(w, e, library);
      var who := Actor(w.calls, e);
      ClientOf(w, who);
      var o := Perform(w.calls.clients[who], Doing(w.calls, e));
      ReactedArms(w, Step(w.calls, e), who, o.after,
                  ReactAll(Reaction(w.ends[who], false, None), o.Actions(), |w.epochs|, library), p);
    }
  }

  predicate ArmedRightly(w: World, h: Happening, v: World, p: Name) {
    Armed(v, p) <==>
      if h.Ice? && h.who == p then h.state == IceDown && IsConnected(w, p)
      else Armed(w, p) && IsConnected(v, p)
  }

  /** Happenings that come down to a step of the call manager, or to none. */
  function HungUp(w: World, u: Name): World
    requires u in w.calls.clients
  {
    CallStep(w, Act(u, EndCall), Library(true, true))
  }

  lemma HangUpShapes(w: World, u: Name, offline: Name)
    requires u in w.calls.clients && u in w.ends
    ensures Advance(w, WatchdogExpired(u)) == if IsConnected(w, u) then HungUp(w, u) else w
    ensures Advance(w, PeerOffline(u, offline)) ==
            if offline != w.ends[u].peer || IsConnected(w, u) then w else HungUp(w, u)
  {
  }

  lemma IceShape(w: World, u: Name, state: IceState)
    requires Possible(w, Ice(u, state))
    ensures Enabled(Noted(w, u, state).calls, Act(u, PeerConnectionEstablished))
    ensures Advance(w, Ice(u, state)) ==
            if state == IceUp then CallStep(Noted(w, u, state), Act(u, PeerConnectionEstablished), Library(true, true))
            else Noted(w, u, state)
  {
  }

  lemma NotedArms(w: World, u: Name, state: IceState, p: Name)
    requires u in w.ends && u in w.calls.clients && p in w.ends && p in w.calls.clients
    requires Armed(w, p) ==> IsConnected(w, p)
    ensures var v := Noted(w, u, state);
            && p in v.ends && v.calls == w.calls
            && (Armed(v, p) <==> if u == p then state == IceDown && IsConnected(w, p) else Armed(w, p))
  {
  }

  lemma ArmedIsConnected(w: World, p: Name)
    requires WorldInv(w) && p in w.ends
    ensures p in w.calls.clients && (Armed(w, p) ==> IsConnected(w, p))
  {
    ClientOf(w, p);
  }

  predicate ArmedWell(w: World, h: Happening, v: World, p: Name) {
    p in v.ends && p in v.calls.clients && ArmedRightly(w, h, v, p)
  }

  lemma IceArms(w: World, u: Name, state: IceState, p: Name)
    requires WorldInv(w) && Possible(w, Ice(u, state)) && p in w.ends
    ensures ArmedWell(w, Ice(u, state), Advance(w, Ice(u, state)), p)
  {
    ArmedIsConnected(w, p);
    NotedKeepsWorld(w, u, state);
    NotedArms(w, u, state, p);
    IceShape(w, u, state);
    if state == IceUp {
      CallStepArms(Noted(w, u, state), Act(u, PeerConnectionEstablished), Library(true, true), p);
    }
  }

  lemma MediaArms(w: World, h: Happening, p: Name)
    requires WorldInv(w) && Possible(w, h) && (h.Arrive? || h.Complete? || h.Gathered?) && p in w.ends
    ensures ArmedWell(w, h, Advance(w, h), p)
  {
    ArmedIsConnected(w, p);
    MediaKeepsCalls(w, h);
  }

  lemma HangUpArms(w: World, u: Name, h: Happening, p: Name)
    requires WorldInv(w) && u in w.calls.clients && u in w.ends && p in w.ends
    requires h == WatchdogExpired(u) || (h.PeerOffline? && h.who == u)
    ensures ArmedWell(w, h, Advance(w, h), p)
  {
    ArmedIsConnected(w, p);
    HangUpShapes(w, u, if h.PeerOffline? then h.offline else "");
    CallStepArms(w, Act(u, EndCall), Library(true, true), p);
  }

  lemma ClientsHaveEnds(w: World)
    requires WorldInv(w)
    ensures w.ends.Keys == w.calls.clients.Keys
  {
  }

  lemma ArmedAfter(w: World, h: Happening, p: Name)
    requires WorldInv(w) && Possible(w, h) && p in w.ends
    ensures ArmedWell(w, h, Advance(w, h), p)
  {
    ClientsHaveEnds(w);
    match h
    case Call(e, library) => CallStepArms(w, e, library, p);
    case Ice(u, state) => IceArms(w, u, state, p);
    case WatchdogExpired(u) => HangUpArms(w, u, h, p);
    case PeerOffline(u, _) => HangUpArms(w, u, h, p);
    case _ => MediaArms(w, h, p);
  }

  /** In every run, the watchdog of a client is armed after a happening exactly when that was a bad ICE
      state reported while Connected, or it was armed before, no other ICE state was reported, and the
      client is still Connected. */
  lemma ArmedIff(names: set<Name>, r: seq<World>, k: nat, h: Happening, p: Name)
    requires WorldRun(names, r) && k < |r| && Possible(r[k], h) && p in r[k].ends && p in r[k].calls.clients
    ensures ArmedWell(r[k], h, Advance(r[k], h), p)
  {
    WorldRunKeeps(names, r, k);
    ArmedAfter(r[k], h, p);
  }

  /** `p` has left its call, told its peer and has no connection any more. */
  predicate GoneFrom(w: World, v: World, p: Name) {
    && p in v.calls.clients && p in v.ends && p in w.calls.clients
    && v.calls.clients[p].state == Idle && v.ends[p].connection.None?
    && CallAgreement.EndInFlight(v.calls.net, p, w.calls.clients[p].peer, w.calls.clients[p].id)
  }

  lemma EndCallGoes(w: World, p: Name)
    requires WorldInv(w) && p in w.ends && p in w.calls.clients && w.calls.clients[p].state != Idle
    requires w.calls.clients[p].peer != ""
    ensures GoneFrom(w, CallStep(w, Act(p, EndCall), Library(true, true)), p)
  {
    ClientOf(w, p);
    ActorReacts(w, Act(p, EndCall), Library(true, true));
    EndIsSent(w.calls, p);
  }

  lemma EndIsSent(s: System, p: Name)
    requires p in s.clients && Sound(s.clients[p]) && s.clients[p].state != Idle && s.clients[p].peer != ""
    ensures var t, m := Step(s, Act(p, EndCall)), s.clients[p];
            t.clients[p].state == Idle && CallAgreement.EndInFlight(t.net, p, m.peer, m.id)
  {
    var m := s.clients[p];
    var pk := Packet(p, m.peer, End(m.id, "hangup"));
    assert Step(s, Act(p, EndCall)).net == s.net + [pk];
    assert CallAgreement.IsEnd(pk, p, m.peer, m.id);
  }

  lemma PeerIsKnown(p: Name, w: World)
    requires WorldInv(w) && p in w.ends && p in w.calls.clients && InMedia(w.calls.clients[p])
    ensures w.ends[p].peer == w.calls.clients[p].peer
  {
    ClientOf(w, p);
  }

  lemma LosingPeer(w: World, p: Name)
    requires WorldInv(w) && p in w.ends && p in w.calls.clients && InMedia(w.calls.clients[p])
    requires w.calls.clients[p].peer != ""
    ensures IsConnected(w, p) ==> GoneFrom(w, Advance(w, WatchdogExpired(p)), p)
    ensures !IsConnected(w, p) ==> GoneFrom(w, Advance(w, PeerOffline(p, w.calls.clients[p].peer)), p)
  {
    EndCallGoes(w, p);
    PeerIsKnown(p, w);
    HangUpShapes(w, p, w.calls.clients[p].peer);
  }

  /** In every run: a watchdog that expires while its client is Connected ends the call, and so does the
      news that the peer went offline while the call is not yet Connected. */
  lemma LostPeerEndsCall(names: set<Name>, r: seq<World>, k: nat, p: Name)
    requires WorldRun(names, r) && k < |r| && p in r[k].ends && p in r[k].calls.clients
    requires r[k].calls.clients[p].peer != ""
    ensures r[k].calls.clients[p].state == Connected ==> GoneFrom(r[k], Advance(r[k], WatchdogExpired(p)), p)
    ensures r[k].calls.clients[p].state == Connecting ==>
              GoneFrom(r[k], Advance(r[k], PeerOffline(p, r[k].calls.clients[p].peer)), p)
  {
    WorldRunKeeps(names, r, k);
    if InMedia(r[k].calls.clients[p]) {
      LosingPeer(r[k], p);
    }
  }
}
