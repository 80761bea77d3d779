/** Any number of call managers exchanging call-control messages through the signaling server.

    The network is one sequence of packets in the order they were sent. A general step may deliver
    or lose any packet, so messages can be lost and reordered but not duplicated; `FifoOnly`
    restricts a step to lossless, per-pair first-in-first-out delivery. Call ids are fresh:
    `ids` records, for every id ever generated, who generated it and whom it called. */
module CallNetwork {
  import opened Wrappers
  import opened CallTypes
  import opened CallManagers

  /** A message on its way; the server has stamped `from` with the sender's uid. */
  datatype Packet = Packet(from: Name, to: Name, message: Message)

  datatype Owner = Owner(caller: Name, callee: Name)

  datatype System = System(
    clients: map<Name, Manager>,
    net: seq<Packet>,
    ids: map<CallId, Owner>,
    accepted: set<CallId>,   // history: ids some callee accepted
    abandoned: set<CallId>)  // history: ids whose caller cancelled or timed out

  datatype Event =
    | Act(who: Name, op: Operation)
    | Deliver(index: nat)
    | Lose(index: nat)

  function Start(names: set<Name>): System {
    System(map n | n in names :: INITIAL, [], map[], {}, {})
  }

  predicate Enabled(s: System, e: Event) {
    match e
    case Act(who, op) =>
      who in s.clients && !op.Handle? && (op.InitiateCall? ==> op.newId != "" && op.newId !in s.ids)
    case Deliver(i) => i < |s.net| && s.net[i].to in s.clients
    case Lose(i) => i < |s.net|
  }

  function RemoveAt<T>(q: seq<T>, i: nat): seq<T>
    requires i < |q|
  {
    q[..i] + q[i + 1..]
  }

  function IdsAfter(ids: map<CallId, Owner>, who: Name, m: Manager, op: Operation): map<CallId, Owner> {
    if op.InitiateCall? && op.connected && m.state == Idle then ids[op.newId := Owner(who, op.target)] else ids
  }

  function AcceptedAfter(accepted: set<CallId>, m: Manager, op: Operation): set<CallId> {
    if op.AcceptCall? && m.state == Receiving then accepted + {m.id} else accepted
  }

  function AbandonedAfter(abandoned: set<CallId>, m: Manager, op: Operation): set<CallId> {
    if m.state == Calling && (op.CancelCall? || (op.TimerFires? && TimerCurrent(m)))
    then abandoned + {m.id} else abandoned
  }

  function Post(net: seq<Packet>, who: Name, letter: Option<Letter>): seq<Packet> {
    if letter.Some? then net + [Packet(who, letter.value.to, letter.value.message)] else net
  }

  /** One operation of client `who`, on top of a network from which its cause was already taken. */
  function Local(s: System, who: Name, op: Operation, net: seq<Packet>): System
    requires who in s.clients
  {
    var m := s.clients[who];
    var o := Perform(m, op);
    System(s.clients[who := o.after],
           Post(net, who, o.letter),
           IdsAfter(s.ids, who, m, op),
           AcceptedAfter(s.accepted, m, op),
           AbandonedAfter(s.abandoned, m, op))
  }

  function Step(s: System, e: Event): System
    requires Enabled(s, e)
  {
    match e
    case Act(who, op) => Local(s, who, op, s.net)
    case Deliver(i) => Local(s, s.net[i].to, Handle(s.net[i].from, s.net[i].message), RemoveAt(s.net, i))
    case Lose(i) => s.(net := RemoveAt(s.net, i))
  }

  /** Per-pair FIFO without loss; only what is addressed to nobody may disappear. */
  predicate FifoOnly(s: System, e: Event)
    requires Enabled(s, e)
  {
    match e
    case Act(_, _) => true
    case Deliver(i) => forall j | 0 <= j < i :: s.net[j].from != s.net[i].from || s.net[j].to != s.net[i].to
    case Lose(i) => s.net[i].to !in s.clients
  }

  ghost predicate Next(s: System, t: System) {
    exists e :: Enabled(s, e) && t == Step(s, e)
  }

  ghost predicate NextFifo(s: System, t: System) {
    exists e :: Enabled(s, e) && FifoOnly(s, e) && t == Step(s, e)
  }

  ghost predicate StepAt(r: seq<System>, i: nat)
    requires i + 1 < |r|
  {
    Next(r[i], r[i + 1])
  }

  ghost predicate FifoStepAt(r: seq<System>, i: nat)
    requires i + 1 < |r|
  {
    NextFifo(r[i], r[i + 1])
  }

  /** A run over a lossy, reordering network. */
  ghost predicate Run(names: set<Name>, r: seq<System>) {
    && "" !in names && |r| > 0 && r[0] == Start(names)
    && forall i | 0 <= i < |r| - 1 :: StepAt(r, i)
  }

  /** A run over a lossless network that keeps the order of each sender-receiver pair. */
  ghost predicate FifoRun(names: set<Name>, r: seq<System>) {
    && "" !in names && |r| > 0 && r[0] == Start(names)
    && forall i | 0 <= i < |r| - 1 :: FifoStepAt(r, i)
  }

  predicate Holds(s: System, p: Name, c: CallId) {
    p in s.clients && s.clients[p].state != Idle && s.clients[p].id == c
  }

  predicate HoldsAsCaller(s: System, p: Name, c: CallId) {
    Holds(s, p, c) && s.clients[p].isCaller
  }

  predicate HoldsAsCallee(s: System, p: Name, c: CallId) {
    Holds(s, p, c) && !s.clients[p].isCaller
  }

  /** In the media phase of call `c`. */
  predicate Engaged(s: System, p: Name, c: CallId) {
    Holds(s, p, c) && InMedia(s.clients[p])
  }

  // ----- The invariant of the lossy network -----

  predicate Roles(p: Name, m: Manager, ids: map<CallId, Owner>) {
    m.state != Idle ==>
      m.id in ids && ids[m.id] == (if m.isCaller then Owner(p, m.peer) else Owner(m.peer, p))
  }

  predicate ClientsSound(s: System) {
    && "" !in s.clients
    && forall p <- s.clients :: Sound(s.clients[p]) && Roles(p, s.clients[p], s.ids)
  }

  predicate IdsSound(s: System) {
    && (forall c <- s.ids :: c != "" && s.ids[c].caller in s.clients)
    && (forall c <- s.accepted :: c in s.ids && s.ids[c].callee in s.clients)
    && (forall c <- s.abandoned :: c in s.ids)
  }

  predicate Genuine(pk: Packet, ids: map<CallId, Owner>, accepted: set<CallId>) {
    && pk.message.id in ids
    && var owner := ids[pk.message.id];
       match pk.message
       case Request(_) => owner == Owner(pk.from, pk.to)
       case Response(c, yes, _) => owner == Owner(pk.to, pk.from) && (yes ==> c in accepted)
       case Cancel(_, _) => owner == Owner(pk.from, pk.to)
       case End(_, _) => owner == Owner(pk.from, pk.to) || owner == Owner(pk.to, pk.from)
  }

  predicate PacketsGenuine(s: System) {
    forall pk <- s.net :: Genuine(pk, s.ids, s.accepted)
  }

  /** A caller is past Calling only on an accepted id; a self-call cannot be accepted while its
      only client still holds it as caller. */
  predicate Consented(s: System) {
    && (forall p <- s.clients ::
          s.clients[p].isCaller && s.clients[p].state in {Connecting, Connected} ==> s.clients[p].id in s.accepted)
    && (forall c <- s.accepted :: c in s.ids && s.ids[c].caller == s.ids[c].callee ==>
          !HoldsAsCaller(s, s.ids[c].caller, c))
  }

  predicate IsRequest(pk: Packet, c: CallId) {
    pk.message.Request? && pk.message.id == c
  }

  predicate RequestInFlight(net: seq<Packet>, c: CallId) {
    exists pk <- net :: IsRequest(pk, c)
  }

  predicate OneRequestEach(net: seq<Packet>) {
    forall i, j | 0 <= i < j < |net| && net[i].message.Request? && net[j].message.Request? ::
      net[i].message.id != net[j].message.id
  }

  /** A request is in flight at most once, and never once the callee has taken the call up. */
  predicate RequestsUnique(s: System) {
    && OneRequestEach(s.net)
    && (forall pk <- s.net :: pk.message.Request? ==> !HoldsAsCallee(s, pk.to, pk.message.id))
  }

  predicate Inv(s: System) {
    ClientsSound(s) && IdsSound(s) && PacketsGenuine(s) && Consented(s) && RequestsUnique(s)
  }

  lemma RemoveAtIn<T>(q: seq<T>, i: nat)
    requires i < |q|
    ensures forall x <- RemoveAt(q, i) :: x in q
    ensures forall x <- q :: x != q[i] ==> x in RemoveAt(q, i)
  {
    forall x <- q | x != q[i] ensures x in RemoveAt(q, i) {
      var k :| 0 <= k < |q| && q[k] == x;
      assert RemoveAt(q, i)[if k < i then k else k - 1] == x;
    }
  }

  /** What a step needs to know of its cause: who acts, and what is left of the network. */
  predicate Caused(s: System, who: Name, op: Operation, net: seq<Packet>) {
    && who in s.clients
    && (forall pk <- net :: pk in s.net)
    && OneRequestEach(net)
    && (op.Handle? && op.message.Request? ==> !RequestInFlight(net, op.message.id))
    && (op.InitiateCall? ==> op.newId != "" && op.newId !in s.ids)
    && (op.Handle? ==> Packet(op.from, who, op.message) in s.net)
  }

  /** How a client comes to hold a call, and which requests it sends. */
  predicate Moves(m: Manager, op: Operation, ids: map<CallId, Owner>, after: Manager, letter: Option<Letter>) {
    && (after.state != Idle && after.isCaller ==>
          (m.state != Idle && m.isCaller && m.id == after.id) || (op.InitiateCall? && after.id !in ids))
    && (after.state != Idle && !after.isCaller ==>
          (m.state != Idle && !m.isCaller && m.id == after.id) || op == Handle(after.peer, Request(after.id)))
    && (letter.Some? && letter.value.message.Request? ==> letter.value.message.id !in ids)
  }

  /** What `Perform` guarantees about one client, given what is known about the packet it handles. */
  lemma PerformFacts(who: Name, m: Manager, op: Operation, ids: map<CallId, Owner>, accepted: set<CallId>)
    requires Sound(m) && Roles(who, m, ids)
    requires op.InitiateCall? ==> op.newId != "" && op.newId !in ids
    requires op.Handle? ==> Genuine(Packet(op.from, who, op.message), ids, accepted)
    requires m.isCaller && m.state in {Connecting, Connected} ==> m.id in accepted
    ensures var o := Perform(m, op);
            var ids' := IdsAfter(ids, who, m, op);
            var accepted' := AcceptedAfter(accepted, m, op);
            && Sound(o.after) && Roles(who, o.after, ids')
            && (o.letter.Some? ==> Genuine(Packet(who, o.letter.value.to, o.letter.value.message), ids', accepted'))
            && (o.after.isCaller && o.after.state in {Connecting, Connected} ==> o.after.id in accepted')
            && Moves(m, op, ids, o.after, o.letter)
  {
  }

  /** The histories grow as the operation says. */
  predicate Grows(s: System, who: Name, op: Operation, t: System) {
    && who in s.clients
    && t.ids == IdsAfter(s.ids, who, s.clients[who], op)
    && t.accepted == AcceptedAfter(s.accepted, s.clients[who], op)
    && t.abandoned == AbandonedAfter(s.abandoned, s.clients[who], op)
    && (op.InitiateCall? ==> op.newId != "" && op.newId !in s.ids)
  }

  lemma MovedKeepsClients(s: System, who: Name, op: Operation, after: Manager, t: System)
    requires ClientsSound(s) && Grows(s, who, op, t)
    requires t.clients == s.clients[who := after]
    requires Sound(after) && Roles(who, after, t.ids)
    ensures ClientsSound(t)
  {
    forall p <- t.clients
      ensures Sound(t.clients[p]) && Roles(p, t.clients[p], t.ids)
    {
      if p != who {
        assert t.clients[p] == s.clients[p];
      }
    }
  }

  lemma MovedKeepsIds(s: System, who: Name, op: Operation, after: Manager, t: System)
    requires ClientsSound(s) && IdsSound(s) && Grows(s, who, op, t)
    requires t.clients == s.clients[who := after]
    ensures IdsSound(t)
  {
    assert Sound(s.clients[who]) && Roles(who, s.clients[who], s.ids);
  }

  lemma MovedKeepsConsent(s: System, who: Name, op: Operation, after: Manager, letter: Option<Letter>, t: System)
    requires ClientsSound(s) && IdsSound(s) && Consented(s) && Grows(s, who, op, t)
    requires t.clients == s.clients[who := after]
    requires Moves(s.clients[who], op, s.ids, after, letter)
    requires op.AcceptCall? ==> !after.isCaller || s.clients[who].state != Receiving
    requires after.isCaller && after.state in {Connecting, Connected} ==> after.id in t.accepted
    ensures Consented(t)
  {
    forall c <- t.accepted | c in t.ids && t.ids[c].caller == t.ids[c].callee
      ensures !HoldsAsCaller(t, t.ids[c].caller, c)
    {
      SelfAcceptedStays(s, who, op, after, letter, t, c);
    }
  }

  lemma SelfAcceptedStays(s: System, who: Name, op: Operation, after: Manager, letter: Option<Letter>,
                          t: System, c: CallId)
    requires ClientsSound(s) && IdsSound(s) && Consented(s) && Grows(s, who, op, t)
    requires t.clients == s.clients[who := after]
    requires Moves(s.clients[who], op, s.ids, after, letter)
    requires op.AcceptCall? ==> !after.isCaller || s.clients[who].state != Receiving
    requires c in t.accepted && c in t.ids && t.ids[c].caller == t.ids[c].callee
    ensures !HoldsAsCaller(t, t.ids[c].caller, c)
  {
    assert Sound(s.clients[who]) && Roles(who, s.clients[who], s.ids);
  }

  lemma MovedKeepsPackets(s: System, who: Name, op: Operation, net: seq<Packet>, letter: Option<Letter>, t: System)
    requires PacketsGenuine(s) && Grows(s, who, op, t)
    requires forall pk <- net :: pk in s.net
    requires t.net == Post(net, who, letter)
    requires letter.Some? ==> Genuine(Packet(who, letter.value.to, letter.value.message), t.ids, t.accepted)
    ensures PacketsGenuine(t)
  {
    forall pk <- t.net ensures Genuine(pk, t.ids, t.accepted) {
      if pk in net {
        assert Genuine(pk, s.ids, s.accepted);
      }
    }
  }

  lemma MovedKeepsRequests(s: System, who: Name, op: Operation, net: seq<Packet>,
                           after: Manager, letter: Option<Letter>, t: System)
    requires ClientsSound(s) && PacketsGenuine(s) && RequestsUnique(s) && Caused(s, who, op, net)
    requires t.clients == s.clients[who := after]
    requires t.net == Post(net, who, letter)
    requires Moves(s.clients[who], op, s.ids, after, letter)
    requires letter.Some? && letter.value.message.Request? ==> after.isCaller
    ensures RequestsUnique(t)
  {
    forall pk <- t.net | pk.message.Request? ensures !HoldsAsCallee(t, pk.to, pk.message.id) {
      if pk in net {
        assert Genuine(pk, s.ids, s.accepted);
        assert !HoldsAsCallee(s, pk.to, pk.message.id);
      }
    }
    forall i, j | 0 <= i < j < |t.net| && t.net[i].message.Request? && t.net[j].message.Request?
      ensures t.net[i].message.id != t.net[j].message.id
    {
      assert t.net[i] in net;
      assert Genuine(t.net[i], s.ids, s.accepted);
    }
  }

  lemma LocalKeepsInv(s: System, who: Name, op: Operation, net: seq<Packet>)
    requires Inv(s) && Caused(s, who, op, net)
    ensures Inv(Local(s, who, op, net))
  {
    var m, t, o := s.clients[who], Local(s, who, op, net), Perform(s.clients[who], op);
    if op.Handle? {
      assert Genuine(Packet(op.from, who, op.message), s.ids, s.accepted);
    }
    PerformFacts(who, m, op, s.ids, s.accepted);
    MovedKeepsClients(s, who, op, o.after, t);
    MovedKeepsIds(s, who, op, o.after, t);
    MovedKeepsConsent(s, who, op, o.after, o.letter, t);
    MovedKeepsPackets(s, who, op, net, o.letter, t);
    MovedKeepsRequests(s, who, op, net, o.after, o.letter, t);
  }

  lemma RemoveKeepsOneRequest(q: seq<Packet>, i: nat)
    requires i < |q| && OneRequestEach(q)
    ensures OneRequestEach(RemoveAt(q, i))
    ensures q[i].message.Request? ==> !RequestInFlight(RemoveAt(q, i), q[i].message.id)
  {
    var rest := RemoveAt(q, i);
    forall k | 0 <= k < |rest| ensures rest[k] == q[if k < i then k else k + 1] {
    }
  }

  lemma DeliveryCaused(s: System, i: nat)
    requires Inv(s) && Enabled(s, Deliver(i))
    ensures Caused(s, s.net[i].to, Handle(s.net[i].from, s.net[i].message), RemoveAt(s.net, i))
  {
    RemoveAtIn(s.net, i);
    RemoveKeepsOneRequest(s.net, i);
  }

  lemma StepKeepsInv(s: System, e: Event)
    requires Inv(s) && Enabled(s, e)
    ensures Inv(Step(s, e))
  {
    match e
    case Act(who, op) => LocalKeepsInv(s, who, op, s.net);
    case Deliver(i) =>
      DeliveryCaused(s, i);
      LocalKeepsInv(s, s.net[i].to, Handle(s.net[i].from, s.net[i].message), RemoveAt(s.net, i));
    case Lose(i) => RemoveAtIn(s.net, i);
  }

  lemma NextKeepsInv(s: System, t: System)
    requires Inv(s) && Next(s, t)
    ensures Inv(t)
  {
    var e :| Enabled(s, e) && t == Step(s, e);
    StepKeepsInv(s, e);
  }

  lemma {:induction false} RunKeepsInv(names: set<Name>, r: seq<System>, k: nat)
    requires Run(names, r) && k < |r|
    ensures Inv(r[k])
  {
    if k > 0 {
      RunKeepsInv(names, r, k - 1);
      assert StepAt(r, k - 1);
      NextKeepsInv(r[k - 1], r[k]);
    }
  }

  // ----- Who holds a call -----

  /** In every run, over a network that loses and reorders messages, two clients on one call are
      its caller and its callee, each naming the other, and nobody else is on it. */
  lemma HoldersAreCallerAndCallee(names: set<Name>, r: seq<System>, k: nat, c: CallId, p: Name, q: Name)
    requires Run(names, r) && k < |r|
    requires p != q && Holds(r[k], p, c) && Holds(r[k], q, c)
    ensures r[k].clients[p].isCaller != r[k].clients[q].isCaller
    ensures r[k].clients[p].peer == q && r[k].clients[q].peer == p
    ensures forall z :: Holds(r[k], z, c) ==> z == p || z == q
  {
    RunKeepsInv(names, r, k);
    assert Roles(p, r[k].clients[p], r[k].ids) && Roles(q, r[k].clients[q], r[k].ids);
    forall z | Holds(r[k], z, c) ensures z == p || z == q {
      assert Roles(z, r[k].clients[z], r[k].ids);
    }
  }

  /** The callee took up `c` between states `j` and `j + 1`. */
  predicate AcceptedAt(r: seq<System>, j: nat, callee: Name, caller: Name, c: CallId)
    requires j + 1 < |r|
  {
    && HoldsAsCallee(r[j], callee, c) && r[j].clients[callee].state == Receiving
    && r[j].clients[callee].peer == caller
    && Engaged(r[j + 1], callee, c) && HoldsAsCallee(r[j + 1], callee, c)
  }

  lemma OnlyAcceptAccepts(s: System, e: Event, c: CallId)
    requires Inv(s) && Enabled(s, e) && c in Step(s, e).accepted && c !in s.accepted
    ensures e.Act? && AcceptedAt([s, Step(s, e)], 0, e.who, s.clients[e.who].peer, c)
    ensures c in s.ids && s.ids[c] == Owner(s.clients[e.who].peer, e.who)
  {
    assert Roles(e.who, s.clients[e.who], s.ids);
  }

  lemma OwnerStays(s: System, e: Event, c: CallId)
    requires Enabled(s, e) && c in s.ids
    ensures c in Step(s, e).ids && Step(s, e).ids[c] == s.ids[c]
  {
  }

  lemma OwnersStay(s: System, t: System, c: CallId)
    requires Next(s, t) && c in s.ids
    ensures c in t.ids && t.ids[c] == s.ids[c]
  {
    var e :| Enabled(s, e) && t == Step(s, e);
    OwnerStays(s, e, c);
  }

  lemma NewlyAccepted(names: set<Name>, r: seq<System>, j: nat, c: CallId)
    requires Run(names, r) && j + 1 < |r| && c in r[j + 1].accepted && c !in r[j].accepted
    ensures c in r[j].ids && AcceptedAt(r, j, r[j].ids[c].callee, r[j].ids[c].caller, c)
  {
    RunKeepsInv(names, r, j);
    assert StepAt(r, j);
    var e :| Enabled(r[j], e) && r[j + 1] == Step(r[j], e);
    OnlyAcceptAccepts(r[j], e, c);
  }

  lemma {:induction false} AcceptedWasAnAccept(names: set<Name>, r: seq<System>, k: nat, c: CallId)
    requires Run(names, r) && k < |r| && c in r[k].accepted
    ensures c in r[k].ids
    ensures exists j | 0 <= j < k :: AcceptedAt(r, j, r[k].ids[c].callee, r[k].ids[c].caller, c)
  {
    assert k > 0;
    if c in r[k - 1].accepted {
      AcceptedWasAnAccept(names, r, k - 1, c);
    } else {
      NewlyAccepted(names, r, k - 1, c);
    }
    assert StepAt(r, k - 1);
    OwnersStay(r[k - 1], r[k], c);
  }

  /** A caller is past Calling only after its peer really accepted that very call, even with
      message loss and simultaneous calls. */
  lemma CallerWasAccepted(names: set<Name>, r: seq<System>, k: nat, p: Name, c: CallId)
    requires Run(names, r) && k < |r|
    requires HoldsAsCaller(r[k], p, c) && Engaged(r[k], p, c)
    ensures p != r[k].clients[p].peer
    ensures exists j | 0 <= j < k :: AcceptedAt(r, j, r[k].clients[p].peer, p, c)
  {
    RunKeepsInv(names, r, k);
    assert Roles(p, r[k].clients[p], r[k].ids);
    AcceptedWasAnAccept(names, r, k, c);
  }

  // ----- A call is never taken up again -----

  /** `p` is not on `c` and has no way left to get there. */
  predicate Spent(s: System, p: Name, c: CallId) {
    && c in s.ids && !Holds(s, p, c)
    && (s.ids[c].callee == p ==> !RequestInFlight(s.net, c))
  }

  /** A request for an old call in flight after a step was in flight before it. */
  lemma RequestsAreOld(s: System, who: Name, op: Operation, net: seq<Packet>, after: Manager,
                       letter: Option<Letter>, t: System, c: CallId)
    requires Caused(s, who, op, net) && t.net == Post(net, who, letter) && c in s.ids
    requires Moves(s.clients[who], op, s.ids, after, letter)
    ensures RequestInFlight(t.net, c) ==> RequestInFlight(s.net, c)
  {
    forall pk <- t.net | IsRequest(pk, c) ensures pk in s.net {
      assert pk in net;
    }
  }

  /** Whoever is on a call placed to somebody else has no request for it coming. */
  lemma NoRequestForHolder(s: System, p: Name, c: CallId)
    requires Inv(s) && Holds(s, p, c) && c in s.ids && s.ids[c].caller != s.ids[c].callee && s.ids[c].callee == p
    ensures !RequestInFlight(s.net, c)
  {
    assert Roles(p, s.clients[p], s.ids);
    forall pk <- s.net ensures !IsRequest(pk, c) {
      assert Genuine(pk, s.ids, s.accepted);
    }
  }

  lemma SpentMoves(s: System, who: Name, op: Operation, net: seq<Packet>,
                   after: Manager, letter: Option<Letter>, t: System, p: Name, c: CallId)
    requires Inv(s) && Caused(s, who, op, net) && Grows(s, who, op, t)
    requires t.clients == s.clients[who := after] && t.net == Post(net, who, letter)
    requires Moves(s.clients[who], op, s.ids, after, letter)
    requires c in s.ids && !Holds(t, p, c)
    requires Spent(s, p, c) || (Holds(s, p, c) && s.ids[c].caller != s.ids[c].callee)
    ensures Spent(t, p, c)
  {
    RequestsAreOld(s, who, op, net, after, letter, t, c);
    if Holds(s, p, c) && s.ids[c].callee == p {
      NoRequestForHolder(s, p, c);
    }
  }

  lemma SpentStays(s: System, who: Name, op: Operation, net: seq<Packet>,
                   after: Manager, letter: Option<Letter>, t: System, p: Name, c: CallId)
    requires Inv(s) && Caused(s, who, op, net) && Grows(s, who, op, t)
    requires t.clients == s.clients[who := after] && t.net == Post(net, who, letter)
    requires Moves(s.clients[who], op, s.ids, after, letter)
    requires Spent(s, p, c)
    ensures Spent(t, p, c)
  {
    if p == who && Holds(t, p, c) && op.Handle? {
      var pk := Packet(op.from, who, op.message);
      assert Genuine(pk, s.ids, s.accepted);
      assert IsRequest(pk, c);
    }
    SpentMoves(s, who, op, net, after, letter, t, p, c);
  }

  /** A step either keeps `p` on `c` or leaves it there no more, for good. */
  lemma StepKeepsOrSpends(s: System, e: Event, p: Name, c: CallId)
    requires Inv(s) && Enabled(s, e) && c in s.ids
    requires Spent(s, p, c) || (Holds(s, p, c) && s.ids[c].caller != s.ids[c].callee)
    ensures Holds(Step(s, e), p, c) || Spent(Step(s, e), p, c)
    ensures Spent(s, p, c) ==> Spent(Step(s, e), p, c)
  {
    if e.Lose? {
      RemoveAtIn(s.net, e.index);
      if Holds(s, p, c) {
        assert Roles(p, s.clients[p], s.ids);
      }
    } else {
      var who := if e.Act? then e.who else s.net[e.index].to;
      var op := if e.Act? then e.op else Handle(s.net[e.index].from, s.net[e.index].message);
      var net := if e.Act? then s.net else RemoveAt(s.net, e.index);
      if e.Deliver? {
        DeliveryCaused(s, e.index);
        assert Genuine(s.net[e.index], s.ids, s.accepted);
      }
      StepSpends(s, who, op, net, p, c);
    }
  }

  lemma StepSpends(s: System, who: Name, op: Operation, net: seq<Packet>, p: Name, c: CallId)
    requires Inv(s) && Caused(s, who, op, net) && c in s.ids
    requires Spent(s, p, c) || (Holds(s, p, c) && s.ids[c].caller != s.ids[c].callee)
    ensures var t := Local(s, who, op, net);
            (Holds(t, p, c) || Spent(t, p, c)) && (Spent(s, p, c) ==> Spent(t, p, c))
  {
    var t, o := Local(s, who, op, net), Perform(s.clients[who], op);
    if op.Handle? {
      assert Genuine(Packet(op.from, who, op.message), s.ids, s.accepted);
    }
    PerformFacts(who, s.clients[who], op, s.ids, s.accepted);
    if Spent(s, p, c) {
      SpentStays(s, who, op, net, o.after, o.letter, t, p, c);
    } else if !Holds(t, p, c) {
      SpentMoves(s, who, op, net, o.after, o.letter, t, p, c);
    }
  }

  /** `p` is on `c`, which was placed to somebody else, or can never get there again. */
  predicate HeldOrDone(s: System, p: Name, c: CallId) {
    c in s.ids && (Spent(s, p, c) || (Holds(s, p, c) && s.ids[c].caller != s.ids[c].callee))
  }

  lemma NextKeepsHeldOrDone(s: System, t: System, p: Name, c: CallId)
    requires Inv(s) && Next(s, t) && HeldOrDone(s, p, c)
    ensures HeldOrDone(t, p, c)
    ensures Spent(s, p, c) ==> Spent(t, p, c)
  {
    var e :| Enabled(s, e) && t == Step(s, e);
    OwnerStays(s, e, c);
    StepKeepsOrSpends(s, e, p, c);
  }

  lemma StepAtKeepsHeldOrDone(names: set<Name>, r: seq<System>, i: nat, p: Name, c: CallId)
    requires Run(names, r) && i + 1 < |r| && HeldOrDone(r[i], p, c)
    ensures HeldOrDone(r[i + 1], p, c)
    ensures Spent(r[i], p, c) ==> Spent(r[i + 1], p, c)
  {
    RunKeepsInv(names, r, i);
    assert StepAt(r, i);
    NextKeepsHeldOrDone(r[i], r[i + 1], p, c);
  }

  /** Once on a call placed to somebody else, a client stays on it or can never get back to it. */
  lemma {:induction false} HeldOrSpent(names: set<Name>, r: seq<System>, i: nat, k: nat, p: Name, c: CallId)
    requires Run(names, r) && i <= k < |r| && HeldOrDone(r[i], p, c)
    ensures HeldOrDone(r[k], p, c)
  {
    if i < k {
      HeldOrSpent(names, r, i, k - 1, p, c);
      StepAtKeepsHeldOrDone(names, r, k - 1, p, c);
    }
  }

  lemma {:induction false} SpentForGood(names: set<Name>, r: seq<System>, i: nat, k: nat, p: Name, c: CallId)
    requires Run(names, r) && i <= k < |r| && Spent(r[i], p, c)
    ensures Spent(r[k], p, c)
  {
    if i < k {
      SpentForGood(names, r, i, k - 1, p, c);
      StepAtKeepsHeldOrDone(names, r, k - 1, p, c);
    }
  }

  /** Over a network that does not duplicate, each client is on each call during one contiguous
      stretch of the run: no late message brings a finished call back. The condition is that the
      call was not placed to oneself; `SelfCallComesBack` shows that it is needed. */
  lemma NoResurrection(names: set<Name>, r: seq<System>, i: nat, j: nat, k: nat, p: Name, c: CallId)
    requires Run(names, r) && i < j < k < |r|
    requires Holds(r[i], p, c) && Holds(r[k], p, c)
    requires r[i].clients[p].peer != p
    ensures Holds(r[j], p, c)
  {
    RunKeepsInv(names, r, i);
    assert Roles(p, r[i].clients[p], r[i].ids);
    HeldOrSpent(names, r, i, j, p, c);
    if Spent(r[j], p, c) {
      SpentForGood(names, r, j, k, p, c);
    }
  }

  function SelfCall(a: Name, c: CallId, m: Manager, inFlight: bool, abandoned: set<CallId>): System {
    System(map[a := m], if inFlight then [Packet(a, a, Request(c))] else [], map[c := Owner(a, a)], {}, abandoned)
  }

  lemma SelfCallPlaced(a: Name, c: CallId)
    requires a != "" && c != ""
    ensures Next(Start({a}), SelfCall(a, c, Manager(Calling, a, c, true, 1, Some(Timer(1, c))), true, {}))
  {
    var e := Act(a, InitiateCall(true, a, c));
    assert Enabled(Start({a}), e);
    assert Step(Start({a}), e).clients == map[a := Manager(Calling, a, c, true, 1, Some(Timer(1, c)))];
    assert Step(Start({a}), e).net == [Packet(a, a, Request(c))];
  }

  lemma SelfCallTimesOut(a: Name, c: CallId)
    ensures Next(SelfCall(a, c, Manager(Calling, a, c, true, 1, Some(Timer(1, c))), true, {}),
                 SelfCall(a, c, Manager(Idle, "", "", false, 2, None), true, {c}))
  {
    var s := SelfCall(a, c, Manager(Calling, a, c, true, 1, Some(Timer(1, c))), true, {});
    assert Enabled(s, Act(a, TimerFires));
    assert Step(s, Act(a, TimerFires)).clients == map[a := Manager(Idle, "", "", false, 2, None)];
  }

  lemma SelfCallRings(a: Name, c: CallId)
    requires c != ""
    ensures Next(SelfCall(a, c, Manager(Idle, "", "", false, 2, None), true, {c}),
                 SelfCall(a, c, Manager(Receiving, a, c, false, 2, None), false, {c}))
  {
    var s := SelfCall(a, c, Manager(Idle, "", "", false, 2, None), true, {c});
    assert Enabled(s, Deliver(0));
    assert Step(s, Deliver(0)).clients == map[a := Manager(Receiving, a, c, false, 2, None)];
  }

  lemma FourStates(names: set<Name>, r: seq<System>)
    requires "" !in names && |r| == 4 && r[0] == Start(names)
    requires StepAt(r, 0) && StepAt(r, 1) && StepAt(r, 2)
    ensures Run(names, r)
  {
    forall i | 0 <= i < |r| - 1 ensures StepAt(r, i) {
      assert i == 0 || i == 1 || i == 2;
    }
  }

  function SelfCallStates(a: Name, c: CallId): seq<System> {
    [Start({a}),
     SelfCall(a, c, Manager(Calling, a, c, true, 1, Some(Timer(1, c))), true, {}),
     SelfCall(a, c, Manager(Idle, "", "", false, 2, None), true, {c}),
     SelfCall(a, c, Manager(Receiving, a, c, false, 2, None), false, {c})]
  }

  lemma SelfCallRuns(a: Name, c: CallId)
    requires a != "" && c != ""
    ensures Run({a}, SelfCallStates(a, c))
  {
    SelfCallPlaced(a, c);
    SelfCallTimesOut(a, c);
    SelfCallRings(a, c);
    FourStates({a}, SelfCallStates(a, c));
  }

  /** Every client that calls itself can find itself on the finished call again: its request timer
      fires, and only then its own request reaches it. */
  lemma SelfCallComesBack(a: Name, c: CallId) returns (r: seq<System>)
    requires a != "" && c != ""
    ensures Run({a}, r) && |r| == 4
    ensures Holds(r[1], a, c) && !Holds(r[2], a, c) && Holds(r[3], a, c)
    ensures c in r[1].ids && r[1].ids[c] == Owner(a, a)
  {
    r := SelfCallStates(a, c);
    assert Holds(r[1], a, c) && !Holds(r[2], a, c) && Holds(r[3], a, c);
    SelfCallRuns(a, c);
  }

  /** Client `p` is on call `c`, which `a` placed to `b`, then not, and then again. */
  ghost predicate ComesBack(names: set<Name>, r: seq<System>, i: nat, j: nat, k: nat,
                            p: Name, a: Name, b: Name, c: CallId) {
    && Run(names, r) && i < j < k < |r|
    && c in r[i].ids && r[i].ids[c] == Owner(a, b)
    && Holds(r[i], p, c) && !Holds(r[j], p, c) && Holds(r[k], p, c)
  }

  lemma StaysAway(names: set<Name>, r: seq<System>, i: nat, j: nat, k: nat, p: Name, a: Name, b: Name, c: CallId)
    requires a != b
    ensures !ComesBack(names, r, i, j, k, p, a, b, c)
  {
    if ComesBack(names, r, i, j, k, p, a, b, c) {
      RunKeepsInv(names, r, i);
      assert Roles(p, r[i].clients[p], r[i].ids);
      NoResurrection(names, r, i, j, k, p, c);
      assert false;
    }
  }

  /** A finished call from `a` to `b` can come back in some run exactly when `a` and `b` are the same
      client. */
  lemma ComesBackIff(a: Name, b: Name, c: CallId)
    requires a != "" && c != ""
    ensures (exists names, r, i: nat, j: nat, k: nat, p :: ComesBack(names, r, i, j, k, p, a, b, c)) <==> a == b
  {
    if a == b {
      var r := SelfCallComesBack(a, c);
      assert ComesBack({a}, r, 1, 2, 3, a, a, b, c);
    } else {
      forall names, r, i: nat, j: nat, k: nat, p ensures !ComesBack(names, r, i, j, k, p, a, b, c) {
        StaysAway(names, r, i, j, k, p, a, b, c);
      }
    }
  }
}
