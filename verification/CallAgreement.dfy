/** What caller and callee agree on once a lossless, per-pair FIFO network is quiet. */
module CallAgreement {
  import opened Wrappers
  import opened CallTypes
  import opened CallManagers
  import opened CallNetwork

  predicate IsEnd(pk: Packet, from: Name, to: Name, c: CallId) {
    pk.from == from && pk.to == to && pk.message.End? && pk.message.id == c
  }

  predicate EndInFlight(net: seq<Packet>, from: Name, to: Name, c: CallId) {
    exists pk <- net :: IsEnd(pk, from, to, c)
  }

  predicate IsAccept(pk: Packet, from: Name, to: Name, c: CallId) {
    pk.from == from && pk.to == to && pk.message.Response? && pk.message.accepted && pk.message.id == c
  }

  predicate AcceptInFlight(net: seq<Packet>, from: Name, to: Name, c: CallId) {
    exists pk <- net :: IsAccept(pk, from, to, c)
  }

  /** An `End` from the caller was sent after the request that is still in flight. */
  predicate EndBehindRequest(net: seq<Packet>, from: Name, to: Name, c: CallId) {
    exists i, j | 0 <= i < j < |net| :: IsRequest(net[i], c) && IsEnd(net[j], from, to, c)
  }

  predicate Refusal(m: Message) {
    m.Response? && !m.accepted
  }

  predicate Farewell(m: Message) {
    m.End? || m.Cancel? || Refusal(m)
  }

  /** What a callee says about a call: it accepts, refuses or ends it. */
  predicate IsAnswer(pk: Packet, from: Name, to: Name, c: CallId) {
    pk.from == from && pk.to == to && (pk.message.Response? || pk.message.End?) && pk.message.id == c
  }

  predicate AnswerInFlight(net: seq<Packet>, from: Name, to: Name, c: CallId) {
    exists pk <- net :: IsAnswer(pk, from, to, c)
  }

  /** A call placed to somebody else. */
  predicate ToAnother(ids: map<CallId, Owner>, c: CallId) {
    c in ids && ids[c].caller != ids[c].callee
  }

  /** Whoever said goodbye to a call is done with it. */
  predicate Parted(s: System) {
    forall pk <- s.net ::
      (Farewell(pk.message) && ToAnother(s.ids, pk.message.id) ==> Spent(s, pk.from, pk.message.id))
  }

  predicate CalleeFollows(s: System, a: Name, b: Name, c: CallId) {
    HoldsAsCaller(s, a, c) && (AcceptInFlight(s.net, b, a, c) || Engaged(s, a, c)) ==>
      (Engaged(s, b, c) && HoldsAsCallee(s, b, c)) || EndInFlight(s.net, b, a, c)
  }

  predicate CallerFollows(s: System, a: Name, b: Name, c: CallId) {
    HoldsAsCallee(s, b, c) && c !in s.abandoned ==>
      || EndInFlight(s.net, a, b, c)
      || (HoldsAsCaller(s, a, c) && (Engaged(s, b, c) ==> Engaged(s, a, c) || AcceptInFlight(s.net, b, a, c)))
  }

  predicate RequestBacked(s: System, a: Name, b: Name, c: CallId) {
    RequestInFlight(s.net, c) && c !in s.abandoned ==>
      HoldsAsCaller(s, a, c) || EndBehindRequest(s.net, a, b, c)
  }

  /** A caller still waiting will hear: its request is on the way, its callee has the call, or an
      answer is on the way. */
  predicate CallerHears(s: System, a: Name, b: Name, c: CallId) {
    HoldsAsCaller(s, a, c) && !Engaged(s, a, c) ==>
      RequestInFlight(s.net, c) || HoldsAsCallee(s, b, c) || AnswerInFlight(s.net, b, a, c)
  }

  predicate Agreed(s: System, c: CallId)
    requires c in s.ids
  {
    var a, b := s.ids[c].caller, s.ids[c].callee;
    a != b && b in s.clients ==>
      && CalleeFollows(s, a, b, c) && CallerFollows(s, a, b, c) && RequestBacked(s, a, b, c)
      && CallerHears(s, a, b, c)
      && (c in s.abandoned ==> Spent(s, a, c))
  }

  ghost predicate Agreement(s: System) {
    Inv(s) && Parted(s) && forall c <- s.ids :: Agreed(s, c)
  }

  // ----- One client's step, seen from the calls it is on -----

  predicate On(m: Manager, c: CallId) {
    m.state != Idle && m.id == c
  }

  /** The only ways in which a client leaves its call. */
  predicate Leaves(m: Manager, op: Operation, letter: Option<Letter>, abandoned: set<CallId>) {
    || (m.peer != "" && letter == Some(Letter(m.peer, End(m.id, "hangup"))))
    || m.peer == ""
    || (!InMedia(m) && m.isCaller && m.id in abandoned)
    || (!InMedia(m) && !m.isCaller && letter.Some? && letter.value.to == m.peer
        && letter.value.message.id == m.id && Refusal(letter.value.message))
    || (op.Handle? && op.from == m.peer && op.message.id == m.id && Farewell(op.message))
  }

  /** How a client may leave its call, and how it may enter the media phase. */
  predicate Moderate(who: Name, m: Manager, op: Operation, after: Manager, letter: Option<Letter>,
                     abandoned: set<CallId>) {
    && (m.state != Idle && !On(after, m.id) ==> Leaves(m, op, letter, abandoned))
    && (m.state != Idle && On(after, m.id) ==>
          after.isCaller == m.isCaller && after.peer == m.peer && (InMedia(m) ==> InMedia(after)))
    && (InMedia(after) && !(InMedia(m) && m.id == after.id) ==>
          && On(m, after.id)
          && (if m.isCaller then op.Handle? && IsAccept(Packet(op.from, who, op.message), m.peer, who, m.id)
              else letter == Some(Letter(m.peer, Response(m.id, true, "")))))
  }

  predicate FromPeer(m: Manager, op: Operation) {
    op.Handle? && m.state != Idle && op.message.id == m.id && op.from == m.peer
  }

  /** What a client must do: what it is asked by its user, by its timer, and by what its peer says. */
  predicate Obedient(who: Name, m: Manager, op: Operation, after: Manager, letter: Option<Letter>) {
    && (FromPeer(m, op) && op.message.End? ==> after.state == Idle)
    && (FromPeer(m, op) && IsAccept(Packet(op.from, who, op.message), m.peer, who, m.id) && m.isCaller ==>
          InMedia(after))
    && (FromPeer(m, op) && Refusal(op.message) && m.state == Calling ==> after.state == Idle)
    && (op.Handle? && op.message.Request? && op.message.id != "" ==>
          || (m.state == Idle && On(after, op.message.id) && !after.isCaller && after.peer == op.from)
          || (letter.Some? && letter.value.to == op.from && Refusal(letter.value.message)
              && letter.value.message.id == op.message.id))
    && (op.EndCall? && m.state != Idle ==> after.state == Idle)
    && (m.state == Calling && (op.CancelCall? || (op.TimerFires? && TimerCurrent(m))) ==> after.state == Idle)
    && (op.InitiateCall? && op.connected && m.state == Idle ==>
          after.state == Calling && after.id == op.newId && letter == Some(Letter(op.target, Request(op.newId))))
  }

  /** A client says only what it does. */
  predicate Truthful(m: Manager, op: Operation, after: Manager, letter: Letter) {
    match letter.message
    case Request(c) => On(after, c) && after.isCaller
    case Response(c, true, _) => On(m, c) && !m.isCaller && On(after, c) && InMedia(after)
    case Response(c, false, _) =>
      (On(m, c) && !On(after, c)) || (op == Handle(letter.to, Request(c)) && m.state != Idle && after == m)
    case End(c, _) => On(m, c) && !On(after, c)
    case Cancel(c, _) => On(m, c) && !On(after, c)
  }

  predicate Conduct(who: Name, m: Manager, op: Operation, after: Manager, letter: Option<Letter>,
                    abandoned: set<CallId>) {
    && Moderate(who, m, op, after, letter, abandoned)
    && Obedient(who, m, op, after, letter)
    && (letter.Some? ==> Truthful(m, op, after, letter.value))
  }

  lemma PerformIsModerate(who: Name, m: Manager, op: Operation, abandoned: set<CallId>)
    requires Sound(m) && (op.InitiateCall? ==> op.newId != "")
    ensures var o := Perform(m, op);
            Moderate(who, m, op, o.after, o.letter, AbandonedAfter(abandoned, m, op))
  {
  }

  lemma PerformIsObedient(who: Name, m: Manager, op: Operation)
    requires Sound(m) && (op.InitiateCall? ==> op.newId != "")
    ensures var o := Perform(m, op); Obedient(who, m, op, o.after, o.letter)
  {
  }

  lemma PerformConduct(who: Name, m: Manager, op: Operation, abandoned: set<CallId>)
    requires Sound(m)
    requires op.InitiateCall? ==> op.newId != ""
    ensures var o := Perform(m, op);
            Conduct(who, m, op, o.after, o.letter, AbandonedAfter(abandoned, m, op))
  {
    PerformIsModerate(who, m, op, abandoned);
    PerformIsObedient(who, m, op);
  }

  /** One client's step with `Perform` left abstract: all that the proofs below know of it. */
  predicate Move(s: System, who: Name, op: Operation, net: seq<Packet>,
                 after: Manager, letter: Option<Letter>, t: System) {
    && Caused(s, who, op, net)
    && (forall pk <- s.net :: pk in net || (op.Handle? && pk == Packet(op.from, who, op.message)))
    && Grows(s, who, op, t)
    && t.clients == s.clients[who := after] && t.net == Post(net, who, letter)
    && Moves(s.clients[who], op, s.ids, after, letter)
    && Conduct(who, s.clients[who], op, after, letter, t.abandoned)
  }

  lemma OldFarewellStays(s: System, who: Name, op: Operation, net: seq<Packet>,
                         after: Manager, letter: Option<Letter>, t: System, pk: Packet)
    requires Inv(s) && Parted(s) && Move(s, who, op, net, after, letter, t) && pk in net
    requires Farewell(pk.message) && ToAnother(t.ids, pk.message.id)
    ensures Spent(t, pk.from, pk.message.id)
  {
    assert pk in s.net && Genuine(pk, s.ids, s.accepted);
    SpentStays(s, who, op, net, after, letter, t, pk.from, pk.message.id);
  }

  /** Refusing a request while busy: the request was the only way to get on that call. */
  lemma BusySpends(s: System, who: Name, op: Operation, net: seq<Packet>,
                   after: Manager, letter: Option<Letter>, t: System, from: Name, c: CallId)
    requires Inv(s) && Move(s, who, op, net, after, letter, t)
    requires op == Handle(from, Request(c)) && after == s.clients[who] && !On(after, c)
    requires letter.Some? && !letter.value.message.Request?
    ensures Spent(t, who, c)
  {
    var pk := Packet(from, who, op.message);
    assert pk in s.net && Genuine(pk, s.ids, s.accepted);
  }

  /** Whoever handles a request to another client is not on that call yet. */
  lemma RequestedIsNotOn(s: System, who: Name, op: Operation, net: seq<Packet>, from: Name, c: CallId)
    requires Inv(s) && Caused(s, who, op, net) && op == Handle(from, Request(c))
    requires c in s.ids && s.ids[c].caller != s.ids[c].callee
    ensures !On(s.clients[who], c)
  {
    var pk := Packet(from, who, op.message);
    assert pk in s.net && Genuine(pk, s.ids, s.accepted);
    assert Roles(who, s.clients[who], s.ids);
  }

  lemma FarewellSpends(s: System, who: Name, op: Operation, net: seq<Packet>,
                       after: Manager, letter: Option<Letter>, t: System)
    requires Inv(s) && Move(s, who, op, net, after, letter, t)
    requires letter.Some? && Farewell(letter.value.message) && ToAnother(t.ids, letter.value.message.id)
    ensures Spent(t, who, letter.value.message.id)
  {
    var m, c := s.clients[who], letter.value.message.id;
    if On(m, c) && !On(after, c) {
      RolesOf(s, who, c);
      SpentMoves(s, who, op, net, after, letter, t, who, c);
    } else {
      RequestedIsNotOn(s, who, op, net, letter.value.to, c);
      BusySpends(s, who, op, net, after, letter, t, letter.value.to, c);
    }
  }

  lemma MoveKeepsParted(s: System, who: Name, op: Operation, net: seq<Packet>,
                        after: Manager, letter: Option<Letter>, t: System)
    requires Inv(s) && Parted(s) && Move(s, who, op, net, after, letter, t)
    ensures Parted(t)
  {
    forall pk <- t.net | Farewell(pk.message) && ToAnother(t.ids, pk.message.id)
      ensures Spent(t, pk.from, pk.message.id)
    {
      FarewellStays(s, who, op, net, after, letter, t, pk);
    }
  }

  lemma PostedOrOld(net: seq<Packet>, who: Name, letter: Option<Letter>, pk: Packet)
    requires pk in Post(net, who, letter) && pk !in net
    ensures letter.Some? && pk == Packet(who, letter.value.to, letter.value.message)
  {
  }

  lemma FarewellStays(s: System, who: Name, op: Operation, net: seq<Packet>,
                      after: Manager, letter: Option<Letter>, t: System, pk: Packet)
    requires Inv(s) && Parted(s) && Move(s, who, op, net, after, letter, t) && pk in t.net
    requires Farewell(pk.message) && ToAnother(t.ids, pk.message.id)
    ensures Spent(t, pk.from, pk.message.id)
  {
    if pk in net {
      OldFarewellStays(s, who, op, net, after, letter, t, pk);
    } else {
      PostedOrOld(net, who, letter, pk);
      FarewellSpends(s, who, op, net, after, letter, t);
    }
  }

  /** A packet stays in flight unless it is the one just handled. */
  lemma EndStays(s: System, who: Name, op: Operation, net: seq<Packet>, after: Manager, letter: Option<Letter>,
                 t: System, from: Name, to: Name, c: CallId)
    requires Move(s, who, op, net, after, letter, t)
    requires EndInFlight(s.net, from, to, c)
    requires who == to ==> On(after, c) && On(s.clients[who], c) && s.clients[who].peer == from
    ensures EndInFlight(t.net, from, to, c)
  {
    var pk :| pk in s.net && IsEnd(pk, from, to, c);
    assert pk in net;
    assert pk in t.net;
  }

  lemma AcceptStays(s: System, who: Name, op: Operation, net: seq<Packet>, after: Manager, letter: Option<Letter>,
                    t: System, from: Name, to: Name, c: CallId)
    requires Move(s, who, op, net, after, letter, t)
    requires AcceptInFlight(s.net, from, to, c)
    ensures AcceptInFlight(t.net, from, to, c) ||
            (op.Handle? && who == to && IsAccept(Packet(op.from, who, op.message), from, to, c))
  {
    var pk :| pk in s.net && IsAccept(pk, from, to, c);
    if pk in net {
      assert pk in t.net;
    }
  }

  /** What caller and callee look like, given who owns the id. */
  lemma RolesOf(s: System, p: Name, c: CallId)
    requires Inv(s) && Holds(s, p, c)
    ensures c in s.ids && Sound(s.clients[p])
    ensures s.ids[c] == (if s.clients[p].isCaller then Owner(p, s.clients[p].peer) else Owner(s.clients[p].peer, p))
  {
    assert Roles(p, s.clients[p], s.ids);
  }

  /** A goodbye in flight from somebody who is still on the call is impossible. */
  lemma NoFarewellFrom(s: System, pk: Packet, c: CallId)
    requires Parted(s) && pk in s.net && Farewell(pk.message) && pk.message.id == c && ToAnother(s.ids, c)
    ensures !Holds(s, pk.from, c)
    ensures s.ids[c].callee == pk.from ==> !RequestInFlight(s.net, c)
  {
  }

  /** A caller with an acceptance, in hand or on its way, had one before its step or is just
      being accepted. */
  lemma CallerHadAcceptance(s: System, who: Name, op: Operation, net: seq<Packet>,
                            after: Manager, letter: Option<Letter>, t: System, a: Name, b: Name, c: CallId)
    requires Inv(s) && Move(s, who, op, net, after, letter, t)
    requires c in s.ids && s.ids[c] == Owner(a, b)
    requires HoldsAsCaller(t, a, c) && (AcceptInFlight(t.net, b, a, c) || Engaged(t, a, c))
    ensures HoldsAsCaller(s, a, c) && s.clients[a].peer == b
    ensures || AcceptInFlight(s.net, b, a, c) || Engaged(s, a, c)
            || (who == b && On(after, c) && InMedia(after) && !after.isCaller)
  {
    assert HoldsAsCaller(s, a, c);
    RolesOf(s, a, c);
  }

  lemma MoveKeepsCalleeFollows(s: System, who: Name, op: Operation, net: seq<Packet>,
                               after: Manager, letter: Option<Letter>, t: System, a: Name, b: Name, c: CallId)
    requires Inv(s) && Parted(s) && Move(s, who, op, net, after, letter, t)
    requires c in s.ids && s.ids[c] == Owner(a, b) && a != b && CalleeFollows(s, a, b, c)
    requires HoldsAsCaller(t, a, c) && (AcceptInFlight(t.net, b, a, c) || Engaged(t, a, c))
    ensures (Engaged(t, b, c) && HoldsAsCallee(t, b, c)) || EndInFlight(t.net, b, a, c)
  {
    CallerHadAcceptance(s, who, op, net, after, letter, t, a, b, c);
    if who == b && On(after, c) && InMedia(after) && !after.isCaller {
      assert t.clients[b] == after;
    } else if EndInFlight(s.net, b, a, c) {
      CallerStillWaits(s, who, op, net, after, letter, t, a, b, c);
    } else {
      assert AcceptInFlight(s.net, b, a, c) || Engaged(s, a, c);
      assert Engaged(s, b, c) && HoldsAsCallee(s, b, c);
      CalleeStaysOrEnds(s, who, op, net, after, letter, t, a, b, c);
    }
  }

  lemma CallerStillWaits(s: System, who: Name, op: Operation, net: seq<Packet>,
                         after: Manager, letter: Option<Letter>, t: System, a: Name, b: Name, c: CallId)
    requires Move(s, who, op, net, after, letter, t)
    requires HoldsAsCaller(s, a, c) && HoldsAsCaller(t, a, c) && s.clients[a].peer == b && EndInFlight(s.net, b, a, c)
    ensures EndInFlight(t.net, b, a, c)
  {
    EndStays(s, who, op, net, after, letter, t, b, a, c);
  }

  /** An engaged callee whose caller is still there can only leave by saying so. */
  lemma CalleeLeaves(s: System, who: Name, op: Operation, net: seq<Packet>,
                     after: Manager, letter: Option<Letter>, t: System, c: CallId)
    requires Inv(s) && Parted(s) && Move(s, who, op, net, after, letter, t)
    requires Engaged(s, who, c) && HoldsAsCallee(s, who, c) && !On(after, c)
    requires ToAnother(s.ids, c) && Holds(s, s.clients[who].peer, c)
    ensures EndInFlight(t.net, who, s.clients[who].peer, c)
  {
    var m := s.clients[who];
    if op.Handle? && op.from == m.peer && op.message.id == m.id && Farewell(op.message) {
      NoFarewellFrom(s, Packet(op.from, who, op.message), c);
    }
    var pk := Packet(who, m.peer, End(c, "hangup"));
    assert IsEnd(pk, who, m.peer, c);
    assert pk in t.net;
  }

  lemma EngagedStays(s: System, who: Name, op: Operation, net: seq<Packet>,
                     after: Manager, letter: Option<Letter>, t: System, b: Name, c: CallId)
    requires Move(s, who, op, net, after, letter, t) && Engaged(s, b, c) && HoldsAsCallee(s, b, c)
    requires who != b || On(after, c)
    ensures Engaged(t, b, c) && HoldsAsCallee(t, b, c)
  {
  }

  /** An engaged callee stays engaged or leaves with an `End`, while its caller is there. */
  lemma CalleeStaysOrEnds(s: System, who: Name, op: Operation, net: seq<Packet>,
                          after: Manager, letter: Option<Letter>, t: System, a: Name, b: Name, c: CallId)
    requires Inv(s) && Parted(s) && Move(s, who, op, net, after, letter, t)
    requires c in s.ids && s.ids[c] == Owner(a, b) && a != b
    requires HoldsAsCaller(s, a, c) && Engaged(s, b, c) && HoldsAsCallee(s, b, c)
    ensures (Engaged(t, b, c) && HoldsAsCallee(t, b, c)) || EndInFlight(t.net, b, a, c)
  {
    if who == b && !On(after, c) {
      RolesOf(s, b, c);
      CalleeLeaves(s, b, op, net, after, letter, t, c);
    } else {
      EngagedStays(s, who, op, net, after, letter, t, b, c);
    }
  }

  /** A caller whose callee is still there leaves by saying so, or by giving the call up. */
  lemma CallerLeaves(s: System, who: Name, op: Operation, net: seq<Packet>,
                     after: Manager, letter: Option<Letter>, t: System, b: Name, c: CallId)
    requires Inv(s) && Parted(s) && Move(s, who, op, net, after, letter, t)
    requires HoldsAsCaller(s, who, c) && !On(after, c) && s.clients[who].peer == b
    requires ToAnother(s.ids, c) && (Holds(s, b, c) || RequestInFlight(s.net, c)) && b in s.clients
    ensures c in t.abandoned || letter == Some(Letter(b, End(c, "hangup")))
  {
    var m := s.clients[who];
    RolesOf(s, who, c);
    if op.Handle? && op.from == m.peer && op.message.id == m.id && Farewell(op.message) {
      NoFarewellFrom(s, Packet(op.from, who, op.message), c);
    }
  }

  lemma MoveKeepsCallerFollows(s: System, who: Name, op: Operation, net: seq<Packet>,
                               after: Manager, letter: Option<Letter>, t: System, a: Name, b: Name, c: CallId)
    requires Inv(s) && Parted(s) && Move(s, who, op, net, after, letter, t)
    requires c in s.ids && s.ids[c] == Owner(a, b) && a != b && CallerFollows(s, a, b, c)
    requires HoldsAsCallee(s, b, c) && HoldsAsCallee(t, b, c) && c !in t.abandoned
    ensures EndInFlight(t.net, a, b, c)
      || (HoldsAsCaller(t, a, c) && (Engaged(t, b, c) ==> Engaged(t, a, c) || AcceptInFlight(t.net, b, a, c)))
  {
    RolesOf(s, b, c);
    if EndInFlight(s.net, a, b, c) {
      EndStays(s, who, op, net, after, letter, t, a, b, c);
    } else {
      CallerStaysOrEnds(s, who, op, net, after, letter, t, a, b, c);
      RolesOf(s, a, c);
      if !HoldsAsCaller(t, a, c) {
        assert IsEnd(Packet(a, b, End(c, "hangup")), a, b, c) && Packet(a, b, End(c, "hangup")) in t.net;
      } else if Engaged(t, b, c) && !Engaged(t, a, c) {
        AcceptanceTravels(s, who, op, net, after, letter, t, a, b, c);
      }
    }
  }

  /** As long as the caller waits, the acceptance of an engaged callee is in flight. */
  lemma AcceptanceTravels(s: System, who: Name, op: Operation, net: seq<Packet>,
                          after: Manager, letter: Option<Letter>, t: System, a: Name, b: Name, c: CallId)
    requires Inv(s) && Move(s, who, op, net, after, letter, t)
    requires HoldsAsCaller(s, a, c) && HoldsAsCallee(s, b, c) && s.clients[a].peer == b && s.clients[b].peer == a
    requires HoldsAsCaller(t, a, c) && Engaged(t, b, c) && !Engaged(t, a, c)
    requires Engaged(s, b, c) ==> Engaged(s, a, c) || AcceptInFlight(s.net, b, a, c)
    ensures AcceptInFlight(t.net, b, a, c)
  {
    if Engaged(s, b, c) {
      AcceptStays(s, who, op, net, after, letter, t, b, a, c);
      AcceptEngages(s, who, op, net, after, letter, t, a, b, c);
    } else {
      assert IsAccept(Packet(b, a, Response(c, true, "")), b, a, c) && Packet(b, a, Response(c, true, "")) in t.net;
    }
  }

  /** A caller still waiting takes up the acceptance that reaches it. */
  lemma AcceptEngages(s: System, who: Name, op: Operation, net: seq<Packet>,
                      after: Manager, letter: Option<Letter>, t: System, a: Name, b: Name, c: CallId)
    requires Inv(s) && Move(s, who, op, net, after, letter, t)
    requires HoldsAsCaller(s, a, c) && HoldsAsCaller(t, a, c) && s.clients[a].peer == b
    ensures op.Handle? && who == a && IsAccept(Packet(op.from, who, op.message), b, a, c) ==> Engaged(t, a, c)
  {
    RolesOf(s, a, c);
  }

  /** A client only comes to be called by taking the request off the network. */
  lemma TakesRequest(s: System, who: Name, op: Operation, net: seq<Packet>,
                     after: Manager, letter: Option<Letter>, t: System, b: Name, c: CallId)
    requires Move(s, who, op, net, after, letter, t)
    requires !HoldsAsCallee(s, b, c) && HoldsAsCallee(t, b, c)
    ensures who == b && op == Handle(after.peer, Request(c)) && RequestInFlight(s.net, c)
  {
    assert IsRequest(Packet(op.from, who, op.message), c);
  }

  /** Whoever has just been called is still ringing. */
  lemma RingsFirst(s: System, b: Name, op: Operation, net: seq<Packet>,
                   after: Manager, letter: Option<Letter>, t: System, c: CallId)
    requires Move(s, b, op, net, after, letter, t) && op.Handle? && op.message.Request?
    requires !HoldsAsCallee(s, b, c) && HoldsAsCallee(t, b, c)
    ensures !Engaged(t, b, c)
  {
  }

  /** A callee that has just been called finds its caller waiting, or already on its way out. */
  lemma CalleeTakesUp(s: System, who: Name, op: Operation, net: seq<Packet>,
                      after: Manager, letter: Option<Letter>, t: System, a: Name, b: Name, c: CallId)
    requires Inv(s) && Move(s, who, op, net, after, letter, t)
    requires c in s.ids && s.ids[c] == Owner(a, b) && a != b && RequestBacked(s, a, b, c)
    requires !HoldsAsCallee(s, b, c) && HoldsAsCallee(t, b, c) && c !in t.abandoned
    ensures EndInFlight(t.net, a, b, c) || (HoldsAsCaller(t, a, c) && !Engaged(t, b, c))
  {
    TakesRequest(s, who, op, net, after, letter, t, b, c);
    if EndBehindRequest(s.net, a, b, c) {
      EndBehindIsInFlight(s, who, op, net, after, letter, t, a, b, c);
    } else {
      RingsFirst(s, b, op, net, after, letter, t, c);
      CallerStays(s, who, op, net, after, letter, t, a, c);
    }
  }

  lemma EndBehindIsInFlight(s: System, who: Name, op: Operation, net: seq<Packet>,
                            after: Manager, letter: Option<Letter>, t: System, a: Name, b: Name, c: CallId)
    requires Move(s, who, op, net, after, letter, t) && EndBehindRequest(s.net, a, b, c)
    requires op.Handle? && op.message.Request?
    ensures EndInFlight(t.net, a, b, c)
  {
    var i, j :| 0 <= i < j < |s.net| && IsRequest(s.net[i], c) && IsEnd(s.net[j], a, b, c);
    assert s.net[j] in net;
    assert s.net[j] in t.net;
  }

  lemma PostKeepsEndBehind(net: seq<Packet>, who: Name, letter: Option<Letter>, a: Name, b: Name, c: CallId)
    requires EndBehindRequest(net, a, b, c)
    ensures EndBehindRequest(Post(net, who, letter), a, b, c)
  {
    var i, j :| 0 <= i < j < |net| && IsRequest(net[i], c) && IsEnd(net[j], a, b, c);
    assert IsRequest(Post(net, who, letter)[i], c) && IsEnd(Post(net, who, letter)[j], a, b, c);
  }

  lemma PostEndBehind(net: seq<Packet>, a: Name, b: Name, c: CallId)
    requires RequestInFlight(net, c)
    ensures EndBehindRequest(Post(net, a, Some(Letter(b, End(c, "hangup")))), a, b, c)
  {
    var pk :| pk in net && IsRequest(pk, c);
    var i :| 0 <= i < |net| && net[i] == pk;
    var net' := Post(net, a, Some(Letter(b, End(c, "hangup"))));
    assert IsRequest(net'[i], c) && IsEnd(net'[|net|], a, b, c);
  }

  lemma MoveKeepsRequestBacked(s: System, who: Name, op: Operation, net: seq<Packet>,
                               after: Manager, letter: Option<Letter>, t: System, a: Name, b: Name, c: CallId)
    requires Inv(s) && Parted(s) && Move(s, who, op, net, after, letter, t)
    requires c in s.ids && s.ids[c] == Owner(a, b) && a != b && RequestBacked(s, a, b, c) && b in s.clients
    requires EndBehindRequest(s.net, a, b, c) && RequestInFlight(net, c) ==> EndBehindRequest(net, a, b, c)
    requires RequestInFlight(t.net, c) && c !in t.abandoned
    ensures HoldsAsCaller(t, a, c) || EndBehindRequest(t.net, a, b, c)
  {
    RequestWasThere(s, who, op, net, after, letter, t, c);
    if EndBehindRequest(s.net, a, b, c) {
      PostKeepsEndBehind(net, who, letter, a, b, c);
    } else {
      CallerStaysOrEnds(s, who, op, net, after, letter, t, a, b, c);
      if !HoldsAsCaller(t, a, c) {
        PostEndBehind(net, a, b, c);
      }
    }
  }

  lemma RequestWasThere(s: System, who: Name, op: Operation, net: seq<Packet>,
                        after: Manager, letter: Option<Letter>, t: System, c: CallId)
    requires Move(s, who, op, net, after, letter, t) && c in s.ids && RequestInFlight(t.net, c)
    ensures RequestInFlight(net, c) && RequestInFlight(s.net, c)
  {
    var pk :| pk in t.net && IsRequest(pk, c);
    assert pk in net;
  }

  lemma CallerStaysOrEnds(s: System, who: Name, op: Operation, net: seq<Packet>,
                          after: Manager, letter: Option<Letter>, t: System, a: Name, b: Name, c: CallId)
    requires Inv(s) && Parted(s) && Move(s, who, op, net, after, letter, t)
    requires c in s.ids && s.ids[c] == Owner(a, b) && a != b && b in s.clients
    requires HoldsAsCaller(s, a, c) && c !in t.abandoned
    requires Holds(s, b, c) || RequestInFlight(s.net, c)
    ensures HoldsAsCaller(t, a, c) || (who == a && letter == Some(Letter(b, End(c, "hangup"))))
  {
    if who == a && !On(after, c) {
      RolesOf(s, a, c);
      CallerLeaves(s, who, op, net, after, letter, t, b, c);
    } else {
      CallerStays(s, who, op, net, after, letter, t, a, c);
    }
  }

  lemma CallerStays(s: System, who: Name, op: Operation, net: seq<Packet>,
                    after: Manager, letter: Option<Letter>, t: System, a: Name, c: CallId)
    requires Move(s, who, op, net, after, letter, t) && HoldsAsCaller(s, a, c)
    requires who != a || On(after, c)
    ensures HoldsAsCaller(t, a, c)
  {
  }

  /** An answer on its way stays on its way as long as its caller waits. */
  lemma AnswerStays(s: System, who: Name, op: Operation, net: seq<Packet>,
                    after: Manager, letter: Option<Letter>, t: System, a: Name, b: Name, c: CallId)
    requires Inv(s) && Move(s, who, op, net, after, letter, t) && AnswerInFlight(s.net, b, a, c)
    requires HoldsAsCaller(s, a, c) && s.clients[a].peer == b && !Engaged(s, a, c)
    requires HoldsAsCaller(t, a, c) && !Engaged(t, a, c)
    ensures AnswerInFlight(t.net, b, a, c)
  {
    RolesOf(s, a, c);
    var pk :| pk in s.net && IsAnswer(pk, b, a, c);
    if pk in net {
      assert pk in t.net;
    }
  }

  /** A callee whose caller is still there leaves by telling it. */
  lemma CalleeAnswers(s: System, b: Name, op: Operation, net: seq<Packet>,
                      after: Manager, letter: Option<Letter>, t: System, a: Name, c: CallId)
    requires Inv(s) && Parted(s) && Move(s, b, op, net, after, letter, t)
    requires HoldsAsCallee(s, b, c) && s.clients[b].peer == a && !On(after, c)
    requires ToAnother(s.ids, c) && Holds(s, a, c)
    ensures AnswerInFlight(t.net, b, a, c)
  {
    if op.Handle? && op.from == a && op.message.id == c && Farewell(op.message) {
      NoFarewellFrom(s, Packet(op.from, b, op.message), c);
    }
    var pk := Packet(b, letter.value.to, letter.value.message);
    assert IsAnswer(pk, b, a, c) && pk in t.net;
  }

  lemma CalleeStays(s: System, who: Name, op: Operation, net: seq<Packet>,
                    after: Manager, letter: Option<Letter>, t: System, b: Name, c: CallId)
    requires Move(s, who, op, net, after, letter, t) && HoldsAsCallee(s, b, c)
    requires who != b || On(after, c)
    ensures HoldsAsCallee(t, b, c)
  {
  }

  lemma CalleeStaysOrAnswers(s: System, who: Name, op: Operation, net: seq<Packet>,
                             after: Manager, letter: Option<Letter>, t: System, a: Name, b: Name, c: CallId)
    requires Inv(s) && Parted(s) && Move(s, who, op, net, after, letter, t)
    requires c in s.ids && s.ids[c] == Owner(a, b) && a != b && Holds(s, a, c) && HoldsAsCallee(s, b, c)
    ensures HoldsAsCallee(t, b, c) || AnswerInFlight(t.net, b, a, c)
  {
    if who == b && !On(after, c) {
      RolesOf(s, b, c);
      CalleeAnswers(s, b, op, net, after, letter, t, a, c);
    } else {
      CalleeStays(s, who, op, net, after, letter, t, b, c);
    }
  }

  /** A request that reaches its callee makes it ring, or is refused. */
  lemma HandledRequest(s: System, b: Name, op: Operation, net: seq<Packet>,
                       after: Manager, letter: Option<Letter>, t: System, a: Name, c: CallId)
    requires Move(s, b, op, net, after, letter, t) && op == Handle(a, Request(c)) && c != ""
    ensures HoldsAsCallee(t, b, c) || AnswerInFlight(t.net, b, a, c)
  {
    if !HoldsAsCallee(t, b, c) {
      var answer := Packet(b, letter.value.to, letter.value.message);
      assert IsAnswer(answer, b, a, c) && answer in t.net;
    }
  }

  lemma RequestIsAnswered(s: System, who: Name, op: Operation, net: seq<Packet>,
                          after: Manager, letter: Option<Letter>, t: System, a: Name, b: Name, c: CallId)
    requires Inv(s) && Move(s, who, op, net, after, letter, t) && RequestInFlight(s.net, c)
    requires c in s.ids && s.ids[c] == Owner(a, b)
    ensures RequestInFlight(t.net, c) || HoldsAsCallee(t, b, c) || AnswerInFlight(t.net, b, a, c)
  {
    var pk :| pk in s.net && IsRequest(pk, c);
    assert Genuine(pk, s.ids, s.accepted);
    if pk in net {
      assert pk in t.net;
    } else {
      HandledRequest(s, b, op, net, after, letter, t, a, c);
    }
  }

  lemma MoveKeepsCallerHears(s: System, who: Name, op: Operation, net: seq<Packet>,
                             after: Manager, letter: Option<Letter>, t: System, a: Name, b: Name, c: CallId)
    requires Inv(s) && Parted(s) && Move(s, who, op, net, after, letter, t)
    requires c in s.ids && s.ids[c] == Owner(a, b) && a != b && CallerHears(s, a, b, c)
    requires HoldsAsCaller(t, a, c) && !Engaged(t, a, c)
    ensures RequestInFlight(t.net, c) || HoldsAsCallee(t, b, c) || AnswerInFlight(t.net, b, a, c)
  {
    CallerWaited(s, who, op, net, after, letter, t, a, c);
    if AnswerInFlight(s.net, b, a, c) {
      RolesOf(s, a, c);
      AnswerStays(s, who, op, net, after, letter, t, a, b, c);
    } else if HoldsAsCallee(s, b, c) {
      CalleeStaysOrAnswers(s, who, op, net, after, letter, t, a, b, c);
    } else {
      RequestIsAnswered(s, who, op, net, after, letter, t, a, b, c);
    }
  }

  /** A caller that waits after a step waited before it. */
  lemma CallerWaited(s: System, who: Name, op: Operation, net: seq<Packet>,
                     after: Manager, letter: Option<Letter>, t: System, a: Name, c: CallId)
    requires Move(s, who, op, net, after, letter, t) && c in s.ids
    requires HoldsAsCaller(t, a, c) && !Engaged(t, a, c)
    ensures HoldsAsCaller(s, a, c) && !Engaged(s, a, c)
  {
  }

  lemma AbandonedIsSpent(s: System, who: Name, op: Operation, net: seq<Packet>,
                         after: Manager, letter: Option<Letter>, t: System, a: Name, c: CallId)
    requires Inv(s) && Move(s, who, op, net, after, letter, t)
    requires ToAnother(s.ids, c) && a == s.ids[c].caller && c in t.abandoned
    requires c in s.abandoned ==> Spent(s, a, c)
    ensures Spent(t, a, c)
  {
    if c in s.abandoned {
      SpentStays(s, who, op, net, after, letter, t, a, c);
    } else {
      RolesOf(s, who, c);
      SpentMoves(s, who, op, net, after, letter, t, a, c);
    }
  }

  lemma NewCallAgreed(s: System, who: Name, op: Operation, net: seq<Packet>,
                      after: Manager, letter: Option<Letter>, t: System, c: CallId)
    requires Inv(s) && Move(s, who, op, net, after, letter, t)
    requires c in t.ids && c !in s.ids
    ensures Agreed(t, c)
  {
    forall pk <- t.net | pk in net ensures pk.message.id != c {
      assert Genuine(pk, s.ids, s.accepted);
    }
    forall p <- s.clients | p != who ensures !Holds(t, p, c) {
      assert Roles(p, s.clients[p], s.ids);
    }
    var request := Packet(who, letter.value.to, letter.value.message);
    assert request in t.net && IsRequest(request, c);
  }

  lemma MoveKeepsAgreed(s: System, who: Name, op: Operation, net: seq<Packet>,
                        after: Manager, letter: Option<Letter>, t: System, c: CallId)
    requires Inv(s) && Parted(s) && Move(s, who, op, net, after, letter, t)
    requires c in s.ids && c in t.ids && t.ids[c] == s.ids[c] && Agreed(s, c)
    requires var o := s.ids[c];
             EndBehindRequest(s.net, o.caller, o.callee, c) && RequestInFlight(net, c) ==>
               EndBehindRequest(net, o.caller, o.callee, c)
    ensures Agreed(t, c)
  {
    var a, b := s.ids[c].caller, s.ids[c].callee;
    if a != b && b in s.clients {
      if HoldsAsCaller(t, a, c) && (AcceptInFlight(t.net, b, a, c) || Engaged(t, a, c)) {
        MoveKeepsCalleeFollows(s, who, op, net, after, letter, t, a, b, c);
      }
      if HoldsAsCallee(t, b, c) && c !in t.abandoned {
        if HoldsAsCallee(s, b, c) {
          MoveKeepsCallerFollows(s, who, op, net, after, letter, t, a, b, c);
        } else {
          CalleeTakesUp(s, who, op, net, after, letter, t, a, b, c);
        }
      }
      if RequestInFlight(t.net, c) && c !in t.abandoned {
        MoveKeepsRequestBacked(s, who, op, net, after, letter, t, a, b, c);
      }
      if HoldsAsCaller(t, a, c) && !Engaged(t, a, c) {
        MoveKeepsCallerHears(s, who, op, net, after, letter, t, a, b, c);
      }
      if c in t.abandoned {
        AbandonedIsSpent(s, who, op, net, after, letter, t, a, c);
      }
    }
  }

  lemma RemainingRequest(q: seq<Packet>, i: nat, x: nat, c: CallId)
    requires i < |q| && x < |q| && OneRequestEach(q)
    requires IsRequest(q[x], c) && RequestInFlight(RemoveAt(q, i), c)
    ensures x != i
  {
    var rest := RemoveAt(q, i);
    var pk :| pk in rest && IsRequest(pk, c);
    var z :| 0 <= z < |rest| && rest[z] == pk;
    assert q[if z < i then z else z + 1] == pk;
  }

  /** Two packets that are not removed keep their order. */
  lemma RemoveKeepsOrder(q: seq<Packet>, i: nat, x: nat, y: nat)
    requires i < |q| && x < y < |q| && x != i && y != i
    ensures exists x', y' | 0 <= x' < y' < |RemoveAt(q, i)| :: RemoveAt(q, i)[x'] == q[x] && RemoveAt(q, i)[y'] == q[y]
  {
    var rest, x', y' := RemoveAt(q, i), if x < i then x else x - 1, if y < i then y else y - 1;
    assert rest[x'] == q[x] && rest[y'] == q[y];
  }

  lemma RemoveKeepsEndBehind(q: seq<Packet>, i: nat, a: Name, b: Name, c: CallId)
    requires i < |q| && OneRequestEach(q)
    requires forall pk <- q :: IsRequest(pk, c) ==> pk.from == a && pk.to == b
    requires IsEnd(q[i], a, b, c) ==> forall j | 0 <= j < i :: q[j].from != a || q[j].to != b
    requires EndBehindRequest(q, a, b, c) && RequestInFlight(RemoveAt(q, i), c)
    ensures EndBehindRequest(RemoveAt(q, i), a, b, c)
  {
    var x, y :| 0 <= x < y < |q| && IsRequest(q[x], c) && IsEnd(q[y], a, b, c);
    RemainingRequest(q, i, x, c);
    assert q[x].from == a && q[x].to == b;
    assert y != i;
    RemoveKeepsOrder(q, i, x, y);
  }

  lemma RequestsComeFromCaller(s: System, c: CallId)
    requires Inv(s) && c in s.ids
    ensures forall pk <- s.net :: IsRequest(pk, c) ==> pk.from == s.ids[c].caller && pk.to == s.ids[c].callee
  {
    forall pk <- s.net | IsRequest(pk, c)
      ensures pk.from == s.ids[c].caller && pk.to == s.ids[c].callee
    {
      assert Genuine(pk, s.ids, s.accepted);
    }
  }

  lemma LocalIsMove(s: System, who: Name, op: Operation, net: seq<Packet>)
    requires Inv(s) && Caused(s, who, op, net)
    requires forall pk <- s.net :: pk in net || (op.Handle? && pk == Packet(op.from, who, op.message))
    ensures var o := Perform(s.clients[who], op);
            Move(s, who, op, net, o.after, o.letter, Local(s, who, op, net))
  {
    if op.Handle? {
      assert Genuine(Packet(op.from, who, op.message), s.ids, s.accepted);
    }
    PerformFacts(who, s.clients[who], op, s.ids, s.accepted);
    PerformConduct(who, s.clients[who], op, s.abandoned);
  }

  predicate EndsStayBehind(net: seq<Packet>, net': seq<Packet>, a: Name, b: Name, c: CallId) {
    EndBehindRequest(net, a, b, c) && RequestInFlight(net', c) ==> EndBehindRequest(net', a, b, c)
  }

  lemma MoveKeepsAllAgreed(s: System, who: Name, op: Operation, net: seq<Packet>,
                           after: Manager, letter: Option<Letter>, t: System)
    requires Agreement(s) && Move(s, who, op, net, after, letter, t)
    requires forall c <- s.ids :: EndsStayBehind(s.net, net, s.ids[c].caller, s.ids[c].callee, c)
    ensures forall c <- t.ids :: Agreed(t, c)
  {
    forall c <- t.ids ensures Agreed(t, c) {
      if c in s.ids {
        assert EndsStayBehind(s.net, net, s.ids[c].caller, s.ids[c].callee, c);
        MoveKeepsAgreed(s, who, op, net, after, letter, t, c);
      } else {
        NewCallAgreed(s, who, op, net, after, letter, t, c);
      }
    }
  }

  lemma LocalKeepsAgreement(s: System, who: Name, op: Operation, net: seq<Packet>)
    requires Agreement(s) && Caused(s, who, op, net)
    requires forall pk <- s.net :: pk in net || (op.Handle? && pk == Packet(op.from, who, op.message))
    requires forall c <- s.ids :: EndsStayBehind(s.net, net, s.ids[c].caller, s.ids[c].callee, c)
    ensures Agreement(Local(s, who, op, net))
  {
    var t, o := Local(s, who, op, net), Perform(s.clients[who], op);
    LocalIsMove(s, who, op, net);
    LocalKeepsInv(s, who, op, net);
    MoveKeepsParted(s, who, op, net, o.after, o.letter, t);
    MoveKeepsAllAgreed(s, who, op, net, o.after, o.letter, t);
  }

  lemma DeliveryKeepsAgreement(s: System, i: nat)
    requires Agreement(s) && Enabled(s, Deliver(i)) && FifoOnly(s, Deliver(i))
    ensures Agreement(Step(s, Deliver(i)))
  {
    DeliveryCaused(s, i);
    RemoveAtIn(s.net, i);
    var net := RemoveAt(s.net, i);
    forall c <- s.ids ensures EndsStayBehind(s.net, net, s.ids[c].caller, s.ids[c].callee, c) {
      RequestsComeFromCaller(s, c);
      if EndBehindRequest(s.net, s.ids[c].caller, s.ids[c].callee, c) && RequestInFlight(net, c) {
        RemoveKeepsEndBehind(s.net, i, s.ids[c].caller, s.ids[c].callee, c);
      }
    }
    LocalKeepsAgreement(s, s.net[i].to, Handle(s.net[i].from, s.net[i].message), net);
  }

  /** Whatever caller and callee of `c` wait for on one network is on the other as well. */
  predicate NothingMissed(net: seq<Packet>, net': seq<Packet>, a: Name, b: Name, c: CallId) {
    && (EndInFlight(net, a, b, c) ==> EndInFlight(net', a, b, c))
    && (EndInFlight(net, b, a, c) ==> EndInFlight(net', b, a, c))
    && (AcceptInFlight(net, b, a, c) <==> AcceptInFlight(net', b, a, c))
    && (RequestInFlight(net, c) <==> RequestInFlight(net', c))
    && (AnswerInFlight(net, b, a, c) ==> AnswerInFlight(net', b, a, c))
    && EndsStayBehind(net, net', a, b, c)
  }

  lemma AgreedWithoutMissing(s: System, net: seq<Packet>, c: CallId)
    requires c in s.ids && Agreed(s, c)
    requires s.ids[c].callee in s.clients ==> NothingMissed(s.net, net, s.ids[c].caller, s.ids[c].callee, c)
    ensures Agreed(s.(net := net), c)
  {
  }

  lemma LossKeepsPackets(s: System, i: nat, a: Name, b: Name, c: CallId)
    requires Inv(s) && Enabled(s, Lose(i)) && FifoOnly(s, Lose(i))
    requires c in s.ids && s.ids[c] == Owner(a, b) && b in s.clients
    ensures NothingMissed(s.net, RemoveAt(s.net, i), a, b, c)
  {
    RemoveAtIn(s.net, i);
    RequestsComeFromCaller(s, c);
    if EndBehindRequest(s.net, a, b, c) && RequestInFlight(RemoveAt(s.net, i), c) {
      RemoveKeepsEndBehind(s.net, i, a, b, c);
    }
  }

  /** Losing what is addressed to nobody takes nothing away from any client. */
  lemma LossKeepsAgreed(s: System, i: nat, c: CallId)
    requires Inv(s) && Enabled(s, Lose(i)) && FifoOnly(s, Lose(i)) && c in s.ids && Agreed(s, c)
    ensures Agreed(Step(s, Lose(i)), c)
  {
    if s.ids[c].callee in s.clients {
      LossKeepsPackets(s, i, s.ids[c].caller, s.ids[c].callee, c);
    }
    AgreedWithoutMissing(s, RemoveAt(s.net, i), c);
  }

  lemma LossKeepsAgreement(s: System, i: nat)
    requires Agreement(s) && Enabled(s, Lose(i)) && FifoOnly(s, Lose(i))
    ensures Agreement(Step(s, Lose(i)))
  {
    var t := Step(s, Lose(i));
    StepKeepsInv(s, Lose(i));
    RemoveAtIn(s.net, i);
    forall pk <- t.net | Farewell(pk.message) && ToAnother(t.ids, pk.message.id)
      ensures Spent(t, pk.from, pk.message.id)
    {
      assert pk in s.net && Spent(s, pk.from, pk.message.id);
    }
    forall c <- t.ids ensures Agreed(t, c) {
      assert Agreed(s, c);
      LossKeepsAgreed(s, i, c);
    }
  }

  lemma NextFifoKeepsAgreement(s: System, t: System)
    requires Agreement(s) && NextFifo(s, t)
    ensures Agreement(t)
  {
    var e :| Enabled(s, e) && FifoOnly(s, e) && t == Step(s, e);
    match e
    case Act(who, op) =>
      assert Caused(s, who, op, s.net);
      LocalKeepsAgreement(s, who, op, s.net);
    case Deliver(i) => DeliveryKeepsAgreement(s, i);
    case Lose(i) => LossKeepsAgreement(s, i);
  }

  lemma {:induction false} FifoRunKeepsAgreement(names: set<Name>, r: seq<System>, k: nat)
    requires FifoRun(names, r) && k < |r|
    ensures Agreement(r[k])
  {
    if k > 0 {
      FifoRunKeepsAgreement(names, r, k - 1);
      assert FifoStepAt(r, k - 1);
      NextFifoKeepsAgreement(r[k - 1], r[k]);
    }
  }

  /** Nothing is on its way to any client. */
  predicate Quiet(s: System) {
    forall pk <- s.net :: pk.to !in s.clients
  }

  /** In a quiet state a caller past Calling is never alone: its peer is in the media phase of the
      same call, as its callee. This holds whatever was cancelled or timed out. */
  lemma QuietCallerHasCallee(names: set<Name>, r: seq<System>, k: nat, a: Name, c: CallId)
    requires FifoRun(names, r) && k < |r| && Quiet(r[k])
    requires HoldsAsCaller(r[k], a, c) && Engaged(r[k], a, c)
    ensures var b := r[k].clients[a].peer;
            Engaged(r[k], b, c) && HoldsAsCallee(r[k], b, c) && r[k].clients[b].peer == a
  {
    var s := r[k];
    FifoRunKeepsAgreement(names, r, k);
    RolesOf(s, a, c);
    assert Agreed(s, c);
    var b := s.clients[a].peer;
    assert c in s.accepted && b in s.clients;
    assert !EndInFlight(s.net, b, a, c);
    RolesOf(s, b, c);
  }

  /** The caller of `c` gave it up in the step from `s` to `t`: it cancelled, or its timer fired. */
  predicate GivesUp(s: System, t: System, a: Name, c: CallId) {
    && HoldsAsCaller(s, a, c) && s.clients[a].state == Calling && !Holds(t, a, c)
    && (t == Local(s, a, CancelCall, s.net) || t == Local(s, a, TimerFires, s.net))
  }

  predicate GaveUpAt(r: seq<System>, j: nat, a: Name, c: CallId)
    requires j + 1 < |r|
  {
    GivesUp(r[j], r[j + 1], a, c)
  }

  lemma AbandonedByActing(s: System, who: Name, op: Operation, net: seq<Packet>, c: CallId)
    requires who in s.clients && Sound(s.clients[who]) && Roles(who, s.clients[who], s.ids)
    requires c in Local(s, who, op, net).abandoned && c !in s.abandoned
    ensures op == CancelCall || op == TimerFires
    ensures HoldsAsCaller(s, who, c) && s.clients[who].state == Calling && !Holds(Local(s, who, op, net), who, c)
    ensures c in s.ids && s.ids[c].caller == who
  {
  }

  lemma OnlyGivingUpAbandons(s: System, t: System, c: CallId)
    requires Inv(s) && Next(s, t) && c in t.abandoned && c !in s.abandoned
    ensures c in s.ids && GivesUp(s, t, s.ids[c].caller, c)
  {
    var e :| Enabled(s, e) && t == Step(s, e);
    match e
    case Act(who, op) =>
      assert Sound(s.clients[who]) && Roles(who, s.clients[who], s.ids);
      AbandonedByActing(s, who, op, s.net, c);
    case Deliver(i) =>
    case Lose(i) =>
  }

  lemma NewlyAbandoned(names: set<Name>, r: seq<System>, j: nat, c: CallId)
    requires Run(names, r) && j + 1 < |r| && c in r[j + 1].abandoned && c !in r[j].abandoned
    ensures c in r[j].ids && GaveUpAt(r, j, r[j].ids[c].caller, c)
  {
    RunKeepsInv(names, r, j);
    assert StepAt(r, j);
    OnlyGivingUpAbandons(r[j], r[j + 1], c);
  }

  /** An abandoned call is one whose caller really cancelled it or let its timer fire. */
  lemma {:induction false} AbandonedWasGivenUp(names: set<Name>, r: seq<System>, k: nat, c: CallId)
    requires Run(names, r) && k < |r| && c in r[k].abandoned
    ensures c in r[k].ids && exists j | 0 <= j < k :: GaveUpAt(r, j, r[k].ids[c].caller, c)
  {
    assert k > 0;
    if c in r[k - 1].abandoned {
      AbandonedWasGivenUp(names, r, k - 1, c);
    } else {
      NewlyAbandoned(names, r, k - 1, c);
    }
    assert StepAt(r, k - 1);
    OwnersStay(r[k - 1], r[k], c);
  }

  lemma GivingUpAbandons(s: System, t: System, a: Name, c: CallId)
    requires Inv(s) && GivesUp(s, t, a, c)
    ensures c in t.abandoned
  {
    assert Sound(s.clients[a]);
  }

  lemma AbandonedStays(s: System, t: System, c: CallId)
    requires Next(s, t) && c in s.abandoned
    ensures c in t.abandoned
  {
  }

  lemma GivenUpJustNow(names: set<Name>, r: seq<System>, j: nat, a: Name, c: CallId)
    requires Run(names, r) && j + 1 < |r| && GaveUpAt(r, j, a, c)
    ensures c in r[j + 1].abandoned
  {
    RunKeepsInv(names, r, j);
    GivingUpAbandons(r[j], r[j + 1], a, c);
  }

  /** Once its caller cancelled a call or let its timer fire, the call counts as abandoned for good. */
  lemma {:induction false} GivenUpIsAbandoned(names: set<Name>, r: seq<System>, j: nat, k: nat, a: Name, c: CallId)
    requires Run(names, r) && j < k < |r| && GaveUpAt(r, j, a, c)
    ensures c in r[k].abandoned
  {
    if j + 1 == k {
      GivenUpJustNow(names, r, j, a, c);
    } else {
      GivenUpIsAbandoned(names, r, j, k - 1, a, c);
      assert StepAt(r, k - 1);
      AbandonedStays(r[k - 1], r[k], c);
    }
  }

  /** The abandoned calls are exactly those whose caller took a step that gave them up. */
  lemma AbandonedIffGivenUp(names: set<Name>, r: seq<System>, k: nat, c: CallId)
    requires Run(names, r) && k < |r| && c in r[k].ids
    ensures c in r[k].abandoned <==> exists j | 0 <= j < k :: GaveUpAt(r, j, r[k].ids[c].caller, c)
  {
    if c in r[k].abandoned {
      AbandonedWasGivenUp(names, r, k, c);
    }
    forall j | 0 <= j < k && GaveUpAt(r, j, r[k].ids[c].caller, c) ensures c in r[k].abandoned {
      GivenUpIsAbandoned(names, r, j, k, r[k].ids[c].caller, c);
    }
  }

  lemma FifoRunIsRun(names: set<Name>, r: seq<System>)
    requires FifoRun(names, r)
    ensures Run(names, r)
  {
    forall i | 0 <= i < |r| - 1 ensures StepAt(r, i) {
      assert FifoStepAt(r, i);
    }
  }

  /** The caller of `b`'s call `c` is in the media phase of it too. */
  predicate CallerIsThere(s: System, b: Name, c: CallId)
    requires b in s.clients
  {
    var a := s.clients[b].peer;
    HoldsAsCaller(s, a, c) && Engaged(s, a, c) && s.clients[a].peer == b
  }

  lemma CalleeHasCallerUnlessAbandoned(s: System, b: Name, c: CallId)
    requires Agreement(s) && Quiet(s)
    requires HoldsAsCallee(s, b, c) && Engaged(s, b, c) && s.clients[b].peer != b
    ensures c in s.ids && s.ids[c].caller == s.clients[b].peer
    ensures CallerIsThere(s, b, c) <==> c !in s.abandoned
  {
    RolesOf(s, b, c);
    assert Agreed(s, c);
    var a := s.clients[b].peer;
    if c !in s.abandoned {
      assert !EndInFlight(s.net, a, b, c);
      assert !AcceptInFlight(s.net, b, a, c);
      RolesOf(s, a, c);
    }
  }

  /** In a quiet state a callee in the media phase of a call placed by somebody else has its caller
      with it exactly when that caller never, at any step so far, cancelled the call or let its
      request timer fire. */
  lemma QuietCalleeHasCaller(names: set<Name>, r: seq<System>, k: nat, b: Name, c: CallId)
    requires FifoRun(names, r) && k < |r| && Quiet(r[k])
    requires HoldsAsCallee(r[k], b, c) && Engaged(r[k], b, c) && r[k].clients[b].peer != b
    ensures CallerIsThere(r[k], b, c) <==> !exists j | 0 <= j < k :: GaveUpAt(r, j, r[k].clients[b].peer, c)
  {
    FifoRunKeepsAgreement(names, r, k);
    FifoRunIsRun(names, r);
    CalleeHasCallerUnlessAbandoned(r[k], b, c);
    AbandonedIffGivenUp(names, r, k, c);
  }
}
