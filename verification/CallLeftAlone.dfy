/** Why the caller of a quiet call may be missing: a run over a lossless, first-in-first-out network
    in which the callee accepts, the caller cancels before the acceptance reaches it, and the callee
    is then alone in the media phase with nothing left in flight. */
module CallLeftAlone {
  import opened Wrappers
  import opened CallTypes
  import opened CallManagers
  import opened CallNetwork
  import opened CallAgreement

  /** Two clients between which one call was placed. */
  function Pair(a: Name, b: Name, c: CallId, caller: Manager, callee: Manager, net: seq<Packet>,
                accepted: bool, abandoned: bool): System {
    System(map[a := caller, b := callee], net, map[c := Owner(a, b)],
           if accepted then {c} else {}, if abandoned then {c} else {})
  }

  function Dials(b: Name, c: CallId): Manager {
    Manager(Calling, b, c, true, 1, Some(Timer(1, c)))
  }

  function GaveUp(c: CallId): Manager {
    Manager(Idle, "", "", false, 2, Some(Timer(1, c)))
  }

  function Callee(state: CallState, a: Name, c: CallId): Manager {
    Manager(state, a, c, false, 0, None)
  }

  function States(a: Name, b: Name, c: CallId): seq<System> {
    var request, yes := Packet(a, b, Request(c)), Packet(b, a, Response(c, true, ""));
    var cancel := Packet(a, b, Cancel(c, "cancelled"));
    [Start({a, b}),
     Pair(a, b, c, Dials(b, c), INITIAL, [request], false, false),
     Pair(a, b, c, Dials(b, c), Callee(Receiving, a, c), [], false, false),
     Pair(a, b, c, Dials(b, c), Callee(Connecting, a, c), [yes], true, false),
     Pair(a, b, c, GaveUp(c), Callee(Connecting, a, c), [yes, cancel], true, true),
     Pair(a, b, c, GaveUp(c), Callee(Connecting, a, c), [cancel], true, true),
     Pair(a, b, c, GaveUp(c), Callee(Connecting, a, c), [], true, true)]
  }

  function Events(a: Name, b: Name, c: CallId): seq<Event> {
    [Act(a, InitiateCall(true, b, c)), Deliver(0), Act(b, AcceptCall), Act(a, CancelCall), Deliver(0), Deliver(0)]
  }

  /** Event `i` leads from state `i` to the next one. */
  predicate Leads(a: Name, b: Name, c: CallId, i: nat)
    requires i < 6
  {
    var s, e := States(a, b, c)[i], Events(a, b, c)[i];
    Enabled(s, e) && FifoOnly(s, e) && Step(s, e) == States(a, b, c)[i + 1]
  }

  lemma CallIsPlaced(a: Name, b: Name, c: CallId)
    requires a != "" && b != "" && a != b && c != ""
    ensures Leads(a, b, c, 0)
  {
    var s, e := Start({a, b}), Act(a, InitiateCall(true, b, c));
    assert Enabled(s, e) && FifoOnly(s, e);
    assert Step(s, e).clients == map[a := Dials(b, c), b := INITIAL];
    assert Step(s, e).net == [Packet(a, b, Request(c))];
  }

  lemma CallRings(a: Name, b: Name, c: CallId)
    requires a != "" && b != "" && a != b && c != ""
    ensures Leads(a, b, c, 1)
  {
  }

  lemma CallIsAccepted(a: Name, b: Name, c: CallId)
    requires a != "" && b != "" && a != b && c != ""
    ensures Leads(a, b, c, 2)
  {
  }

  lemma CallerCancels(a: Name, b: Name, c: CallId)
    requires a != "" && b != "" && a != b && c != ""
    ensures Leads(a, b, c, 3)
  {
  }

  lemma AnswerComesTooLate(a: Name, b: Name, c: CallId)
    requires a != "" && b != "" && a != b && c != ""
    ensures Leads(a, b, c, 4)
  {
  }

  lemma CancelComesTooLate(a: Name, b: Name, c: CallId)
    requires a != "" && b != "" && a != b && c != ""
    ensures Leads(a, b, c, 5)
  {
  }

  /** For any two clients and any call id the callee can be left alone in a quiet system. */
  lemma CalleeLeftAlone(a: Name, b: Name, c: CallId) returns (r: seq<System>)
    requires a != "" && b != "" && a != b && c != ""
    ensures FifoRun({a, b}, r) && |r| == 7 && Quiet(r[6])
    ensures HoldsAsCallee(r[6], b, c) && Engaged(r[6], b, c) && r[6].clients[b].peer == a
    ensures !Holds(r[6], a, c) && GaveUpAt(r, 3, a, c)
  {
    r := States(a, b, c);
    CallIsPlaced(a, b, c);
    CallRings(a, b, c);
    CallIsAccepted(a, b, c);
    CallerCancels(a, b, c);
    AnswerComesTooLate(a, b, c);
    CancelComesTooLate(a, b, c);
    forall i | 0 <= i < |r| - 1 ensures FifoStepAt(r, i) {
      assert Leads(a, b, c, i);
    }
  }
}
