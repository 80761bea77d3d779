/** How a call ends for both sides over a lossless, first-in-first-out network. */
module CallEndings {
  import opened Wrappers
  import opened CallTypes
  import opened CallManagers
  import opened CallNetwork
  import opened CallAgreement

  /** In a quiet state a caller is never left waiting: whatever state it is in, its callee, if it is a
      client at all, has the same call. */
  lemma QuietCallerIsNotAlone(names: set<Name>, r: seq<System>, k: nat, a: Name, c: CallId)
    requires FifoRun(names, r) && k < |r| && Quiet(r[k]) && HoldsAsCaller(r[k], a, c)
    requires r[k].clients[a].peer != a && r[k].clients[a].peer in r[k].clients
    ensures HoldsAsCallee(r[k], r[k].clients[a].peer, c)
  {
    var s := r[k];
    FifoRunKeepsAgreement(names, r, k);
    RolesOf(s, a, c);
    assert Agreed(s, c);
    if Engaged(s, a, c) {
      QuietCallerHasCallee(names, r, k, a, c);
    } else {
      QuietHasNoPackets(s, a, s.clients[a].peer, c);
    }
  }

  lemma QuietHasNoPackets(s: System, a: Name, b: Name, c: CallId)
    requires Inv(s) && Quiet(s) && a in s.clients && b in s.clients && c in s.ids && s.ids[c] == Owner(a, b)
    ensures !RequestInFlight(s.net, c) && !AnswerInFlight(s.net, b, a, c)
    ensures !EndInFlight(s.net, a, b, c) && !EndInFlight(s.net, b, a, c)
  {
    RequestsComeFromCaller(s, c);
  }

  /** In a quiet state a callee whose caller did not give the call up is not alone either. */
  lemma QuietCalleeIsNotAlone(s: System, b: Name, c: CallId)
    requires Agreement(s) && Quiet(s) && HoldsAsCallee(s, b, c) && s.clients[b].peer != b
    requires s.clients[b].peer in s.clients && c !in s.abandoned
    ensures HoldsAsCaller(s, s.clients[b].peer, c)
  {
    RolesOf(s, b, c);
    assert Agreed(s, c);
    QuietHasNoPackets(s, s.clients[b].peer, b, c);
  }

  /** A call that its caller has left without giving it up is not given up later. */
  lemma {:induction false} NotAbandonedLater(names: set<Name>, r: seq<System>, i: nat, k: nat, c: CallId)
    requires Run(names, r) && i <= k < |r| && c in r[i].ids && Spent(r[i], r[i].ids[c].caller, c)
    requires c !in r[i].abandoned
    ensures c in r[k].ids && r[k].ids[c] == r[i].ids[c] && c !in r[k].abandoned
  {
    if i < k {
      NotAbandonedLater(names, r, i, k - 1, c);
      SpentForGood(names, r, i, k - 1, r[i].ids[c].caller, c);
      assert StepAt(r, k - 1);
      OwnersStay(r[k - 1], r[k], c);
      if c in r[k].abandoned {
        NewlyAbandoned(names, r, k - 1, c);
      }
    }
  }

  /** Between states `i` and `i + 1` client `p` leaves call `c`. */
  predicate LeavesAt(r: seq<System>, i: nat, p: Name, c: CallId)
    requires i + 1 < |r|
  {
    Holds(r[i], p, c) && !Holds(r[i + 1], p, c)
  }

  lemma LeaverIsSpent(names: set<Name>, r: seq<System>, i: nat, p: Name, c: CallId)
    requires Run(names, r) && i + 1 < |r| && LeavesAt(r, i, p, c) && ToAnother(r[i].ids, c)
    ensures Spent(r[i + 1], p, c)
  {
    assert HeldOrDone(r[i], p, c);
    StepAtKeepsHeldOrDone(names, r, i, p, c);
    NotHeldIsSpent(r[i + 1], p, c);
  }

  lemma NotHeldIsSpent(s: System, p: Name, c: CallId)
    requires HeldOrDone(s, p, c) && !Holds(s, p, c)
    ensures Spent(s, p, c)
  {
  }

  /** What is certain once a client has left a call placed to somebody else. */
  lemma AfterLeaving(names: set<Name>, r: seq<System>, i: nat, k: nat, p: Name, c: CallId)
    requires Run(names, r) && i < k < |r| && LeavesAt(r, i, p, c) && ToAnother(r[i].ids, c)
    ensures c in r[k].ids && r[k].ids[c] == r[i].ids[c] && Spent(r[k], p, c)
  {
    LeaverIsSpent(names, r, i, p, c);
    SpentForGood(names, r, i + 1, k, p, c);
    OwnersStayOver(names, r, i, k, c);
  }

  lemma {:induction false} OwnersStayOver(names: set<Name>, r: seq<System>, i: nat, k: nat, c: CallId)
    requires Run(names, r) && i <= k < |r| && c in r[i].ids
    ensures c in r[k].ids && r[k].ids[c] == r[i].ids[c]
  {
    if i < k {
      OwnersStayOver(names, r, i, k - 1, c);
      assert StepAt(r, k - 1);
      OwnersStay(r[k - 1], r[k], c);
    }
  }

  /** Whoever still holds a call it placed to somebody else has not given it up. */
  lemma {:induction false} NeverAbandonedHolder(names: set<Name>, r: seq<System>, i: nat, a: Name, c: CallId)
    requires Run(names, r) && i < |r| && Holds(r[i], a, c) && ToAnother(r[i].ids, c) && r[i].ids[c].caller == a
    ensures c !in r[i].abandoned
  {
    if c in r[i].abandoned {
      AbandonedWasGivenUp(names, r, i, c);
      var j :| 0 <= j < i && GaveUpAt(r, j, a, c);
      RunKeepsInv(names, r, j);
      RolesOf(r[j], a, c);
      OwnersStayOver(names, r, j, i, c);
      AfterLeaving(names, r, j, i, a, c);
    }
  }

  /** A caller that leaves without giving the call up leaves it unabandoned for good. */
  lemma LeavingKeepsUnabandoned(names: set<Name>, r: seq<System>, i: nat, k: nat, a: Name, c: CallId)
    requires Run(names, r) && i < k < |r| && LeavesAt(r, i, a, c) && ToAnother(r[i].ids, c)
    requires r[i].ids[c].caller == a && !GaveUpAt(r, i, a, c)
    ensures c !in r[k].abandoned
  {
    AfterLeaving(names, r, i, i + 1, a, c);
    NeverAbandonedHolder(names, r, i, a, c);
    if c in r[i + 1].abandoned {
      NewlyAbandoned(names, r, i, c);
    }
    NotAbandonedLater(names, r, i + 1, k, c);
  }

  /** Whoever is on a call is its caller or its callee. */
  lemma HolderIsParty(s: System, p: Name, c: CallId)
    requires Inv(s) && Holds(s, p, c)
    ensures c in s.ids
    ensures if s.clients[p].isCaller then s.ids[c].caller == p && s.clients[p].peer == s.ids[c].callee
            else s.ids[c].callee == p && s.clients[p].peer == s.ids[c].caller
  {
    RolesOf(s, p, c);
  }

  /** Over lossless FIFO delivery: once one side has left a call between two clients, by whatever step
      other than giving it up while still calling, nobody is on that call in any later quiet state. */
  lemma LeftForBoth(names: set<Name>, r: seq<System>, i: nat, k: nat, p: Name, c: CallId, q: Name)
    requires FifoRun(names, r) && i < k < |r| && Quiet(r[k]) && LeavesAt(r, i, p, c)
    requires ToAnother(r[i].ids, c) && r[i].ids[c].callee in r[i].clients && !GaveUpAt(r, i, p, c)
    ensures !Holds(r[k], q, c)
  {
    FifoRunIsRun(names, r);
    RunKeepsInv(names, r, i);
    RunKeepsInv(names, r, k);
    FifoRunKeepsAgreement(names, r, k);
    AfterLeaving(names, r, i, k, p, c);
    HolderIsParty(r[i], p, c);
    ClientsStay(names, r, i, k);
    if Holds(r[k], q, c) {
      HolderIsParty(r[k], q, c);
      if r[k].clients[q].isCaller {
        QuietCallerIsNotAlone(names, r, k, q, c);
      } else {
        if r[i].ids[c].caller == p {
          LeavingKeepsUnabandoned(names, r, i, k, p, c);
          QuietCalleeIsNotAlone(r[k], q, c);
        }
      }
    }
  }

  lemma {:induction false} ClientsStay(names: set<Name>, r: seq<System>, i: nat, k: nat)
    requires Run(names, r) && i <= k < |r|
    ensures r[k].clients.Keys == r[i].clients.Keys
  {
    if i < k {
      ClientsStay(names, r, i, k - 1);
      assert StepAt(r, k - 1);
      NextKeepsClients(r[k - 1], r[k]);
    }
  }

  lemma NextKeepsClients(s: System, t: System)
    requires Next(s, t)
    ensures t.clients.Keys == s.clients.Keys
  {
    var e :| Enabled(s, e) && t == Step(s, e);
  }

  /** The user of `p` ends the call, or refuses one that rings. */
  predicate HangsUp(s: System, p: Name, op: Operation) {
    p in s.clients && (op.EndCall? || (op.RejectCall? && s.clients[p].state == Receiving))
  }

  predicate HangsUpAt(r: seq<System>, i: nat, p: Name, op: Operation)
    requires i + 1 < |r|
  {
    HangsUp(r[i], p, op) && r[i + 1] == Step(r[i], Act(p, op))
  }

  /** Hanging up and refusing leave the call. */
  lemma HangUpLeaves(names: set<Name>, r: seq<System>, i: nat, p: Name, op: Operation, c: CallId)
    requires Run(names, r) && i + 1 < |r| && Holds(r[i], p, c) && HangsUpAt(r, i, p, op)
    ensures LeavesAt(r, i, p, c)
  {
    RunKeepsInv(names, r, i);
    RolesOf(r[i], p, c);
    PerformIsObedient(p, r[i].clients[p], EndCall);
    if op.RejectCall? {
      RefusalLeaves(r[i].clients[p], op.reason);
    }
  }

  lemma RefusalLeaves(m: Manager, reason: string)
    requires m.state == Receiving
    ensures Perform(m, RejectCall(reason)).after.state == Idle
  {
  }

  /** What the steps of giving up and of hanging up leave in flight tells them apart. */
  lemma EndingIsNoGivingUp(s: System, a: Name, c: CallId)
    requires HoldsAsCaller(s, a, c) && s.clients[a].state == Calling && s.clients[a].peer != ""
    ensures !GivesUp(s, Step(s, Act(a, EndCall)), a, c)
  {
    var m, n := s.clients[a], |s.net|;
    assert Step(s, Act(a, EndCall)).net[n].message == End(c, "hangup");
    assert Local(s, a, CancelCall, s.net).net[n].message == Message.Cancel(c, "cancelled");
    assert |Local(s, a, TimerFires, s.net).net| == n;
  }

  lemma HangUpIsNoGivingUp(names: set<Name>, r: seq<System>, i: nat, p: Name, op: Operation, c: CallId)
    requires Run(names, r) && i + 1 < |r| && Holds(r[i], p, c) && HangsUpAt(r, i, p, op)
    requires r[i].clients[p].peer in r[i].clients
    ensures !GaveUpAt(r, i, p, c)
  {
    if GivesUp(r[i], r[i + 1], p, c) {
      RunKeepsInv(names, r, i);
      assert r[i].clients[p].state == Calling;
      EndingIsNoGivingUp(r[i], p, c);
    }
  }

  /** Over lossless FIFO delivery: when the user of either side of a call between two clients hangs up
      or refuses, in whatever state the call is, nobody is on that call in any later quiet state. */
  lemma HangUpEndsForBoth(names: set<Name>, r: seq<System>, i: nat, k: nat, p: Name, op: Operation, c: CallId, q: Name)
    requires FifoRun(names, r) && i < k < |r| && Quiet(r[k])
    requires Holds(r[i], p, c) && HangsUpAt(r, i, p, op)
    requires r[i].clients[p].peer != p && r[i].clients[p].peer in r[i].clients
    ensures !Holds(r[k], q, c)
  {
    FifoRunIsRun(names, r);
    RunKeepsInv(names, r, i);
    HolderIsParty(r[i], p, c);
    HangUpLeaves(names, r, i, p, op, c);
    HangUpIsNoGivingUp(names, r, i, p, op, c);
    LeftForBoth(names, r, i, k, p, c, q);
  }
}
