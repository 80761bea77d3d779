/** The queue of ICE candidates that a peer connection could not take yet
    (src/webrtcengine_peer_connection.cc), which serves candidate trickling as in section 3.5.2 of
    RFC 8829. Candidates are heap objects owned by hand: `handle` stands for the address of one
    allocation, and `live` is the set of allocations not yet freed. Whether the connection accepts a
    candidate is the foreign library's decision and comes in as an answer. */
module Candidates {

  type Handle = nat

  datatype Epoch = Epoch(
    open: bool,               // peer_connection_ exists
    described: bool,          // its remote description is set
    pending: seq<Handle>,     // pending_ice_candidates_
    received: seq<Handle>,    // history: the well-formed candidates of this epoch
    applied: seq<Handle>,     // history: those the connection took, in that order
    next: nat,                // allocations so far, over all epochs
    live: set<Handle>,
    freed: seq<Handle>)       // history: every deallocation

  const START := Epoch(false, false, [], [], [], 0, {}, [])

  datatype Event =
    | Create
    | Candidate(wellFormed: bool, accepted: bool)
    | Described
    | Retry(answers: seq<bool>)
    | Close

  /** The candidates that were accepted and those that were not, each in queue order. */
  function Taken(q: seq<Handle>, answers: seq<bool>): (r: seq<Handle>)
    requires |answers| == |q|
    ensures forall h <- r :: h in q
  {
    if q == [] then [] else (if answers[0] then [q[0]] else []) + Taken(q[1..], answers[1..])
  }

  function Kept(q: seq<Handle>, answers: seq<bool>): (r: seq<Handle>)
    requires |answers| == |q|
    ensures forall h <- r :: h in q
  {
    if q == [] then [] else (if answers[0] then [] else [q[0]]) + Kept(q[1..], answers[1..])
  }

  function Elements(q: seq<Handle>): set<Handle> {
    set h | h in q
  }

  predicate Possible(e: Epoch, event: Event) {
    match event
    case Create => !e.open
    case Retry(answers) => |answers| == |e.pending|
    case Described => e.open
    case _ => true
  }

  function Added(e: Epoch, wellFormed: bool, accepted: bool): Epoch {
    if !e.open || !wellFormed then e
    else
      var h := e.next;
      var got := e.(received := e.received + [h], next := h + 1);
      if e.described && accepted then got.(applied := e.applied + [h], freed := e.freed + [h])
      else got.(pending := e.pending + [h], live := e.live + {h})
  }

  function Retried(e: Epoch, answers: seq<bool>): Epoch
    requires |answers| == |e.pending|
  {
    if !e.open || !e.described then e
    else
      var taken := Taken(e.pending, answers);
      e.(pending := Kept(e.pending, answers), applied := e.applied + taken,
         live := e.live - Elements(taken), freed := e.freed + taken)
  }

  function Closed(e: Epoch): Epoch {
    e.(open := false, described := false, pending := [],
       live := e.live - Elements(e.pending), freed := e.freed + e.pending)
  }

  function Apply(e: Epoch, event: Event): Epoch
    requires Possible(e, event)
  {
    match event
    case Create => e.(open := true, described := false, received := [], applied := [])
    case Candidate(wellFormed, accepted) => Added(e, wellFormed, accepted)
    case Described => e.(described := true)
    case Retry(answers) => Retried(e, answers)
    case Close => Closed(e)
  }

  predicate Increasing(q: seq<Handle>) {
    forall i, j | 0 <= i < j < |q| :: q[i] < q[j]
  }

  predicate Below(q: seq<Handle>, bound: nat) {
    forall h <- q :: h < bound
  }

  /** Everything received is applied or, while the connection lasts, pending; nothing is applied
      before the remote description. */
  predicate Balanced(e: Epoch) {
    && (e.open ==> multiset(e.applied) + multiset(e.pending) == multiset(e.received))
    && (!e.open ==> e.pending == [] && !e.described)
    && (!e.described && e.open ==> e.applied == [])
  }

  /** Handles are in order of arrival. */
  predicate Ordered(e: Epoch) {
    && Increasing(e.pending) && Increasing(e.received)
    && Below(e.pending, e.next) && Below(e.received, e.next)
  }

  /** Pending candidates are exactly the live allocations; every other one was freed once. */
  ghost predicate Owned(e: Epoch) {
    && e.live == Elements(e.pending)
    && forall h: nat :: multiset(e.freed)[h] + multiset(e.pending)[h] == (if h < e.next then 1 else 0)
  }

  ghost predicate Conserved(e: Epoch) {
    Balanced(e) && Ordered(e) && Owned(e)
  }

  ghost predicate Next(e: Epoch, e': Epoch) {
    exists event :: Possible(e, event) && e' == Apply(e, event)
  }

  ghost predicate StepAt(r: seq<Epoch>, i: nat)
    requires i + 1 < |r|
  {
    Next(r[i], r[i + 1])
  }

  ghost predicate Run(r: seq<Epoch>) {
    |r| > 0 && r[0] == START && forall i | 0 <= i < |r| - 1 :: StepAt(r, i)
  }

  /** A retry splits the queue: nothing is lost, nothing doubled. */
  lemma {:induction false} RetrySplits(q: seq<Handle>, answers: seq<bool>)
    requires |answers| == |q|
    ensures multiset(Taken(q, answers)) + multiset(Kept(q, answers)) == multiset(q)
  {
    if q != [] {
      RetrySplits(q[1..], answers[1..]);
      assert q == [q[0]] + q[1..];
    }
  }

  lemma Smaller(h: Handle, q: seq<Handle>)
    requires Increasing(q) && forall x <- q :: h < x
    ensures Increasing([h] + q)
  {
    forall i, j | 0 <= i < j < |[h] + q| ensures ([h] + q)[i] < ([h] + q)[j] {
      assert q[j - 1] in q;
    }
  }

  lemma Larger(q: seq<Handle>, h: Handle)
    requires Increasing(q) && Below(q, h)
    ensures Increasing(q + [h]) && Below(q + [h], h + 1)
    ensures multiset(q)[h] == 0 && Elements(q + [h]) == Elements(q) + {h}
  {
    forall i, j | 0 <= i < j < |q + [h]| ensures (q + [h])[i] < (q + [h])[j] {
      assert (q + [h])[i] in q;
    }
    assert h !in q;
  }

  lemma {:induction false} KeptInOrder(q: seq<Handle>, answers: seq<bool>)
    requires |answers| == |q| && Increasing(q)
    ensures Increasing(Kept(q, answers))
  {
    if q != [] {
      var rest := Kept(q[1..], answers[1..]);
      KeptInOrder(q[1..], answers[1..]);
      assert forall h <- rest :: h in q[1..];
      assert forall h <- q[1..] :: q[0] < h;
      Smaller(q[0], rest);
    }
  }

  lemma IncreasingOnce(q: seq<Handle>, h: Handle)
    requires Increasing(q)
    ensures multiset(q)[h] <= 1
  {
    if q != [] {
      IncreasingOnce(q[1..], h);
      assert q == [q[0]] + q[1..];
      if h == q[0] {
        assert h !in q[1..];
      }
    }
  }

  lemma SplitOnce(q: seq<Handle>, taken: seq<Handle>, kept: seq<Handle>, h: Handle)
    requires multiset(taken) + multiset(kept) == multiset(q) && multiset(q)[h] <= 1
    ensures h in kept <==> h in q && h !in taken
  {
    assert multiset(taken)[h] + multiset(kept)[h] == multiset(q)[h];
    assert h in q <==> h in multiset(q);
  }

  lemma RetriedStaysOwned(e: Epoch, answers: seq<bool>)
    requires Ordered(e) && Owned(e) && |answers| == |e.pending|
    ensures Owned(Retried(e, answers))
  {
    var e' := Retried(e, answers);
    RetrySplits(e.pending, answers);
    forall h ensures h in e'.live <==> h in Elements(e'.pending) {
      if e' != e {
        IncreasingOnce(e.pending, h);
        SplitOnce(e.pending, Taken(e.pending, answers), Kept(e.pending, answers), h);
      }
    }
  }

  lemma RetriedConserves(e: Epoch, answers: seq<bool>)
    requires Conserved(e) && |answers| == |e.pending|
    ensures Conserved(Retried(e, answers))
  {
    RetrySplits(e.pending, answers);
    KeptInOrder(e.pending, answers);
    RetriedStaysOwned(e, answers);
  }

  lemma AddedStaysOwned(e: Epoch, wellFormed: bool, accepted: bool)
    requires Ordered(e) && Owned(e)
    ensures Owned(Added(e, wellFormed, accepted))
  {
    Larger(e.pending, e.next);
  }

  lemma AddedStaysBalanced(e: Epoch, wellFormed: bool, accepted: bool)
    requires Balanced(e)
    ensures Balanced(Added(e, wellFormed, accepted))
  {
  }

  lemma AddedConserves(e: Epoch, wellFormed: bool, accepted: bool)
    requires Conserved(e)
    ensures Conserved(Added(e, wellFormed, accepted))
  {
    Larger(e.pending, e.next);
    Larger(e.received, e.next);
    AddedStaysOwned(e, wellFormed, accepted);
    AddedStaysBalanced(e, wellFormed, accepted);
  }

  lemma ApplyConserves(e: Epoch, event: Event)
    requires Conserved(e) && Possible(e, event)
    ensures Conserved(Apply(e, event))
  {
    match event
    case Create =>
    case Candidate(wellFormed, accepted) => AddedConserves(e, wellFormed, accepted);
    case Described =>
    case Retry(answers) => RetriedConserves(e, answers);
    case Close => assert Elements(e.pending) - Elements(e.pending) == Elements([]);
  }

  lemma {:induction false} RunConserves(r: seq<Epoch>, n: nat)
    requires Run(r) && n < |r|
    ensures Conserved(r[n])
  {
    if n > 0 {
      RunConserves(r, n - 1);
      assert StepAt(r, n - 1);
      var event :| Possible(r[n - 1], event) && r[n] == Apply(r[n - 1], event);
      ApplyConserves(r[n - 1], event);
    }
  }

  /** In every epoch of every run: each well-formed candidate received is either pending or was
      applied, never both and never twice; none is applied before the remote description; and
      pending candidates keep their order of arrival. */
  lemma CandidatesConserved(r: seq<Epoch>, n: nat, h: Handle)
    requires Run(r) && n < |r| && r[n].open
    ensures multiset(r[n].applied)[h] + multiset(r[n].pending)[h] == (if h in r[n].received then 1 else 0)
    ensures !r[n].described ==> r[n].applied == []
    ensures Increasing(r[n].pending) && Increasing(r[n].received)
  {
    RunConserves(r, n);
    var e := r[n];
    IncreasingOnce(e.received, h);
    assert multiset(e.received)[h] == (multiset(e.applied) + multiset(e.pending))[h];
  }

  /** Every allocation is live, and then pending, or was freed exactly once; and no candidate
      outlives its peer connection. */
  lemma AllocationsFreedOnce(r: seq<Epoch>, n: nat, h: Handle)
    requires Run(r) && n < |r| && h < r[n].next
    ensures multiset(r[n].freed)[h] == (if h in r[n].live then 0 else 1)
    ensures h in r[n].live <==> h in r[n].pending
    ensures !r[n].open ==> multiset(r[n].freed)[h] == 1
  {
    RunConserves(r, n);
    var e := r[n];
    IncreasingOnce(e.pending, h);
    assert h in e.pending <==> multiset(e.pending)[h] > 0;
  }

  // ----- What the answers of the connection decide -----

  /** A run together with the events that made it. */
  predicate Trace(r: seq<Epoch>, es: seq<Event>) {
    && |r| == |es| + 1 && r[0] == START
    && forall i | 0 <= i < |es| :: Possible(r[i], es[i]) && r[i + 1] == Apply(r[i], es[i])
  }

  /** The event offers candidate `h` to a connection with a remote description, which takes it. */
  predicate Accepts(e: Epoch, event: Event, h: Handle) {
    && e.open && e.described
    && match event
       case Candidate(wellFormed, accepted) => wellFormed && accepted && h == e.next
       case Retry(answers) => exists k | 0 <= k < |e.pending| && k < |answers| :: e.pending[k] == h && answers[k]
       case _ => false
  }

  ghost predicate AcceptedBefore(r: seq<Epoch>, es: seq<Event>, n: nat, h: Handle)
    requires n <= |es| < |r|
  {
    exists i | 0 <= i < n :: Accepts(r[i], es[i], h)
  }

  predicate WasOpened(es: seq<Event>) {
    if es == [] then false
    else match es[|es| - 1]
      case Create => true
      case Close => false
      case _ => WasOpened(es[..|es| - 1])
  }

  predicate WasDescribed(es: seq<Event>) {
    if es == [] then false
    else match es[|es| - 1]
      case Described => true
      case Create => false
      case Close => false
      case _ => WasDescribed(es[..|es| - 1])
  }

  /** Well-formed candidates since the connection was made. */
  function Arrivals(es: seq<Event>): nat {
    if es == [] then 0
    else match es[|es| - 1]
      case Create => 0
      case Candidate(true, _) => Arrivals(es[..|es| - 1]) + 1
      case _ => Arrivals(es[..|es| - 1])
  }

  lemma TraceIsRun(r: seq<Epoch>, es: seq<Event>)
    requires Trace(r, es)
    ensures Run(r)
  {
    forall i | 0 <= i < |r| - 1 ensures StepAt(r, i) {
      assert Possible(r[i], es[i]) && r[i + 1] == Apply(r[i], es[i]);
    }
  }

  /** Whether there is a connection, whether it has a remote description, and how many candidates it
      received are what the events so far say. */
  lemma {:induction false} EpochFollowsEvents(r: seq<Epoch>, es: seq<Event>, n: nat)
    requires Trace(r, es) && n <= |es|
    ensures r[n].open == WasOpened(es[..n]) && r[n].described == WasDescribed(es[..n])
    ensures r[n].open ==> |r[n].received| == Arrivals(es[..n])
  {
    if n > 0 {
      EpochFollowsEvents(r, es, n - 1);
      TraceIsRun(r, es);
      RunConserves(r, n - 1);
      assert es[..n][..n - 1] == es[..n - 1];
      assert r[n] == Apply(r[n - 1], es[n - 1]);
    }
  }

  lemma {:induction false} TakenIff(q: seq<Handle>, answers: seq<bool>, h: Handle)
    requires |answers| == |q|
    ensures h in Taken(q, answers) <==> exists k | 0 <= k < |q| :: q[k] == h && answers[k]
  {
    if q != [] {
      TakenIff(q[1..], answers[1..], h);
      if exists k | 0 <= k < |q| :: q[k] == h && answers[k] {
        var k :| 0 <= k < |q| && q[k] == h && answers[k];
        assert k > 0 ==> q[1..][k - 1] == h && answers[1..][k - 1];
      }
      if exists k | 0 <= k < |q[1..]| :: q[1..][k] == h && answers[1..][k] {
        var k :| 0 <= k < |q[1..]| && q[1..][k] == h && answers[1..][k];
        assert q[k + 1] == h && answers[k + 1];
      }
    }
  }

  /** What one event does to a candidate that had been received before. */
  lemma EventDecides(e: Epoch, event: Event, h: Handle)
    requires Conserved(e) && Possible(e, event) && e.open && Apply(e, event).open && h in e.received
    ensures h in Apply(e, event).received
    ensures h in Apply(e, event).applied <==> h in e.applied || Accepts(e, event, h)
  {
    if event.Retry? {
      TakenIff(e.pending, event.answers, h);
    }
  }

  /** What one event does to the candidate that arrives with it. */
  lemma ArrivalDecides(e: Epoch, event: Event, h: Handle)
    requires Conserved(e) && Possible(e, event) && h !in e.received && h in Apply(e, event).received
    ensures h == e.next && e.open && (h in Apply(e, event).applied <==> Accepts(e, event, h))
  {
    if e.open {
      assert h !in e.applied by {
        assert h in e.applied ==> h in multiset(e.applied) + multiset(e.pending);
        assert h in multiset(e.received) <==> h in e.received;
      }
    }
  }

  lemma AcceptedWasAllocated(e: Epoch, event: Event, h: Handle)
    requires Conserved(e) && Possible(e, event) && Accepts(e, event, h)
    ensures h < Apply(e, event).next
  {
    if event.Retry? {
      var k :| 0 <= k < |e.pending| && k < |event.answers| && e.pending[k] == h;
      assert e.pending[k] in e.pending;
    }
  }

  lemma {:induction false} AcceptedIsOld(r: seq<Epoch>, es: seq<Event>, n: nat, i: nat, h: Handle)
    requires Trace(r, es) && i < n <= |es| && Accepts(r[i], es[i], h)
    ensures h < r[n].next
  {
    assert r[n] == Apply(r[n - 1], es[n - 1]);
    if i + 1 < n {
      AcceptedIsOld(r, es, n - 1, i, h);
    } else {
      TraceIsRun(r, es);
      RunConserves(r, i);
      AcceptedWasAllocated(r[i], es[i], h);
    }
  }

  /** Whether a candidate was received on the present connection before the event or with it. */
  lemma ReceivedWhen(e: Epoch, event: Event, h: Handle)
    requires Possible(e, event) && Apply(e, event).open && h in Apply(e, event).received
    ensures e.open && (h in e.received || h == e.next)
  {
  }

  lemma NewcomerWasNotAccepted(r: seq<Epoch>, es: seq<Event>, n: nat, h: Handle)
    requires Trace(r, es) && n <= |es| && h == r[n].next
    ensures !AcceptedBefore(r, es, n, h)
  {
    forall i | 0 <= i < n ensures !Accepts(r[i], es[i], h) {
      if Accepts(r[i], es[i], h) {
        AcceptedIsOld(r, es, n, i, h);
      }
    }
  }

  lemma AcceptedSplits(r: seq<Epoch>, es: seq<Event>, n: nat, h: Handle)
    requires 0 < n <= |es| < |r|
    ensures AcceptedBefore(r, es, n, h) <==> AcceptedBefore(r, es, n - 1, h) || Accepts(r[n - 1], es[n - 1], h)
  {
  }

  /** Over any run: a candidate received on the present connection has been applied exactly when some
      step offered it after the remote description was set and the connection took it. */
  lemma {:induction false} AppliedIffAccepted(r: seq<Epoch>, es: seq<Event>, n: nat, h: Handle)
    requires Trace(r, es) && n <= |es| && r[n].open && h in r[n].received
    ensures h in r[n].applied <==> AcceptedBefore(r, es, n, h)
  {
    assert n > 0;
    assert r[n] == Apply(r[n - 1], es[n - 1]) && Possible(r[n - 1], es[n - 1]);
    TraceIsRun(r, es);
    RunConserves(r, n - 1);
    ReceivedWhen(r[n - 1], es[n - 1], h);
    AcceptedSplits(r, es, n, h);
    if h in r[n - 1].received {
      AppliedIffAccepted(r, es, n - 1, h);
      EventDecides(r[n - 1], es[n - 1], h);
    } else {
      ArrivalDecides(r[n - 1], es[n - 1], h);
      NewcomerWasNotAccepted(r, es, n - 1, h);
    }
  }

  /** A candidate that was refused, or never offered, stays pending until a step on which the
      connection takes it, or until it is closed. */
  lemma PendingIffNotAccepted(r: seq<Epoch>, es: seq<Event>, n: nat, h: Handle)
    requires Trace(r, es) && n <= |es| && r[n].open && h in r[n].received
    ensures h in r[n].pending <==> !AcceptedBefore(r, es, n, h)
  {
    TraceIsRun(r, es);
    CandidatesConserved(r, n, h);
    AppliedIffAccepted(r, es, n, h);
    assert h in r[n].applied <==> multiset(r[n].applied)[h] > 0;
    assert h in r[n].pending <==> multiset(r[n].pending)[h] > 0;
  }

  lemma PrefixesUnrolled<T>(q: seq<T>, i: nat)
    requires 0 < i < |q|
    ensures q[..i + 1][1..] == q[1..][..i] && q[..i][1..] == q[1..][..i - 1]
  {
  }

  lemma TakenOneMore(q: seq<Handle>, answers: seq<bool>, i: nat)
    requires |answers| == |q| && i < |q|
    ensures Taken(q[..i + 1], answers[..i + 1]) == Taken(q[..i], answers[..i]) + (if answers[i] then [q[i]] else [])
  {
    if i == 0 {
      assert q[..1] == [q[0]] && answers[..1] == [answers[0]];
    } else {
      TakenOneMore(q[1..], answers[1..], i - 1);
      PrefixesUnrolled(q, i);
      PrefixesUnrolled(answers, i);
    }
  }

  lemma KeptOneMore(q: seq<Handle>, answers: seq<bool>, i: nat)
    requires |answers| == |q| && i < |q|
    ensures Kept(q[..i + 1], answers[..i + 1]) == Kept(q[..i], answers[..i]) + (if answers[i] then [] else [q[i]])
  {
    if i == 0 {
      assert q[..1] == [q[0]] && answers[..1] == [answers[0]];
    } else {
      KeptOneMore(q[1..], answers[1..], i - 1);
      PrefixesUnrolled(q, i);
      PrefixesUnrolled(answers, i);
    }
  }

  /** The engine's queue with its candidates allocated and freed by hand. */
  class CandidateQueue {
    var open: bool
    var described: bool
    var pending: seq<Handle>
    var next: nat
    ghost var received: seq<Handle>
    ghost var applied: seq<Handle>
    ghost var live: set<Handle>
    ghost var freed: seq<Handle>

    ghost function View(): Epoch
      reads this
    {
      Epoch(open, described, pending, received, applied, next, live, freed)
    }

    constructor ()
      ensures View() == START
    {
      open, described, pending, next := false, false, [], 0;
      received, applied, live, freed := [], [], {}, [];
    }

    method New() returns (h: Handle)
      modifies this`next, this`live
      ensures h == old(next) && next == h + 1 && live == old(live) + {h}
    {
      h := next;
      next := next + 1;
      live := live + {h};
    }

    /** Frees an allocation, which must not have been freed before. */
    method Delete(h: Handle)
      requires h in live
      modifies this`live, this`freed
      ensures live == old(live) - {h} && freed == old(freed) + [h]
    {
      live := live - {h};
      freed := freed + [h];
    }

    method AddIceCandidate(wellFormed: bool, accepted: bool)
      requires next !in live
      modifies this
      ensures View() == Added(old(View()), wellFormed, accepted)
    {
      if !open || !wellFormed {
        return;
      }
      var h := New();
      received := received + [h];
      if !described {
        pending := pending + [h];
        return;
      }
      if !accepted {
        pending := pending + [h];
        return;
      }
      applied := applied + [h];
      Delete(h);
      assert live == old(live);
    }

    method ProcessPendingIceCandidates(answers: seq<bool>)
      requires Increasing(pending) && live == Elements(pending) && |answers| == |pending|
      modifies this
      ensures View() == Retried(old(View()), answers)
    {
      if !open || !described {
        return;
      }
      var remaining: seq<Handle> := [];
      var i := 0;
      while i < |pending|
        invariant 0 <= i <= |pending|
        invariant View() == old(View()).(applied := applied, live := live, freed := freed)
        invariant remaining == Kept(pending[..i], answers[..i])
        invariant applied == old(applied) + Taken(pending[..i], answers[..i])
        invariant live == old(live) - Elements(Taken(pending[..i], answers[..i]))
        invariant freed == old(freed) + Taken(pending[..i], answers[..i])
        invariant forall k | i <= k < |pending| :: pending[k] in live
      {
        TakenOneMore(pending, answers, i);
        KeptOneMore(pending, answers, i);
        if !answers[i] {
          remaining := remaining + [pending[i]];
        } else {
          applied := applied + [pending[i]];
          Delete(pending[i]);
        }
        i := i + 1;
      }
      assert pending[..i] == pending && answers[..i] == answers;
      pending := remaining;
    }

    method ClosePeerConnection()
      requires Increasing(pending) && live == Elements(pending)
      modifies this
      ensures View() == Closed(old(View()))
    {
      open, described := false, false;
      var i := 0;
      while i < |pending|
        invariant 0 <= i <= |pending|
        invariant View() == old(View()).(open := false, described := false, live := live, freed := freed)
        invariant live == old(live) - Elements(pending[..i])
        invariant freed == old(freed) + pending[..i]
        invariant forall k | i <= k < |pending| :: pending[k] in live
      {
        Delete(pending[i]);
        i := i + 1;
      }
      assert pending[..i] == pending;
      pending := [];
    }
  }
}
