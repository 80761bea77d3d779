/** What a call manager owes its observer and its peer: what it reports adds up to what it is, and what
    one manager says makes the other one do its part. */
module CallDuties {
  import opened Wrappers
  import opened CallTypes
  import opened CallManagers

  // ----- The observer -----

  /** Everything done by a manager that performs these operations from the start. */
  function History(ops: seq<Operation>): seq<Action> {
    if ops == [] then []
    else History(ops[..|ops| - 1]) + Perform(PerformAll(INITIAL, ops[..|ops| - 1]), ops[|ops| - 1]).Actions()
  }

  /** What an observer makes of one action: the state it believes in, and the peer connection it keeps. */
  datatype Belief = Belief(state: CallState, connection: Option<(Name, bool)>)

  function Learn(belief: Belief, a: Action): Belief {
    match a
    case StateChanged(state, _) => belief.(state := state)
    case NeedCreate(peer, isCaller) => belief.(connection := Some((peer, isCaller)))
    case NeedClose => belief.(connection := None)
    case _ => belief
  }

  function LearnAll(belief: Belief, actions: seq<Action>): Belief
    decreases |actions|
  {
    if actions == [] then belief else LearnAll(Learn(belief, actions[0]), actions[1..])
  }

  /** What is true of a manager. */
  function Truth(m: Manager): Belief {
    Belief(m.state, if InMedia(m) then Some((m.peer, m.isCaller)) else None)
  }

  lemma {:induction false} LearnJoin(belief: Belief, a: seq<Action>, b: seq<Action>)
    ensures LearnAll(belief, a + b) == LearnAll(LearnAll(belief, a), b)
    decreases |a|
  {
    if a == [] {
      assert a + b == b;
    } else {
      LearnJoin(Learn(belief, a[0]), a[1..], b);
      assert (a + b)[1..] == a[1..] + b;
    }
  }

  lemma LearnOne(belief: Belief, a: Action)
    ensures LearnAll(belief, [a]) == Learn(belief, a)
  {
    assert [a][1..] == [];
  }

  lemma LearnTwo(belief: Belief, a: Action, b: Action)
    ensures LearnAll(belief, [a, b]) == Learn(Learn(belief, a), b)
  {
    assert [a, b][1..] == [b];
    LearnOne(Learn(belief, a), b);
  }

  lemma LearnThree(belief: Belief, a: Action, b: Action, c: Action)
    ensures LearnAll(belief, [a, b, c]) == Learn(Learn(Learn(belief, a), b), c)
  {
    assert [a, b, c][1..] == [b, c];
    LearnTwo(Learn(belief, a), b, c);
  }

  /** Sending teaches an observer nothing, so an outcome teaches what its other actions do. */
  lemma LearnOutcome(belief: Belief, o: Outcome)
    ensures LearnAll(belief, o.Actions()) == LearnAll(LearnAll(belief, o.before), o.rest)
  {
    var sent := if o.letter.Some? then [Send(o.letter.value)] else [];
    LearnJoin(belief, o.before + sent, o.rest);
    LearnJoin(belief, o.before, sent);
    if o.letter.Some? {
      LearnOne(LearnAll(belief, o.before), Send(o.letter.value));
    }
  }

  lemma LearnShort(belief: Belief, a: seq<Action>)
    requires |a| <= 3
    ensures |a| == 1 ==> LearnAll(belief, a) == Learn(belief, a[0])
    ensures |a| == 2 ==> LearnAll(belief, a) == Learn(Learn(belief, a[0]), a[1])
    ensures |a| == 3 ==> LearnAll(belief, a) == Learn(Learn(Learn(belief, a[0]), a[1]), a[2])
  {
    if |a| == 1 {
      assert a == [a[0]];
      LearnOne(belief, a[0]);
    } else if |a| == 2 {
      assert a == [a[0], a[1]];
      LearnTwo(belief, a[0], a[1]);
    } else if |a| == 3 {
      assert a == [a[0], a[1], a[2]];
      LearnThree(belief, a[0], a[1], a[2]);
    }
  }

  /** What one learns from at most one action and then at most three. */
  function Taught(belief: Belief, before: seq<Action>, rest: seq<Action>): Belief
    requires |before| <= 1 && |rest| <= 3
  {
    var b0 := if |before| > 0 then Learn(belief, before[0]) else belief;
    var b1 := if |rest| > 0 then Learn(b0, rest[0]) else b0;
    var b2 := if |rest| > 1 then Learn(b1, rest[1]) else b1;
    if |rest| > 2 then Learn(b2, rest[2]) else b2
  }

  lemma OutcomeTeaches(belief: Belief, o: Outcome)
    requires |o.before| <= 1 && |o.rest| <= 3
    ensures LearnAll(belief, o.Actions()) == Taught(belief, o.before, o.rest)
  {
    LearnOutcome(belief, o);
    LearnShort(belief, o.before);
    LearnShort(LearnAll(belief, o.before), o.rest);
  }

  lemma HandlingTeachesTruth(m: Manager, from: Name, message: Message)
    requires Sound(m)
    ensures var o := Perform(m, Handle(from, message));
            |o.before| <= 1 && |o.rest| <= 3 && Taught(Truth(m), o.before, o.rest) == Truth(o.after)
  {
    match message
    case Request(_) =>
    case Response(_, _, _) =>
    case Cancel(_, _) =>
    case End(_, _) =>
  }

  lemma ActingTeachesTruth(m: Manager, op: Operation)
    requires Sound(m) && !op.Handle?
    ensures var o := Perform(m, op);
            |o.before| <= 1 && |o.rest| <= 3 && Taught(Truth(m), o.before, o.rest) == Truth(o.after)
  {
    match op
    case InitiateCall(_, _, _) =>
    case CancelCall =>
    case AcceptCall =>
    case RejectCall(_) =>
    case EndCall =>
    case PeerConnectionEstablished =>
    case TimerFires =>
  }

  /** What an observer that knew the truth before learns from one operation is the truth after it. */
  lemma StepTeachesTruth(m: Manager, op: Operation)
    requires Sound(m)
    ensures LearnAll(Truth(m), Perform(m, op).Actions()) == Truth(Perform(m, op).after)
  {
    if op.Handle? {
      HandlingTeachesTruth(m, op.from, op.message);
    } else {
      ActingTeachesTruth(m, op);
    }
    OutcomeTeaches(Truth(m), Perform(m, op));
  }

  predicate Sensible(ops: seq<Operation>) {
    forall op <- ops :: op.InitiateCall? ==> op.newId != ""
  }

  lemma {:induction false} StaysSound(ops: seq<Operation>)
    requires Sensible(ops)
    ensures Sound(PerformAll(INITIAL, ops))
  {
    if ops != [] {
      StaysSound(ops[..|ops| - 1]);
      PerformKeepsSound(PerformAll(INITIAL, ops[..|ops| - 1]), ops[|ops| - 1]);
    }
  }

  /** After any operations an observer that only listens knows the truth: the state reported last is
      the manager's, and a peer connection with its peer and role is asked for, and not closed, exactly
      in the media phase. */
  lemma {:induction false} ReportsAddUp(ops: seq<Operation>)
    requires Sensible(ops)
    ensures LearnAll(Belief(Idle, None), History(ops)) == Truth(PerformAll(INITIAL, ops))
  {
    if ops != [] {
      var before, op := ops[..|ops| - 1], ops[|ops| - 1];
      ReportsAddUp(before);
      StaysSound(before);
      var m := PerformAll(INITIAL, before);
      LearnJoin(Belief(Idle, None), History(before), Perform(m, op).Actions());
      StepTeachesTruth(m, op);
    }
  }

  /** What the user is told about the course of a call. */
  predicate IsNews(a: Action) {
    a.IncomingCall? || a.CallAccepted? || a.CallRejected? || a.CallCancelled? || a.CallEnded? || a.CallTimeout?
  }

  /** The news that is due when a manager goes from one state to another by this operation. */
  predicate Due(m: Manager, op: Operation, after: Manager, news: Action) {
    match news
    case IncomingCall(peer) => m.state == Idle && after.state == Receiving && peer == after.peer
    case CallAccepted(peer) =>
      && peer == after.peer && after.isCaller == m.isCaller
      && ((m.state == Calling && after.state == Connecting) || (m.state == Connecting && after.state == Connected))
    case CallRejected(peer, reason) =>
      && m.state == Calling && after.state == Idle && peer == m.peer
      && op == Handle(peer, Response(m.id, false, reason))
    case CallCancelled(peer, reason) =>
      m.state == Receiving && after.state == Idle && peer == m.peer && op == Handle(peer, Message.Cancel(m.id, reason))
    case CallEnded(peer, reason) =>
      && m.state != Idle && after.state == Idle && peer == m.peer
      && (op == EndCall || op == Handle(peer, End(m.id, reason)))
    case CallTimeout => m.state == Calling && after.state == Idle && op == TimerFires
    case _ => false
  }

  lemma NewsIn(o: Outcome, news: Action)
    requires IsNews(news)
    ensures news in o.Actions() <==> news in o.before || news in o.rest
  {
  }

  /** The user hears of an event exactly when it happens. */
  lemma NewsIffDue(m: Manager, op: Operation, news: Action)
    requires Sound(m) && IsNews(news)
    requires news.CallEnded? && op == EndCall ==> news.reason == "hangup"
    ensures news in Perform(m, op).Actions() <==> Due(m, op, Perform(m, op).after, news)
  {
    NewsIn(Perform(m, op), news);
    if op.Handle? {
      HandledNews(m, op.from, op.message, news);
    } else {
      LocalNews(m, op, news);
    }
  }

  lemma HandledNews(m: Manager, from: Name, message: Message, news: Action)
    requires Sound(m) && IsNews(news)
    ensures var o := Perform(m, Handle(from, message));
            news in o.before || news in o.rest <==> Due(m, Handle(from, message), o.after, news)
  {
    match message
    case Request(_) =>
    case Response(_, _, _) =>
    case Cancel(_, _) =>
    case End(_, _) =>
  }

  lemma LocalNews(m: Manager, op: Operation, news: Action)
    requires Sound(m) && IsNews(news) && !op.Handle?
    requires news.CallEnded? && op == EndCall ==> news.reason == "hangup"
    ensures var o := Perform(m, op); news in o.before || news in o.rest <==> Due(m, op, o.after, news)
  {
    match op
    case InitiateCall(_, _, _) =>
    case CancelCall =>
    case AcceptCall =>
    case RejectCall(_) =>
    case EndCall =>
    case PeerConnectionEstablished =>
    case TimerFires =>
  }

  // ----- The peer -----

  /** Caller `p` with manager `a` and callee `q` with manager `b`, on call `c` with each other. */
  predicate Paired(p: Name, a: Manager, q: Name, b: Manager, c: CallId) {
    && Sound(a) && Sound(b) && p != "" && q != ""
    && a.state != Idle && a.id == c && a.peer == q && a.isCaller
    && b.state != Idle && b.id == c && b.peer == p && !b.isCaller
  }

  /** Dialling an idle client makes it ring with the same call, and tells its user. */
  lemma DiallingRings(p: Name, a: Manager, q: Name, b: Manager, c: CallId)
    requires Sound(a) && a.state == Idle && Sound(b) && b.state == Idle && p != "" && q != "" && c != ""
    ensures var dial := Perform(a, InitiateCall(true, q, c));
            && dial.letter.Some? && dial.letter.value.to == q
            && var ring := Perform(b, Handle(p, dial.letter.value.message));
               && Paired(p, dial.after, q, ring.after, c)
               && dial.after.state == Calling && ring.after.state == Receiving
  {
  }

  /** Dialling a client that is not idle brings back a refusal that clears the call and leaves the other
      client alone. */
  lemma DiallingBusyFails(p: Name, a: Manager, q: Name, b: Manager, c: CallId)
    requires Sound(a) && a.state == Idle && Sound(b) && b.state != Idle && p != "" && q != "" && c != ""
    ensures var dial := Perform(a, InitiateCall(true, q, c));
            && dial.letter.Some? && dial.letter.value.to == q
            && var busy := Perform(b, Handle(p, dial.letter.value.message));
               && busy.after == b && busy.letter.Some? && busy.letter.value.to == p
               && Perform(dial.after, Handle(q, busy.letter.value.message)).after.state == Idle
  {
  }

  /** Accepting brings both into the media phase, and then, with a connection each, to Connected. */
  lemma AcceptingConnects(p: Name, a: Manager, q: Name, b: Manager, c: CallId)
    requires Paired(p, a, q, b, c) && a.state == Calling && b.state == Receiving
    ensures var yes := Perform(b, AcceptCall);
            && yes.letter.Some? && yes.letter.value.to == p
            && var heard := Perform(a, Handle(q, yes.letter.value.message));
               && Paired(p, heard.after, q, yes.after, c) && InMedia(heard.after) && InMedia(yes.after)
               && Perform(heard.after, PeerConnectionEstablished).after.state == Connected
               && Perform(yes.after, PeerConnectionEstablished).after.state == Connected
               && Paired(p, Perform(heard.after, PeerConnectionEstablished).after, q,
                         Perform(yes.after, PeerConnectionEstablished).after, c)
  {
  }

  /** Refusing clears the call on both sides, and the caller hears the reason, which is never empty. */
  lemma RefusingClears(p: Name, a: Manager, q: Name, b: Manager, c: CallId, reason: string)
    requires Paired(p, a, q, b, c) && a.state == Calling && b.state == Receiving
    ensures var no := Perform(b, RejectCall(reason));
            && no.after.state == Idle && no.letter.Some? && no.letter.value.to == p
            && var heard := Perform(a, Handle(q, no.letter.value.message));
               && heard.after.state == Idle
               && (reason != "" ==> CallRejected(q, reason) in heard.Actions())
               && CallRejected(q, "") !in heard.Actions()
  {
  }

  /** Cancelling clears a ringing call on both sides. */
  lemma CancellingClears(p: Name, a: Manager, q: Name, b: Manager, c: CallId)
    requires Paired(p, a, q, b, c) && a.state == Calling && b.state == Receiving
    ensures var stop := Perform(a, CancelCall);
            && stop.after.state == Idle && stop.letter.Some? && stop.letter.value.to == q
            && Perform(b, Handle(p, stop.letter.value.message)).after.state == Idle
  {
  }

  /** `m`, known to its peer as `name`, hangs up: it is told, closes its connection, and so does its
      peer when it hears. */
  predicate HangsUpBoth(m: Manager, name: Name, peer: Manager) {
    var end := Perform(m, EndCall);
    && end.after.state == Idle && NeedClose in end.Actions()
    && end.letter.Some? && end.letter.value.to == m.peer && end.letter.value.message.End?
    && end.letter.value.message.id == m.id
    && var heard := Perform(peer, Handle(name, end.letter.value.message));
       heard.after.state == Idle && NeedClose in heard.Actions()
  }

  /** Hanging up, by either side and in whatever states the two are, clears the call on both sides and
      asks both to close their connection. */
  lemma HangingUpClears(p: Name, a: Manager, q: Name, b: Manager, c: CallId)
    requires Paired(p, a, q, b, c)
    ensures HangsUpBoth(a, p, b) && HangsUpBoth(b, q, a)
  {
    CallerHangsUp(p, a, q, b, c);
    CalleeHangsUp(p, a, q, b, c);
  }

  lemma CallerHangsUp(p: Name, a: Manager, q: Name, b: Manager, c: CallId)
    requires Paired(p, a, q, b, c)
    ensures HangsUpBoth(a, p, b)
  {
  }

  lemma CalleeHangsUp(p: Name, a: Manager, q: Name, b: Manager, c: CallId)
    requires Paired(p, a, q, b, c)
    ensures HangsUpBoth(b, q, a)
  {
  }
}
