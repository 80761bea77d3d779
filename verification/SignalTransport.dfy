/** The path of a signaling message within one session: the client's write queue
    (src/signalclient.cc), the socket, the server's read loop, relay and bounded send channel
    (webrtc-signaling-server/main.go). Messages are numbered per sender in the order they are
    queued, so that order and duplication can be read off the numbers. */
module SignalTransport {

  type Name = string

  const CHANNEL_CAPACITY := 256

  /** A relayed message: its sender, as stamped by the server, and its number. */
  datatype Tag = Tag(from: Name, number: nat)

  /** The client's end of its connection. */
  datatype Writer = Writer(
    targets: seq<Name>,  // history: the target of every message queued so far
    queue: seq<nat>,     // write_queue
    writing: bool,       // an async_write is outstanding
    failed: bool)        // some write has failed

  /** A connection: the client's writer, what is written but not yet read, and how many were read. */
  datatype Line = Line(writer: Writer, wire: seq<nat>, read: nat)

  datatype Net = Net(lines: map<Name, Line>, channels: map<Name, seq<Tag>>, delivered: map<Name, seq<Tag>>)

  datatype Event =
    | Queue(who: Name, target: Name)
    | Written(who: Name)
    | WriteFails(who: Name)
    | Relay(who: Name, reachable: bool)
    | Receive(who: Name)

  const IDLE := Writer([], [], false, false)

  function Start(names: set<Name>): Net {
    Net(map n | n in names :: Line(IDLE, [], 0), map n | n in names :: [], map n | n in names :: [])
  }

  predicate Possible(s: Net, e: Event) {
    && e.who in s.lines && e.who in s.channels && e.who in s.delivered
    && match e
       case Queue(_, _) => true
       case Written(p) => s.lines[p].writer.writing && s.lines[p].writer.queue != []
       case WriteFails(p) => s.lines[p].writer.writing
       case Relay(p, _) => s.lines[p].wire != [] && s.lines[p].wire[0] < |s.lines[p].writer.targets|
       case Receive(p) => s.channels[p] != []
  }

  /** Queueing starts a write only when the queue was empty. */
  function Queued(w: Writer, target: Name): Writer {
    var q := w.queue + [|w.targets|];
    w.(targets := w.targets + [target], queue := q, writing := w.writing || |q| == 1)
  }

  function WriteDone(w: Writer): Writer
    requires w.queue != []
  {
    w.(queue := w.queue[1..], writing := |w.queue| > 1)
  }

  function WriteFailed(w: Writer): Writer {
    w.(writing := false, failed := true)
  }

  /** Relay looks the target up and never blocks: a full or closed channel drops the message. */
  function Relayed(s: Net, p: Name, reachable: bool): Net
    requires p in s.lines && s.lines[p].wire != [] && s.lines[p].wire[0] < |s.lines[p].writer.targets|
  {
    var l := s.lines[p];
    var n := l.wire[0];
    var target := l.writer.targets[n];
    var rest := s.(lines := s.lines[p := l.(wire := l.wire[1..], read := l.read + 1)]);
    if reachable && target in s.channels && |s.channels[target]| < CHANNEL_CAPACITY
    then rest.(channels := s.channels[target := s.channels[target] + [Tag(p, n)]])
    else rest
  }

  function Apply(s: Net, e: Event): Net
    requires Possible(s, e)
  {
    match e
    case Queue(p, target) => s.(lines := s.lines[p := s.lines[p].(writer := Queued(s.lines[p].writer, target))])
    case Written(p) =>
      var l := s.lines[p];
      s.(lines := s.lines[p := l.(writer := WriteDone(l.writer), wire := l.wire + [l.writer.queue[0]])])
    case WriteFails(p) => s.(lines := s.lines[p := s.lines[p].(writer := WriteFailed(s.lines[p].writer))])
    case Relay(p, reachable) => Relayed(s, p, reachable)
    case Receive(p) =>
      s.(channels := s.channels[p := s.channels[p][1..]],
         delivered := s.delivered[p := s.delivered[p] + [s.channels[p][0]]])
  }

  ghost predicate Next(s: Net, t: Net) {
    exists e :: Possible(s, e) && t == Apply(s, e)
  }

  ghost predicate StepAt(r: seq<Net>, i: nat)
    requires i + 1 < |r|
  {
    Next(r[i], r[i + 1])
  }

  ghost predicate Run(names: set<Name>, r: seq<Net>) {
    |r| > 0 && r[0] == Start(names) && forall i | 0 <= i < |r| - 1 :: StepAt(r, i)
  }

  predicate Consecutive(q: seq<nat>, from: nat) {
    forall i | 0 <= i < |q| :: q[i] == from + i
  }

  /** The numbers read, on the wire and in the write queue follow each other without a gap. */
  predicate LineSound(l: Line) {
    var w := l.writer;
    && l.read + |l.wire| + |w.queue| == |w.targets|
    && Consecutive(l.wire, l.read) && Consecutive(w.queue, l.read + |l.wire|)
    && (!w.failed ==> (w.writing <==> w.queue != []))
  }

  /** Everything on its way to `q`, in the order it will arrive, followed from its first delivery. */
  function Stream(s: Net, q: Name): seq<Tag>
    requires q in s.channels && q in s.delivered
  {
    s.delivered[q] + s.channels[q]
  }

  predicate InOrder(ts: seq<Tag>) {
    forall i, j | 0 <= i < j < |ts| :: ts[i].from == ts[j].from ==> ts[i].number < ts[j].number
  }

  predicate TagSound(s: Net, q: Name, t: Tag) {
    && t.from in s.lines && t.number < s.lines[t.from].read
    && t.number < |s.lines[t.from].writer.targets| && s.lines[t.from].writer.targets[t.number] == q
  }

  predicate StreamSound(s: Net, q: Name)
    requires q in s.channels && q in s.delivered
  {
    InOrder(Stream(s, q)) && (forall t <- Stream(s, q) :: TagSound(s, q, t)) && |s.channels[q]| <= CHANNEL_CAPACITY
  }

  predicate Inv(s: Net) {
    && s.channels.Keys == s.delivered.Keys == s.lines.Keys
    && (forall p <- s.lines :: LineSound(s.lines[p]))
    && (forall q <- s.channels :: StreamSound(s, q))
  }

  lemma LineStaysSound(s: Net, e: Event)
    requires Inv(s) && Possible(s, e) && !e.Receive?
    ensures LineSound(Apply(s, e).lines[e.who])
  {
    assert LineSound(s.lines[e.who]);
  }

  /** Steps of one line that put nothing on a channel. */
  lemma QuietKeepsInv(s: Net, e: Event)
    requires Inv(s) && Possible(s, e) && (e.Queue? || e.Written? || e.WriteFails?)
    ensures Inv(Apply(s, e))
  {
    var t := Apply(s, e);
    LineStaysSound(s, e);
    forall p <- t.lines ensures LineSound(t.lines[p]) {
      if p != e.who {
        assert LineSound(s.lines[p]);
      }
    }
    forall q <- t.channels ensures StreamSound(t, q) {
      QuietKeepsStream(s, e, q);
    }
  }

  lemma QuietKeepsStream(s: Net, e: Event, q: Name)
    requires Possible(s, e) && (e.Queue? || e.Written? || e.WriteFails?)
    requires q in s.channels && q in s.delivered && StreamSound(s, q)
    ensures StreamSound(Apply(s, e), q)
  {
    var t := Apply(s, e);
    forall tag <- Stream(t, q) ensures TagSound(t, q, tag) {
      assert TagSound(s, q, tag);
    }
  }

  lemma ReceiveKeepsInv(s: Net, p: Name)
    requires Inv(s) && Possible(s, Receive(p))
    ensures Inv(Apply(s, Receive(p)))
  {
    var t := Apply(s, Receive(p));
    forall q <- t.channels ensures StreamSound(t, q) {
      assert StreamSound(s, q);
      assert Stream(t, q) == Stream(s, q);
      forall tag <- Stream(t, q) ensures TagSound(t, q, tag) {
        assert TagSound(s, q, tag);
      }
    }
  }

  lemma AppendInOrder(ts: seq<Tag>, t: Tag)
    requires InOrder(ts) && forall x <- ts :: x.from == t.from ==> x.number < t.number
    ensures InOrder(ts + [t])
  {
  }

  lemma RelayKeepsStream(s: Net, p: Name, reachable: bool, q: Name)
    requires Inv(s) && Possible(s, Relay(p, reachable)) && q in s.channels
    ensures StreamSound(Apply(s, Relay(p, reachable)), q)
  {
    var t, l := Apply(s, Relay(p, reachable)), s.lines[p];
    assert StreamSound(s, q) && LineSound(l);
    var next := Tag(p, l.wire[0]);
    forall tag <- Stream(s, q) ensures TagSound(t, q, tag) && (tag.from == p ==> tag.number < next.number) {
      assert TagSound(s, q, tag);
    }
    if t.channels[q] != s.channels[q] {
      assert Stream(t, q) == Stream(s, q) + [next];
      AppendInOrder(Stream(s, q), next);
    }
  }

  lemma RelayKeepsInv(s: Net, p: Name, reachable: bool)
    requires Inv(s) && Possible(s, Relay(p, reachable))
    ensures Inv(Apply(s, Relay(p, reachable)))
  {
    var t := Apply(s, Relay(p, reachable));
    LineStaysSound(s, Relay(p, reachable));
    forall u <- t.lines ensures LineSound(t.lines[u]) {
      if u != p {
        assert LineSound(s.lines[u]);
      }
    }
    forall q <- t.channels ensures StreamSound(t, q) {
      RelayKeepsStream(s, p, reachable, q);
    }
  }

  lemma ApplyKeepsInv(s: Net, e: Event)
    requires Inv(s) && Possible(s, e)
    ensures Inv(Apply(s, e))
  {
    match e
    case Relay(p, reachable) => RelayKeepsInv(s, p, reachable);
    case Receive(p) => ReceiveKeepsInv(s, p);
    case _ => QuietKeepsInv(s, e);
  }

  lemma {:induction false} RunKeepsInv(names: set<Name>, r: seq<Net>, n: nat)
    requires Run(names, r) && n < |r|
    ensures Inv(r[n])
  {
    if n > 0 {
      RunKeepsInv(names, r, n - 1);
      assert StepAt(r, n - 1);
      NextKeepsInv(r[n - 1], r[n]);
    }
  }

  lemma NextKeepsInv(s: Net, t: Net)
    requires Inv(s) && Next(s, t)
    ensures Inv(t)
  {
    var e :| Possible(s, e) && t == Apply(s, e);
    ApplyKeepsInv(s, e);
  }

  /** Within one session, what a receiver gets from a sender is an in-order subsequence of what that
      sender queued for it, without duplicates; other messages in between change nothing. */
  lemma ReceivedInOrderOnce(names: set<Name>, r: seq<Net>, n: nat, q: Name, i: nat, j: nat)
    requires Run(names, r) && n < |r| && q in r[n].delivered && i < j < |r[n].delivered[q]|
    ensures var a, b := r[n].delivered[q][i], r[n].delivered[q][j];
            && (a.from == b.from ==> a.number < b.number)
            && TagSound(r[n], q, a) && TagSound(r[n], q, b)
  {
    RunKeepsInv(names, r, n);
    assert StreamSound(r[n], q);
    assert Stream(r[n], q)[i] == r[n].delivered[q][i] && Stream(r[n], q)[j] == r[n].delivered[q][j];
    assert r[n].delivered[q][i] in Stream(r[n], q) && r[n].delivered[q][j] in Stream(r[n], q);
  }

  /** On the client, before any write error, a write is outstanding exactly when the queue is not
      empty; and what was written and what is queued together are what was queued, in order. */
  lemma WriteOutstanding(names: set<Name>, r: seq<Net>, n: nat, p: Name)
    requires Run(names, r) && n < |r| && p in r[n].lines
    ensures var l, w := r[n].lines[p], r[n].lines[p].writer;
            && (!w.failed ==> (w.writing <==> w.queue != []))
            && Consecutive(w.queue, l.read + |l.wire|) && l.read + |l.wire| + |w.queue| == |w.targets|
  {
    RunKeepsInv(names, r, n);
    assert LineSound(r[n].lines[p]);
  }

  // ----- What is lost stays lost -----

  /** Message `n` from `p` was read by the server and is not on its way to `q`. */
  predicate Missed(s: Net, p: Name, n: nat, q: Name) {
    p in s.lines && q in s.channels && q in s.delivered && n < s.lines[p].read && Tag(p, n) !in Stream(s, q)
  }

  lemma NextKeepsMissed(s: Net, t: Net, p: Name, n: nat, q: Name)
    requires Inv(s) && Next(s, t) && Missed(s, p, n, q)
    ensures Missed(t, p, n, q)
  {
    var e :| Possible(s, e) && t == Apply(s, e);
    StepKeepsMissed(s, e, p, n, q);
  }

  lemma StepKeepsMissed(s: Net, e: Event, p: Name, n: nat, q: Name)
    requires Inv(s) && Possible(s, e) && Missed(s, p, n, q)
    ensures Missed(Apply(s, e), p, n, q)
  {
    var t := Apply(s, e);
    match e
    case Relay(from, _) =>
      assert LineSound(s.lines[from]);
      assert Stream(t, q) == Stream(s, q) || Stream(t, q) == Stream(s, q) + [Tag(from, s.lines[from].wire[0])];
    case Receive(_) => assert Stream(t, q) == Stream(s, q);
    case _ => assert Stream(t, q) == Stream(s, q);
  }

  lemma {:induction false} MissedStays(names: set<Name>, r: seq<Net>, i: nat, k: nat, p: Name, n: nat, q: Name)
    requires Run(names, r) && i <= k < |r| && Missed(r[i], p, n, q)
    ensures Missed(r[k], p, n, q)
  {
    if i < k {
      MissedStays(names, r, i, k - 1, p, n, q);
      RunKeepsInv(names, r, k - 1);
      assert StepAt(r, k - 1);
      NextKeepsMissed(r[k - 1], r[k], p, n, q);
    }
  }

  /** A message is relayed to nobody but its target, and to nobody at all when the target is not reachable
      or its channel is full; and there is no second attempt. */
  lemma RelayedOnceOrNever(names: set<Name>, r: seq<Net>, i: nat, k: nat, p: Name, reachable: bool, q: Name)
    requires Run(names, r) && i < k < |r| && Possible(r[i], Relay(p, reachable)) && q in r[i].channels
    requires r[i + 1] == Apply(r[i], Relay(p, reachable))
    requires var l := r[i].lines[p];
             l.writer.targets[l.wire[0]] != q || !reachable || |r[i].channels[q]| >= CHANNEL_CAPACITY
    ensures q in r[k].delivered && Tag(p, r[i].lines[p].wire[0]) !in r[k].delivered[q]
  {
    RunKeepsInv(names, r, i);
    RefusedIsMissed(r[i], p, reachable, q);
    MissedStays(names, r, i + 1, k, p, r[i].lines[p].wire[0], q);
  }

  lemma RefusedIsMissed(s: Net, p: Name, reachable: bool, q: Name)
    requires Inv(s) && Possible(s, Relay(p, reachable)) && q in s.channels
    requires var l := s.lines[p];
             l.writer.targets[l.wire[0]] != q || !reachable || |s.channels[q]| >= CHANNEL_CAPACITY
    ensures Missed(Apply(s, Relay(p, reachable)), p, s.lines[p].wire[0], q)
  {
    assert LineSound(s.lines[p]) && StreamSound(s, q);
    forall tag <- Stream(s, q) ensures tag != Tag(p, s.lines[p].wire[0]) {
      assert TagSound(s, q, tag);
    }
    assert Stream(Apply(s, Relay(p, reachable)), q) == Stream(s, q);
  }

  // ----- Without loss -----

  /** No write fails, and whatever is addressed to somebody finds its target and room there. */
  predicate Lossless(s: Net, e: Event)
    requires Possible(s, e)
  {
    match e
    case WriteFails(_) => false
    case Relay(p, reachable) =>
      var target := s.lines[p].writer.targets[s.lines[p].wire[0]];
      target in s.channels ==> reachable && |s.channels[target]| < CHANNEL_CAPACITY
    case _ => true
  }

  ghost predicate NextLossless(s: Net, t: Net) {
    exists e :: Possible(s, e) && Lossless(s, e) && t == Apply(s, e)
  }

  ghost predicate LosslessStepAt(r: seq<Net>, i: nat)
    requires i + 1 < |r|
  {
    NextLossless(r[i], r[i + 1])
  }

  ghost predicate LosslessRun(names: set<Name>, r: seq<Net>) {
    |r| > 0 && r[0] == Start(names) && forall i | 0 <= i < |r| - 1 :: LosslessStepAt(r, i)
  }

  /** The numbers of what comes from `p`. */
  function Numbers(tags: seq<Tag>, p: Name): seq<nat> {
    if tags == [] then []
    else
      var last := tags[|tags| - 1];
      Numbers(tags[..|tags| - 1], p) + (if last.from == p then [last.number] else [])
  }

  /** The numbers among these of messages for `q`. */
  function Select(numbers: seq<nat>, targets: seq<Name>, q: Name): seq<nat> {
    if numbers == [] then []
    else
      var last := numbers[|numbers| - 1];
      Select(numbers[..|numbers| - 1], targets, q) + (if last < |targets| && targets[last] == q then [last] else [])
  }

  /** The numbers of the first `n` messages, those for `q` only. */
  function Addressed(targets: seq<Name>, n: nat, q: Name): seq<nat>
    requires n <= |targets|
  {
    if n == 0 then [] else Addressed(targets, n - 1, q) + (if targets[n - 1] == q then [n - 1] else [])
  }

  lemma {:induction false} NumbersJoin(a: seq<Tag>, b: seq<Tag>, p: Name)
    ensures Numbers(a + b, p) == Numbers(a, p) + Numbers(b, p)
  {
    if b == [] {
      assert a + b == a;
    } else {
      NumbersJoin(a, b[..|b| - 1], p);
      assert (a + b)[..|a + b| - 1] == a + b[..|b| - 1];
    }
  }

  lemma {:induction false} AddressedJoin(targets: seq<Name>, from: nat, numbers: seq<nat>, q: Name)
    requires Consecutive(numbers, from) && from + |numbers| <= |targets|
    ensures Addressed(targets, from + |numbers|, q) == Addressed(targets, from, q) + Select(numbers, targets, q)
  {
    if numbers != [] {
      AddressedJoin(targets, from, numbers[..|numbers| - 1], q);
    }
  }

  lemma {:induction false} AddressedGrows(targets: seq<Name>, more: Name, n: nat, q: Name)
    requires n <= |targets|
    ensures Addressed(targets + [more], n, q) == Addressed(targets, n, q)
  {
    if n > 0 {
      AddressedGrows(targets, more, n - 1, q);
    }
  }

  /** What `q` got or will get from `p`'s read messages is all that was addressed to it among them. */
  predicate Carried(s: Net, p: Name, q: Name) {
    p in s.lines && q in s.channels && q in s.delivered && s.lines[p].read <= |s.lines[p].writer.targets| ==>
      Numbers(Stream(s, q), p) == Addressed(s.lines[p].writer.targets, s.lines[p].read, q)
  }

  /** Without loss, relaying puts the next number of `from` on the channel of its target. */
  lemma RelayAdds(s: Net, from: Name, reachable: bool, q: Name)
    requires Inv(s) && Possible(s, Relay(from, reachable)) && Lossless(s, Relay(from, reachable)) && q in s.channels
    ensures var t, l := Apply(s, Relay(from, reachable)), s.lines[from];
            && l.read < |l.writer.targets|
            && t.lines == s.lines[from := l.(wire := l.wire[1..], read := l.read + 1)]
            && q in t.channels && q in t.delivered
            && Stream(t, q) == Stream(s, q) + (if l.writer.targets[l.read] == q then [Tag(from, l.read)] else [])
  {
    assert LineSound(s.lines[from]);
  }

  lemma RelayCarries(s: Net, from: Name, reachable: bool, p: Name, q: Name)
    requires Inv(s) && Possible(s, Relay(from, reachable)) && Lossless(s, Relay(from, reachable))
    requires p in s.lines && q in s.channels && Carried(s, p, q)
    ensures Carried(Apply(s, Relay(from, reachable)), p, q)
  {
    RelayAdds(s, from, reachable, q);
    var l := s.lines[from];
    var added := if l.writer.targets[l.read] == q then [Tag(from, l.read)] else [];
    NumbersJoin(Stream(s, q), added, p);
    assert Numbers(added, p) == if added != [] && from == p then [l.read] else [];
    assert LineSound(s.lines[p]);
  }

  lemma StepCarries(s: Net, e: Event, p: Name, q: Name)
    requires Inv(s) && Possible(s, e) && Lossless(s, e)
    requires p in s.lines && q in s.channels && Carried(s, p, q)
    ensures Carried(Apply(s, e), p, q)
  {
    assert LineSound(s.lines[p]);
    match e
    case Queue(_, target) => AddressedGrows(s.lines[p].writer.targets, target, s.lines[p].read, q);
    case Written(_) =>
    case Relay(from, reachable) => RelayCarries(s, from, reachable, p, q);
    case Receive(_) => assert Stream(Apply(s, e), q) == Stream(s, q);
  }

  lemma NextCarries(s: Net, t: Net, p: Name, q: Name)
    requires Inv(s) && NextLossless(s, t) && p in s.lines && q in s.channels && Carried(s, p, q)
    ensures Carried(t, p, q) && p in t.lines && q in t.channels && Inv(t)
  {
    var e :| Possible(s, e) && Lossless(s, e) && t == Apply(s, e);
    StepCarries(s, e, p, q);
    ApplyKeepsInv(s, e);
  }

  lemma {:induction false} LosslessRunCarries(names: set<Name>, r: seq<Net>, n: nat, p: Name, q: Name)
    requires LosslessRun(names, r) && n < |r| && p in names && q in names
    ensures Inv(r[n]) && p in r[n].lines && q in r[n].channels && Carried(r[n], p, q)
  {
    if n > 0 {
      LosslessRunCarries(names, r, n - 1, p, q);
      assert LosslessStepAt(r, n - 1);
      NextCarries(r[n - 1], r[n], p, q);
    }
  }

  /** Read, on the wire and queued: together all that was ever queued. */
  lemma WholeLine(l: Line, q: Name)
    requires LineSound(l)
    ensures var targets := l.writer.targets;
            Addressed(targets, l.read, q) + Select(l.wire, targets, q) + Select(l.writer.queue, targets, q)
            == Addressed(targets, |targets|, q)
  {
    AddressedJoin(l.writer.targets, l.read, l.wire, q);
    AddressedJoin(l.writer.targets, l.read + |l.wire|, l.writer.queue, q);
  }

  /** When no write fails and every target is reachable and has room, nothing is lost: what `q` was
      delivered from `p`, what waits in its channel, on the wire and in the write queue is, in this
      order, exactly what `p` queued for `q`. */
  lemma NothingLost(names: set<Name>, r: seq<Net>, n: nat, p: Name, q: Name)
    requires LosslessRun(names, r) && n < |r| && p in names && q in names
    ensures p in r[n].lines && q in r[n].channels && q in r[n].delivered
    ensures var l, targets := r[n].lines[p], r[n].lines[p].writer.targets;
            Numbers(r[n].delivered[q], p) + Numbers(r[n].channels[q], p)
              + Select(l.wire, targets, q) + Select(l.writer.queue, targets, q)
            == Addressed(targets, |targets|, q)
  {
    LosslessRunCarries(names, r, n, p, q);
    assert LineSound(r[n].lines[p]);
    NumbersJoin(r[n].delivered[q], r[n].channels[q], p);
    WholeLine(r[n].lines[p], q);
  }

  /** The client's write queue, with its completion handler. */
  class SignalClient {
    var targets: seq<Name>
    var queue: seq<nat>
    var writing: bool
    var failed: bool

    ghost function View(): Writer
      reads this
    {
      Writer(targets, queue, writing, failed)
    }

    constructor ()
      ensures View() == IDLE
    {
      targets, queue, writing, failed := [], [], false, false;
    }

    method WriteNextMessage()
      modifies this`writing
      ensures writing == (old(writing) || queue != [])
    {
      if queue == [] {
        return;
      }
      writing := true;
    }

    method QueueJsonMessage(target: Name)
      modifies this
      ensures View() == Queued(old(View()), target)
    {
      queue := queue + [|targets|];
      targets := targets + [target];
      if |queue| == 1 {
        WriteNextMessage();
      }
    }

    method OnWritten(error: bool)
      requires writing && queue != []
      modifies this
      ensures View() == if error then WriteFailed(old(View())) else WriteDone(old(View()))
    {
      writing := false;
      if error {
        failed := true;
        return;
      }
      queue := queue[1..];
      if queue != [] {
        WriteNextMessage();
      }
    }
  }
}
