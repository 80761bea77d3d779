/** A lossless transport is the network that `CallNetwork` calls first-in-first-out: queueing a message
    puts a packet at the end, receiving one takes the oldest packet of its pair, and every other step
    of the transport leaves the packets in flight alone. */
module TransportFifo {
  import opened CallTypes
  import CallNetwork
  import opened SignalTransport

  type Packet = CallNetwork.Packet

  /** What each sender's numbered messages say. */
  type Content = (Name, nat) -> Message

  /** On its way from `p` to `q`: in `q`'s channel, on the wire, or in the write queue. */
  function InFlight(s: Net, p: Name, q: Name): seq<nat>
    requires p in s.lines && q in s.channels
  {
    var l := s.lines[p];
    Numbers(s.channels[q], p) + Select(l.wire, l.writer.targets, q) + Select(l.writer.queue, l.writer.targets, q)
  }

  function Messages(numbers: seq<nat>, p: Name, content: Content): seq<Message> {
    seq(|numbers|, i requires 0 <= i < |numbers| => content(p, numbers[i]))
  }

  /** The packets from `p` to `q`, in order. */
  function Between(net: seq<Packet>, p: Name, q: Name): seq<Message> {
    if net == [] then []
    else (if net[0].from == p && net[0].to == q then [net[0].message] else []) + Between(net[1..], p, q)
  }

  /** For every pair of clients the network holds exactly what the transport has in flight. */
  ghost predicate Mirrors(net: seq<Packet>, s: Net, content: Content) {
    forall p <- s.lines, q <- s.channels :: MirrorsPair(net, s, p, q, content)
  }

  predicate MirrorsPair(net: seq<Packet>, s: Net, p: Name, q: Name, content: Content)
    requires p in s.lines && q in s.channels
  {
    Between(net, p, q) == Messages(InFlight(s, p, q), p, content)
  }

  /** The oldest packet of its pair: what `FifoOnly` lets a step deliver. */
  predicate Oldest(net: seq<Packet>, i: nat) {
    i < |net| && forall j | 0 <= j < i :: net[j].from != net[i].from || net[j].to != net[i].to
  }

  /** What a step of the transport does to the packets in flight. */
  ghost predicate FifoStep(s: Net, e: Event, net: seq<Packet>, net': seq<Packet>, content: Content)
    requires Possible(s, e)
  {
    match e
    case Queue(p, target) =>
      net' == net + [CallNetwork.Packet(p, target, content(p, |s.lines[p].writer.targets|))]
    case Receive(q) =>
      var tag := s.channels[q][0];
      exists i: nat :: Oldest(net, i) && net[i] == CallNetwork.Packet(tag.from, q, content(tag.from, tag.number))
                       && net' == CallNetwork.RemoveAt(net, i)
    case _ => net' == net
  }

  // ----- Packets -----

  lemma {:induction false} BetweenAppended(net: seq<Packet>, pk: Packet, p: Name, q: Name)
    ensures Between(net + [pk], p, q) ==
            Between(net, p, q) + (if pk.from == p && pk.to == q then [pk.message] else [])
  {
    if net == [] {
      assert net + [pk] == [pk] && [pk][1..] == [];
    } else {
      BetweenAppended(net[1..], pk, p, q);
      assert (net + [pk])[1..] == net[1..] + [pk];
    }
  }

  /** The oldest packet between two clients is the first that `Between` lists. */
  lemma {:induction false} OldestOf(net: seq<Packet>, p: Name, q: Name) returns (i: nat)
    requires Between(net, p, q) != []
    ensures Oldest(net, i) && net[i] == CallNetwork.Packet(p, q, Between(net, p, q)[0])
    ensures Between(CallNetwork.RemoveAt(net, i), p, q) == Between(net, p, q)[1..]
  {
    if net[0].from == p && net[0].to == q {
      i := 0;
      assert CallNetwork.RemoveAt(net, 0) == net[1..];
    } else {
      var k := OldestOf(net[1..], p, q);
      i := k + 1;
      assert forall j | 0 < j < i :: net[j] == net[1..][j - 1];
      assert CallNetwork.RemoveAt(net, i)[1..] == CallNetwork.RemoveAt(net[1..], k);
    }
  }

  lemma {:induction false} OthersStay(net: seq<Packet>, i: nat, p: Name, q: Name)
    requires i < |net| && !(net[i].from == p && net[i].to == q)
    ensures Between(CallNetwork.RemoveAt(net, i), p, q) == Between(net, p, q)
  {
    if i == 0 {
      assert CallNetwork.RemoveAt(net, 0) == net[1..];
    } else {
      OthersStay(net[1..], i - 1, p, q);
      assert CallNetwork.RemoveAt(net, i)[1..] == CallNetwork.RemoveAt(net[1..], i - 1);
    }
  }

  // ----- What is in flight -----

  lemma {:induction false} SelectJoin(a: seq<nat>, b: seq<nat>, targets: seq<Name>, q: Name)
    ensures Select(a + b, targets, q) == Select(a, targets, q) + Select(b, targets, q)
  {
    if b == [] {
      assert a + b == a;
    } else {
      SelectJoin(a, b[..|b| - 1], targets, q);
      assert (a + b)[..|a + b| - 1] == a + b[..|b| - 1];
    }
  }

  /** A later message does not change which of the earlier ones are for `q`. */
  lemma {:induction false} SelectGrows(numbers: seq<nat>, targets: seq<Name>, more: Name, q: Name)
    requires forall i | 0 <= i < |numbers| :: numbers[i] < |targets|
    ensures Select(numbers, targets + [more], q) == Select(numbers, targets, q)
  {
    if numbers != [] {
      SelectGrows(numbers[..|numbers| - 1], targets, more, q);
    }
  }

  /** Queueing one more message for `target` adds it to what the line holds for `target`. */
  lemma LineGrows(l: Line, target: Name, q: Name)
    requires LineSound(l)
    ensures var w, targets := l.writer, l.writer.targets + [target];
            && Select(l.wire, targets, q) == Select(l.wire, w.targets, q)
            && Select(w.queue + [|w.targets|], targets, q) ==
               Select(w.queue, w.targets, q) + (if q == target then [|w.targets|] else [])
  {
    var w := l.writer;
    SelectGrows(l.wire, w.targets, target, q);
    SelectGrows(w.queue, w.targets, target, q);
    assert (w.queue + [|w.targets|])[..|w.queue|] == w.queue;
  }

  lemma QueuedIsInFlight(s: Net, from: Name, target: Name, p: Name, q: Name)
    requires Inv(s) && Possible(s, Queue(from, target)) && p in s.lines && q in s.channels
    ensures var t := Apply(s, Queue(from, target));
            p in t.lines && q in t.channels &&
            InFlight(t, p, q) ==
            InFlight(s, p, q) + (if p == from && q == target then [|s.lines[p].writer.targets|] else [])
  {
    assert LineSound(s.lines[from]);
    LineGrows(s.lines[from], target, q);
  }

  lemma WrittenStaysInFlight(s: Net, from: Name, p: Name, q: Name)
    requires Possible(s, Written(from)) && p in s.lines && q in s.channels
    ensures var t := Apply(s, Written(from));
            p in t.lines && q in t.channels && InFlight(t, p, q) == InFlight(s, p, q)
  {
    if p == from {
      var l := s.lines[p];
      var targets, queue := l.writer.targets, l.writer.queue;
      SelectJoin(l.wire, [queue[0]], targets, q);
      SelectJoin([queue[0]], queue[1..], targets, q);
      assert [queue[0]] + queue[1..] == queue;
    }
  }

  /** Without loss, relaying moves the oldest message of a wire to the channel of its target. */
  lemma RelayMoves(s: Net, from: Name, reachable: bool, q: Name)
    requires Possible(s, Relay(from, reachable)) && Lossless(s, Relay(from, reachable)) && q in s.channels
    ensures var t, l := Apply(s, Relay(from, reachable)), s.lines[from];
            && t.lines == s.lines[from := l.(wire := l.wire[1..], read := l.read + 1)]
            && q in t.channels
            && t.channels[q] ==
               s.channels[q] + (if l.writer.targets[l.wire[0]] == q then [Tag(from, l.wire[0])] else [])
  {
  }

  lemma NumbersOfOneMore(tags: seq<Tag>, tag: Tag, p: Name)
    ensures Numbers(tags + [tag], p) == Numbers(tags, p) + (if tag.from == p then [tag.number] else [])
  {
    assert (tags + [tag])[..|tags|] == tags;
  }

  lemma SelectFirst(numbers: seq<nat>, targets: seq<Name>, q: Name)
    requires numbers != [] && numbers[0] < |targets|
    ensures Select(numbers, targets, q) ==
            (if targets[numbers[0]] == q then [numbers[0]] else []) + Select(numbers[1..], targets, q)
  {
    SelectJoin([numbers[0]], numbers[1..], targets, q);
    assert [numbers[0]] + numbers[1..] == numbers;
    assert Select([numbers[0]], targets, q) == if targets[numbers[0]] == q then [numbers[0]] else [];
  }

  lemma RelayedStaysInFlight(s: Net, from: Name, reachable: bool, p: Name, q: Name)
    requires Possible(s, Relay(from, reachable)) && Lossless(s, Relay(from, reachable))
    requires p in s.lines && q in s.channels
    ensures var t := Apply(s, Relay(from, reachable));
            p in t.lines && q in t.channels && InFlight(t, p, q) == InFlight(s, p, q)
  {
    RelayMoves(s, from, reachable, q);
    var l := s.lines[from];
    var first := if l.writer.targets[l.wire[0]] == q then [l.wire[0]] else [];
    SelectFirst(l.wire, l.writer.targets, q);
    assert Select(l.wire, l.writer.targets, q) == first + Select(l.wire[1..], l.writer.targets, q);
    NumbersOfOneMore(s.channels[q], Tag(from, l.wire[0]), p);
    assert Numbers(Apply(s, Relay(from, reachable)).channels[q], p) ==
           Numbers(s.channels[q], p) + (if p == from then first else []);
  }

  lemma ReceivedLeavesFlight(s: Net, q': Name, p: Name, q: Name)
    requires Possible(s, Receive(q')) && p in s.lines && q in s.channels
    ensures var t, tag := Apply(s, Receive(q')), s.channels[q'][0];
            p in t.lines && q in t.channels &&
            InFlight(s, p, q) == (if p == tag.from && q == q' then [tag.number] else []) + InFlight(t, p, q)
  {
    if q == q' {
      var tags := s.channels[q];
      NumbersJoin([tags[0]], tags[1..], p);
      assert [tags[0]] + tags[1..] == tags;
      assert Numbers([tags[0]], p) == if p == tags[0].from then [tags[0].number] else [];
    }
  }

  // ----- Every step -----

  lemma MessagesJoin(a: seq<nat>, b: seq<nat>, p: Name, content: Content)
    ensures Messages(a + b, p, content) == Messages(a, p, content) + Messages(b, p, content)
  {
  }

  lemma QueueMirrors(s: Net, from: Name, target: Name, net: seq<Packet>, content: Content)
    requires Inv(s) && Possible(s, Queue(from, target)) && Mirrors(net, s, content)
    ensures var pk := CallNetwork.Packet(from, target, content(from, |s.lines[from].writer.targets|));
            Mirrors(net + [pk], Apply(s, Queue(from, target)), content)
  {
    var t, n := Apply(s, Queue(from, target)), |s.lines[from].writer.targets|;
    var pk := CallNetwork.Packet(from, target, content(from, n));
    forall p <- t.lines, q <- t.channels ensures MirrorsPair(net + [pk], t, p, q, content) {
      assert MirrorsPair(net, s, p, q, content);
      QueuedIsInFlight(s, from, target, p, q);
      BetweenAppended(net, pk, p, q);
      MessagesJoin(InFlight(s, p, q), if p == from && q == target then [n] else [], p, content);
    }
  }

  /** Steps within the transport. */
  lemma InsideMirrors(s: Net, e: Event, net: seq<Packet>, content: Content)
    requires Inv(s) && Possible(s, e) && Lossless(s, e) && (e.Written? || e.Relay?) && Mirrors(net, s, content)
    ensures Mirrors(net, Apply(s, e), content)
  {
    var t := Apply(s, e);
    forall p <- t.lines, q <- t.channels ensures MirrorsPair(net, t, p, q, content) {
      assert MirrorsPair(net, s, p, q, content);
      if e.Written? {
        WrittenStaysInFlight(s, e.who, p, q);
      } else {
        RelayedStaysInFlight(s, e.who, e.reachable, p, q);
      }
    }
  }

  /** The first tag of a channel is that of the oldest packet of its pair. */
  lemma HeadIsOldest(s: Net, q: Name, net: seq<Packet>, content: Content) returns (i: nat)
    requires Inv(s) && Possible(s, Receive(q)) && Mirrors(net, s, content)
    ensures var tag := s.channels[q][0];
            && tag.from in s.lines
            && Oldest(net, i) && net[i] == CallNetwork.Packet(tag.from, q, content(tag.from, tag.number))
            && Between(net, tag.from, q) != []
            && Between(CallNetwork.RemoveAt(net, i), tag.from, q) == Between(net, tag.from, q)[1..]
  {
    var tag := s.channels[q][0];
    assert StreamSound(s, q) && tag in Stream(s, q);
    assert TagSound(s, q, tag);
    ReceivedLeavesFlight(s, q, tag.from, q);
    assert MirrorsPair(net, s, tag.from, q, content);
    i := OldestOf(net, tag.from, q);
  }

  lemma FirstMessage(n: nat, rest: seq<nat>, p: Name, content: Content)
    ensures Messages([n] + rest, p, content)[1..] == Messages(rest, p, content)
  {
  }

  /** The pair whose oldest packet was received. */
  lemma ReceiveMirrorsOwn(s: Net, q: Name, net: seq<Packet>, net': seq<Packet>, content: Content, p: Name)
    requires Possible(s, Receive(q)) && p in s.lines && p == s.channels[q][0].from
    requires MirrorsPair(net, s, p, q, content)
    requires Between(net, p, q) != [] && Between(net', p, q) == Between(net, p, q)[1..]
    ensures MirrorsPair(net', Apply(s, Receive(q)), p, q, content)
  {
    ReceivedLeavesFlight(s, q, p, q);
    FirstMessage(s.channels[q][0].number, InFlight(Apply(s, Receive(q)), p, q), p, content);
  }

  lemma ReceiveMirrorsOther(s: Net, q': Name, net: seq<Packet>, net': seq<Packet>, content: Content,
                            p: Name, q: Name)
    requires Possible(s, Receive(q')) && p in s.lines && q in s.channels
    requires !(p == s.channels[q'][0].from && q == q')
    requires MirrorsPair(net, s, p, q, content) && Between(net', p, q) == Between(net, p, q)
    ensures var t := Apply(s, Receive(q')); p in t.lines && q in t.channels && MirrorsPair(net', t, p, q, content)
  {
    ReceivedLeavesFlight(s, q', p, q);
  }

  lemma ReceiveMirrors(s: Net, q': Name, net: seq<Packet>, content: Content) returns (i: nat)
    requires Inv(s) && Possible(s, Receive(q')) && Mirrors(net, s, content)
    ensures var tag := s.channels[q'][0];
            Oldest(net, i) && net[i] == CallNetwork.Packet(tag.from, q', content(tag.from, tag.number))
    ensures Mirrors(CallNetwork.RemoveAt(net, i), Apply(s, Receive(q')), content)
  {
    i := HeadIsOldest(s, q', net, content);
    var t := Apply(s, Receive(q'));
    var net' := CallNetwork.RemoveAt(net, i);
    forall p <- t.lines, q <- t.channels ensures MirrorsPair(net', t, p, q, content) {
      assert MirrorsPair(net, s, p, q, content);
      if p == net[i].from && q == q' {
        ReceiveMirrorsOwn(s, q, net, net', content, p);
      } else {
        OthersStay(net, i, p, q);
        ReceiveMirrorsOther(s, q', net, net', content, p, q);
      }
    }
  }

  lemma StepMirrors(s: Net, e: Event, net: seq<Packet>, content: Content) returns (net': seq<Packet>)
    requires Inv(s) && Possible(s, e) && Lossless(s, e) && Mirrors(net, s, content)
    ensures FifoStep(s, e, net, net', content) && Mirrors(net', Apply(s, e), content)
  {
    match e
    case Queue(p, target) =>
      QueueMirrors(s, p, target, net, content);
      net' := net + [CallNetwork.Packet(p, target, content(p, |s.lines[p].writer.targets|))];
    case Receive(q) =>
      var i := ReceiveMirrors(s, q, net, content);
      net' := CallNetwork.RemoveAt(net, i);
    case _ =>
      InsideMirrors(s, e, net, content);
      net' := net;
  }

  /** Between two states of the transport, the packets in flight changed as a FIFO network's do. */
  ghost predicate FifoBetween(s: Net, t: Net, net: seq<Packet>, net': seq<Packet>, content: Content) {
    exists e :: Possible(s, e) && Lossless(s, e) && t == Apply(s, e) && FifoStep(s, e, net, net', content)
  }

  lemma NextMirrors(s: Net, t: Net, net: seq<Packet>, content: Content) returns (net': seq<Packet>)
    requires Inv(s) && NextLossless(s, t) && Mirrors(net, s, content)
    ensures FifoBetween(s, t, net, net', content) && Mirrors(net', t, content) && Inv(t)
  {
    var e :| Possible(s, e) && Lossless(s, e) && t == Apply(s, e);
    net' := StepMirrors(s, e, net, content);
    ApplyKeepsInv(s, e);
  }

  ghost predicate FifoAt(r: seq<Net>, nets: seq<seq<Packet>>, i: nat, content: Content)
    requires i + 1 < |r| && i + 1 < |nets|
  {
    FifoBetween(r[i], r[i + 1], nets[i], nets[i + 1], content)
  }

  /** A network that starts empty, mirrors every state and takes a FIFO step with every step. */
  ghost predicate FifoNetwork(r: seq<Net>, nets: seq<seq<Packet>>, content: Content)
    requires |nets| <= |r|
  {
    && |nets| > 0 && nets[0] == []
    && (forall i | 0 <= i < |nets| :: Mirrors(nets[i], r[i], content))
    && (forall i | 0 <= i < |nets| - 1 :: FifoAt(r, nets, i, content))
  }

  lemma StartMirrors(names: set<Name>, content: Content)
    ensures Mirrors([], Start(names), content) && Inv(Start(names))
  {
  }

  lemma OneStateMore(r: seq<Net>, nets: seq<seq<Packet>>, net: seq<Packet>, content: Content)
    requires 0 < |nets| < |r| && FifoNetwork(r, nets, content)
    requires Mirrors(net, r[|nets|], content)
    requires FifoBetween(r[|nets| - 1], r[|nets|], nets[|nets| - 1], net, content)
    ensures FifoNetwork(r, nets + [net], content)
  {
    var more := nets + [net];
    forall i | 0 <= i < |more| - 1 ensures FifoAt(r, more, i, content) {
      if i < |nets| - 1 {
        assert FifoAt(r, nets, i, content);
      }
    }
  }

  /** Every lossless run of the transport carries a first-in-first-out network of packets, whatever
      the messages say. */
  lemma {:induction false} LosslessIsFifo(names: set<Name>, r: seq<Net>, n: nat, content: Content)
    returns (nets: seq<seq<Packet>>)
    requires LosslessRun(names, r) && n < |r|
    ensures |nets| == n + 1 && FifoNetwork(r, nets, content) && Inv(r[n])
  {
    if n == 0 {
      StartMirrors(names, content);
      nets := [[]];
    } else {
      nets := LosslessIsFifo(names, r, n - 1, content);
      assert LosslessStepAt(r, n - 1);
      var net := NextMirrors(r[n - 1], r[n], nets[n - 1], content);
      OneStateMore(r, nets, net, content);
      nets := nets + [net];
    }
  }
}
