/** The bounded queue of synthetic audio samples (src/switchable_audio_input_win.cc). Samples of all
    channels are interleaved.

    `Ledger` keeps, beside the queue, everything ever pushed, what became of it, and every chunk
    delivered; the class is the queue as the source writes it. The channel count is fixed. */
module SyntheticAudio {
  import opened Arithmetic

  type Sample = int

  const CHUNKS_PER_SECOND := 100
  const MAX_BUFFERED_MS := 4000

  /** What became of a sample that is no longer queued. */
  datatype Fate = Delivered | Dropped | Cleared

  /** A chunk handed to the audio device: `count` samples from `start` on, then silence. */
  datatype Chunk = Chunk(start: nat, count: nat, data: seq<Sample>)

  datatype Ledger = Ledger(
    rate: nat,
    queue: seq<Sample>,
    pushed: seq<Sample>,
    fates: seq<Fate>,
    chunks: seq<Chunk>,
    peak: nat)  // the highest sample rate so far

  datatype Event =
    | Push(samples: seq<Sample>)
    | Tick
    | Clear
    | SetRate(rate: nat)

  function MaxSamples(rate: nat, channels: nat): nat {
    (rate * channels * MAX_BUFFERED_MS) / 1000
  }

  function ChunkSamples(rate: nat, channels: nat): nat {
    (rate / CHUNKS_PER_SECOND) * channels
  }

  function Repeat<T>(n: nat, x: T): (r: seq<T>)
    ensures |r| == n && forall i | 0 <= i < n :: r[i] == x
  {
    seq(n, i => x)
  }

  function Start(rate: nat): Ledger {
    Ledger(rate, [], [], [], [], rate)
  }

  predicate Possible(e: Event, channels: nat) {
    e.Push? && channels > 0 ==> |e.samples| % channels == 0
  }

  /** The oldest samples beyond the limit go. */
  function Trimmed(q: seq<Sample>, limit: nat): seq<Sample> {
    if |q| > limit then q[|q| - limit..] else q
  }

  function Pushed(l: Ledger, samples: seq<Sample>, channels: nat): Ledger {
    if samples == [] then l
    else
      var q := Trimmed(l.queue + samples, MaxSamples(l.rate, channels));
      l.(queue := q, pushed := l.pushed + samples,
         fates := l.fates + Repeat(|l.queue + samples| - |q|, Dropped))
  }

  function Ticked(l: Ledger, channels: nat): Ledger {
    var size := ChunkSamples(l.rate, channels);
    var n := Min(size, |l.queue|);
    l.(queue := l.queue[n..], fates := l.fates + Repeat(n, Delivered),
       chunks := l.chunks + [Chunk(|l.fates|, n, l.queue[..n] + Repeat(size - n, 0))])
  }

  function Apply(l: Ledger, e: Event, channels: nat): Ledger {
    match e
    case Push(samples) => Pushed(l, samples, channels)
    case Tick => Ticked(l, channels)
    case Clear => l.(queue := [], fates := l.fates + Repeat(|l.queue|, Cleared))
    case SetRate(rate) => l.(rate := rate, peak := if rate > l.peak then rate else l.peak)
  }

  function ApplyAll(l: Ledger, es: seq<Event>, channels: nat): Ledger {
    if es == [] then l else Apply(ApplyAll(l, es[..|es| - 1], channels), es[|es| - 1], channels)
  }

  // ----- Alignment -----

  lemma ChannelOf(start: nat, x: nat, c: nat)
    requires c > 0 && start % c == 0
    ensures (start + x) % c == x % c
  {
    var q, p, rest := start / c, x / c, x % c;
    assert start == q * c && x == p * c + rest;
    assert (q + p) * c == q * c + p * c;
    Remainder(start + x, q + p, rest, c);
  }

  lemma FourSeconds(rate: nat, channels: nat)
    ensures MaxSamples(rate, channels) == 4 * rate * channels
    ensures channels > 0 ==> MaxSamples(rate, channels) % channels == 0
    ensures channels > 0 ==> ChunkSamples(rate, channels) % channels == 0
  {
    var n := rate * channels;
    assert n * 4000 / 1000 == n * 4;
    if channels > 0 {
      assert 4 * rate * channels == (4 * rate) * channels;
      Multiple(4 * rate, channels);
      Multiple(rate / CHUNKS_PER_SECOND, channels);
    }
  }

  // ----- Over any run -----

  predicate Aligned(n: nat, c: nat)
    requires c > 0
  {
    n % c == 0
  }

  /** Every sample pushed has met its fate or is queued, in push order; the bound holds. */
  predicate Accounted(l: Ledger, c: nat)
    requires c > 0
  {
    && |l.fates| <= |l.pushed| && l.queue == l.pushed[|l.fates|..]
    && Aligned(|l.fates|, c) && Aligned(|l.pushed|, c)
    && l.rate <= l.peak && |l.queue| <= 4 * l.peak * c
  }

  /** A chunk holds consecutive delivered samples, each in its own channel, and then silence. */
  predicate ChunkSound(l: Ledger, chunk: Chunk, c: nat)
    requires c > 0
  {
    && Aligned(chunk.start, c) && chunk.start + chunk.count <= |l.fates| <= |l.pushed|
    && chunk.count <= |chunk.data|
    && chunk.data[..chunk.count] == l.pushed[chunk.start..chunk.start + chunk.count]
    && (forall x | chunk.count <= x < |chunk.data| :: chunk.data[x] == 0)
    && (forall i | chunk.start <= i < chunk.start + chunk.count :: l.fates[i] == Delivered)
  }

  predicate InChunk(l: Ledger, k: nat, i: nat)
    requires k < |l.chunks|
  {
    l.chunks[k].start <= i < l.chunks[k].start + l.chunks[k].count
  }

  predicate ChunksSound(l: Ledger, c: nat)
    requires c > 0
  {
    && (forall k | 0 <= k < |l.chunks| :: ChunkSound(l, l.chunks[k], c))
    && (forall j, k | 0 <= j < k < |l.chunks| :: l.chunks[j].start + l.chunks[j].count <= l.chunks[k].start)
    && (forall i | 0 <= i < |l.fates| && l.fates[i] == Delivered :: exists k | 0 <= k < |l.chunks| :: InChunk(l, k, i))
  }

  lemma SameDistance(rate: nat, peak: nat, c: nat)
    requires rate <= peak
    ensures 4 * rate * c <= 4 * peak * c
  {
    assert 4 * peak * c - 4 * rate * c == 4 * (peak - rate) * c;
  }

  lemma PushAccounts(l: Ledger, samples: seq<Sample>, c: nat)
    requires c > 0 && Accounted(l, c) && Aligned(|samples|, c)
    ensures Accounted(Pushed(l, samples, c), c)
  {
    if samples != [] {
      var l' := Pushed(l, samples, c);
      var all, limit := l.queue + samples, MaxSamples(l.rate, c);
      FourSeconds(l.rate, c);
      SameDistance(l.rate, l.peak, c);
      AlignedSum(|l.pushed|, |samples|, c);
      AlignedSum(|l'.pushed|, |l.fates|, c);
      if |all| > limit {
        AlignedSum(|all|, limit, c);
        AlignedSum(|l.fates|, |all| - limit, c);
      }
      assert l'.queue == l'.pushed[|l'.fates|..];
    }
  }

  lemma TickAccounts(l: Ledger, c: nat)
    requires c > 0 && Accounted(l, c)
    ensures Accounted(Ticked(l, c), c)
  {
    var n := Min(ChunkSamples(l.rate, c), |l.queue|);
    FourSeconds(l.rate, c);
    AlignedSum(|l.pushed|, |l.fates|, c);
    AlignedSum(|l.fates|, n, c);
    assert Ticked(l, c).queue == l.pushed[|l.fates| + n..];
  }

  lemma ApplyAccounts(l: Ledger, e: Event, c: nat)
    requires c > 0 && Accounted(l, c) && Possible(e, c)
    ensures Accounted(Apply(l, e, c), c)
  {
    match e
    case Push(samples) => PushAccounts(l, samples, c);
    case Tick => TickAccounts(l, c);
    case Clear =>
      AlignedSum(|l.fates|, 0, c);
      AtMostPeak(l, c);
    case SetRate(rate) => SameDistance(l.peak, Apply(l, e, c).peak, c);
  }

  lemma AtMostPeak(l: Ledger, c: nat)
    ensures 0 <= 4 * l.peak * c
  {
  }

  /** Chunks stay sound when samples are added and fates other than deliveries are appended. */
  lemma ChunksStay(l: Ledger, l': Ledger, c: nat, fate: Fate)
    requires c > 0 && ChunksSound(l, c)
    requires l.pushed <= l'.pushed && l.chunks == l'.chunks && fate != Delivered
    requires l.fates <= l'.fates && |l'.fates| <= |l'.pushed|
    requires forall i | |l.fates| <= i < |l'.fates| :: l'.fates[i] == fate
    ensures ChunksSound(l', c)
  {
    forall k | 0 <= k < |l'.chunks| ensures ChunkSound(l', l'.chunks[k], c) {
      assert ChunkSound(l, l.chunks[k], c);
    }
    forall i | 0 <= i < |l'.fates| && l'.fates[i] == Delivered
      ensures exists k | 0 <= k < |l'.chunks| :: InChunk(l', k, i)
    {
      var k :| 0 <= k < |l.chunks| && InChunk(l, k, i);
      assert InChunk(l', k, i);
    }
  }

  lemma TickKeepsChunks(l: Ledger, c: nat)
    requires c > 0 && Accounted(l, c) && ChunksSound(l, c)
    ensures ChunksSound(Ticked(l, c), c)
  {
    var l', n := Ticked(l, c), Min(ChunkSamples(l.rate, c), |l.queue|);
    forall k | 0 <= k < |l'.chunks| ensures ChunkSound(l', l'.chunks[k], c) {
      if k < |l.chunks| {
        assert ChunkSound(l, l.chunks[k], c);
      } else {
        assert l'.chunks[k].data[..n] == l.queue[..n] == l.pushed[|l.fates|..|l.fates| + n];
      }
    }
    forall i | 0 <= i < |l'.fates| && l'.fates[i] == Delivered
      ensures exists k | 0 <= k < |l'.chunks| :: InChunk(l', k, i)
    {
      if i < |l.fates| {
        var k :| 0 <= k < |l.chunks| && InChunk(l, k, i);
        assert InChunk(l', k, i);
      } else {
        assert InChunk(l', |l.chunks|, i);
      }
    }
    forall j, k | 0 <= j < k < |l'.chunks|
      ensures l'.chunks[j].start + l'.chunks[j].count <= l'.chunks[k].start
    {
      assert ChunkSound(l, l.chunks[j], c);
    }
  }

  lemma ApplyKeepsChunks(l: Ledger, e: Event, c: nat)
    requires c > 0 && Accounted(l, c) && ChunksSound(l, c) && Possible(e, c)
    ensures ChunksSound(Apply(l, e, c), c)
  {
    ApplyAccounts(l, e, c);
    match e
    case Tick => TickKeepsChunks(l, c);
    case Clear => ChunksStay(l, Apply(l, e, c), c, Cleared);
    case _ => ChunksStay(l, Apply(l, e, c), c, Dropped);
  }

  lemma {:induction false} RunSound(rate: nat, es: seq<Event>, c: nat)
    requires c > 0 && forall e <- es :: Possible(e, c)
    ensures Accounted(ApplyAll(Start(rate), es, c), c) && ChunksSound(ApplyAll(Start(rate), es, c), c)
  {
    if es == [] {
      AtMostPeak(Start(rate), c);
      AlignedSum(0, 0, c);
    } else {
      var prefix := es[..|es| - 1];
      RunSound(rate, prefix, c);
      assert es[|es| - 1] in es;
      ApplyAccounts(ApplyAll(Start(rate), prefix, c), es[|es| - 1], c);
      ApplyKeepsChunks(ApplyAll(Start(rate), prefix, c), es[|es| - 1], c);
    }
  }

  /** Over any run of pushes, ticks, clears and rate changes with a fixed channel count: every
      sample pushed was delivered, dropped or cleared, in push order, or is still queued; and the
      queue never exceeds four seconds at the highest rate so far. */
  lemma SamplesSplitExactly(rate: nat, es: seq<Event>, c: nat)
    requires c > 0 && forall e <- es :: Possible(e, c)
    ensures var l := ApplyAll(Start(rate), es, c);
            && |l.fates| + |l.queue| == |l.pushed| && l.pushed[|l.fates|..] == l.queue
            && |l.queue| <= 4 * l.peak * c
  {
    RunSound(rate, es, c);
  }

  /** Position `x` of chunk `k` is a delivered sample in its own channel, or silence at the end. */
  predicate Faithful(l: Ledger, c: nat, k: nat, x: nat)
    requires c > 0 && k < |l.chunks| && x < |l.chunks[k].data|
  {
    var chunk := l.chunks[k];
    if x < chunk.count then
      && chunk.start + x < |l.fates| <= |l.pushed|
      && chunk.data[x] == l.pushed[chunk.start + x] && l.fates[chunk.start + x] == Delivered
      && (chunk.start + x) % c == x % c
    else chunk.data[x] == 0
  }

  lemma SoundIsFaithful(l: Ledger, c: nat, k: nat, x: nat)
    requires c > 0 && k < |l.chunks| && x < |l.chunks[k].data| && ChunkSound(l, l.chunks[k], c)
    ensures Faithful(l, c, k, x)
  {
    var chunk := l.chunks[k];
    if x < chunk.count {
      ChannelOf(chunk.start, x, c);
      assert chunk.data[..chunk.count][x] == l.pushed[chunk.start..chunk.start + chunk.count][x];
    }
  }

  /** No sample changes channel, and silence comes only at the end of a chunk: position `x` of a
      chunk belongs to channel `x % c`, and so did the sample when it was pushed. */
  lemma DeliveryIsFaithful(rate: nat, es: seq<Event>, c: nat, k: nat, x: nat)
    requires c > 0 && forall e <- es :: Possible(e, c)
    requires var l := ApplyAll(Start(rate), es, c); k < |l.chunks| && x < |l.chunks[k].data|
    ensures Faithful(ApplyAll(Start(rate), es, c), c, k, x)
  {
    RunSound(rate, es, c);
    SoundIsFaithful(ApplyAll(Start(rate), es, c), c, k, x);
  }

  /** Delivery order is push order, and the chunks contain exactly the delivered samples. */
  lemma DeliveryInOrder(rate: nat, es: seq<Event>, c: nat)
    requires c > 0 && forall e <- es :: Possible(e, c)
    ensures var l := ApplyAll(Start(rate), es, c);
            && (forall j, k | 0 <= j < k < |l.chunks| :: l.chunks[j].start + l.chunks[j].count <= l.chunks[k].start)
            && (forall i | 0 <= i < |l.fates| ::
                  l.fates[i] == Delivered <==> exists k | 0 <= k < |l.chunks| :: InChunk(l, k, i))
  {
    RunSound(rate, es, c);
    var l := ApplyAll(Start(rate), es, c);
    forall i, k | 0 <= i < |l.fates| && 0 <= k < |l.chunks| && InChunk(l, k, i) ensures l.fates[i] == Delivered {
      assert ChunkSound(l, l.chunks[k], c);
    }
  }

  // ----- Nothing is dropped, and no silence made, without need -----

  /** The rate set last. */
  function RateSet(rate: nat, es: seq<Event>): nat {
    if es == [] then rate
    else if es[|es| - 1].SetRate? then es[|es| - 1].rate
    else RateSet(rate, es[..|es| - 1])
  }

  lemma {:induction false} RateIsSet(rate: nat, es: seq<Event>, c: nat)
    ensures ApplyAll(Start(rate), es, c).rate == RateSet(rate, es)
  {
    if es != [] {
      RateIsSet(rate, es[..|es| - 1], c);
    }
  }

  /** Every tick delivers one chunk of ten milliseconds at the rate set last, and pads it with silence
      only when that leaves the queue empty. */
  lemma TickDelivers(rate: nat, es: seq<Event>, c: nat)
    requires c > 0
    ensures var l := ApplyAll(Start(rate), es, c);
            var t := ApplyAll(Start(rate), es + [Tick], c);
            && |t.chunks| == |l.chunks| + 1
            && var chunk := t.chunks[|l.chunks|];
               && |chunk.data| == (RateSet(rate, es) / 100) * c
               && (chunk.count < |chunk.data| ==> t.queue == [])
  {
    assert (es + [Tick])[..|es|] == es;
    RateIsSet(rate, es, c);
  }

  /** Every push is taken up whole, and drops the oldest samples only when it leaves the queue filled
      to exactly four seconds at the rate set last. */
  lemma PushDropsOnlyWhenFull(rate: nat, es: seq<Event>, c: nat, samples: seq<Sample>)
    requires c > 0
    ensures var l := ApplyAll(Start(rate), es, c);
            var t := ApplyAll(Start(rate), es + [Push(samples)], c);
            && t.pushed == l.pushed + samples
            && (samples != [] && t.fates != l.fates ==> |t.queue| == 4 * RateSet(rate, es) * c)
  {
    assert (es + [Push(samples)])[..|es|] == es;
    RateIsSet(rate, es, c);
    FourSeconds(RateSet(rate, es), c);
    assert ApplyAll(Start(rate), es, c).fates + [] == ApplyAll(Start(rate), es, c).fates;
  }

  /** Clearing empties the queue, and what it takes away is recorded as cleared. */
  lemma ClearEmpties(rate: nat, es: seq<Event>, c: nat)
    requires c > 0
    ensures var l := ApplyAll(Start(rate), es, c);
            var t := ApplyAll(Start(rate), es + [Clear], c);
            && t.queue == [] && t.chunks == l.chunks
            && l.fates <= t.fates && forall i | |l.fates| <= i < |t.fates| :: t.fates[i] == Cleared
  {
    assert (es + [Clear])[..|es|] == es;
  }

  // ----- The queue as the source writes it -----

  class SwitchableAudioInput {
    var rate: nat
    const channels: nat
    var samples: seq<Sample>

    constructor (rate: nat, channels: nat)
      ensures this.rate == rate && this.channels == channels && samples == []
    {
      this.rate, this.channels, samples := rate, channels, [];
    }

    method PushSyntheticAudio(input: seq<Sample>)
      modifies this`samples
      ensures samples ==
              (if input == [] then old(samples)
               else Trimmed(old(samples) + input, MaxSamples(rate, if channels > 1 then channels else 1)))
    {
      if input == [] {
        return;
      }
      var c := if channels > 1 then channels else 1;
      var limit := (rate * c * MAX_BUFFERED_MS) / 1000;
      ghost var all := samples + input;
      var i := 0;
      while i < |input|
        invariant 0 <= i <= |input|
        invariant samples == old(samples) + input[..i]
      {
        samples := samples + [input[i]];
        i := i + 1;
      }
      assert samples == all;
      while |samples| > limit
        invariant |samples| <= |all| && samples == all[|all| - |samples|..]
        invariant |samples| < |all| ==> |samples| >= limit
        decreases |samples|
      {
        samples := samples[1..];
      }
    }

    method QueuedSyntheticFrames() returns (frames: nat)
      ensures var c := if channels > 1 then channels else 1; frames * c <= |samples| < (frames + 1) * c
    {
      var c := if channels > 1 then channels else 1;
      frames := |samples| / c;
      assert |samples| == frames * c + |samples| % c;
    }

    method ClearSyntheticAudio()
      modifies this`samples
      ensures samples == []
    {
      samples := [];
    }

    /** One turn of the synthetic loop: a chunk of ten milliseconds, padded with silence. */
    method NextChunk() returns (chunk: seq<Sample>)
      modifies this`samples
      ensures var c := if channels > 1 then channels else 1;
              var size := ChunkSamples(rate, c);
              var n := Min(size, |old(samples)|);
              && chunk == old(samples)[..n] + Repeat(size - n, 0)
              && samples == old(samples)[n..]
    {
      var c := if channels > 1 then channels else 1;
      var size := ChunkSamples(rate, c);
      chunk := Repeat(size, 0);
      var available := Min(size, |samples|);
      var i := 0;
      while i < available
        invariant 0 <= i <= available && |chunk| == size
        invariant chunk == old(samples)[..i] + Repeat(size - i, 0)
        invariant samples == old(samples)[i..]
      {
        chunk := chunk[i := samples[0]];
        samples := samples[1..];
        i := i + 1;
      }
    }
  }
}
