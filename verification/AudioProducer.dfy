/** The threads that decode files and feed the audio queue (src/ffmpeg_file_source.cc), at the
    granularity of their single checks. A thread pushes first and then waits; the other decoding
    threads, the audio thread, the thread that stops a source and anybody clearing the queue may run
    between any two of its steps. Switching from one file to another lets two of them run at once. */
module AudioProducer {
  import opened Arithmetic
  import opened SyntheticAudio

  const PRODUCER_RATE := 48000
  const PRODUCER_LIMIT := PRODUCER_RATE * 2

  /** Where a decoding thread stands: before `running_` in its loop, between that and the next push,
      before `running_` or the queue length in its wait loop, or at its end. */
  datatype Place = LoopHead | Decoding | WaitRunning | WaitQueue | Ended

  datatype Thread = Thread(place: Place, running: bool)

  datatype Playback = Playback(audio: Ledger, threads: seq<Thread>)

  datatype Happening =
    | Begin(thread: nat)                          // a new source starts and clears the queue
    | Proceed(thread: nat)                        // the next check of a decoding thread
    | Decode(thread: nat, samples: seq<Sample>)   // no samples: a video frame, or nothing converted
    | Halt(thread: nat)
    | Device(event: Event)

  /** At most `m` decoding threads at any time, `c` channels, and no push longer than `longest` frames. */
  datatype Setup = Setup(m: nat, c: nat, longest: nat)

  const IDLE := Thread(Ended, false)

  function Silence(m: nat): Playback {
    Playback(Start(PRODUCER_RATE), Repeat(m, IDLE))
  }

  predicate Enabled(p: Playback, h: Happening, x: Setup)
    requires x.c > 0
  {
    match h
    case Begin(i) => i < |p.threads| && p.threads[i].place == Ended
    case Proceed(i) => i < |p.threads| && p.threads[i].place !in {Decoding, Ended}
    case Decode(i, samples) =>
      i < |p.threads| && p.threads[i].place == Decoding && Aligned(|samples|, x.c) && |samples| <= x.longest * x.c
    case Halt(i) => i < |p.threads|
    case Device(e) => e.Tick? || e.Clear?
  }

  /** The outcome of a check of `running_` or of the queue length. */
  function Proceeded(t: Thread, frames: nat): Thread {
    match t.place
    case LoopHead => t.(place := if t.running then Decoding else Ended)
    case WaitRunning => t.(place := if t.running then WaitQueue else LoopHead)
    case WaitQueue => t.(place := if frames > PRODUCER_LIMIT then WaitRunning else LoopHead)
    case _ => t
  }

  function Happened(p: Playback, h: Happening, x: Setup): Playback
    requires x.c > 0 && Enabled(p, h, x)
  {
    match h
    case Begin(i) => Playback(Apply(p.audio, Clear, x.c), p.threads[i := Thread(LoopHead, true)])
    case Proceed(i) => p.(threads := p.threads[i := Proceeded(p.threads[i], |p.audio.queue| / x.c)])
    case Decode(i, samples) =>
      if samples == [] then p.(threads := p.threads[i := p.threads[i].(place := LoopHead)])
      else Playback(Apply(p.audio, Push(samples), x.c), p.threads[i := p.threads[i].(place := WaitRunning)])
    case Halt(i) => p.(threads := p.threads[i := p.threads[i].(running := false)])
    case Device(e) => p.(audio := Apply(p.audio, e, x.c))
  }

  ghost predicate Next(p: Playback, q: Playback, x: Setup)
    requires x.c > 0
  {
    exists h :: Enabled(p, h, x) && q == Happened(p, h, x)
  }

  ghost predicate StepAt(r: seq<Playback>, i: nat, x: Setup)
    requires x.c > 0 && i + 1 < |r|
  {
    Next(r[i], r[i + 1], x)
  }

  ghost predicate Run(r: seq<Playback>, x: Setup)
    requires x.c > 0
  {
    |r| > 0 && r[0] == Silence(x.m) && forall i | 0 <= i < |r| - 1 :: StepAt(r, i, x)
  }

  // ----- What the wait loops keep -----

  /** The thread may still push once without waiting again. */
  predicate MayPush(t: Thread) {
    t.place.Decoding? || (t.place.LoopHead? && t.running)
  }

  /** What the threads may still push without waiting, `w` samples each. */
  function Credit(threads: seq<Thread>, w: nat): nat {
    if threads == [] then 0 else (if MayPush(threads[0]) then w else 0) + Credit(threads[1..], w)
  }

  lemma {:induction false} CreditChanges(threads: seq<Thread>, i: nat, t: Thread, w: nat)
    requires i < |threads|
    ensures Credit(threads[i := t], w) + (if MayPush(threads[i]) then w else 0) ==
            Credit(threads, w) + (if MayPush(t) then w else 0)
  {
    if i == 0 {
      assert threads[0 := t][1..] == threads[1..];
    } else {
      CreditChanges(threads[1..], i - 1, t, w);
      assert threads[i := t][1..] == threads[1..][i - 1 := t];
    }
  }

  lemma {:induction false} CreditAtMost(threads: seq<Thread>, w: nat)
    ensures Credit(threads, w) <= |threads| * w
  {
    if threads != [] {
      CreditAtMost(threads[1..], w);
      assert |threads| * w == (|threads| - 1) * w + w;
    }
  }

  /** Queued and still to come together exceed the limit by no more than one push of each thread. */
  predicate Bounded(p: Playback, x: Setup) {
    |p.audio.queue| + Credit(p.threads, x.longest * x.c) <= PRODUCER_LIMIT * x.c + x.m * (x.longest * x.c)
  }

  predicate Inv(p: Playback, x: Setup)
    requires x.c > 0
  {
    && |p.threads| == x.m && Accounted(p.audio, x.c) && p.audio.rate == PRODUCER_RATE
    && Dropped !in p.audio.fates && Bounded(p, x)
  }

  lemma WholeFrames(n: nat, c: nat, limit: nat)
    requires c > 0 && Aligned(n, c)
    ensures n / c <= limit <==> n <= limit * c
  {
    var q := n / c;
    assert n == q * c;
    if q > limit {
      AtLeast(q - limit, c);
      Distance(q, limit, c);
    } else {
      Monotone(q, limit, c);
    }
  }

  lemma QueueAligned(l: Ledger, c: nat)
    requires c > 0 && Accounted(l, c)
    ensures Aligned(|l.queue|, c)
  {
    AlignedSum(|l.pushed|, |l.fates|, c);
  }

  /** The pushes of all threads together are at most two seconds long. */
  predicate Fits(x: Setup) {
    x.m * x.longest <= PRODUCER_LIMIT
  }

  lemma FitsInSamples(x: Setup)
    requires Fits(x)
    ensures x.m * (x.longest * x.c) <= PRODUCER_LIMIT * x.c
  {
    assert x.m * (x.longest * x.c) == (x.m * x.longest) * x.c;
    Monotone(x.m * x.longest, PRODUCER_LIMIT, x.c);
  }

  lemma PushFits(l: Ledger, samples: seq<Sample>, c: nat)
    requires c > 0 && l.rate == PRODUCER_RATE
    requires |l.queue| + |samples| <= 2 * (PRODUCER_LIMIT * c)
    ensures Pushed(l, samples, c).fates == l.fates
  {
    FourSeconds(PRODUCER_RATE, c);
    assert Pushed(l, samples, c).fates == l.fates + [];
  }

  lemma DecodeKeepsInv(p: Playback, i: nat, samples: seq<Sample>, x: Setup)
    requires x.c > 0 && Fits(x) && Inv(p, x) && Enabled(p, Decode(i, samples), x)
    ensures Inv(Happened(p, Decode(i, samples), x), x)
  {
    var w := x.longest * x.c;
    var place := if samples == [] then LoopHead else WaitRunning;
    CreditChanges(p.threads, i, p.threads[i].(place := place), w);
    FitsInSamples(x);
    if samples != [] {
      PushFits(p.audio, samples, x.c);
      PushAccounts(p.audio, samples, x.c);
    }
  }

  /** Whoever gets leave to push again while at most two seconds are queued. */
  lemma LeaveKeepsBounded(p: Playback, i: nat, t: Thread, x: Setup)
    requires |p.threads| == x.m && i < x.m && Bounded(p, x)
    requires MayPush(t) && !MayPush(p.threads[i]) ==> |p.audio.queue| <= PRODUCER_LIMIT * x.c
    ensures Bounded(p.(threads := p.threads[i := t]), x)
  {
    CreditChanges(p.threads, i, t, x.longest * x.c);
    CreditAtMost(p.threads[i := t], x.longest * x.c);
  }

  lemma ProceedKeepsInv(p: Playback, i: nat, x: Setup)
    requires x.c > 0 && Inv(p, x) && Enabled(p, Proceed(i), x)
    ensures Inv(Happened(p, Proceed(i), x), x)
  {
    QueueAligned(p.audio, x.c);
    WholeFrames(|p.audio.queue|, x.c, PRODUCER_LIMIT);
    LeaveKeepsBounded(p, i, Proceeded(p.threads[i], |p.audio.queue| / x.c), x);
  }

  lemma BeginKeepsInv(p: Playback, i: nat, x: Setup)
    requires x.c > 0 && Inv(p, x) && Enabled(p, Begin(i), x)
    ensures Inv(Happened(p, Begin(i), x), x)
  {
    ApplyAccounts(p.audio, Clear, x.c);
    LeaveKeepsBounded(p.(audio := Apply(p.audio, Clear, x.c)), i, Thread(LoopHead, true), x);
  }

  lemma HappenedKeepsInv(p: Playback, h: Happening, x: Setup)
    requires x.c > 0 && Fits(x) && Inv(p, x) && Enabled(p, h, x)
    ensures Inv(Happened(p, h, x), x)
  {
    match h
    case Begin(i) => BeginKeepsInv(p, i, x);
    case Proceed(i) => ProceedKeepsInv(p, i, x);
    case Decode(i, samples) => DecodeKeepsInv(p, i, samples, x);
    case Halt(i) => LeaveKeepsBounded(p, i, p.threads[i].(running := false), x);
    case Device(e) => ApplyAccounts(p.audio, e, x.c);
  }

  lemma NextKeepsInv(p: Playback, q: Playback, x: Setup)
    requires x.c > 0 && Fits(x) && Inv(p, x) && Next(p, q, x)
    ensures Inv(q, x)
  {
    var h :| Enabled(p, h, x) && q == Happened(p, h, x);
    HappenedKeepsInv(p, h, x);
  }

  lemma {:induction false} NobodyMayPush(m: nat, w: nat)
    ensures Credit(Repeat(m, IDLE), w) == 0
  {
    if m > 0 {
      assert Repeat(m, IDLE)[1..] == Repeat(m - 1, IDLE);
      NobodyMayPush(m - 1, w);
    }
  }

  lemma SilenceInv(x: Setup)
    requires x.c > 0
    ensures Inv(Silence(x.m), x)
  {
    AtMostPeak(Start(PRODUCER_RATE), x.c);
    Multiple(0, x.c);
    NobodyMayPush(x.m, x.longest * x.c);
  }

  /** At 48 kHz, if one push of each decoding thread makes at most two seconds together, pushing first
      and waiting afterwards never makes the four-second limit drop a sample, whatever the threads
      and everybody else do in between. */
  lemma {:induction false} BackPressureSuffices(r: seq<Playback>, n: nat, x: Setup)
    requires x.c > 0 && Fits(x) && Run(r, x) && n < |r|
    ensures Dropped !in r[n].audio.fates
    ensures Inv(r[n], x)
  {
    if n > 0 {
      BackPressureSuffices(r, n - 1, x);
      assert StepAt(r, n - 1, x);
      NextKeepsInv(r[n - 1], r[n], x);
    } else {
      SilenceInv(x);
    }
  }

  // ----- Two seconds is the exact bound -----

  lemma OneStepMore(r: seq<Playback>, h: Happening, x: Setup) returns (r': seq<Playback>)
    requires x.c > 0 && Run(r, x) && Enabled(r[|r| - 1], h, x)
    ensures Run(r', x) && r'[|r'| - 1] == Happened(r[|r| - 1], h, x)
  {
    r' := r + [Happened(r[|r| - 1], h, x)];
    forall i | 0 <= i < |r'| - 1 ensures StepAt(r', i, x) {
      if i < |r| - 1 {
        assert StepAt(r, i, x);
      } else {
        assert Enabled(r'[i], h, x) && r'[i + 1] == Happened(r'[i], h, x);
      }
    }
  }

  const READY := Thread(Decoding, true)
  const WAITING := Thread(WaitRunning, true)

  /** The first `k` threads at `front`, the others at `back`. */
  function Split(m: nat, k: nat, front: Thread, back: Thread): seq<Thread>
    requires k <= m
  {
    Repeat(k, front) + Repeat(m - k, back)
  }

  lemma SplitMoves(m: nat, k: nat, front: Thread, back: Thread)
    requires k < m
    ensures Split(m, k, front, back)[k] == back
    ensures Split(m, k, front, back)[k := front] == Split(m, k + 1, front, back)
  {
  }

  /** Everybody starts while nothing is queued, and is about to push. */
  lemma {:induction false} EverybodyReady(x: Setup, k: nat) returns (r: seq<Playback>)
    requires x.c > 0 && k <= x.m
    ensures Run(r, x) && r[|r| - 1] == Playback(Start(PRODUCER_RATE), Split(x.m, k, READY, IDLE))
  {
    if k == 0 {
      r := [Silence(x.m)];
      assert Split(x.m, 0, READY, IDLE) == Repeat(x.m, IDLE);
    } else {
      r := EverybodyReady(x, k - 1);
      var threads := r[|r| - 1].threads;
      SplitMoves(x.m, k - 1, READY, IDLE);
      r := OneStepMore(r, Begin(k - 1), x);
      assert Apply(Start(PRODUCER_RATE), Clear, x.c) == Start(PRODUCER_RATE);
      r := OneStepMore(r, Proceed(k - 1), x);
      assert threads[k - 1 := Thread(LoopHead, true)][k - 1 := READY] == threads[k - 1 := READY];
    }
  }

  /** Nothing was delivered or cleared, and exactly `n` samples were pushed. */
  predicate OnlyPushed(l: Ledger, n: nat, c: nat)
    requires c > 0
  {
    && Accounted(l, c) && l.rate == l.peak == PRODUCER_RATE
    && |l.pushed| == n && forall fate <- l.fates :: fate == Dropped
  }

  lemma PushOnlyPushes(l: Ledger, n: nat, more: nat, c: nat)
    requires c > 0 && OnlyPushed(l, n, c) && Aligned(more, c)
    ensures OnlyPushed(Pushed(l, Repeat(more, 0), c), n + more, c)
    ensures n + more <= 2 * (PRODUCER_LIMIT * c) && l.fates == [] ==> Pushed(l, Repeat(more, 0), c).fates == []
  {
    PushAccounts(l, Repeat(more, 0), c);
    if n + more <= 2 * (PRODUCER_LIMIT * c) && l.fates == [] {
      PushFits(l, Repeat(more, 0), c);
    }
  }

  /** The first thread pushes `more` samples and, two seconds not being exceeded, comes round again. */
  lemma Round(r: seq<Playback>, n: nat, more: nat, x: Setup) returns (r': seq<Playback>)
    requires x.c > 0 && x.m > 0 && Run(r, x) && r[|r| - 1].threads == Repeat(x.m, READY)
    requires OnlyPushed(r[|r| - 1].audio, n, x.c) && r[|r| - 1].audio.fates == []
    requires 0 < more <= x.longest * x.c && Aligned(more, x.c) && n + more <= PRODUCER_LIMIT * x.c
    ensures Run(r', x) && r'[|r'| - 1].threads == Repeat(x.m, READY)
    ensures OnlyPushed(r'[|r'| - 1].audio, n + more, x.c) && r'[|r'| - 1].audio.fates == []
  {
    var threads := Repeat(x.m, READY);
    PushOnlyPushes(r[|r| - 1].audio, n, more, x.c);
    r' := OneStepMore(r, Decode(0, Repeat(more, 0)), x);
    var audio := r'[|r'| - 1].audio;
    QueueAligned(audio, x.c);
    WholeFrames(|audio.queue|, x.c, PRODUCER_LIMIT);
    r' := OneStepMore(r', Proceed(0), x);
    r' := OneStepMore(r', Proceed(0), x);
    r' := OneStepMore(r', Proceed(0), x);
    assert r'[|r'| - 1].threads == threads;
  }

  /** The first thread fills the queue up to two seconds, with everybody still about to push. */
  lemma {:induction false} TwoSecondsQueued(r: seq<Playback>, n: nat, x: Setup) returns (r': seq<Playback>)
    requires x.c > 0 && x.m > 0 && x.longest > 0 && Run(r, x) && r[|r| - 1].threads == Repeat(x.m, READY)
    requires OnlyPushed(r[|r| - 1].audio, n, x.c) && r[|r| - 1].audio.fates == []
    requires n <= PRODUCER_LIMIT * x.c && Aligned(n, x.c)
    ensures Run(r', x) && r'[|r'| - 1].threads == Repeat(x.m, READY)
    ensures OnlyPushed(r'[|r'| - 1].audio, PRODUCER_LIMIT * x.c, x.c)
    decreases PRODUCER_LIMIT * x.c - n
  {
    if n == PRODUCER_LIMIT * x.c {
      r' := r;
    } else {
      Multiple(x.longest, x.c);
      Multiple(PRODUCER_LIMIT, x.c);
      AtLeast(x.longest, x.c);
      AlignedSum(PRODUCER_LIMIT * x.c, n, x.c);
      var more := Min(x.longest * x.c, PRODUCER_LIMIT * x.c - n);
      AlignedSum(n, more, x.c);
      r' := Round(r, n, more, x);
      r' := TwoSecondsQueued(r', n + more, x);
    }
  }

  lemma NextPushes(r: seq<Playback>, k: nat, n: nat, w: nat, x: Setup) returns (r': seq<Playback>)
    requires x.c > 0 && x.longest > 0 && k < x.m && w == x.longest * x.c
    requires Run(r, x) && r[|r| - 1].threads == Split(x.m, k, WAITING, READY) && OnlyPushed(r[|r| - 1].audio, n, x.c)
    ensures Run(r', x) && r'[|r'| - 1].threads == Split(x.m, k + 1, WAITING, READY)
    ensures OnlyPushed(r'[|r'| - 1].audio, n + w, x.c)
  {
    SplitMoves(x.m, k, WAITING, READY);
    Multiple(x.longest, x.c);
    AtLeast(x.longest, x.c);
    PushOnlyPushes(r[|r| - 1].audio, n, w, x.c);
    r' := OneStepMore(r, Decode(k, Repeat(w, 0)), x);
  }

  /** The first `k` threads push as much as they may. */
  lemma {:induction false} EverybodyPushes(r: seq<Playback>, k: nat, x: Setup) returns (r': seq<Playback>)
    requires x.c > 0 && x.longest > 0 && k <= x.m && Run(r, x) && r[|r| - 1].threads == Repeat(x.m, READY)
    requires OnlyPushed(r[|r| - 1].audio, PRODUCER_LIMIT * x.c, x.c)
    ensures Run(r', x) && r'[|r'| - 1].threads == Split(x.m, k, WAITING, READY)
    ensures OnlyPushed(r'[|r'| - 1].audio, PRODUCER_LIMIT * x.c + k * (x.longest * x.c), x.c)
  {
    if k == 0 {
      r' := r;
      assert Split(x.m, 0, WAITING, READY) == Repeat(x.m, READY);
    } else {
      var w := x.longest * x.c;
      r' := EverybodyPushes(r, k - 1, x);
      r' := NextPushes(r', k - 1, PRODUCER_LIMIT * x.c + (k - 1) * w, w, x);
      Distance(k, k - 1, w);
    }
  }

  /** More was pushed than fits, and nothing was taken out. */
  lemma OverflowDrops(l: Ledger, n: nat, c: nat)
    requires c > 0 && OnlyPushed(l, n, c) && n > 2 * (PRODUCER_LIMIT * c)
    ensures Dropped in l.fates
  {
    assert |l.fates| + |l.queue| == n;
    assert 4 * PRODUCER_RATE * c == 2 * (PRODUCER_LIMIT * c);
    assert l.fates[0] in l.fates;
  }

  /** When the pushes of all threads together may exceed two seconds, there is a run that drops a sample. */
  lemma LongerPushesDrop(x: Setup) returns (r: seq<Playback>)
    requires x.c > 0 && !Fits(x)
    ensures Run(r, x) && Dropped in r[|r| - 1].audio.fates
  {
    assert x.m > 0 && x.longest > 0;
    r := EverybodyReady(x, x.m);
    assert Split(x.m, x.m, READY, IDLE) == Repeat(x.m, READY);
    AtMostPeak(Start(PRODUCER_RATE), x.c);
    Multiple(0, x.c);
    Monotone(0, PRODUCER_LIMIT, x.c);
    r := TwoSecondsQueued(r, 0, x);
    r := EverybodyPushes(r, x.m, x);
    AtLeast(x.m * x.longest - PRODUCER_LIMIT, x.c);
    Distance(x.m * x.longest, PRODUCER_LIMIT, x.c);
    assert x.m * (x.longest * x.c) == (x.m * x.longest) * x.c;
    OverflowDrops(r[|r| - 1].audio, PRODUCER_LIMIT * x.c + x.m * (x.longest * x.c), x.c);
  }

  ghost predicate NeverDrops(x: Setup)
    requires x.c > 0
  {
    forall r: seq<Playback>, n: nat | Run(r, x) && n < |r| :: Dropped !in r[n].audio.fates
  }

  /** The wait loops protect every sample exactly when one push of each decoding thread makes at most
      two seconds together: two seconds each for one thread, one second each while a file replaces
      another. */
  lemma NeverDropsIff(x: Setup)
    requires x.c > 0
    ensures NeverDrops(x) <==> x.m * x.longest <= PRODUCER_LIMIT
  {
    if Fits(x) {
      forall r: seq<Playback>, n: nat | Run(r, x) && n < |r| ensures Dropped !in r[n].audio.fates {
        BackPressureSuffices(r, n, x);
      }
    } else {
      var r := LongerPushesDrop(x);
      assert Dropped in r[|r| - 1].audio.fates;
    }
  }
}
