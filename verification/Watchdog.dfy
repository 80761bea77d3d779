/** The ICE disconnect watchdog at the granularity of single thread steps
    (src/ice_disconnect_watchdog.cc).

    `Arm` and `Disarm` hold the mutex from their first to their last step, also while they join the
    old thread; the two checks of a watchdog thread and the start of its callback are separate
    steps that take no lock. Both operations may be called from inside a callback. */
module Watchdog {
  import opened Wrappers

  /** `Sleeping` until it has passed the stop check, `Checked` until it has passed the generation
      check, `Ready` until the callback starts. */
  datatype Phase = Sleeping | Checked | Ready | Running | Finished

  datatype Thread = Thread(generation: nat, stop: bool, phase: Phase)

  /** An `Arm` or `Disarm` in progress: `joining` says that the old thread is still to be joined. */
  datatype Operation = Operation(arms: bool, joining: bool)

  /** History: a callback started, or an operation returned; `armed` threads existed by then. */
  datatype Entry =
    | Started(thread: nat)
    | Armed(thread: nat)
    | Disarmed(armed: nat)

  datatype Dog = Dog(
    generation: nat,
    handle: Option<nat>,      // watchdog_thread_, when joinable
    threads: seq<Thread>,
    holder: Option<Operation>,  // who holds mutex_
    log: seq<Entry>)

  const QUIET := Dog(0, None, [], None, [])

  datatype Event =
    | Begin(arms: bool, caller: Option<nat>)  // lock, bump the generation, request the stop
    | Join                                    // the old thread has ended
    | Finish                                  // start the new thread if arming; return
    | PassStop(thread: nat)
    | PassGeneration(thread: nat)
    | StartCallback(thread: nat)
    | EndCallback(thread: nat)

  predicate In(d: Dog, t: nat, phase: Phase) {
    t < |d.threads| && d.threads[t].phase == phase
  }

  predicate Possible(d: Dog, e: Event) {
    match e
    case Begin(_, caller) => d.holder.None? && (caller.Some? ==> In(d, caller.value, Running))
    case Join => d.holder.Some? && d.holder.value.joining && d.handle.Some? && In(d, d.handle.value, Finished)
    case Finish => d.holder.Some? && !d.holder.value.joining
    case PassStop(t) => In(d, t, Sleeping)
    case PassGeneration(t) => In(d, t, Checked)
    case StartCallback(t) => In(d, t, Ready)
    case EndCallback(t) => In(d, t, Running)
  }

  function Become(d: Dog, t: nat, phase: Phase): Dog
    requires t < |d.threads|
  {
    d.(threads := d.threads[t := d.threads[t].(phase := phase)])
  }

  /** The part of `DisarmLocked` before the join; a thread that disarms itself is detached. */
  function Begun(d: Dog, arms: bool, caller: Option<nat>): Dog {
    var bumped := d.(generation := d.generation + 1);
    if d.handle.None? || d.handle.value >= |d.threads| then bumped.(holder := Some(Operation(arms, false)))
    else
      var h := d.handle.value;
      var stopped := bumped.(threads := d.threads[h := d.threads[h].(stop := true)]);
      if caller == Some(h) then stopped.(handle := None, holder := Some(Operation(arms, false)))
      else stopped.(holder := Some(Operation(arms, true)))
  }

  function Returned(d: Dog): Dog
    requires d.holder.Some?
  {
    if d.holder.value.arms then
      var g := d.generation + 1;
      Dog(g, Some(|d.threads|), d.threads + [Thread(g, false, Sleeping)], None, d.log + [Armed(|d.threads|)])
    else d.(holder := None, log := d.log + [Disarmed(|d.threads|)])
  }

  function Apply(d: Dog, e: Event): Dog
    requires Possible(d, e)
  {
    match e
    case Begin(arms, caller) => Begun(d, arms, caller)
    case Join => d.(handle := None, holder := Some(d.holder.value.(joining := false)))
    case Finish => Returned(d)
    case PassStop(t) => Become(d, t, if d.threads[t].stop then Finished else Checked)
    case PassGeneration(t) => Become(d, t, if d.threads[t].generation != d.generation then Finished else Ready)
    case StartCallback(t) => Become(d, t, Running).(log := d.log + [Started(t)])
    case EndCallback(t) => Become(d, t, Finished)
  }

  ghost predicate Next(d: Dog, d': Dog) {
    exists e :: Possible(d, e) && d' == Apply(d, e)
  }

  ghost predicate StepAt(r: seq<Dog>, i: nat)
    requires i + 1 < |r|
  {
    Next(r[i], r[i + 1])
  }

  ghost predicate Run(r: seq<Dog>) {
    |r| > 0 && r[0] == QUIET && forall i | 0 <= i < |r| - 1 :: StepAt(r, i)
  }

  predicate Before(phase: Phase) {
    phase in {Sleeping, Checked, Ready}
  }

  /** The only thread that may still start its callback is the one the handle refers to, and it is
      the newest; while an operation is past its join there is none. */
  predicate Inv(d: Dog) {
    && (d.handle.Some? ==> d.handle.value + 1 == |d.threads|)
    && (forall t | 0 <= t < |d.threads| :: Before(d.threads[t].phase) ==> d.handle == Some(t))
    && (d.holder.Some? ==> (d.holder.value.joining <==> d.handle.Some?))
  }

  /** A callback has started at most once, and exactly for threads past their start. */
  predicate StartsSound(d: Dog) {
    && (forall i | 0 <= i < |d.log| :: d.log[i].Started? ==>
          d.log[i].thread < |d.threads| && !Before(d.threads[d.log[i].thread].phase))
    && (forall i, j | 0 <= i < j < |d.log| ::
          d.log[i].Started? && d.log[j].Started? ==> d.log[i].thread != d.log[j].thread)
  }

  /** What a returned operation still allows to start: the thread it armed, or nothing. */
  predicate Allowed(entry: Entry, t: nat) {
    match entry
    case Armed(n) => t >= n
    case Disarmed(n) => t >= n
    case Started(_) => true
  }

  predicate ReturnsSound(d: Dog) {
    && (forall i | 0 <= i < |d.log| :: match d.log[i]
          case Armed(n) => n < |d.threads| && (d.handle.Some? ==> d.handle.value >= n)
          case Disarmed(n) => n <= |d.threads| && (d.handle.Some? ==> d.handle.value >= n)
          case Started(_) => true)
    && (forall i, j | 0 <= i < j < |d.log| :: d.log[j].Started? ==> Allowed(d.log[i], d.log[j].thread))
  }

  lemma ApplyKeepsInv(d: Dog, e: Event)
    requires Inv(d) && Possible(d, e)
    ensures Inv(Apply(d, e))
  {
  }

  lemma ApplyKeepsStarts(d: Dog, e: Event)
    requires Inv(d) && StartsSound(d) && Possible(d, e)
    ensures StartsSound(Apply(d, e))
  {
  }

  lemma ApplyKeepsReturns(d: Dog, e: Event)
    requires Inv(d) && ReturnsSound(d) && Possible(d, e)
    ensures ReturnsSound(Apply(d, e))
  {
  }

  lemma {:induction false} RunKeeps(r: seq<Dog>, n: nat)
    requires Run(r) && n < |r|
    ensures Inv(r[n]) && StartsSound(r[n]) && ReturnsSound(r[n])
  {
    if n > 0 {
      RunKeeps(r, n - 1);
      assert StepAt(r, n - 1);
      NextKeeps(r[n - 1], r[n]);
    }
  }

  lemma NextKeeps(d: Dog, d': Dog)
    requires Inv(d) && StartsSound(d) && ReturnsSound(d) && Next(d, d')
    ensures Inv(d') && StartsSound(d') && ReturnsSound(d')
  {
    var e :| Possible(d, e) && d' == Apply(d, e);
    ApplyKeepsInv(d, e);
    ApplyKeepsStarts(d, e);
    ApplyKeepsReturns(d, e);
  }

  /** In every interleaving each `Arm` runs its callback at most once. */
  lemma CallbackStartsAtMostOnce(r: seq<Dog>, n: nat, i: nat, j: nat, t: nat)
    requires Run(r) && n < |r| && i < |r[n].log| && j < |r[n].log|
    requires r[n].log[i] == Started(t) && r[n].log[j] == Started(t)
    ensures i == j
  {
    RunKeeps(r, n);
  }

  /** In every interleaving, once an `Arm` or `Disarm` has returned, no callback of an earlier `Arm`
      starts any more: whatever starts later belongs to the thread just armed or to a later one.
      This includes operations called from inside a callback. */
  lemma NoStaleCallback(r: seq<Dog>, n: nat, i: nat, j: nat, t: nat)
    requires Run(r) && n < |r| && i < j < |r[n].log| && r[n].log[j] == Started(t)
    ensures r[n].log[i].Armed? ==> t >= r[n].log[i].thread
    ensures r[n].log[i].Disarmed? ==> t >= r[n].log[i].armed
  {
    RunKeeps(r, n);
    assert Allowed(r[n].log[i], r[n].log[j].thread);
  }

  // ----- Which callbacks do start -----

  /** A run together with the events that made it. */
  predicate Trace(r: seq<Dog>, es: seq<Event>) {
    && |r| == |es| + 1 && r[0] == QUIET
    && forall i | 0 <= i < |es| :: Possible(r[i], es[i]) && r[i + 1] == Apply(r[i], es[i])
  }

  /** A thread is stopped or outdated as soon as an operation began after it was armed, and not before:
      the thread of the handle, while no operation is in progress, is neither. */
  predicate Fresh(d: Dog, t: nat)
    requires t < |d.threads|
  {
    var untouched := d.handle == Some(t) && d.holder.None?;
    && (d.threads[t].generation == d.generation <==> untouched)
    && (d.threads[t].stop <==> !untouched)
    && d.threads[t].generation <= d.generation
  }

  predicate AllFresh(d: Dog) {
    Inv(d) && forall t | 0 <= t < |d.threads| :: Fresh(d, t)
  }

  lemma ApplyKeepsFresh(d: Dog, e: Event)
    requires AllFresh(d) && Possible(d, e)
    ensures AllFresh(Apply(d, e))
  {
    var d' := Apply(d, e);
    ApplyKeepsInv(d, e);
    forall t | 0 <= t < |d'.threads| ensures Fresh(d', t) {
      if t < |d.threads| {
        assert Fresh(d, t);
      }
    }
  }

  lemma {:induction false} TraceKeepsFresh(r: seq<Dog>, es: seq<Event>, n: nat)
    requires Trace(r, es) && n <= |es|
    ensures AllFresh(r[n])
  {
    if n > 0 {
      TraceKeepsFresh(r, es, n - 1);
      assert Possible(r[n - 1], es[n - 1]) && r[n] == Apply(r[n - 1], es[n - 1]);
      ApplyKeepsFresh(r[n - 1], es[n - 1]);
    }
  }

  /** Step `a` is the return of an `Arm` that started thread `t`. */
  predicate Arms(r: seq<Dog>, es: seq<Event>, a: nat, t: nat)
    requires a < |es| < |r|
  {
    es[a] == Finish && r[a].holder.Some? && r[a].holder.value.arms && t == |r[a].threads|
  }

  /** No operation began between the steps `a` and `n`. */
  predicate Undisturbed(es: seq<Event>, a: nat, n: nat)
    requires n <= |es|
  {
    forall i | a < i < n :: !es[i].Begin?
  }

  lemma StepTouches(d: Dog, e: Event, t: nat)
    requires AllFresh(d) && Possible(d, e) && t < |d.threads|
    ensures t < |Apply(d, e).threads|
    ensures Apply(d, e).threads[t].stop <==> d.threads[t].stop || e.Begin?
  {
    assert Fresh(d, t);
  }

  /** A thread is asked to stop exactly when an operation began since it was armed. */
  lemma {:induction false} StoppedIffDisturbed(r: seq<Dog>, es: seq<Event>, a: nat, n: nat, t: nat)
    requires Trace(r, es) && a < n <= |es| && Arms(r, es, a, t)
    ensures t < |r[n].threads| && (r[n].threads[t].stop <==> !Undisturbed(es, a, n))
  {
    assert Possible(r[n - 1], es[n - 1]) && r[n] == Apply(r[n - 1], es[n - 1]);
    if a + 1 < n {
      StoppedIffDisturbed(r, es, a, n - 1, t);
      TraceKeepsFresh(r, es, n - 1);
      StepTouches(r[n - 1], es[n - 1], t);
    }
  }

  /** Both checks of a thread let it pass exactly when no operation began since it was armed. */
  lemma PassesIffUndisturbed(r: seq<Dog>, es: seq<Event>, a: nat, n: nat, t: nat)
    requires Trace(r, es) && a < n < |es| && Arms(r, es, a, t)
    requires es[n] == PassStop(t) || es[n] == PassGeneration(t)
    ensures In(r[n + 1], t, if Undisturbed(es, a, n)
                            then (if es[n] == PassStop(t) then Checked else Ready)
                            else Finished)
  {
    StoppedIffDisturbed(r, es, a, n, t);
    TraceKeepsFresh(r, es, n);
    assert Fresh(r[n], t);
    assert r[n + 1] == Apply(r[n], es[n]);
  }

  /** A watchdog that is left alone does its work: if no operation began since the `Arm` returned and
      its thread has not passed its deadline yet, then the deadline, the two checks and the callback
      can follow each other, and the callback starts. */
  lemma LeftAloneFires(r: seq<Dog>, es: seq<Event>, a: nat, n: nat, t: nat)
    requires Trace(r, es) && a < n <= |es| && Arms(r, es, a, t)
    requires Undisturbed(es, a, n) && In(r[n], t, Sleeping)
    ensures Possible(r[n], PassStop(t))
    ensures var d := Apply(r[n], PassStop(t));
            Possible(d, PassGeneration(t)) &&
            var d' := Apply(d, PassGeneration(t));
            Possible(d', StartCallback(t)) && Apply(d', StartCallback(t)).log == r[n].log + [Started(t)]
  {
    StoppedIffDisturbed(r, es, a, n, t);
    TraceKeepsFresh(r, es, n);
    assert Fresh(r[n], t);
  }

  /** An operation waits for the old thread to end exactly when there is one and it does not run the
      operation itself; called from its own callback it can return at once, so it never waits for itself. */
  lemma NeverJoinsItself(r: seq<Dog>, es: seq<Event>, n: nat, arms: bool, caller: Option<nat>)
    requires Trace(r, es) && n < |es| && es[n] == Begin(arms, caller)
    ensures r[n + 1].holder.Some? && r[n + 1].holder.value.arms == arms
    ensures r[n + 1].holder.value.joining <==> r[n].handle.Some? && r[n].handle != caller
    ensures r[n].handle == caller ==> Possible(r[n + 1], Finish)
  {
    TraceKeepsFresh(r, es, n);
    assert Possible(r[n], es[n]) && r[n + 1] == Apply(r[n], es[n]);
  }

  /** Where a thread stands after its generation check: it passed it at some step before which no
      operation had begun since it was armed. */
  ghost predicate PassedAt(r: seq<Dog>, es: seq<Event>, a: nat, j: nat, t: nat)
    requires |es| < |r|
  {
    a < j < |es| && Arms(r, es, a, t) && es[j] == PassGeneration(t) && Undisturbed(es, a, j)
  }

  lemma {:induction false} ArmedSomewhere(r: seq<Dog>, es: seq<Event>, n: nat, t: nat) returns (a: nat)
    requires Trace(r, es) && n <= |es| && t < |r[n].threads|
    ensures a < n && Arms(r, es, a, t)
  {
    assert n > 0;
    assert Possible(r[n - 1], es[n - 1]) && r[n] == Apply(r[n - 1], es[n - 1]);
    if t < |r[n - 1].threads| {
      a := ArmedSomewhere(r, es, n - 1, t);
    } else {
      a := n - 1;
    }
  }

  /** How a thread came to be ready. */
  lemma {:induction false} ReadyHasPassed(r: seq<Dog>, es: seq<Event>, n: nat, t: nat) returns (a: nat, j: nat)
    requires Trace(r, es) && n <= |es| && In(r[n], t, Ready)
    ensures j < n && PassedAt(r, es, a, j, t)
  {
    assert n > 0;
    assert Possible(r[n - 1], es[n - 1]) && r[n] == Apply(r[n - 1], es[n - 1]);
    if In(r[n - 1], t, Ready) {
      a, j := ReadyHasPassed(r, es, n - 1, t);
    } else {
      j := n - 1;
      a := ArmedSomewhere(r, es, n - 1, t);
      assert es[j] == PassGeneration(t);
      PassesIffUndisturbed(r, es, a, j, t);
    }
  }

  /** A callback that starts belongs to an `Arm` after which no operation had begun by the time its
      thread passed its generation check. */
  lemma StartedWasUndisturbed(r: seq<Dog>, es: seq<Event>, n: nat, t: nat) returns (a: nat, j: nat)
    requires Trace(r, es) && n < |es| && es[n] == StartCallback(t)
    ensures j < n && PassedAt(r, es, a, j, t)
  {
    assert Possible(r[n], es[n]);
    a, j := ReadyHasPassed(r, es, n, t);
  }

  function Armings(log: seq<Entry>): nat {
    if log == [] then 0 else Armings(log[..|log| - 1]) + (if log[|log| - 1].Armed? then 1 else 0)
  }

  /** The history names threads by the order in which they were armed. */
  predicate Numbered(d: Dog) {
    && |d.threads| == Armings(d.log)
    && forall i | 0 <= i < |d.log| :: match d.log[i]
         case Armed(t) => t == Armings(d.log[..i])
         case Disarmed(n) => n == Armings(d.log[..i])
         case Started(t) => t < Armings(d.log[..i])
  }

  lemma LogStaysNumbered(d: Dog, d': Dog, entry: Entry)
    requires Numbered(d) && d'.log == d.log + [entry]
    requires |d'.threads| == |d.threads| + (if entry.Armed? then 1 else 0)
    requires match entry
             case Armed(t) => t == |d.threads|
             case Disarmed(n) => n == |d.threads|
             case Started(t) => t < |d.threads|
    ensures Numbered(d')
  {
    assert d'.log[..|d'.log| - 1] == d.log;
    forall i | 0 <= i < |d.log| ensures d'.log[..i] == d.log[..i] {
    }
  }

  lemma ApplyKeepsNumbers(d: Dog, e: Event)
    requires Numbered(d) && Possible(d, e)
    ensures Numbered(Apply(d, e))
  {
    var d' := Apply(d, e);
    if e.Finish? || e.StartCallback? {
      LogStaysNumbered(d, d', d'.log[|d.log|]);
    }
  }

  lemma {:induction false} HistoryIsNumbered(r: seq<Dog>, es: seq<Event>, n: nat)
    requires Trace(r, es) && n <= |es|
    ensures Numbered(r[n])
  {
    if n > 0 {
      HistoryIsNumbered(r, es, n - 1);
      assert Possible(r[n - 1], es[n - 1]) && r[n] == Apply(r[n - 1], es[n - 1]);
      ApplyKeepsNumbers(r[n - 1], es[n - 1]);
    }
  }

  /** The watchdog's fields, changed by the two halves of `Arm` and `Disarm` and by the steps of a
      watchdog thread. */
  class IceDisconnectWatchdog {
    var generation: nat
    var handle: Option<nat>
    var threads: seq<Thread>
    var holder: Option<Operation>
    var log: seq<Entry>

    ghost function View(): Dog
      reads this
    {
      Dog(generation, handle, threads, holder, log)
    }

    constructor ()
      ensures View() == QUIET
    {
      generation, handle, threads, holder, log := 0, None, [], None, [];
    }

    /** `DisarmLocked` up to its join. */
    method DisarmLocked(arms: bool, caller: Option<nat>)
      requires holder.None?
      requires handle.Some? ==> handle.value < |threads|
      modifies this
      ensures View() == Begun(old(View()), arms, caller)
    {
      generation := generation + 1;
      holder := Some(Operation(arms, false));
      if handle.Some? {
        var h := handle.value;
        threads := threads[h := threads[h].(stop := true)];
        if caller == handle {
          handle := None;
          return;
        }
        holder := Some(Operation(arms, true));
      }
    }

    method Join()
      requires Possible(View(), Event.Join)
      modifies this
      ensures View() == Apply(old(View()), Event.Join)
    {
      handle := None;
      holder := Some(Operation(holder.value.arms, false));
    }

    /** The rest of `Arm` or `Disarm`. */
    method Return()
      requires Possible(View(), Finish)
      modifies this
      ensures View() == Returned(old(View()))
    {
      if holder.value.arms {
        generation := generation + 1;
        handle := Some(|threads|);
        log := log + [Armed(|threads|)];
        threads := threads + [Thread(generation, false, Sleeping)];
      } else {
        log := log + [Disarmed(|threads|)];
      }
      holder := None;
    }

    /** A watchdog thread after its deadline or its stop request: two checks, then the callback. */
    method Wake(t: nat)
      requires In(View(), t, Sleeping)
      modifies this`threads
      ensures View() == Apply(old(View()), PassStop(t))
    {
      if threads[t].stop {
        threads := threads[t := threads[t].(phase := Finished)];
      } else {
        threads := threads[t := threads[t].(phase := Checked)];
      }
    }

    method CompareGeneration(t: nat)
      requires In(View(), t, Checked)
      modifies this`threads
      ensures View() == Apply(old(View()), PassGeneration(t))
    {
      if threads[t].generation != generation {
        threads := threads[t := threads[t].(phase := Finished)];
      } else {
        threads := threads[t := threads[t].(phase := Ready)];
      }
    }

    method OnTimeout(t: nat)
      requires In(View(), t, Ready)
      modifies this`threads, this`log
      ensures View() == Apply(old(View()), StartCallback(t))
    {
      threads := threads[t := threads[t].(phase := Running)];
      log := log + [Started(t)];
    }
  }
}
