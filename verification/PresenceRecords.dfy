/** What the registry's records amount to: who is registered, which timers run, and what the history
    counts. */
module PresenceRecords {
  import opened Presence
  import opened PresenceOrder

  // ----- In orderly runs -----

  /** Nobody of the same uid connected after connection `k`. */
  predicate Newest(s: Registry, k: nat)
    requires k < |s.connections|
  {
    forall i | k < i < |s.connections| :: s.connections[i].uid != s.connections[k].uid
  }

  /** The newest connection of a uid is the registered one if it is active, and otherwise nobody is; no
      older connection is registered or half way. */
  predicate NewestCounts(s: Registry, k: nat)
    requires k < |s.connections|
  {
    var c := s.connections[k];
    if Newest(s, k) then
      if c.phase == Active then c.uid in s.clients && s.clients[c.uid] == k else c.uid !in s.clients
    else
      c.phase != Phase.Opening && (c.uid in s.clients ==> s.clients[c.uid] != k)
  }

  predicate AllCount(s: Registry) {
    forall k | 0 <= k < |s.connections| :: NewestCounts(s, k)
  }

  lemma StillNewest(s: Registry, t: Registry, k: nat)
    requires k < |s.connections| == |t.connections|
    requires forall i | 0 <= i < |s.connections| :: t.connections[i].uid == s.connections[i].uid
    ensures Newest(t, k) <==> Newest(s, k)
  {
  }

  lemma BegunCounts(s: Registry, uid: Uid, k: nat)
    requires Inv(s, 0) && AllCount(s) && !MidConnect(s, uid) && k < |Begun(s, uid).connections|
    ensures NewestCounts(Begun(s, uid), k)
  {
    var t, n := Begun(s, uid), |s.connections|;
    if k < n {
      assert NewestCounts(s, k) && s.connections[k] in s.connections;
      BegunNewest(s, uid, k);
      RegisteredIsOld(s, uid, n);
    }
  }

  lemma BegunNewest(s: Registry, uid: Uid, k: nat)
    requires k < |s.connections|
    ensures k < |Begun(s, uid).connections|
    ensures Newest(Begun(s, uid), k) <==> Newest(s, k) && s.connections[k].uid != uid
  {
    var t, n := Begun(s, uid), |s.connections|;
    assert t.connections[n].uid == uid;
    assert forall i | 0 <= i < n :: t.connections[i] == s.connections[i];
  }

  lemma RegisteredIsOld(s: Registry, uid: Uid, n: nat)
    requires Inv(s, 0) && n == |s.connections|
    ensures uid in s.clients ==> s.clients[uid] < n
  {
    if uid in s.clients {
      assert Registered(s, uid);
    }
  }

  lemma ApplyCounts(s: Registry, e: Event)
    requires Inv(s, 0) && AllCount(s) && Possible(s, e) && Orderly(s, e)
    ensures AllCount(Apply(s, e))
  {
    var t := Apply(s, e);
    match e
    case ConnectBegin(uid) =>
      forall k | 0 <= k < |t.connections| ensures NewestCounts(t, k) {
        BegunCounts(s, uid, k);
      }
    case ConnectFinish(n) =>
      forall k | 0 <= k < |t.connections| ensures NewestCounts(t, k) {
        assert NewestCounts(s, k) && NewestCounts(s, n);
        StillNewest(s, t, k);
        OneNewest(s, k, n);
      }
    case Remove(n) =>
      forall k | 0 <= k < |t.connections| ensures NewestCounts(t, k) {
        assert NewestCounts(s, k) && NewestCounts(s, n);
        StillNewest(s, t, k);
        OneNewest(s, k, n);
      }
    case _ =>
      forall k | 0 <= k < |t.connections| ensures NewestCounts(t, k) {
        assert NewestCounts(s, k);
        StillNewest(s, t, k);
      }
  }

  lemma OneNewest(s: Registry, k: nat, n: nat)
    requires k < |s.connections| && n < |s.connections|
    ensures Newest(s, k) && Newest(s, n) && s.connections[k].uid == s.connections[n].uid ==> k == n
  {
  }

  lemma NextCounts(s: Registry, t: Registry)
    requires Inv(s, 0) && AllCount(s) && NextOrderly(s, t)
    ensures AllCount(t)
  {
    var e :| Possible(s, e) && Orderly(s, e) && t == Apply(s, e);
    ApplyCounts(s, e);
  }

  /** In every orderly run: a uid is registered exactly while its newest connection is active, and that
      is the connection registered; a replaced connection never counts again. */
  lemma {:induction false} NewestIsRegistered(r: seq<Registry>, n: nat, k: nat)
    requires OrderlyRun(r) && n < |r|
    ensures AllCount(r[n])
    ensures k < |r[n].connections| && Newest(r[n], k) ==>
              var c := r[n].connections[k];
              && (c.uid in r[n].clients <==> c.phase == Active)
              && (c.uid in r[n].clients ==> r[n].clients[c.uid] == k)
  {
    if n > 0 {
      NewestIsRegistered(r, n - 1, k);
      OrderlyRunKeepsInv(r, n - 1);
      assert OrderlyStepAt(r, n - 1);
      NextCounts(r[n - 1], r[n]);
    }
    assert k < |r[n].connections| ==> NewestCounts(r[n], k);
  }

  /** The only timers still running are those of pending jobs. */
  predicate OnlyPendingWait(s: Registry) {
    forall j | 0 <= j < |s.jobs| && s.jobs[j].status == Waiting :: HasJob(s, s.jobs[j].uid, j)
  }

  lemma GoneKeepsWaiting(s: Registry, k: nat)
    requires Inv(s, 0) && OnlyPendingWait(s) && Possible(s, Remove(k))
    ensures OnlyPendingWait(Gone(s, k))
  {
    var uid := s.connections[k].uid;
    if uid in s.clients {
      assert Registered(s, uid);
    }
  }

  lemma ConfirmedKeepsWaiting(s: Registry, j: nat)
    requires Inv(s, 0) && OnlyPendingWait(s) && Possible(s, Confirm(j))
    ensures OnlyPendingWait(Confirmed(s, j))
  {
    AnnouncesIffPending(s, j);
    if !Announces(s, j) {
      SilentOnlyFinishes(s, j, 0);
    }
  }

  lemma ApplyKeepsWaiting(s: Registry, e: Event)
    requires Inv(s, 0) && OnlyPendingWait(s) && Possible(s, e)
    ensures OnlyPendingWait(Apply(s, e))
  {
    match e
    case ConnectBegin(_) =>
    case ConnectFinish(_) =>
    case Remove(k) => GoneKeepsWaiting(s, k);
    case Expire(_) =>
    case Confirm(j) => ConfirmedKeepsWaiting(s, j);
  }

  lemma NextKeepsWaiting(s: Registry, t: Registry)
    requires Inv(s, 0) && OnlyPendingWait(s) && NextOrderly(s, t)
    ensures OnlyPendingWait(t)
  {
    var e :| Possible(s, e) && Orderly(s, e) && t == Apply(s, e);
    ApplyKeepsWaiting(s, e);
  }

  /** In every orderly run a timer that still runs belongs to the pending job of its uid: whoever comes
      back, or is removed again, stops the one before. */
  lemma {:induction false} RunningTimerIsPending(r: seq<Registry>, n: nat, j: nat)
    requires OrderlyRun(r) && n < |r|
    ensures OnlyPendingWait(r[n])
    ensures j < |r[n].jobs| && r[n].jobs[j].status == Waiting ==>
              r[n].jobs[j].uid in r[n].pending && r[n].pending[r[n].jobs[j].uid] == j
  {
    if n > 0 {
      RunningTimerIsPending(r, n - 1, j);
      OrderlyRunKeepsInv(r, n - 1);
      assert OrderlyStepAt(r, n - 1);
      NextKeepsWaiting(r[n - 1], r[n]);
    }
  }

  // ----- Under any interleaving -----

  function JobsOf(jobs: seq<Job>, uid: Uid): nat {
    if jobs == [] then 0 else JobsOf(jobs[..|jobs| - 1], uid) + (if jobs[|jobs| - 1].uid == uid then 1 else 0)
  }

  function ConnectionsOf(connections: seq<Connection>, uid: Uid): nat {
    if connections == [] then 0
    else ConnectionsOf(connections[..|connections| - 1], uid)
         + (if connections[|connections| - 1].uid == uid then 1 else 0)
  }

  function Connects(log: seq<Entry>, uid: Uid): nat {
    if log == [] then 0
    else Connects(log[..|log| - 1], uid) + (if IsConnect(log[|log| - 1], uid) then 1 else 0)
  }

  lemma {:induction false} SameUidsSameJobs(a: seq<Job>, b: seq<Job>, uid: Uid)
    requires |a| == |b| && forall i | 0 <= i < |a| :: a[i].uid == b[i].uid
    ensures JobsOf(a, uid) == JobsOf(b, uid)
  {
    if a != [] {
      SameUidsSameJobs(a[..|a| - 1], b[..|b| - 1], uid);
    }
  }

  lemma {:induction false} SameUidsSameConnections(a: seq<Connection>, b: seq<Connection>, uid: Uid)
    requires |a| == |b| && forall i | 0 <= i < |a| :: a[i].uid == b[i].uid
    ensures ConnectionsOf(a, uid) == ConnectionsOf(b, uid)
  {
    if a != [] {
      SameUidsSameConnections(a[..|a| - 1], b[..|b| - 1], uid);
    }
  }

  /** The history has one connect for every connection of a uid and one removal for every job. */
  predicate Counted(s: Registry, uid: Uid) {
    Connects(s.log, uid) == ConnectionsOf(s.connections, uid) && Departures(s.log, uid) == JobsOf(s.jobs, uid)
  }

  lemma LogGrowsBy(log: seq<Entry>, entry: Entry, uid: Uid)
    ensures Connects(log + [entry], uid) == Connects(log, uid) + (if IsConnect(entry, uid) then 1 else 0)
    ensures Departures(log + [entry], uid) == Departures(log, uid) + (if entry.Left? && entry.uid == uid then 1 else 0)
  {
    assert (log + [entry])[..|log|] == log;
    OneMoreEntry(log, entry, uid);
  }

  lemma ConnectionsGrowBy(connections: seq<Connection>, c: Connection, uid: Uid)
    ensures ConnectionsOf(connections + [c], uid) == ConnectionsOf(connections, uid) + (if c.uid == uid then 1 else 0)
  {
    assert (connections + [c])[..|connections|] == connections;
  }

  lemma JobsGrowBy(jobs: seq<Job>, stopped: seq<Job>, job: Job, uid: Uid)
    requires |jobs| == |stopped| && forall i | 0 <= i < |jobs| :: jobs[i].uid == stopped[i].uid
    ensures JobsOf(stopped + [job], uid) == JobsOf(jobs, uid) + (if job.uid == uid then 1 else 0)
  {
    assert (stopped + [job])[..|stopped|] == stopped;
    SameUidsSameJobs(jobs, stopped, uid);
  }

  lemma BegunKeepsCount(s: Registry, other: Uid, uid: Uid)
    requires Counted(s, uid)
    ensures Counted(Begun(s, other), uid)
  {
    BegunShape(s, other);
    var t := Begun(s, other);
    LogGrowsBy(s.log, Connected(other), uid);
    ConnectionsGrowBy(s.connections, t.connections[|s.connections|], uid);
    SameUidsSameJobs(s.jobs, t.jobs, uid);
  }

  lemma BegunShape(s: Registry, other: Uid)
    ensures var t, n := Begun(s, other), |s.connections|;
            && t.log == s.log + [Connected(other)]
            && |t.connections| == n + 1 && t.connections[n].uid == other
            && t.connections == s.connections + [t.connections[n]]
            && |t.jobs| == |s.jobs| && forall i | 0 <= i < |s.jobs| :: t.jobs[i].uid == s.jobs[i].uid
  {
  }

  lemma LeavingKeepsCount(s: Registry, k: nat, uid: Uid)
    requires Counted(s, uid) && k < |s.connections|
    ensures var c := s.connections[k];
            var t := s.(jobs := StopPending(s, c.uid) + [Job(c.uid, c.generation, Waiting)],
                        log := s.log + [Left(c.uid, |s.jobs|)]);
            Counted(t, uid)
  {
    var c := s.connections[k];
    LogGrowsBy(s.log, Left(c.uid, |s.jobs|), uid);
    JobsGrowBy(s.jobs, StopPending(s, c.uid), Job(c.uid, c.generation, Waiting), uid);
  }

  lemma GoneKeepsCount(s: Registry, k: nat, uid: Uid)
    requires Counted(s, uid) && Possible(s, Remove(k))
    ensures Counted(Gone(s, k), uid)
  {
    SameUidsSameConnections(s.connections, Gone(s, k).connections, uid);
    LeavingKeepsCount(s, k, uid);
  }

  lemma ConfirmedShape(s: Registry, j: nat)
    requires Possible(s, Confirm(j))
    ensures var t := Confirmed(s, j);
            && t.connections == s.connections && |t.jobs| == |s.jobs|
            && (forall i | 0 <= i < |s.jobs| :: t.jobs[i].uid == s.jobs[i].uid)
            && (t.log == s.log || t.log == s.log + [Announced(s.jobs[j].uid, j)])
  {
  }

  lemma ConfirmedKeepsCount(s: Registry, j: nat, uid: Uid)
    requires Counted(s, uid) && Possible(s, Confirm(j))
    ensures Counted(Confirmed(s, j), uid)
  {
    var t := Confirmed(s, j);
    ConfirmedShape(s, j);
    CountedAgain(s, t, Announced(s.jobs[j].uid, j), uid);
  }

  lemma CountedAgain(s: Registry, t: Registry, entry: Entry, uid: Uid)
    requires Counted(s, uid) && entry.Announced? && t.connections == s.connections && |t.jobs| == |s.jobs|
    requires forall i | 0 <= i < |s.jobs| :: t.jobs[i].uid == s.jobs[i].uid
    requires t.log == s.log || t.log == s.log + [entry]
    ensures Counted(t, uid)
  {
    SameUidsSameJobs(s.jobs, t.jobs, uid);
    LogGrowsBy(s.log, entry, uid);
  }

  lemma ApplyKeepsCount(s: Registry, e: Event, uid: Uid)
    requires Counted(s, uid) && Possible(s, e)
    ensures Counted(Apply(s, e), uid)
  {
    match e
    case ConnectBegin(other) => BegunKeepsCount(s, other, uid);
    case ConnectFinish(k) => SameUidsSameConnections(s.connections, Apply(s, e).connections, uid);
    case Remove(k) => GoneKeepsCount(s, k, uid);
    case Expire(j) => SameUidsSameJobs(s.jobs, Apply(s, e).jobs, uid);
    case Confirm(j) => ConfirmedKeepsCount(s, j, uid);
  }

  lemma NextKeepsCount(s: Registry, t: Registry, uid: Uid)
    requires Counted(s, uid) && Next(s, t)
    ensures Counted(t, uid)
  {
    var e :| Possible(s, e) && t == Apply(s, e);
    ApplyKeepsCount(s, e, uid);
  }

  /** Under any interleaving the history counts truly: it has one connect of a uid for every connection
      made for it, and one removal for every offline job scheduled for it. */
  lemma {:induction false} HistoryCounts(r: seq<Registry>, n: nat, uid: Uid)
    requires Run(r) && n < |r|
    ensures Counted(r[n], uid)
  {
    if n > 0 {
      HistoryCounts(r, n - 1, uid);
      assert StepAt(r, n - 1);
      NextKeepsCount(r[n - 1], r[n], uid);
    }
  }
}
