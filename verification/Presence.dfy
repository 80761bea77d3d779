/** The presence registry of the signaling server (webrtc-signaling-server/main.go).

    A step is one critical section under the server's mutex, one timer reaching its deadline, or a
    connection ending. Connections and offline jobs are numbered in the order they are made. A job
    whose deadline has passed can no longer be stopped, and its callback runs at some later time. */
module Presence {

  type Uid = string

  /** `Opening` is the unlocked gap in the middle of a connect that replaces an older connection. */
  datatype Phase = Opening | Active | Removed

  datatype Connection = Connection(uid: Uid, generation: nat, phase: Phase)

  datatype Status = Waiting | Fired | Stopped | Finished

  datatype Job = Job(uid: Uid, generation: nat, status: Status)

  /** History: the first half of a connect, a removal that took effect, an offline announcement. */
  datatype Entry =
    | Connected(uid: Uid)
    | Left(uid: Uid, job: nat)
    | Announced(uid: Uid, job: nat)

  datatype Registry = Registry(
    clients: map<Uid, nat>,
    generations: map<Uid, nat>,
    pending: map<Uid, nat>,
    connections: seq<Connection>,
    jobs: seq<Job>,
    log: seq<Entry>)

  const EMPTY := Registry(map[], map[], map[], [], [], [])

  datatype Event =
    | ConnectBegin(uid: Uid)
    | ConnectFinish(connection: nat)
    | Remove(connection: nat)
    | Expire(job: nat)
    | Confirm(job: nat)

  function Generation(s: Registry, uid: Uid): nat {
    if uid in s.generations then s.generations[uid] else 0
  }

  /** `Timer.Stop`: too late once the timer has fired. */
  function StopJob(jobs: seq<Job>, j: nat): seq<Job> {
    if j < |jobs| && jobs[j].status == Waiting then jobs[j := jobs[j].(status := Stopped)] else jobs
  }

  function StopPending(s: Registry, uid: Uid): seq<Job> {
    if uid in s.pending then StopJob(s.jobs, s.pending[uid]) else s.jobs
  }

  predicate Possible(s: Registry, e: Event) {
    match e
    case ConnectBegin(_) => true
    case ConnectFinish(k) => k < |s.connections| && s.connections[k].phase == Opening
    case Remove(k) => k < |s.connections| && s.connections[k].phase == Active
    case Expire(j) => j < |s.jobs| && s.jobs[j].status == Waiting
    case Confirm(j) => j < |s.jobs| && s.jobs[j].status == Fired
  }

  function Begun(s: Registry, uid: Uid): Registry {
    var k, generation := |s.connections|, Generation(s, uid) + 1;
    var replacing := uid in s.clients;
    Registry(if replacing then s.clients - {uid} else s.clients[uid := k],
             s.generations[uid := generation],
             s.pending - {uid},
             s.connections + [Connection(uid, generation, if replacing then Opening else Active)],
             StopPending(s, uid),
             s.log + [Connected(uid)])
  }

  function Opened(s: Registry, k: nat): Registry
    requires k < |s.connections|
  {
    s.(clients := s.clients[s.connections[k].uid := k],
       connections := s.connections[k := s.connections[k].(phase := Active)])
  }

  function Gone(s: Registry, k: nat): Registry
    requires k < |s.connections|
  {
    var c := s.connections[k];
    var closed := s.(connections := s.connections[k := c.(phase := Removed)]);
    if c.uid in s.clients && s.clients[c.uid] == k then
      closed.(clients := s.clients - {c.uid},
              pending := s.pending[c.uid := |s.jobs|],
              jobs := StopPending(s, c.uid) + [Job(c.uid, c.generation, Waiting)],
              log := s.log + [Left(c.uid, |s.jobs|)])
    else closed
  }

  predicate Announces(s: Registry, j: nat)
    requires j < |s.jobs|
  {
    Generation(s, s.jobs[j].uid) == s.jobs[j].generation && s.jobs[j].uid !in s.clients
  }

  function Confirmed(s: Registry, j: nat): Registry
    requires j < |s.jobs|
  {
    var uid := s.jobs[j].uid;
    var ran := s.(jobs := s.jobs[j := s.jobs[j].(status := Finished)]);
    if Generation(s, uid) != s.jobs[j].generation then ran
    else if uid in s.clients then ran.(pending := s.pending - {uid})
    else ran.(pending := s.pending - {uid}, generations := s.generations - {uid}, log := s.log + [Announced(uid, j)])
  }

  function Apply(s: Registry, e: Event): Registry
    requires Possible(s, e)
  {
    match e
    case ConnectBegin(uid) => Begun(s, uid)
    case ConnectFinish(k) => Opened(s, k)
    case Remove(k) => Gone(s, k)
    case Expire(j) => s.(jobs := s.jobs[j := s.jobs[j].(status := Fired)])
    case Confirm(j) => Confirmed(s, j)
  }

  ghost predicate Next(s: Registry, t: Registry) {
    exists e :: Possible(s, e) && t == Apply(s, e)
  }

  ghost predicate StepAt(r: seq<Registry>, i: nat)
    requires i + 1 < |r|
  {
    Next(r[i], r[i + 1])
  }

  /** A run under arbitrary interleaving. */
  ghost predicate Run(r: seq<Registry>) {
    |r| > 0 && r[0] == EMPTY && forall i | 0 <= i < |r| - 1 :: StepAt(r, i)
  }

  // ----- Under arbitrary interleaving -----

  /** Registered connections are active ones of that uid; jobs and generations are genuine. */
  predicate Sound(s: Registry) {
    && (forall uid <- s.clients :: s.clients[uid] < |s.connections|
          && s.connections[s.clients[uid]].uid == uid && s.connections[s.clients[uid]].phase == Active)
    && (forall k | 0 <= k < |s.connections| :: s.connections[k].generation > 0)
    && (forall j | 0 <= j < |s.jobs| :: s.jobs[j].generation > 0)
  }

  predicate IsConnect(e: Entry, uid: Uid) {
    e.Connected? && e.uid == uid
  }

  /** After an announcement the uid stays unrecorded until it connects again. */
  predicate ForgottenSince(s: Registry, i: nat)
    requires i < |s.log|
  {
    s.log[i].Announced? && s.log[i].uid in s.generations ==>
      exists k | i < k < |s.log| :: IsConnect(s.log[k], s.log[i].uid)
  }

  /** Two announcements of one uid have a connect of it between them. */
  predicate Separated(log: seq<Entry>, i: nat, j: nat)
    requires i < j < |log|
  {
    log[i].Announced? && log[j].Announced? && log[i].uid == log[j].uid ==>
      exists k | i < k < j :: IsConnect(log[k], log[i].uid)
  }

  predicate LogSound(s: Registry) {
    && (forall i | 0 <= i < |s.log| :: ForgottenSince(s, i))
    && (forall i, j | 0 <= i < j < |s.log| :: Separated(s.log, i, j))
  }

  lemma GoneKeepsSound(s: Registry, k: nat)
    requires Sound(s) && Possible(s, Remove(k))
    ensures Sound(Gone(s, k))
  {
    forall uid <- Gone(s, k).clients
      ensures s.clients[uid] < |s.connections| && s.clients[uid] != k
    {
      assert uid in s.clients;
    }
  }

  lemma BegunKeepsSound(s: Registry, uid: Uid)
    requires Sound(s)
    ensures Sound(Begun(s, uid))
  {
  }

  lemma ConfirmedKeepsSound(s: Registry, j: nat)
    requires Sound(s) && j < |s.jobs|
    ensures Sound(Confirmed(s, j))
  {
  }

  lemma ApplyKeepsSound(s: Registry, e: Event)
    requires Sound(s) && Possible(s, e)
    ensures Sound(Apply(s, e))
  {
    match e
    case ConnectBegin(uid) => BegunKeepsSound(s, uid);
    case ConnectFinish(_) =>
    case Remove(k) => GoneKeepsSound(s, k);
    case Expire(_) =>
    case Confirm(j) => ConfirmedKeepsSound(s, j);
  }

  lemma LogStays(s: Registry, t: Registry, entry: Entry)
    requires LogSound(s) && t.log == s.log + [entry]
    requires forall uid <- t.generations :: uid in s.generations || IsConnect(entry, uid)
    requires entry.Announced? ==> entry.uid in s.generations && entry.uid !in t.generations
    ensures LogSound(t)
  {
    var n := |s.log|;
    forall i | 0 <= i < |t.log| ensures ForgottenSince(t, i) {
      if i < n && t.log[i].Announced? && t.log[i].uid in t.generations {
        var uid := t.log[i].uid;
        assert ForgottenSince(s, i);
        if uid in s.generations {
          var k :| i < k < n && IsConnect(s.log[k], uid);
          assert IsConnect(t.log[k], uid);
        } else {
          assert IsConnect(t.log[n], uid);
        }
      }
    }
    forall i, j | 0 <= i < j < |t.log| ensures Separated(t.log, i, j) {
      if t.log[i].Announced? && t.log[j].Announced? && t.log[i].uid == t.log[j].uid {
        assert if j < n then Separated(s.log, i, j) else ForgottenSince(s, i);
        var k :| i < k < j && IsConnect(s.log[k], t.log[i].uid);
        assert IsConnect(t.log[k], t.log[i].uid);
      }
    }
  }

  lemma ApplyKeepsLog(s: Registry, e: Event)
    requires Sound(s) && LogSound(s) && Possible(s, e)
    ensures LogSound(Apply(s, e))
  {
    var t := Apply(s, e);
    if t.log == s.log {
      forall i | 0 <= i < |t.log| ensures ForgottenSince(t, i) {
        assert ForgottenSince(s, i);
      }
    } else {
      LogStays(s, t, t.log[|s.log|]);
    }
  }

  predicate Open(job: Job) {
    job.status == Waiting || job.status == Fired
  }

  function OpenJobs(jobs: seq<Job>, uid: Uid): nat {
    if jobs == [] then 0
    else (if jobs[0].uid == uid && Open(jobs[0]) then 1 else 0) + OpenJobs(jobs[1..], uid)
  }

  function Announcements(log: seq<Entry>, uid: Uid): nat {
    if log == [] then 0
    else (if log[0].Announced? && log[0].uid == uid then 1 else 0) + Announcements(log[1..], uid)
  }

  function Departures(log: seq<Entry>, uid: Uid): nat {
    if log == [] then 0
    else (if log[0].Left? && log[0].uid == uid then 1 else 0) + Departures(log[1..], uid)
  }

  lemma {:induction false} OneMoreEntry(log: seq<Entry>, entry: Entry, uid: Uid)
    ensures Announcements(log + [entry], uid) ==
            Announcements(log, uid) + (if entry.Announced? && entry.uid == uid then 1 else 0)
    ensures Departures(log + [entry], uid) ==
            Departures(log, uid) + (if entry.Left? && entry.uid == uid then 1 else 0)
  {
    if log == [] {
      assert log + [entry] == [entry] && [entry][1..] == [];
    } else {
      OneMoreEntry(log[1..], entry, uid);
      assert (log + [entry])[1..] == log[1..] + [entry];
    }
  }

  lemma {:induction false} OneJobChanged(jobs: seq<Job>, j: nat, status: Status, uid: Uid)
    requires j < |jobs|
    ensures var changed := jobs[j].(status := status);
            OpenJobs(jobs[j := changed], uid) + (if jobs[j].uid == uid && Open(jobs[j]) then 1 else 0) ==
            OpenJobs(jobs, uid) + (if changed.uid == uid && Open(changed) then 1 else 0)
  {
    var changed := jobs[j].(status := status);
    if j == 0 {
      assert jobs[j := changed][1..] == jobs[1..];
    } else {
      OneJobChanged(jobs[1..], j - 1, status, uid);
      assert jobs[j := changed][1..] == jobs[1..][j - 1 := changed];
    }
  }

  lemma {:induction false} OneMoreJob(jobs: seq<Job>, job: Job, uid: Uid)
    ensures OpenJobs(jobs + [job], uid) == OpenJobs(jobs, uid) + (if job.uid == uid && Open(job) then 1 else 0)
  {
    if jobs == [] {
      assert jobs + [job] == [job] && [job][1..] == [];
    } else {
      OneMoreJob(jobs[1..], job, uid);
      assert (jobs + [job])[1..] == jobs[1..] + [job];
    }
  }

  /** Every announcement used up one removal of its own. */
  ghost predicate Balanced(s: Registry) {
    forall uid :: Announcements(s.log, uid) + OpenJobs(s.jobs, uid) <= Departures(s.log, uid)
  }

  lemma StopPendingCount(s: Registry, other: Uid, uid: Uid)
    ensures OpenJobs(StopPending(s, other), uid) <= OpenJobs(s.jobs, uid)
  {
    if other in s.pending && s.pending[other] < |s.jobs| && s.jobs[s.pending[other]].status == Waiting {
      OneJobChanged(s.jobs, s.pending[other], Stopped, uid);
    }
  }

  lemma ApplyKeepsBalance(s: Registry, e: Event)
    requires Balanced(s) && Possible(s, e)
    ensures Balanced(Apply(s, e))
  {
    var t := Apply(s, e);
    forall uid ensures Announcements(t.log, uid) + OpenJobs(t.jobs, uid) <= Departures(t.log, uid) {
      assert Announcements(s.log, uid) + OpenJobs(s.jobs, uid) <= Departures(s.log, uid);
      match e
      case ConnectBegin(other) =>
        StopPendingCount(s, other, uid);
        OneMoreEntry(s.log, Connected(other), uid);
      case ConnectFinish(_) =>
      case Remove(k) =>
        var c := s.connections[k];
        StopPendingCount(s, c.uid, uid);
        OneMoreEntry(s.log, Left(c.uid, |s.jobs|), uid);
        OneMoreJob(StopPending(s, c.uid), Job(c.uid, c.generation, Waiting), uid);
      case Expire(j) => OneJobChanged(s.jobs, j, Fired, uid);
      case Confirm(j) =>
        OneJobChanged(s.jobs, j, Finished, uid);
        OneMoreEntry(s.log, Announced(s.jobs[j].uid, j), uid);
    }
  }

  lemma {:induction false} RunKeeps(r: seq<Registry>, k: nat)
    requires Run(r) && k < |r|
    ensures Sound(r[k]) && LogSound(r[k]) && Balanced(r[k])
  {
    if k > 0 {
      RunKeeps(r, k - 1);
      assert StepAt(r, k - 1);
      NextKeeps(r[k - 1], r[k]);
    }
  }

  lemma NextKeeps(s: Registry, t: Registry)
    requires Sound(s) && LogSound(s) && Balanced(s) && Next(s, t)
    ensures Sound(t) && LogSound(t) && Balanced(t)
  {
    var e :| Possible(s, e) && t == Apply(s, e);
    ApplyKeepsSound(s, e);
    ApplyKeepsLog(s, e);
    ApplyKeepsBalance(s, e);
  }

  /** Under arbitrary interleaving, two offline announcements of a uid are always separated by a
      new connect of it. */
  lemma AnnouncementsAreSeparated(r: seq<Registry>, n: nat, i: nat, j: nat, uid: Uid)
    requires Run(r) && n < |r| && i < j < |r[n].log|
    requires r[n].log[i].Announced? && r[n].log[j].Announced? && r[n].log[i].uid == r[n].log[j].uid == uid
    ensures exists k | i < k < j :: r[n].log[k] == Connected(uid)
  {
    RunKeeps(r, n);
    assert Separated(r[n].log, i, j);
    var k :| i < k < j && IsConnect(r[n].log[k], uid);
    assert r[n].log[k] == Connected(uid);
  }

  /** Under arbitrary interleaving, announcements of a uid never outnumber its removals. */
  lemma AnnouncementsNeedRemovals(r: seq<Registry>, n: nat, uid: Uid)
    requires Run(r) && n < |r|
    ensures Announcements(r[n].log, uid) <= Departures(r[n].log, uid)
  {
    RunKeeps(r, n);
  }

  /** Under arbitrary interleaving, a callback of the recorded generation leaves nothing pending for its
      uid, whether it announces it or finds it back; any other callback leaves the registry alone. */
  lemma CallbackSettles(s: Registry, j: nat)
    requires Possible(s, Confirm(j))
    ensures var t, uid := Apply(s, Confirm(j)), s.jobs[j].uid;
            && t.clients == s.clients && t.connections == s.connections
            && (Generation(s, uid) == s.jobs[j].generation ==> uid !in t.pending)
            && (Generation(s, uid) != s.jobs[j].generation ==> t.pending == s.pending && t.generations == s.generations)
            && (forall u :: u != uid && u in s.pending ==> u in t.pending && t.pending[u] == s.pending[u])
            && t.log == (if Announces(s, j) then s.log + [Announced(uid, j)] else s.log)
  {
  }

  lemma NextKeepsRemoved(s: Registry, t: Registry, k: nat)
    requires Sound(s) && Next(s, t) && k < |s.connections| && s.connections[k].phase == Removed
    ensures k < |t.connections| && t.connections[k].phase == Removed
  {
  }

  /** Under arbitrary interleaving, a connection whose removal has run never reappears. */
  lemma {:induction false} RemovedStaysOut(r: seq<Registry>, i: nat, n: nat, k: nat)
    requires Run(r) && i <= n < |r| && k < |r[i].connections| && r[i].connections[k].phase == Removed
    ensures k < |r[n].connections| && r[n].connections[k].phase == Removed && k !in r[n].clients.Values
  {
    if i < n {
      RemovedStaysOut(r, i, n - 1, k);
      RunKeeps(r, n - 1);
      assert StepAt(r, n - 1);
      NextKeepsRemoved(r[n - 1], r[n], k);
    }
    RunKeeps(r, n);
  }

  /** The server's registry with its maps changed in place, one method for each critical section. */
  class SignalingServer {
    var clients: map<Uid, nat>
    var generations: map<Uid, nat>
    var pending: map<Uid, nat>
    var connections: seq<Connection>
    var jobs: seq<Job>
    var log: seq<Entry>

    ghost function View(): Registry
      reads this
    {
      Registry(clients, generations, pending, connections, jobs, log)
    }

    constructor ()
      ensures View() == EMPTY
    {
      clients, generations, pending := map[], map[], map[];
      connections, jobs, log := [], [], [];
    }

    method StopTimer(j: nat) returns (stopped: bool)
      modifies this`jobs
      ensures jobs == StopJob(old(jobs), j)
      ensures stopped <==> j < |old(jobs)| && old(jobs)[j].status == Waiting
    {
      if j < |jobs| && jobs[j].status == Waiting {
        jobs := jobs[j := jobs[j].(status := Stopped)];
        return true;
      }
      return false;
    }

    /** The first critical section of a connect; in the gap the new connection is not registered. */
    method HandleConnection(uid: Uid) returns (k: nat, gap: bool)
      modifies this
      ensures View() == Begun(old(View()), uid)
      ensures k == |old(connections)| && (gap <==> uid in old(clients))
    {
      if uid in pending {
        var _ := StopTimer(pending[uid]);
        pending := pending - {uid};
      }
      var generation := (if uid in generations then generations[uid] else 0) + 1;
      generations := generations[uid := generation];
      k, gap := |connections|, false;
      log := log + [Connected(uid)];
      if uid in clients {
        clients := clients - {uid};
        connections := connections + [Connection(uid, generation, Opening)];
        return k, true;
      }
      connections := connections + [Connection(uid, generation, Active)];
      clients := clients[uid := k];
    }

    /** The second critical section, after the gap. */
    method FinishConnection(k: nat)
      requires k < |connections| && connections[k].phase == Opening
      modifies this`clients, this`connections
      ensures View() == Opened(old(View()), k)
    {
      clients := clients[connections[k].uid := k];
      connections := connections[k := connections[k].(phase := Active)];
    }

    method RemoveClient(k: nat)
      requires k < |connections| && connections[k].phase == Active
      modifies this
      ensures View() == Gone(old(View()), k)
    {
      var uid, generation := connections[k].uid, connections[k].generation;
      if uid in clients && clients[uid] == k {
        clients := clients - {uid};
        if uid in pending {
          var _ := StopTimer(pending[uid]);
        }
        jobs := jobs + [Job(uid, generation, Waiting)];
        pending := pending[uid := |jobs| - 1];
        log := log + [Left(uid, |jobs| - 1)];
      }
      connections := connections[k := connections[k].(phase := Removed)];
    }

    method ConfirmOffline(j: nat) returns (announced: bool)
      requires j < |jobs| && jobs[j].status == Fired
      modifies this
      ensures View() == Confirmed(old(View()), j)
      ensures announced <==> Announces(old(View()), j)
    {
      var uid, generation := jobs[j].uid, jobs[j].generation;
      jobs := jobs[j := jobs[j].(status := Finished)];
      var current := if uid in generations then generations[uid] else 0;
      if current != generation {
        return false;
      }
      if uid in clients {
        pending := pending - {uid};
        return false;
      }
      pending := pending - {uid};
      generations := generations - {uid};
      log := log + [Announced(uid, j)];
      return true;
    }
  }
}
