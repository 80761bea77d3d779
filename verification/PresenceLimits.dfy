/** What goes wrong when connects of one uid overlap or its offline callbacks run out of order, and
    exactly when: for a step taken at the end of an orderly run and followed by orderly steps only,
    whether it can lead to either harm is read off the registry before the step. */
module PresenceLimits {
  import opened Presence
  import opened PresenceOrder

  // ----- Orderly continuations and the two harms -----

  ghost predicate OrderlyFrom(r: seq<Registry>, s: Registry) {
    |r| > 0 && r[0] == s && forall i | 0 <= i < |r| - 1 :: OrderlyStepAt(r, i)
  }

  ghost predicate Links(r: seq<Registry>, s: Registry, t: Registry) {
    OrderlyFrom(r, s) && r[|r| - 1] == t
  }

  /** Some orderly continuation leads from `s` to `t`. */
  ghost predicate Reaches(s: Registry, t: Registry) {
    exists r :: Links(r, s, t)
  }

  lemma ReachesItself(s: Registry)
    ensures Reaches(s, s)
  {
    assert Links([s], s, s);
  }

  lemma ReachesNext(s: Registry, t: Registry, u: Registry)
    requires Reaches(s, t) && NextOrderly(t, u)
    ensures Reaches(s, u)
  {
    var r :| Links(r, s, t);
    var r' := r + [u];
    forall i | 0 <= i < |r'| - 1 ensures OrderlyStepAt(r', i) {
      if i < |r| - 1 {
        assert OrderlyStepAt(r, i);
      }
    }
    assert Links(r', s, u);
  }

  lemma ReachesBy(s: Registry, t: Registry, e: Event)
    requires Reaches(s, t) && Possible(t, e) && Orderly(t, e)
    ensures Reaches(s, Apply(t, e))
  {
    assert NextOrderly(t, Apply(t, e));
    ReachesNext(s, t, Apply(t, e));
  }

  lemma {:induction false} OrderlyKeepsInv(r: seq<Registry>, s: Registry, n: nat, stray: nat)
    requires OrderlyFrom(r, s) && Inv(s, stray) && stray <= 1 && n < |r|
    ensures Inv(r[n], stray)
  {
    if n > 0 {
      OrderlyKeepsInv(r, s, n - 1, stray);
      assert OrderlyStepAt(r, n - 1);
      NextKeepsInv(r[n - 1], r[n], stray);
    }
  }

  lemma ReachesKeepsInv(s: Registry, t: Registry, stray: nat)
    requires Reaches(s, t) && Inv(s, stray) && stray <= 1
    ensures Inv(t, stray)
  {
    var r :| Links(r, s, t);
    OrderlyKeepsInv(r, s, |r| - 1, stray);
  }

  /** Job `i` is about to announce its uid although it is not the pending one. */
  predicate Early(s: Registry, i: nat) {
    i < |s.jobs| && Open(s.jobs[i]) && Announces(s, i) && !HasJob(s, s.jobs[i].uid, i)
  }

  ghost predicate CanAnnounceEarly(s: Registry) {
    exists t, i: nat :: Reaches(s, t) && Early(t, i)
  }

  ghost predicate CanMislead(s: Registry) {
    exists t, uid :: Reaches(s, t) && !Truthful(t, uid)
  }

  lemma NothingEarly(s: Registry, i: nat)
    requires Inv(s, 0)
    ensures !Early(s, i)
  {
    if i < |s.jobs| && Open(s.jobs[i]) {
      assert Accounted(s, i, 0);
    }
  }

  /** While only the first generation is unaccounted for, no continuation makes the registry lie. */
  lemma StrayIsTruthful(s: Registry)
    requires Inv(s, 1)
    ensures !CanMislead(s)
  {
    forall t, uid | Reaches(s, t) ensures Truthful(t, uid) {
      ReachesKeepsInv(s, t, 1);
      PresentIsTruthful(t, uid);
    }
  }

  lemma SoundNeverEarly(s: Registry)
    requires Inv(s, 0)
    ensures !CanAnnounceEarly(s)
  {
    forall t, i: nat | Reaches(s, t) ensures !Early(t, i) {
      ReachesKeepsInv(s, t, 0);
      NothingEarly(t, i);
    }
  }

  lemma StrayIsWeaker(s: Registry)
    requires Inv(s, 0)
    ensures Inv(s, 1)
  {
    forall j | 0 <= j < |s.jobs| ensures Accounted(s, j, 1) {
      assert Accounted(s, j, 0);
    }
  }

  // ----- Overlapping connects -----

  predicate Overlaps(s: Registry, e: Event) {
    e.ConnectBegin? && MidConnect(s, e.uid)
  }

  /** The connection of `uid` in its gap when another connect of `uid` begins. */
  lemma TheOneInGap(s: Registry, uid: Uid, stray: nat) returns (k: nat)
    requires Inv(s, stray) && MidConnect(s, uid)
    ensures k < |s.connections| && s.connections[k].uid == uid && s.connections[k].phase == Phase.Opening
    ensures uid in s.generations && s.generations[uid] == s.connections[k].generation
    ensures uid !in s.clients && uid !in s.pending
  {
    var c :| c in s.connections && c.uid == uid && c.phase == Phase.Opening;
    k :| 0 <= k < |s.connections| && s.connections[k] == c;
    assert InGap(s, k);
  }

  /** The overtaken connect finishes last: it is registered under a generation that is not recorded. */
  lemma OverlapMisleads(s: Registry, uid: Uid)
    requires Inv(s, 0) && MidConnect(s, uid)
    ensures CanMislead(Begun(s, uid))
  {
    var k := TheOneInGap(s, uid, 0);
    var b := Begun(s, uid);
    ReachesItself(b);
    ReachesBy(b, b, ConnectFinish(k));
    assert !Truthful(Opened(b, k), uid);
  }

  lemma OvertakerLeaves(s: Registry, uid: Uid, k: nat) returns (t: Registry)
    requires k < |s.connections| && s.connections[k].uid == uid && s.connections[k].phase == Phase.Opening
    requires uid in s.generations && uid !in s.clients && uid !in s.pending
    ensures Reaches(Begun(s, uid), t)
    ensures k < |t.connections| && t.connections[k] == s.connections[k]
    ensures uid in t.generations && t.generations[uid] == s.generations[uid] + 1 && uid !in t.clients
    ensures |t.jobs| == |s.jobs| + 1 && t.jobs[|s.jobs|] == Job(uid, s.generations[uid] + 1, Fired)
  {
    var b, n, j := Begun(s, uid), |s.connections|, |s.jobs|;
    var g := Gone(b, n);
    ReachesItself(b);
    ReachesBy(b, b, Remove(n));
    ReachesBy(b, g, Expire(j));
    t := Apply(g, Expire(j));
  }

  /** The overtaking connect is removed and its job fires; then the overtaken one is registered and
      removed as well, and its job becomes the pending one. */
  lemma OverlapAnnouncesEarly(s: Registry, uid: Uid)
    requires Inv(s, 0) && MidConnect(s, uid)
    ensures CanAnnounceEarly(Begun(s, uid))
  {
    var k := TheOneInGap(s, uid, 0);
    var b, j := Begun(s, uid), |s.jobs|;
    var f := OvertakerLeaves(s, uid, k);
    var o := Opened(f, k);
    ReachesBy(b, f, ConnectFinish(k));
    ReachesBy(b, o, Remove(k));
    assert Early(Gone(o, k), j);
  }

  function Dialled(u: Uid, phases: seq<Phase>): seq<Connection> {
    seq(|phases|, i requires 0 <= i < |phases| => Connection(u, i + 1, phases[i]))
  }

  /** After some connects of `u`, with these connections registered and no removal yet. */
  function Dials(u: Uid, clients: map<Uid, nat>, phases: seq<Phase>): Registry {
    Registry(clients, map[u := |phases|], map[], Dialled(u, phases), [], seq(|phases|, i => Connected(u)))
  }

  function OverlapStates(u: Uid): seq<Registry> {
    [EMPTY,
     Dials(u, map[u := 0], [Active]),
     Dials(u, map[], [Active, Phase.Opening]),
     Dials(u, map[u := 2], [Active, Phase.Opening, Active]),
     Dials(u, map[u := 1], [Active, Active, Active])]
  }

  lemma GapOpens(u: Uid)
    ensures Next(OverlapStates(u)[0], OverlapStates(u)[1]) && Next(OverlapStates(u)[1], OverlapStates(u)[2])
  {
    var r := OverlapStates(u);
    assert Possible(r[0], ConnectBegin(u)) && Apply(r[0], ConnectBegin(u)) == r[1];
    assert Possible(r[1], ConnectBegin(u)) && Apply(r[1], ConnectBegin(u)) == r[2];
  }

  lemma GapIsOvertaken(u: Uid)
    ensures Next(OverlapStates(u)[2], OverlapStates(u)[3]) && Next(OverlapStates(u)[3], OverlapStates(u)[4])
  {
    var r := OverlapStates(u);
    assert Possible(r[2], ConnectBegin(u)) && Apply(r[2], ConnectBegin(u)) == r[3];
    assert Possible(r[3], ConnectFinish(1)) && Apply(r[3], ConnectFinish(1)) == r[4];
  }

  /** `uid` is recorded, but whoever is registered or about to be announced for it has another
      generation, and no connect of it is half way. */
  predicate Outdated(s: Registry, uid: Uid) {
    && uid in s.generations && !MidConnect(s, uid)
    && (uid in s.clients ==>
          s.clients[uid] < |s.connections| && s.connections[s.clients[uid]].generation != s.generations[uid])
    && (forall job <- s.jobs :: job.uid == uid && Open(job) ==> job.generation != s.generations[uid])
  }

  /** When a third connect of a uid runs inside the gap of its second, the second one finishes last
      and is registered with a generation that is no longer the recorded one. */
  lemma OverlapBreaksPresence(u: Uid) returns (r: seq<Registry>)
    ensures Run(r) && |r| == 5
    ensures u in r[4].clients && Outdated(r[4], u)
  {
    r := OverlapStates(u);
    GapOpens(u);
    GapIsOvertaken(u);
    forall i | 0 <= i < |r| - 1 ensures StepAt(r, i) {
    }
    assert r[4].connections[1] == Connection(u, 2, Active);
  }

  lemma OutdatedKeepsJobs(s: Registry, e: Event, uid: Uid)
    requires Outdated(s, uid) && Possible(s, e) && e != ConnectBegin(uid)
    ensures uid in Apply(s, e).generations && Apply(s, e).generations[uid] == s.generations[uid]
    ensures forall job <- Apply(s, e).jobs :: job.uid == uid && Open(job) ==> job.generation != s.generations[uid]
    ensures Announcements(Apply(s, e).log, uid) == Announcements(s.log, uid)
  {
    if Apply(s, e).log != s.log {
      OneMoreEntry(s.log, Apply(s, e).log[|s.log|], uid);
    }
  }

  lemma OutdatedStays(s: Registry, e: Event, uid: Uid)
    requires Outdated(s, uid) && Possible(s, e) && e != ConnectBegin(uid)
    ensures Outdated(Apply(s, e), uid)
    ensures Announcements(Apply(s, e).log, uid) == Announcements(s.log, uid)
  {
    OutdatedKeepsJobs(s, e, uid);
    if e.ConnectFinish? {
      assert s.connections[e.connection] in s.connections;
    }
  }

  lemma NextKeepsOutdated(s: Registry, t: Registry, uid: Uid)
    requires Next(s, t) && Outdated(s, uid)
    ensures s.log <= t.log
    ensures (forall entry <- t.log[|s.log|..] :: !IsConnect(entry, uid)) ==>
              Outdated(t, uid) && Announcements(t.log, uid) == Announcements(s.log, uid)
  {
    var e :| Possible(s, e) && t == Apply(s, e);
    LogGrows(s, e);
    if e == ConnectBegin(uid) {
      assert t.log[|s.log|..] == [Connected(uid)];
      assert t.log[|s.log|..][0] in t.log[|s.log|..];
    } else {
      OutdatedStays(s, e, uid);
    }
  }

  /** A uid left registered under an outdated generation is never announced offline: however its
      connection is removed and whatever runs afterwards, under any interleaving, as long as the uid
      does not connect again there is no announcement, and the registry never forgets it. */
  lemma {:induction false} OutdatedIsNeverAnnounced(r: seq<Registry>, i: nat, n: nat, uid: Uid)
    requires Run(r) && i <= n < |r| && Outdated(r[i], uid)
    requires forall k | i <= k <= n :: StayedAway(r[i].log, r[k].log, uid)
    ensures Outdated(r[n], uid) && uid in r[n].generations
    ensures Announcements(r[n].log, uid) == Announcements(r[i].log, uid)
  {
    if i < n {
      OutdatedIsNeverAnnounced(r, i, n - 1, uid);
      assert StepAt(r, n - 1);
      NextKeepsOutdated(r[n - 1], r[n], uid);
      assert StayedAway(r[i].log, r[n - 1].log, uid) && StayedAway(r[i].log, r[n].log, uid);
      forall entry <- r[n].log[|r[n - 1].log|..] ensures !IsConnect(entry, uid) {
        assert entry in r[n].log[|r[i].log|..];
      }
    }
  }

  // ----- Callbacks out of order -----

  lemma OneStepMore(r: seq<Registry>, t: Registry)
    requires Run(r) && Next(r[|r| - 1], t)
    ensures Run(r + [t])
  {
    forall i | 0 <= i < |r + [t]| - 1 ensures StepAt(r + [t], i) {
      if i < |r| - 1 {
        assert StepAt(r, i);
      }
    }
  }

  lemma TakeStep(r: seq<Registry>, e: Event, t: Registry)
    requires Run(r) && Possible(r[|r| - 1], e) && t == Apply(r[|r| - 1], e)
    ensures Run(r + [t])
  {
    OneStepMore(r, t);
  }

  /** A uid that left once, with its callback `first` still to run. */
  lemma LateCallback(u: Uid) returns (r: seq<Registry>)
    ensures Run(r) && |r| == 4
    ensures r[3] == Registry(map[], map[u := 1], map[u := 0], [Connection(u, 1, Removed)], [Job(u, 1, Fired)],
                             [Connected(u), Left(u, 0)])
  {
    var s1 := Dials(u, map[u := 0], [Active]);
    var s2 := Registry(map[], map[u := 1], map[u := 0], [Connection(u, 1, Removed)], [Job(u, 1, Waiting)],
                       [Connected(u), Left(u, 0)]);
    var s3 := s2.(jobs := [Job(u, 1, Fired)]);
    r := [EMPTY];
    assert Apply(EMPTY, ConnectBegin(u)) == s1;
    TakeStep(r, ConnectBegin(u), s1);
    r := r + [s1];
    assert Apply(s1, Remove(0)) == s2;
    TakeStep(r, Remove(0), s2);
    r := r + [s2];
    TakeStep(r, Expire(0), s3);
    r := r + [s3];
  }

  function Twice(u: Uid, clients: map<Uid, nat>, generations: map<Uid, nat>, pending: map<Uid, nat>, phase: Phase,
                 jobs: seq<Job>, log: seq<Entry>): Registry {
    Registry(clients, generations, pending,
             [Connection(u, 1, Removed), Connection(u, 2, phase)], jobs, log)
  }

  /** Out of order: the uid returns, leaves again, and the second callback runs before the first. */
  lemma CallbacksSwapped(u: Uid) returns (r: seq<Registry>)
    ensures Run(r)
    ensures r[|r| - 1] == Twice(u, map[], map[], map[], Removed, [Job(u, 1, Fired), Job(u, 2, Finished)],
                                [Connected(u), Left(u, 0), Connected(u), Left(u, 1), Announced(u, 1)])
  {
    r := LateCallback(u);
    var back := [Connected(u), Left(u, 0), Connected(u)];
    var gone := [Connected(u), Left(u, 0), Connected(u), Left(u, 1)];
    var s4 := Twice(u, map[u := 1], map[u := 2], map[], Active, [Job(u, 1, Fired)], back);
    assert Apply(r[3], ConnectBegin(u)) == s4;
    TakeStep(r, ConnectBegin(u), s4);
    r := r + [s4];
    var s5 := Twice(u, map[], map[u := 2], map[u := 1], Removed, [Job(u, 1, Fired), Job(u, 2, Waiting)], gone);
    assert Apply(s4, Remove(1)) == s5;
    TakeStep(r, Remove(1), s5);
    r := r + [s5];
    var s6 := s5.(jobs := [Job(u, 1, Fired), Job(u, 2, Fired)]);
    assert Apply(s5, Expire(1)) == s6;
    TakeStep(r, Expire(1), s6);
    r := r + [s6];
    var s7 := Twice(u, map[], map[], map[], Removed, [Job(u, 1, Fired), Job(u, 2, Finished)], gone + [Announced(u, 1)]);
    assert Apply(s6, Confirm(1)) == s7;
    TakeStep(r, Confirm(1), s7);
    r := r + [s7];
  }

  /** When callbacks of one uid run out of order, generations start over under a callback that is
      still outstanding: it announces the uid although a later removal, whose grace period has not
      ended, is the pending one. */
  lemma DisorderAnnouncesEarly(u: Uid) returns (r: seq<Registry>)
    ensures Run(r)
    ensures var s := r[|r| - 1];
            && |s.jobs| == 3 && s.jobs[2].uid == u && s.jobs[2].status == Waiting && HasJob(s, u, 2)
            && Possible(s, Confirm(0)) && s.jobs[0].uid == u && Announces(s, 0)
  {
    r := CallbacksSwapped(u);
    var s7 := r[|r| - 1];
    var s8 := Begun(s7, u);
    TakeStep(r, ConnectBegin(u), s8);
    r := r + [s8];
    var s9 := Gone(s8, 2);
    TakeStep(r, Remove(2), s9);
    r := r + [s9];
  }

  /** The callback announces although another job of its uid, of at least generation `least`, is live. */
  predicate Strays(s: Registry, e: Event, least: nat)
    requires Possible(s, e)
  {
    && e.Confirm? && Announces(s, e.job)
    && exists i | 0 <= i < |s.jobs| :: Rival(s, e.job, i) && s.jobs[i].generation >= least
  }

  /** An offline uid whose live job `i` is neither pending nor has been reached by its generation yet. */
  predicate Lurks(s: Registry, uid: Uid, i: nat) {
    && uid !in s.clients && !MidConnect(s, uid)
    && i < |s.jobs| && s.jobs[i].uid == uid && Open(s.jobs[i])
    && !HasJob(s, uid, i) && Generation(s, uid) <= s.jobs[i].generation
  }

  /** No live job of `uid` was scheduled before job `i`. */
  predicate Oldest(s: Registry, uid: Uid, i: nat) {
    forall l | 0 <= l < i && l < |s.jobs| :: s.jobs[l].uid == uid ==> !Open(s.jobs[l])
  }

  /** The uid comes back and leaves again, which raises its generation by one. */
  lemma ComeAndGo(s: Registry, uid: Uid, i: nat) returns (t: Registry)
    requires Lurks(s, uid, i) && Generation(s, uid) < s.jobs[i].generation
    ensures NextOrderly(s, Begun(s, uid)) && NextOrderly(Begun(s, uid), t)
    ensures Lurks(t, uid, i) && t.jobs[i] == s.jobs[i] && Generation(t, uid) == Generation(s, uid) + 1
    ensures Oldest(s, uid, i) ==> Oldest(t, uid, i)
  {
    var b, k := Begun(s, uid), |s.connections|;
    t := Gone(b, k);
    assert Possible(s, ConnectBegin(uid)) && Orderly(s, ConnectBegin(uid));
    assert Apply(s, ConnectBegin(uid)) == b;
    assert Possible(b, Remove(k)) && Orderly(b, Remove(k));
    assert Apply(b, Remove(k)) == t;
    forall c <- t.connections ensures !(c.uid == uid && c.phase == Phase.Opening) {
      assert c in s.connections || c == b.connections[k].(phase := Removed);
    }
  }

  /** However far behind its generation is, enough returns bring it to any level up to that of the
      lurking job. */
  lemma {:induction false} LurkingClimbs(origin: Registry, s: Registry, uid: Uid, i: nat, level: nat)
    returns (t: Registry)
    requires Reaches(origin, s) && Lurks(s, uid, i) && Generation(s, uid) <= level <= s.jobs[i].generation
    ensures Reaches(origin, t) && Lurks(t, uid, i) && t.jobs[i] == s.jobs[i] && Generation(t, uid) == level
    ensures Oldest(s, uid, i) ==> Oldest(t, uid, i)
    decreases level - Generation(s, uid)
  {
    t := s;
    if Generation(s, uid) < level {
      var next := ComeAndGo(s, uid, i);
      ReachesNext(origin, s, Begun(s, uid));
      ReachesNext(origin, Begun(s, uid), next);
      t := LurkingClimbs(origin, next, uid, i, level);
    }
  }

  /** A live job left behind by an announcement announces early in some orderly continuation. */
  lemma LurkingStrikes(s: Registry, uid: Uid, i: nat)
    requires Lurks(s, uid, i)
    ensures CanAnnounceEarly(s)
  {
    ReachesItself(s);
    var t := LurkingClimbs(s, s, uid, i, s.jobs[i].generation);
    assert Early(t, i);
  }

  /** Nothing is recorded of `uid`. */
  predicate Unknown(s: Registry, uid: Uid) {
    uid !in s.clients && uid !in s.generations && uid !in s.pending && !MidConnect(s, uid)
  }

  lemma FireJob(origin: Registry, s: Registry, i: nat) returns (t: Registry)
    requires Reaches(origin, s) && i < |s.jobs| && Open(s.jobs[i])
    ensures Reaches(origin, t) && t == s.(jobs := s.jobs[i := s.jobs[i].(status := Fired)])
  {
    t := s;
    if s.jobs[i].status == Waiting {
      t := Apply(s, Expire(i));
      ReachesBy(origin, s, Expire(i));
    } else {
      assert s.jobs[i := s.jobs[i].(status := Fired)] == s.jobs;
    }
  }

  /** The callback of a job of an unknown uid finds another generation and ends. */
  lemma UnknownIsSilent(s: Registry, uid: Uid, j: nat)
    requires Unknown(s, uid) && Possible(s, Confirm(j)) && s.jobs[j].uid == uid && s.jobs[j].generation > 0
    ensures Confirmed(s, j) == s.(jobs := s.jobs[j := s.jobs[j].(status := Finished)])
  {
  }

  lemma OldestRunsOff(origin: Registry, s: Registry, uid: Uid, m: nat) returns (t: Registry)
    requires Reaches(origin, s) && Unknown(s, uid) && m < |s.jobs| && Oldest(s, uid, m)
    requires s.jobs[m].uid == uid && Open(s.jobs[m]) && s.jobs[m].generation > 0
    ensures Reaches(origin, t) && t == s.(jobs := s.jobs[m := s.jobs[m].(status := Finished)])
  {
    var fired := FireJob(origin, s, m);
    UnknownIsSilent(fired, uid, m);
    ReachesBy(origin, fired, Confirm(m));
    t := Confirmed(fired, m);
    assert fired.jobs[m := fired.jobs[m].(status := Finished)] == s.jobs[m := s.jobs[m].(status := Finished)];
  }

  /** While a uid is unknown, the callbacks of its older jobs run off in order. */
  lemma {:induction false} OlderRunOff(origin: Registry, s: Registry, uid: Uid, i: nat, m: nat)
    returns (t: Registry)
    requires Reaches(origin, s) && Unknown(s, uid) && m <= i < |s.jobs|
    requires forall job <- s.jobs :: job.generation > 0
    requires Oldest(s, uid, m)
    ensures Reaches(origin, t) && Unknown(t, uid) && |t.jobs| == |s.jobs| && t.jobs[i] == s.jobs[i]
    ensures Oldest(t, uid, i)
    decreases i - m
  {
    if m == i {
      t := s;
    } else if s.jobs[m].uid != uid || !Open(s.jobs[m]) {
      t := OlderRunOff(origin, s, uid, i, m + 1);
    } else {
      var next := OldestRunsOff(origin, s, uid, m);
      t := OlderRunOff(origin, next, uid, i, m + 1);
    }
  }

  /** The lurking job announces its uid in the gap of a connect, which then registers a client of
      which nothing is recorded. */
  lemma GapMisleads(origin: Registry, s: Registry, uid: Uid, i: nat)
    requires Reaches(origin, s) && Lurks(s, uid, i) && Oldest(s, uid, i)
    requires s.jobs[i].generation == Generation(s, uid) + 2
    ensures CanMislead(origin)
  {
    var b, k := Begun(s, uid), |s.connections| + 1;
    assert forall c <- b.connections :: !(c.uid == uid && c.phase == Phase.Opening);
    var gap := Begun(b, uid);
    ReachesBy(origin, s, ConnectBegin(uid));
    ReachesBy(origin, b, ConnectBegin(uid));
    assert gap.jobs[i] == s.jobs[i] && uid !in gap.clients && Oldest(gap, uid, i);
    var fired := FireJob(origin, gap, i);
    assert Announces(fired, i) && Oldest(fired, uid, i);
    ReachesBy(origin, fired, Confirm(i));
    var last := Confirmed(fired, i);
    ReachesBy(origin, last, ConnectFinish(k));
    assert !Truthful(Opened(last, k), uid);
  }

  /** What an announcement leaves of its uid, and of a rival of its job. */
  lemma AnnouncedIsUnknown(s: Registry, j: nat, i: nat)
    requires Inv(s, 0) && Possible(s, Confirm(j)) && Announces(s, j) && Rival(s, j, i)
    ensures var t := Confirmed(s, j);
            Unknown(t, s.jobs[j].uid) && t.jobs[i] == s.jobs[i] && Lurks(t, s.jobs[j].uid, i)
  {
    AnnouncesWhenPending(s, j, 0);
  }

  lemma StrayAnnouncesEarly(s: Registry, j: nat)
    requires Inv(s, 0) && Possible(s, Confirm(j)) && Strays(s, Confirm(j), 1)
    ensures CanAnnounceEarly(Confirmed(s, j))
  {
    var i :| 0 <= i < |s.jobs| && Rival(s, j, i) && s.jobs[i].generation >= 1;
    AnnouncedIsUnknown(s, j, i);
    LurkingStrikes(Confirmed(s, j), s.jobs[j].uid, i);
  }

  lemma StrayMisleads(s: Registry, j: nat)
    requires Inv(s, 0) && Possible(s, Confirm(j)) && Strays(s, Confirm(j), 2)
    ensures CanMislead(Confirmed(s, j))
  {
    var i :| 0 <= i < |s.jobs| && Rival(s, j, i) && s.jobs[i].generation >= 2;
    var t, uid := Confirmed(s, j), s.jobs[j].uid;
    AnnouncedIsUnknown(s, j, i);
    ReachesItself(t);
    var c := OlderRunOff(t, t, uid, i, 0);
    var d := LurkingClimbs(t, c, uid, i, s.jobs[i].generation - 2);
    GapMisleads(t, d, uid, i);
  }

  // ----- Exactly when -----

  /** A step that is neither an overlapping connect nor a callback straying with a rival above `stray`
      keeps the invariant. */
  lemma HarmlessKeepsInv(s: Registry, e: Event, stray: nat)
    requires Inv(s, 0) && stray <= 1 && Possible(s, e) && !Overlaps(s, e) && !Strays(s, e, stray + 1)
    ensures Inv(Apply(s, e), stray)
  {
    if stray == 1 {
      StrayIsWeaker(s);
    }
    match e
    case ConnectBegin(uid) => BegunKeepsInv(s, uid, stray);
    case ConnectFinish(k) => OpenedKeepsInv(s, k, stray);
    case Remove(k) => GoneKeepsInv(s, k, stray);
    case Expire(j) => ExpireKeepsInv(s, j, stray);
    case Confirm(j) => ConfirmedKeepsInv(s, j, stray);
  }

  /** After an orderly run, a step can lead to an early announcement in some orderly continuation
      exactly when it is an overlapping connect, or a callback that announces while another job of
      its uid is live. */
  lemma EarlyIff(r: seq<Registry>, e: Event)
    requires OrderlyRun(r) && Possible(r[|r| - 1], e)
    ensures CanAnnounceEarly(Apply(r[|r| - 1], e)) <==> Overlaps(r[|r| - 1], e) || Strays(r[|r| - 1], e, 1)
  {
    var s := r[|r| - 1];
    OrderlyRunKeepsInv(r, |r| - 1);
    if Overlaps(s, e) {
      OverlapAnnouncesEarly(s, e.uid);
    } else if Strays(s, e, 1) {
      StrayAnnouncesEarly(s, e.job);
    } else {
      HarmlessKeepsInv(s, e, 0);
      SoundNeverEarly(Apply(s, e));
    }
  }

  /** After an orderly run, a step can make the registry lie about a uid in some orderly continuation
      exactly when it is an overlapping connect, or a callback that announces while another job of
      its uid is live that is not of the first generation. */
  lemma MisleadsIff(r: seq<Registry>, e: Event)
    requires OrderlyRun(r) && Possible(r[|r| - 1], e)
    ensures CanMislead(Apply(r[|r| - 1], e)) <==> Overlaps(r[|r| - 1], e) || Strays(r[|r| - 1], e, 2)
  {
    var s := r[|r| - 1];
    OrderlyRunKeepsInv(r, |r| - 1);
    if Overlaps(s, e) {
      OverlapMisleads(s, e.uid);
    } else if Strays(s, e, 2) {
      StrayMisleads(s, e.job);
    } else {
      HarmlessKeepsInv(s, e, 1);
      StrayIsTruthful(Apply(s, e));
    }
  }

  // ----- Both departures do both harms -----

  /** Two connects of `u` in good order, the second still in its gap: a third one does both harms. */
  lemma OverlapDoesBothHarms(u: Uid) returns (r: seq<Registry>)
    ensures OrderlyRun(r) && MidConnect(r[|r| - 1], u)
    ensures CanMislead(Begun(r[|r| - 1], u)) && CanAnnounceEarly(Begun(r[|r| - 1], u))
  {
    var s := OverlapStates(u);
    r := s[..3];
    assert Possible(s[0], ConnectBegin(u)) && Orderly(s[0], ConnectBegin(u)) && Apply(s[0], ConnectBegin(u)) == s[1];
    assert Possible(s[1], ConnectBegin(u)) && Orderly(s[1], ConnectBegin(u)) && Apply(s[1], ConnectBegin(u)) == s[2];
    assert OrderlyStepAt(r, 0) && OrderlyStepAt(r, 1);
    assert s[2].connections[1] == Connection(u, 2, Phase.Opening);
    EarlyIff(r, ConnectBegin(u));
    MisleadsIff(r, ConnectBegin(u));
  }

  /** `u` has come and gone `n` times, and all `n` callbacks are still to run. */
  function Late(u: Uid, n: nat): Registry {
    Registry(map[], if n == 0 then map[] else map[u := n], if n == 0 then map[] else map[u := n - 1],
             seq(n, i requires 0 <= i < n => Connection(u, i + 1, Removed)),
             seq(n, i requires 0 <= i < n => Job(u, i + 1, Fired)),
             seq(2 * n, i requires 0 <= i < 2 * n => if i % 2 == 0 then Connected(u) else Left(u, i / 2)))
  }

  lemma LateComesBack(u: Uid, n: nat)
    ensures var s := Late(u, n);
            && NextOrderly(s, Begun(s, u)) && Possible(Begun(s, u), Remove(n))
            && NextOrderly(Begun(s, u), Gone(Begun(s, u), n))
  {
    var s := Late(u, n);
    var b := Begun(s, u);
    assert Possible(s, ConnectBegin(u)) && Orderly(s, ConnectBegin(u)) && Apply(s, ConnectBegin(u)) == b;
    assert Possible(b, Remove(n)) && Orderly(b, Remove(n)) && Apply(b, Remove(n)) == Gone(b, n);
  }

  lemma LateIsLateAgain(u: Uid, n: nat)
    ensures var g := Gone(Begun(Late(u, n), u), n);
            Possible(g, Expire(n)) && Apply(g, Expire(n)) == Late(u, n + 1)
  {
  }

  lemma LateReachesNext(u: Uid, n: nat)
    requires Reaches(EMPTY, Late(u, n))
    ensures Reaches(EMPTY, Late(u, n + 1))
  {
    var s := Late(u, n);
    LateComesBack(u, n);
    ReachesNext(EMPTY, s, Begun(s, u));
    ReachesNext(EMPTY, Begun(s, u), Gone(Begun(s, u), n));
    LateIsLateAgain(u, n);
    ReachesBy(EMPTY, Gone(Begun(s, u), n), Expire(n));
  }

  lemma {:induction false} LateIsReached(u: Uid, n: nat)
    ensures Reaches(EMPTY, Late(u, n))
  {
    if n == 0 {
      assert Late(u, 0) == EMPTY;
      ReachesItself(EMPTY);
    } else {
      LateIsReached(u, n - 1);
      LateReachesNext(u, n - 1);
    }
  }

  /** Three visits of `u` whose callbacks are all outstanding: running the last callback first does
      both harms. */
  lemma DisorderDoesBothHarms(u: Uid) returns (r: seq<Registry>)
    ensures OrderlyRun(r) && r[|r| - 1] == Late(u, 3) && Possible(r[|r| - 1], Confirm(2))
    ensures CanMislead(Confirmed(r[|r| - 1], 2)) && CanAnnounceEarly(Confirmed(r[|r| - 1], 2))
  {
    LateIsReached(u, 3);
    r :| Links(r, EMPTY, Late(u, 3));
    assert Rival(Late(u, 3), 2, 1);
    EarlyIff(r, Confirm(2));
    MisleadsIff(r, Confirm(2));
  }
}
