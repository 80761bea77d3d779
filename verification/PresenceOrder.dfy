/** What the presence registry guarantees when connects of one uid do not overlap and the offline
    callbacks of one uid run in the order they were scheduled. */
module PresenceOrder {
  import opened Presence

  predicate MidConnect(s: Registry, uid: Uid) {
    exists c <- s.connections :: c.uid == uid && c.phase == Phase.Opening
  }

  predicate Orderly(s: Registry, e: Event)
    requires Possible(s, e)
  {
    match e
    case ConnectBegin(uid) => !MidConnect(s, uid)
    case Confirm(j) => forall i | 0 <= i < j :: s.jobs[i].uid == s.jobs[j].uid ==> !Open(s.jobs[i])
    case _ => true
  }

  ghost predicate NextOrderly(s: Registry, t: Registry) {
    exists e :: Possible(s, e) && Orderly(s, e) && t == Apply(s, e)
  }

  ghost predicate OrderlyStepAt(r: seq<Registry>, i: nat)
    requires i + 1 < |r|
  {
    NextOrderly(r[i], r[i + 1])
  }

  ghost predicate OrderlyRun(r: seq<Registry>) {
    |r| > 0 && r[0] == EMPTY && forall i | 0 <= i < |r| - 1 :: OrderlyStepAt(r, i)
  }

  predicate HasJob(s: Registry, uid: Uid, j: nat) {
    uid in s.pending && s.pending[uid] == j
  }

  /** A registered client has the recorded generation, and nothing is scheduled for its uid. */
  predicate Registered(s: Registry, uid: Uid)
    requires uid in s.clients
  {
    && s.clients[uid] < |s.connections| && s.connections[s.clients[uid]].uid == uid
    && s.connections[s.clients[uid]].phase == Active
    && uid in s.generations && s.generations[uid] == s.connections[s.clients[uid]].generation
    && uid !in s.pending
  }

  /** The pending job of a uid is live, has the recorded generation, and is its latest one. */
  predicate Scheduled(s: Registry, uid: Uid)
    requires uid in s.pending
  {
    var j := s.pending[uid];
    && j < |s.jobs| && s.jobs[j].uid == uid && Open(s.jobs[j])
    && uid in s.generations && s.generations[uid] == s.jobs[j].generation
    && forall i | j < i < |s.jobs| :: s.jobs[i].uid != uid
  }

  predicate InGap(s: Registry, k: nat)
    requires k < |s.connections|
  {
    var c := s.connections[k];
    c.phase == Phase.Opening ==>
      && c.uid in s.generations && s.generations[c.uid] == c.generation > 1
      && c.uid !in s.clients && c.uid !in s.pending
      && forall i | 0 <= i < |s.connections| && i != k ::
           s.connections[i].uid != c.uid || s.connections[i].phase != Phase.Opening
  }

  /** A live job is the pending one of its uid, or its generation is already out of date. This is asked
      only of generations above `stray`. */
  predicate Accounted(s: Registry, j: nat, stray: nat)
    requires j < |s.jobs|
  {
    var job := s.jobs[j];
    Open(job) && job.generation > stray ==>
      job.uid in s.generations && (HasJob(s, job.uid, j) || job.generation < s.generations[job.uid])
  }

  predicate Present(s: Registry) {
    && (forall uid <- s.clients :: Registered(s, uid))
    && (forall uid <- s.pending :: Scheduled(s, uid))
    && (forall uid <- s.generations ::
          s.generations[uid] > 0 && (uid in s.clients || uid in s.pending || MidConnect(s, uid)))
  }

  /** The invariant of orderly runs, with `stray` zero. With `stray` one it tolerates live jobs of the
      first generation that nobody accounts for. */
  predicate Inv(s: Registry, stray: nat) {
    && Present(s)
    && (forall k | 0 <= k < |s.connections| :: InGap(s, k))
    && (forall j | 0 <= j < |s.jobs| :: s.jobs[j].generation > 0 && Accounted(s, j, stray))
  }

  predicate Rival(s: Registry, j: nat, i: nat)
    requires j < |s.jobs|
  {
    i < |s.jobs| && i != j && s.jobs[i].uid == s.jobs[j].uid && Open(s.jobs[i])
  }

  lemma BegunKeepsInv(s: Registry, uid: Uid, stray: nat)
    requires Inv(s, stray) && !MidConnect(s, uid)
    ensures Inv(Begun(s, uid), stray)
  {
    var t := Begun(s, uid);
    forall u <- t.pending ensures Scheduled(t, u) {
      assert Scheduled(s, u);
    }
    forall u <- t.clients ensures Registered(t, u) {
      if u != uid {
        assert Registered(s, u);
      }
    }
    forall j | 0 <= j < |t.jobs| ensures t.jobs[j].generation > 0 && Accounted(t, j, stray) {
      BegunKeepsAccounted(s, uid, j, stray);
    }
    forall k | 0 <= k < |t.connections| ensures InGap(t, k) {
      BegunKeepsGap(s, uid, k, stray);
    }
    BegunKeepsRecorded(s, uid, stray);
  }

  lemma BegunKeepsAccounted(s: Registry, uid: Uid, j: nat, stray: nat)
    requires Inv(s, stray) && j < |Begun(s, uid).jobs|
    ensures Begun(s, uid).jobs[j].generation > 0 && Accounted(Begun(s, uid), j, stray)
  {
    assert Accounted(s, j, stray);
    if uid in s.pending {
      assert Scheduled(s, uid);
    }
  }

  lemma BegunKeepsGap(s: Registry, uid: Uid, k: nat, stray: nat)
    requires Inv(s, stray) && !MidConnect(s, uid) && k < |Begun(s, uid).connections|
    ensures InGap(Begun(s, uid), k)
  {
    if k < |s.connections| {
      assert InGap(s, k) && s.connections[k] in s.connections;
    } else {
      forall i | 0 <= i < |s.connections|
        ensures s.connections[i].uid != uid || s.connections[i].phase != Phase.Opening
      {
        assert s.connections[i] in s.connections;
      }
    }
  }

  lemma BegunKeepsRecorded(s: Registry, uid: Uid, stray: nat)
    requires Inv(s, stray) && !MidConnect(s, uid)
    ensures var t := Begun(s, uid);
              forall u <- t.generations ::
                t.generations[u] > 0 && (u in t.clients || u in t.pending || MidConnect(t, u))
  {
    var t := Begun(s, uid);
    assert t.connections[|s.connections|] in t.connections;
    forall u <- t.generations
      ensures t.generations[u] > 0 && (u in t.clients || u in t.pending || MidConnect(t, u))
    {
      if u != uid && MidConnect(s, u) {
        var c :| c in s.connections && c.uid == u && c.phase == Phase.Opening;
        assert c in t.connections;
      }
    }
  }

  /** Connections other than `k` of other uids keep their gap when connection `k` changes phase. */
  lemma PhaseKeepsOpening(s: Registry, k: nat, phase: Phase, u: Uid)
    requires k < |s.connections| && s.connections[k].uid != u && MidConnect(s, u)
    ensures MidConnect(s.(connections := s.connections[k := s.connections[k].(phase := phase)]), u)
  {
    var c :| c in s.connections && c.uid == u && c.phase == Phase.Opening;
    var i :| 0 <= i < |s.connections| && s.connections[i] == c;
    assert s.connections[k := s.connections[k].(phase := phase)][i] == c;
  }

  lemma OpenedKeepsInv(s: Registry, k: nat, stray: nat)
    requires Inv(s, stray) && Possible(s, ConnectFinish(k))
    ensures Inv(Opened(s, k), stray)
  {
    var t, uid := Opened(s, k), s.connections[k].uid;
    assert InGap(s, k);
    forall u <- t.clients ensures Registered(t, u) {
      if u != uid {
        assert Registered(s, u);
      }
    }
    forall u <- t.pending ensures Scheduled(t, u) {
      assert Scheduled(s, u);
    }
    forall i | 0 <= i < |t.connections| ensures InGap(t, i) {
      assert InGap(s, i);
    }
    forall j | 0 <= j < |t.jobs| ensures t.jobs[j].generation > 0 && Accounted(t, j, stray) {
      assert Accounted(s, j, stray);
    }
    forall u <- t.generations
      ensures t.generations[u] > 0 && (u in t.clients || u in t.pending || MidConnect(t, u))
    {
      if u != uid && MidConnect(s, u) {
        PhaseKeepsOpening(s, k, Active, u);
        assert MidConnect(t, u);
      }
    }
  }

  lemma GoneKeepsInv(s: Registry, k: nat, stray: nat)
    requires Inv(s, stray) && Possible(s, Remove(k))
    ensures Inv(Gone(s, k), stray)
  {
    var t, uid := Gone(s, k), s.connections[k].uid;
    if uid in s.clients {
      assert Registered(s, uid);
    }
    forall u <- t.clients ensures Registered(t, u) {
      assert Registered(s, u);
    }
    forall u <- t.pending ensures Scheduled(t, u) {
      if u in s.pending {
        assert Scheduled(s, u);
      }
    }
    forall i | 0 <= i < |t.connections| ensures InGap(t, i) {
      GoneKeepsGap(s, k, i, stray);
    }
    forall j | 0 <= j < |t.jobs| ensures t.jobs[j].generation > 0 && Accounted(t, j, stray) {
      GoneKeepsAccounted(s, k, j, stray);
    }
    GoneKeepsRecorded(s, k, stray);
  }

  lemma GoneKeepsGap(s: Registry, k: nat, i: nat, stray: nat)
    requires Inv(s, stray) && Possible(s, Remove(k)) && i < |s.connections|
    ensures |Gone(s, k).connections| == |s.connections| && InGap(Gone(s, k), i)
  {
    assert InGap(s, i);
  }

  lemma GoneKeepsAccounted(s: Registry, k: nat, j: nat, stray: nat)
    requires Inv(s, stray) && Possible(s, Remove(k)) && j < |Gone(s, k).jobs|
    ensures Gone(s, k).jobs[j].generation > 0 && Accounted(Gone(s, k), j, stray)
  {
    var uid := s.connections[k].uid;
    if uid in s.clients {
      assert Registered(s, uid);
    }
    if j < |s.jobs| {
      assert Accounted(s, j, stray);
    }
  }

  lemma GoneKeepsRecorded(s: Registry, k: nat, stray: nat)
    requires Inv(s, stray) && Possible(s, Remove(k))
    ensures var t := Gone(s, k);
              forall u <- t.generations ::
                t.generations[u] > 0 && (u in t.clients || u in t.pending || MidConnect(t, u))
  {
    var t := Gone(s, k);
    forall u <- t.generations
      ensures t.generations[u] > 0 && (u in t.clients || u in t.pending || MidConnect(t, u))
    {
      if MidConnect(s, u) {
        var c :| c in s.connections && c.uid == u && c.phase == Phase.Opening;
        var i :| 0 <= i < |s.connections| && s.connections[i] == c;
        assert t.connections[i] == c;
      }
    }
  }

  lemma ExpireKeepsInv(s: Registry, j: nat, stray: nat)
    requires Inv(s, stray) && Possible(s, Expire(j))
    ensures Inv(Apply(s, Expire(j)), stray)
  {
    var t := Apply(s, Expire(j));
    forall u <- t.pending ensures Scheduled(t, u) {
      assert Scheduled(s, u);
    }
    forall u <- t.clients ensures Registered(t, u) {
      assert Registered(s, u);
    }
    forall i | 0 <= i < |t.connections| ensures InGap(t, i) {
      assert InGap(s, i);
    }
    forall i | 0 <= i < |t.jobs| ensures t.jobs[i].generation > 0 && Accounted(t, i, stray) {
      assert Accounted(s, i, stray);
    }
    forall u <- t.generations
      ensures t.generations[u] > 0 && (u in t.clients || u in t.pending || MidConnect(t, u))
    {
      assert MidConnect(s, u) ==> MidConnect(t, u);
    }
  }

  /** A callback announces its uid offline exactly when its job is still the pending one. */
  lemma AnnouncesIffPending(s: Registry, j: nat)
    requires Inv(s, 0) && Possible(s, Confirm(j))
    ensures Announces(s, j) <==> HasJob(s, s.jobs[j].uid, j)
    ensures !Announces(s, j) ==> Generation(s, s.jobs[j].uid) != s.jobs[j].generation
  {
    var uid := s.jobs[j].uid;
    assert Accounted(s, j, 0);
    if uid in s.pending {
      assert Scheduled(s, uid);
    }
    if uid in s.clients {
      assert Registered(s, uid);
    }
  }

  /** A callback whose announcement is due, above `stray`, is that of the pending job; and its uid is
      not mid-connect. */
  lemma AnnouncesWhenPending(s: Registry, j: nat, stray: nat)
    requires Inv(s, stray) && stray <= 1 && Possible(s, Confirm(j)) && Announces(s, j)
    ensures s.jobs[j].generation > stray ==> HasJob(s, s.jobs[j].uid, j)
    ensures !MidConnect(s, s.jobs[j].uid)
  {
    var uid := s.jobs[j].uid;
    assert Accounted(s, j, stray);
    forall c <- s.connections ensures c.uid != uid || c.phase != Phase.Opening {
      var k :| 0 <= k < |s.connections| && s.connections[k] == c;
      assert InGap(s, k);
    }
  }

  /** A callback that announces nothing changes nothing but its own job. */
  lemma SilentOnlyFinishes(s: Registry, j: nat, stray: nat)
    requires Inv(s, stray) && Possible(s, Confirm(j)) && !Announces(s, j)
    ensures Confirmed(s, j) == s.(jobs := s.jobs[j := s.jobs[j].(status := Finished)])
    ensures !HasJob(s, s.jobs[j].uid, j)
  {
    var uid := s.jobs[j].uid;
    if uid in s.clients {
      assert Registered(s, uid);
      assert s.pending - {uid} == s.pending;
    }
    if uid in s.pending {
      assert Scheduled(s, uid);
    }
  }

  lemma ConfirmedKeepsPresent(s: Registry, j: nat, stray: nat)
    requires Inv(s, stray) && stray <= 1 && Possible(s, Confirm(j))
    ensures Present(Confirmed(s, j))
  {
    var t := Confirmed(s, j);
    if !Announces(s, j) {
      SilentOnlyFinishes(s, j, stray);
    }
    forall u <- t.clients ensures Registered(t, u) {
      assert Registered(s, u);
    }
    forall u <- t.pending ensures Scheduled(t, u) {
      assert Scheduled(s, u);
    }
    forall u <- t.generations
      ensures t.generations[u] > 0 && (u in t.clients || u in t.pending || MidConnect(t, u))
    {
      assert MidConnect(s, u) ==> MidConnect(t, u);
    }
  }

  lemma ConfirmedKeepsGap(s: Registry, j: nat, stray: nat, k: nat)
    requires Inv(s, stray) && stray <= 1 && Possible(s, Confirm(j)) && k < |s.connections|
    ensures InGap(Confirmed(s, j), k)
  {
    assert InGap(s, k);
    if Announces(s, j) {
      AnnouncesWhenPending(s, j, stray);
      assert s.connections[k] in s.connections;
    }
  }

  lemma ConfirmedKeepsAccounted(s: Registry, j: nat, stray: nat, i: nat)
    requires Inv(s, stray) && stray <= 1 && Possible(s, Confirm(j)) && i < |s.jobs|
    requires Announces(s, j) && s.jobs[j].generation > stray && Rival(s, j, i) ==> s.jobs[i].generation <= stray
    ensures Confirmed(s, j).jobs[i].generation > 0 && Accounted(Confirmed(s, j), i, stray)
  {
    assert Accounted(s, i, stray) && Accounted(s, j, stray);
    if s.jobs[i].uid in s.pending {
      assert Scheduled(s, s.jobs[i].uid);
    }
    if !Announces(s, j) {
      SilentOnlyFinishes(s, j, stray);
    }
  }

  /** A callback keeps the invariant unless it announces under a rival of a generation above `stray`. */
  lemma ConfirmedKeepsInv(s: Registry, j: nat, stray: nat)
    requires Inv(s, stray) && stray <= 1 && Possible(s, Confirm(j))
    requires Announces(s, j) && s.jobs[j].generation > stray ==>
               forall i: nat | Rival(s, j, i) :: s.jobs[i].generation <= stray
    ensures Inv(Confirmed(s, j), stray)
  {
    var t := Confirmed(s, j);
    ConfirmedKeepsPresent(s, j, stray);
    forall k | 0 <= k < |t.connections| ensures InGap(t, k) {
      ConfirmedKeepsGap(s, j, stray, k);
    }
    forall i | 0 <= i < |t.jobs| ensures t.jobs[i].generation > 0 && Accounted(t, i, stray) {
      ConfirmedKeepsAccounted(s, j, stray, i);
    }
  }

  lemma OrderlyHasNoRival(s: Registry, j: nat, stray: nat)
    requires Inv(s, stray) && stray <= 1 && Possible(s, Confirm(j)) && Orderly(s, Confirm(j))
    requires Announces(s, j) && s.jobs[j].generation > stray
    ensures forall i: nat :: !Rival(s, j, i)
  {
    AnnouncesWhenPending(s, j, stray);
    assert Scheduled(s, s.jobs[j].uid);
  }

  lemma NextKeepsInv(s: Registry, t: Registry, stray: nat)
    requires Inv(s, stray) && stray <= 1 && NextOrderly(s, t)
    ensures Inv(t, stray)
  {
    var e :| Possible(s, e) && Orderly(s, e) && t == Apply(s, e);
    match e
    case ConnectBegin(uid) => BegunKeepsInv(s, uid, stray);
    case ConnectFinish(k) => OpenedKeepsInv(s, k, stray);
    case Remove(k) => GoneKeepsInv(s, k, stray);
    case Expire(j) => ExpireKeepsInv(s, j, stray);
    case Confirm(j) =>
      if Announces(s, j) && s.jobs[j].generation > stray {
        OrderlyHasNoRival(s, j, stray);
      }
      ConfirmedKeepsInv(s, j, stray);
  }

  lemma {:induction false} OrderlyRunKeepsInv(r: seq<Registry>, n: nat)
    requires OrderlyRun(r) && n < |r|
    ensures Inv(r[n], 0)
  {
    if n > 0 {
      OrderlyRunKeepsInv(r, n - 1);
      assert OrderlyStepAt(r, n - 1);
      NextKeepsInv(r[n - 1], r[n], 0);
    }
  }

  /** What the registry promises about `uid`: a registered client has the recorded generation; a
      recorded uid that is neither registered nor mid-connect has a pending job; and a pending job is
      live, has exactly the recorded generation, and its uid is not registered. */
  predicate Truthful(s: Registry, uid: Uid) {
    && (uid in s.clients ==>
          && s.clients[uid] < |s.connections| && uid in s.generations
          && s.generations[uid] == s.connections[s.clients[uid]].generation)
    && (uid in s.generations && uid !in s.clients && !MidConnect(s, uid) ==> uid in s.pending)
    && (uid in s.pending ==>
          && uid !in s.clients && s.pending[uid] < |s.jobs| && uid in s.generations
          && s.jobs[s.pending[uid]].uid == uid && s.jobs[s.pending[uid]].generation == s.generations[uid]
          && Open(s.jobs[s.pending[uid]]))
  }

  lemma PresentIsTruthful(s: Registry, uid: Uid)
    requires Present(s)
    ensures Truthful(s, uid)
  {
    if uid in s.clients {
      assert Registered(s, uid);
    }
    if uid in s.pending {
      assert Scheduled(s, uid);
    }
  }

  /** In every orderly run the registry is truthful about every uid. */
  lemma PresenceHolds(r: seq<Registry>, n: nat, uid: Uid)
    requires OrderlyRun(r) && n < |r|
    ensures Truthful(r[n], uid)
  {
    OrderlyRunKeepsInv(r, n);
    PresentIsTruthful(r[n], uid);
  }

  /** A job that is not pending never becomes so: only the removal that makes a job puts it there. */
  lemma NotPendingStays(s: Registry, t: Registry, uid: Uid, j: nat)
    requires NextOrderly(s, t) && j < |s.jobs| && !HasJob(s, uid, j)
    ensures j < |t.jobs| && !HasJob(t, uid, j)
  {
    var e :| Possible(s, e) && Orderly(s, e) && t == Apply(s, e);
    OnlyNewJobsPend(s, e, uid, j);
  }

  lemma OnlyNewJobsPend(s: Registry, e: Event, uid: Uid, j: nat)
    requires Possible(s, e) && j < |s.jobs| && !HasJob(s, uid, j)
    ensures j < |Apply(s, e).jobs| && !HasJob(Apply(s, e), uid, j)
  {
    match e
    case ConnectBegin(u) => assert |StopPending(s, u)| == |s.jobs|;
    case Remove(k) => assert |StopPending(s, s.connections[k].uid)| == |s.jobs|;
    case _ =>
  }

  lemma {:induction false} NeverPendingAgain(r: seq<Registry>, i: nat, n: nat, uid: Uid, j: nat)
    requires OrderlyRun(r) && i <= n < |r| && j < |r[i].jobs| && !HasJob(r[i], uid, j)
    ensures j < |r[n].jobs| && !HasJob(r[n], uid, j)
  {
    if i < n {
      NeverPendingAgain(r, i, n - 1, uid, j);
      assert OrderlyStepAt(r, n - 1);
      NotPendingStays(r[n - 1], r[n], uid, j);
    }
  }

  /** Returning within the grace period cancels the announcement for good, although generations
      start over after an announcement: after a connect of `uid`, no job scheduled before it will
      ever announce `uid`. */
  lemma ReturningCancels(r: seq<Registry>, i: nat, n: nat, uid: Uid, j: nat)
    requires OrderlyRun(r) && i < n < |r| && r[i + 1] == Begun(r[i], uid)
    requires j < |r[i].jobs|
    requires j < |r[n].jobs| && r[n].jobs[j].uid == uid && Possible(r[n], Confirm(j))
    ensures !Announces(r[n], j)
  {
    BegunForgetsJob(r[i], uid);
    NeverPendingAgain(r, i + 1, n, uid, j);
    OrderlyRunKeepsInv(r, n);
    AnnouncesIffPending(r[n], j);
  }

  lemma BegunForgetsJob(s: Registry, uid: Uid)
    ensures |Begun(s, uid).jobs| == |s.jobs| && uid !in Begun(s, uid).pending
  {
  }

  /** Staying away is announced: the job scheduled when a uid left stays pending until its own
      callback runs or the uid connects again, and that callback announces. */
  lemma AbsenceIsKept(s: Registry, e: Event, uid: Uid)
    requires Inv(s, 0) && Possible(s, e) && Orderly(s, e) && uid in s.pending
    ensures e == ConnectBegin(uid) || e == Confirm(s.pending[uid]) || HasJob(Apply(s, e), uid, s.pending[uid])
    ensures e == Confirm(s.pending[uid]) ==>
              Apply(s, e).log == s.log + [Announced(uid, s.pending[uid])] && uid !in Apply(s, e).generations
  {
    assert Scheduled(s, uid);
    if e.Remove? {
      var c := s.connections[e.connection];
      if c.uid in s.clients {
        assert Registered(s, c.uid);
      }
    }
    if e.Confirm? {
      AnnouncesIffPending(s, e.job);
    }
  }

  /** Since state `s`, uid `uid` has not come back. */
  predicate StayedAway(before: seq<Entry>, after: seq<Entry>, uid: Uid) {
    before <= after && forall entry <- after[|before|..] :: !IsConnect(entry, uid)
  }

  lemma LogGrows(s: Registry, e: Event)
    requires Possible(s, e)
    ensures s.log <= Apply(s, e).log && |Apply(s, e).log| <= |s.log| + 1
    ensures e.ConnectBegin? ==> Apply(s, e).log == s.log + [Connected(e.uid)]
  {
  }

  lemma ForgottenStays(s: Registry, e: Event, uid: Uid)
    requires Inv(s, 0) && Possible(s, e) && uid !in s.generations && e != ConnectBegin(uid)
    ensures uid !in Apply(s, e).generations
    ensures Announcements(Apply(s, e).log, uid) == Announcements(s.log, uid)
  {
    if e.Confirm? {
      AnnouncesIffPending(s, e.job);
      if HasJob(s, s.jobs[e.job].uid, e.job) {
        assert Scheduled(s, s.jobs[e.job].uid);
      }
    }
    if Apply(s, e).log != s.log {
      OneMoreEntry(s.log, Apply(s, e).log[|s.log|], uid);
    }
  }

  lemma WaitingStays(s: Registry, e: Event, uid: Uid, j: nat)
    requires Inv(s, 0) && Possible(s, e) && Orderly(s, e) && HasJob(s, uid, j) && e != ConnectBegin(uid)
    ensures if e == Confirm(j)
            then uid !in Apply(s, e).generations && Announced(uid, j) in Apply(s, e).log
                 && Announcements(Apply(s, e).log, uid) == Announcements(s.log, uid) + 1
            else HasJob(Apply(s, e), uid, j) && Announcements(Apply(s, e).log, uid) == Announcements(s.log, uid)
  {
    AbsenceIsKept(s, e, uid);
    assert Scheduled(s, uid);
    if e.Confirm? {
      AnnouncesIffPending(s, e.job);
    }
    if Apply(s, e).log != s.log {
      OneMoreEntry(s.log, Apply(s, e).log[|s.log|], uid);
    }
  }

  /** Where a uid stands that left with job `j` and has stayed away since: still waiting and not
      announced, or forgotten and announced exactly once, by that job. */
  predicate Awaited(s: Registry, n: nat, uid: Uid, j: nat) {
    || (HasJob(s, uid, j) && Announcements(s.log, uid) == n)
    || (uid !in s.generations && Announced(uid, j) in s.log && Announcements(s.log, uid) == n + 1)
  }

  lemma AwaitedStays(s: Registry, t: Registry, n: nat, uid: Uid, j: nat)
    requires Inv(s, 0) && NextOrderly(s, t) && Awaited(s, n, uid, j)
    ensures s.log <= t.log
    ensures (forall entry <- t.log[|s.log|..] :: !IsConnect(entry, uid)) ==> Awaited(t, n, uid, j)
  {
    var e :| Possible(s, e) && Orderly(s, e) && t == Apply(s, e);
    LogGrows(s, e);
    if e == ConnectBegin(uid) {
      assert t.log[|s.log|..] == [Connected(uid)];
      assert t.log[|s.log|..][0] in t.log[|s.log|..];
    } else if HasJob(s, uid, j) {
      WaitingStays(s, e, uid, j);
    } else {
      ForgottenStays(s, e, uid);
      assert s.log == t.log[..|s.log|];
    }
  }

  /** Staying away is announced exactly once: after a removal that scheduled job `j`, as long as the
      uid does not connect again, it is announced by that job's callback and by nothing else. */
  lemma {:induction false} AnnouncedExactlyOnce(r: seq<Registry>, i: nat, n: nat, uid: Uid, j: nat)
    requires OrderlyRun(r) && i <= n < |r| && HasJob(r[i], uid, j)
    requires forall k | i <= k <= n :: StayedAway(r[i].log, r[k].log, uid)
    ensures Awaited(r[n], Announcements(r[i].log, uid), uid, j)
  {
    if i < n {
      AnnouncedExactlyOnce(r, i, n - 1, uid, j);
      OrderlyRunKeepsInv(r, n - 1);
      assert OrderlyStepAt(r, n - 1);
      AwaitedStays(r[n - 1], r[n], Announcements(r[i].log, uid), uid, j);
      assert StayedAway(r[i].log, r[n - 1].log, uid) && StayedAway(r[i].log, r[n].log, uid);
      forall entry <- r[n].log[|r[n - 1].log|..] ensures !IsConnect(entry, uid) {
        assert entry in r[n].log[|r[i].log|..];
      }
    }
  }
}
