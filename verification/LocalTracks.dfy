/** Attaching local tracks to a peer connection (src/webrtcengine_media_pipeline.cc,
    src/webrtcengine_internal.h). Under Unified Plan a remote description adds senders that have no
    track yet, so the sender list alone does not say whether local media is attached. */
module LocalTracks {

  datatype Kind = Audio | Video

  /** A sender of the connection: absent, without a track, or with one. */
  datatype Sender = Missing | Empty | Sending(kind: Kind)

  /** The library's answer to AddTrack: it fails, fills an empty sender, or makes a new one. */
  datatype Answer = Fails | Fills(index: nat) | Appends

  /** What the foreign parts decide during one call of `AddTracks`. */
  datatype Library = Library(videoSource: bool, video: Answer, audio: Answer)

  function Count(senders: seq<Sender>, kind: Kind): nat {
    if senders == [] then 0 else (if senders[0] == Sending(kind) then 1 else 0) + Count(senders[1..], kind)
  }

  predicate Has(senders: seq<Sender>, kind: Kind) {
    Sending(kind) in senders
  }

  /** A sender that already has a track is never filled. */
  datatype Attached = Failed | Attached(senders: seq<Sender>)

  function Attach(senders: seq<Sender>, kind: Kind, answer: Answer): Attached {
    match answer
    case Fails => Failed
    case Appends => Attached(senders + [Sending(kind)])
    case Fills(i) =>
      if i < |senders| && senders[i] == Empty then Attached(senders[i := Sending(kind)])
      else Attached(senders + [Sending(kind)])
  }

  datatype Outcome = Outcome(senders: seq<Sender>, ok: bool)

  function AudioPart(senders: seq<Sender>, answer: Answer): Outcome {
    if Has(senders, Audio) then Outcome(senders, true)
    else match Attach(senders, Audio, answer)
      case Failed => Outcome(senders, false)
      case Attached(s) => Outcome(s, true)
  }

  function AddTracks(senders: seq<Sender>, library: Library): Outcome {
    if Has(senders, Video) then AudioPart(senders, library.audio)
    else if !library.videoSource then Outcome(senders, false)
    else match Attach(senders, Video, library.video)
      case Failed => Outcome(senders, false)
      case Attached(s) => AudioPart(s, library.audio)
  }

  lemma {:induction false} CountIsHas(senders: seq<Sender>, kind: Kind)
    ensures Has(senders, kind) <==> Count(senders, kind) > 0
  {
    if senders != [] {
      CountIsHas(senders[1..], kind);
    }
  }

  lemma {:induction false} CountAppended(senders: seq<Sender>, more: seq<Sender>, kind: Kind)
    ensures Count(senders + more, kind) == Count(senders, kind) + Count(more, kind)
  {
    if senders == [] {
      assert senders + more == more;
    } else {
      CountAppended(senders[1..], more, kind);
      assert (senders + more)[1..] == senders[1..] + more;
    }
  }

  lemma {:induction false} CountFilled(senders: seq<Sender>, i: nat, filled: Kind, kind: Kind)
    requires i < |senders| && senders[i] == Empty
    ensures Count(senders[i := Sending(filled)], kind) == Count(senders, kind) + (if filled == kind then 1 else 0)
  {
    if i == 0 {
      assert senders[0 := Sending(filled)][1..] == senders[1..];
    } else {
      CountFilled(senders[1..], i - 1, filled, kind);
      assert senders[i := Sending(filled)][1..] == senders[1..][i - 1 := Sending(filled)];
    }
  }

  lemma AttachCounts(senders: seq<Sender>, attached: Kind, answer: Answer, kind: Kind)
    ensures var a := Attach(senders, attached, answer);
            a.Attached? ==> Count(a.senders, kind) == Count(senders, kind) + (if attached == kind then 1 else 0)
  {
    CountAppended(senders, [Sending(attached)], kind);
    assert Count([Sending(attached)], kind) == if attached == kind then 1 else 0;
    if answer.Fills? && answer.index < |senders| && senders[answer.index] == Empty {
      CountFilled(senders, answer.index, attached, kind);
    }
  }

  /** For any sender list: `AddTracks` attaches a kind only where it was missing, so it never adds a
      second track of a kind, whether it succeeds, fails halfway or is repeated; and when it
      succeeds both kinds are attached. */
  lemma AddTracksCounts(senders: seq<Sender>, library: Library, kind: Kind)
    ensures var o := AddTracks(senders, library);
            && (Count(senders, kind) > 0 ==> Count(o.senders, kind) == Count(senders, kind))
            && Count(o.senders, kind) <= (if Count(senders, kind) > 0 then Count(senders, kind) else 1)
            && (o.ok ==> Count(o.senders, kind) > 0)
  {
    CountIsHas(senders, Audio);
    CountIsHas(senders, Video);
    AttachCounts(senders, Video, library.video, kind);
    var mid := if Has(senders, Video) then senders
               else match Attach(senders, Video, library.video) case Failed => senders case Attached(s) => s;
    AttachCounts(senders, Video, library.video, Audio);
    CountIsHas(mid, Audio);
    AttachCounts(mid, Audio, library.audio, kind);
  }

  lemma VideoKeepsAudio(senders: seq<Sender>, answer: Answer)
    requires Attach(senders, Video, answer).Attached?
    ensures Has(Attach(senders, Video, answer).senders, Audio) <==> Has(senders, Audio)
  {
    CountIsHas(senders, Audio);
    CountIsHas(Attach(senders, Video, answer).senders, Audio);
    AttachCounts(senders, Video, answer, Audio);
  }

  /** `AddTracks` succeeds exactly when each kind is there already or can be attached now. What is
      attached needs neither a source nor the library. */
  lemma SucceedsIff(senders: seq<Sender>, library: Library)
    ensures AddTracks(senders, library).ok <==>
            && (Sending(Video) in senders || (library.videoSource && library.video != Fails))
            && (Sending(Audio) in senders || library.audio != Fails)
  {
    if !Has(senders, Video) && library.videoSource && library.video != Fails {
      VideoKeepsAudio(senders, library.video);
    }
  }

  /** What is attached afterwards, also when it failed halfway: video comes first, and audio is only
      tried once video is there. */
  lemma AttachedIff(senders: seq<Sender>, library: Library)
    ensures var after := AddTracks(senders, library).senders;
            && (Sending(Video) in after <==>
                  Sending(Video) in senders || (library.videoSource && library.video != Fails))
            && (Sending(Audio) in after <==>
                  Sending(Audio) in senders || (Sending(Video) in after && library.audio != Fails))
  {
    AddTracksCounts(senders, library, Video);
    AddTracksCounts(senders, library, Audio);
    CountIsHas(senders, Video);
    CountIsHas(senders, Audio);
    var after := AddTracks(senders, library).senders;
    CountIsHas(after, Video);
    CountIsHas(after, Audio);
    SucceedsIff(senders, library);
    if !Has(senders, Video) && library.videoSource && library.video != Fails {
      var middle := Attach(senders, Video, library.video).senders;
      VideoKeepsAudio(senders, library.video);
      AttachCounts(senders, Video, library.video, Video);
      CountIsHas(middle, Video);
      AttachCounts(middle, Audio, library.audio, Video);
    } else {
      AttachCounts(senders, Audio, library.audio, Video);
    }
  }

  /** With both kinds attached `AddTracks` succeeds and leaves the senders alone, whatever the library
      would have answered. */
  lemma AttachedStays(senders: seq<Sender>, library: Library)
    requires Sending(Video) in senders && Sending(Audio) in senders
    ensures AddTracks(senders, library) == Outcome(senders, true)
  {
    SucceedsIff(senders, library);
  }

  // ----- One peer connection over its whole life -----

  datatype Event =
    | Describe(extra: seq<Sender>)   // a remote description adds senders without tracks
    | Add(library: Library)
    | AnswerOffer(extra: seq<Sender>, library: Library)

  /** A connection's senders, and (as history) the senders behind every answer it made. */
  datatype State = State(senders: seq<Sender>, answers: seq<seq<Sender>>)

  predicate Possible(e: Event) {
    e.Add? || forall s <- e.extra :: !s.Sending?
  }

  function Apply(s: State, e: Event): State {
    match e
    case Describe(extra) => s.(senders := s.senders + extra)
    case Add(library) => s.(senders := AddTracks(s.senders, library).senders)
    case AnswerOffer(extra, library) =>
      var o := AddTracks(s.senders + extra, library);
      State(o.senders, if o.ok then s.answers + [o.senders] else s.answers)
  }

  function ApplyAll(es: seq<Event>): State {
    if es == [] then State([], []) else Apply(ApplyAll(es[..|es| - 1]), es[|es| - 1])
  }

  predicate OneOfEach(senders: seq<Sender>) {
    Count(senders, Audio) == 1 && Count(senders, Video) == 1
  }

  lemma {:induction false} NoTracksAdded(extra: seq<Sender>, kind: Kind)
    requires forall s <- extra :: !s.Sending?
    ensures Count(extra, kind) == 0
  {
    if extra != [] {
      NoTracksAdded(extra[1..], kind);
    }
  }

  lemma ApplyCounts(s: State, e: Event, kind: Kind)
    requires Possible(e) && Count(s.senders, kind) <= 1
    ensures Count(Apply(s, e).senders, kind) <= 1
    ensures |Apply(s, e).answers| > |s.answers| ==> Count(Apply(s, e).senders, kind) == 1
  {
    if e.Add? {
      AddTracksCounts(s.senders, e.library, kind);
    } else {
      NoTracksAdded(e.extra, kind);
      CountAppended(s.senders, e.extra, kind);
      if e.AnswerOffer? {
        AddTracksCounts(s.senders + e.extra, e.library, kind);
      }
    }
  }

  /** Whatever remote descriptions arrive and however often `AddTracks` runs, succeeds or fails: a
      connection never has two local tracks of a kind, and every answer it makes is created with
      exactly one audio and one video track attached. */
  lemma {:induction false} AnswersCarryBothTracks(es: seq<Event>)
    requires forall e <- es :: Possible(e)
    ensures var s := ApplyAll(es);
            && Count(s.senders, Audio) <= 1 && Count(s.senders, Video) <= 1
            && forall a <- s.answers :: OneOfEach(a)
  {
    if es != [] {
      var prefix, e := es[..|es| - 1], es[|es| - 1];
      AnswersCarryBothTracks(prefix);
      assert e in es;
      ApplyCounts(ApplyAll(prefix), e, Audio);
      ApplyCounts(ApplyAll(prefix), e, Video);
    }
  }

  /** A successful `AddTracks` on a connection of this kind leaves exactly one track of each kind. */
  lemma SuccessMeansOneOfEach(es: seq<Event>, library: Library)
    requires (forall e <- es :: Possible(e)) && AddTracks(ApplyAll(es).senders, library).ok
    ensures OneOfEach(AddTracks(ApplyAll(es).senders, library).senders)
  {
    AnswersCarryBothTracks(es);
    AddTracksCounts(ApplyAll(es).senders, library, Audio);
    AddTracksCounts(ApplyAll(es).senders, library, Video);
  }

  /** Senders that a remote description brings stay after the ones there were, and no event takes away a
      sender. */
  lemma SendersOnlyGrow(es: seq<Event>, e: Event)
    requires (forall x <- es :: Possible(x)) && Possible(e)
    ensures |ApplyAll(es + [e]).senders| >= |ApplyAll(es).senders| + (if e.Add? then 0 else |e.extra|)
    ensures e.Describe? ==> ApplyAll(es + [e]).senders == ApplyAll(es).senders + e.extra
  {
    assert (es + [e])[..|es|] == es;
  }

  /** Over any life of a connection: once it carries one track of each kind, every offer handled on it
      is answered, whatever senders the offer brings and whatever the library would say. */
  lemma OffersAreAnswered(es: seq<Event>, offer: Event)
    requires (forall e <- es :: Possible(e)) && Possible(offer) && offer.AnswerOffer?
    requires OneOfEach(ApplyAll(es).senders)
    ensures ApplyAll(es + [offer]).answers == ApplyAll(es).answers + [ApplyAll(es).senders + offer.extra]
    ensures OneOfEach(ApplyAll(es + [offer]).senders)
  {
    var s := ApplyAll(es);
    assert (es + [offer])[..|es|] == es;
    CountIsHas(s.senders, Video);
    CountIsHas(s.senders, Audio);
    AttachedStays(s.senders + offer.extra, offer.library);
    NoTracksAdded(offer.extra, Audio);
    NoTracksAdded(offer.extra, Video);
    CountAppended(s.senders, offer.extra, Audio);
    CountAppended(s.senders, offer.extra, Video);
  }

  /** The engine's sender list as the source works on it. */
  class LocalMedia {
    var senders: seq<Sender>

    constructor ()
      ensures senders == []
    {
      senders := [];
    }

    method HasLocalSenderTrack(kind: Kind) returns (found: bool)
      ensures found <==> Has(senders, kind)
    {
      var i := 0;
      while i < |senders|
        invariant 0 <= i <= |senders|
        invariant Sending(kind) !in senders[..i]
      {
        if senders[i].Sending? && senders[i].kind == kind {
          return true;
        }
        i := i + 1;
      }
      assert senders[..i] == senders;
      return false;
    }

    method AddTrack(kind: Kind, answer: Answer) returns (ok: bool)
      modifies this
      ensures ok <==> Attach(old(senders), kind, answer).Attached?
      ensures senders == if ok then Attach(old(senders), kind, answer).senders else old(senders)
    {
      match answer {
        case Fails => return false;
        case Appends => senders := senders + [Sending(kind)];
        case Fills(i) =>
          if i < |senders| && senders[i] == Empty {
            senders := senders[i := Sending(kind)];
          } else {
            senders := senders + [Sending(kind)];
          }
      }
      return true;
    }

    method AddLocalTracks(library: Library) returns (ok: bool)
      modifies this
      ensures Outcome(senders, ok) == AddTracks(old(senders), library)
    {
      var hasVideo := HasLocalSenderTrack(Video);
      var hasAudio := HasLocalSenderTrack(Audio);
      if hasVideo && hasAudio {
        return true;
      }
      if !hasVideo {
        if !library.videoSource {
          return false;
        }
        var added := AddTrack(Video, library.video);
        if !added {
          return false;
        }
        VideoKeepsAudio(old(senders), library.video);
      }
      if !hasAudio {
        var added := AddTrack(Audio, library.audio);
        if !added {
          return false;
        }
      }
      return true;
    }
  }
}
