/**
 * Format negotiation as both implementations do it: a first-match scan over the
 * native types in the order the device reports them, with an acceptance test per
 * entry. The targets are NV12 at 1280x720 and 30 fps for video, integer PCM or
 * float PCM for audio; only the frame-rate tolerance differs between the session
 * (0.1) and the older synchronous path (0.01), so it is a parameter of the test.
 */
module Formats {
  import opened Platform

  const TargetSubtype: Guid := NV12
  const TargetWidth: uint32 := 1280
  const TargetHeight: uint32 := 720
  const TargetFps: real := 30.0
  /** Frame-rate tolerance of the session's test and of the older synchronous path. */
  const CaptureFpsTolerance: real := 0.1
  const LegacyFpsTolerance: real := 0.01

  function AbsReal(x: real): real { if x < 0.0 then -x else x }

  /** A frame rate num/den within tol of fps; a zero denominator never matches. */
  predicate RateNear(r: Ratio, fps: real, tol: real)
  {
    r.den != 0 && AbsReal(r.num as real / r.den as real - fps) < tol
  }

  /** The video test before the type is applied: subtype, exact size, frame rate. */
  predicate VideoMatches(a: MediaTypeAttrs, tol: real)
  {
    && a.subtype == Some(TargetSubtype)
    && a.frameSize == Some(FrameSize(TargetWidth, TargetHeight))
    && a.frameRate.Some?
    && RateNear(a.frameRate.value, TargetFps, tol)
  }

  predicate IsPcmOrFloat(a: MediaTypeAttrs)
  {
    a.subtype == Some(PCM) || a.subtype == Some(Float)
  }

  /** Which test a scan applies: the video test with a tolerance, or an audio pass. */
  datatype Criterion = VideoTarget(tol: real) | AudioTarget(pcmOnly: bool)

  /** The subtype (and, for video, size and rate) test alone. */
  predicate Matches(c: Criterion, a: MediaTypeAttrs)
  {
    match c
    case VideoTarget(tol) => VideoMatches(a, tol)
    case AudioTarget(pcmOnly) => if pcmOnly then a.subtype == Some(PCM) else IsPcmOrFloat(a)
  }

  /** An entry is accepted when it matches and the reader agrees to apply it. */
  predicate Accepts(c: Criterion, a: MediaTypeAttrs)
  {
    Matches(c, a) && Succeeded(a.applyHr)
  }

  /** The index of the first accepted entry, if any. */
  function FirstMatch(xs: seq<MediaTypeAttrs>, c: Criterion): (r: Option<nat>)
    ensures r.Some? ==> r.value < |xs| && Accepts(c, xs[r.value])
    ensures r.Some? ==> forall k :: 0 <= k < r.value ==> !Accepts(c, xs[k])
    ensures r.None? ==> forall k :: 0 <= k < |xs| ==> !Accepts(c, xs[k])
  {
    if xs == [] then None
    else if Accepts(c, xs[0]) then Some(0)
    else match FirstMatch(xs[1..], c)
      case None => None
      case Some(k) => Some(k + 1)
  }

  /** An accepted entry with no accepted entry before it is the first match. */
  lemma FirstMatchAt(xs: seq<MediaTypeAttrs>, c: Criterion, i: nat)
    requires i < |xs| && Accepts(c, xs[i])
    requires forall k :: 0 <= k < i ==> !Accepts(c, xs[k])
    ensures FirstMatch(xs, c) == Some(i)
  {
  }

  function AttrsOf(ts: seq<MediaType>): (r: seq<MediaTypeAttrs>)
    ensures |r| == |ts| && forall k :: 0 <= k < |ts| ==> r[k] == ts[k].attrs
  {
    seq(|ts|, k requires 0 <= k < |ts| => ts[k].attrs)
  }

  /** c accepts no more than d does. */
  ghost predicate Narrower(c: Criterion, d: Criterion)
  {
    forall a :: Accepts(c, a) ==> Accepts(d, a)
  }

  /**
   * A scan with a more permissive test stops no later: whatever the narrower test
   * finds, the wider one finds at the same index or before it.
   */
  lemma {:induction false} WiderStopsNoLater(xs: seq<MediaTypeAttrs>, c: Criterion, d: Criterion)
    requires Narrower(c, d)
    ensures FirstMatch(xs, c).Some? ==> FirstMatch(xs, d).Some? && FirstMatch(xs, d).value <= FirstMatch(xs, c).value
    ensures FirstMatch(xs, d).None? ==> FirstMatch(xs, c).None?
  {
    if xs != [] && !Accepts(d, xs[0]) {
      WiderStopsNoLater(xs[1..], c, d);
    }
  }

  lemma TighterToleranceIsNarrower(lo: real, hi: real)
    requires lo <= hi
    ensures Narrower(VideoTarget(lo), VideoTarget(hi))
  {
  }

  /**
   * The older path (tolerance 0.01) never selects an entry the session (tolerance 0.1)
   * would pass over: the session's choice is at the same index or earlier.
   */
  lemma SessionChoosesNoLaterThanLegacy(xs: seq<MediaTypeAttrs>)
    ensures FirstMatch(xs, VideoTarget(LegacyFpsTolerance)).Some? ==>
      && FirstMatch(xs, VideoTarget(CaptureFpsTolerance)).Some?
      && FirstMatch(xs, VideoTarget(CaptureFpsTolerance)).value <= FirstMatch(xs, VideoTarget(LegacyFpsTolerance)).value
  {
    TighterToleranceIsNarrower(LegacyFpsTolerance, CaptureFpsTolerance);
    WiderStopsNoLater(xs, VideoTarget(LegacyFpsTolerance), VideoTarget(CaptureFpsTolerance));
  }

  /**
   * With a fixed apply outcome per entry, the PCM-only fallback pass can never accept
   * anything when the PCM-or-float pass accepted nothing: every PCM entry was already tried.
   */
  lemma PcmFallbackNeverRescues(xs: seq<MediaTypeAttrs>)
    ensures FirstMatch(xs, AudioTarget(false)).None? ==> FirstMatch(xs, AudioTarget(true)).None?
  {
    assert Narrower(AudioTarget(true), AudioTarget(false));
    WiderStopsNoLater(xs, AudioTarget(true), AudioTarget(false));
  }

  /** 30000/1001 (29.97 fps) passes the session's tolerance but not the older path's; 30/1 passes both. */
  lemma NtscRateOnlyNearWithinSessionTolerance()
    ensures RateNear(Ratio(30, 1), TargetFps, LegacyFpsTolerance)
    ensures !RateNear(Ratio(30000, 1001), TargetFps, LegacyFpsTolerance)
    ensures RateNear(Ratio(30000, 1001), TargetFps, CaptureFpsTolerance)
    ensures !RateNear(Ratio(30, 0), TargetFps, CaptureFpsTolerance)
  {
  }

  function VideoAttrs(subtype: Guid, width: uint32, height: uint32, rate: Ratio, applyHr: HResult): MediaTypeAttrs
  {
    MediaTypeAttrs(Some(MajorVideo), Some(subtype), Some(FrameSize(width, height)), Some(rate), None, None, None, applyHr)
  }

  function AudioAttrs(subtype: Guid, channels: uint32, rate: uint32, bits: uint32, applyHr: HResult): MediaTypeAttrs
  {
    MediaTypeAttrs(Some(MajorAudio), Some(subtype), None, None, Some(channels), Some(rate), Some(bits), applyHr)
  }

  /**
   * A device listing unrelated formats before {NV12, 1280x720, 30/1}: negotiation at
   * tolerance 0.1 selects exactly that entry.
   */
  lemma NegotiationPicksTargetAmongOthers()
    ensures var xs := [
        VideoAttrs(MJPG, 1280, 720, Ratio(30, 1), S_OK),
        VideoAttrs(NV12, 1920, 1080, Ratio(30, 1), S_OK),
        VideoAttrs(NV12, 1280, 720, Ratio(15, 1), S_OK),
        VideoAttrs(NV12, 1280, 720, Ratio(30, 1), S_OK),
        VideoAttrs(YUY2, 1280, 720, Ratio(30, 1), S_OK)];
      FirstMatch(xs, VideoTarget(CaptureFpsTolerance)) == Some(3)
  {
    var xs := [
        VideoAttrs(MJPG, 1280, 720, Ratio(30, 1), S_OK),
        VideoAttrs(NV12, 1920, 1080, Ratio(30, 1), S_OK),
        VideoAttrs(NV12, 1280, 720, Ratio(15, 1), S_OK),
        VideoAttrs(NV12, 1280, 720, Ratio(30, 1), S_OK),
        VideoAttrs(YUY2, 1280, 720, Ratio(30, 1), S_OK)];
    assert !Accepts(VideoTarget(CaptureFpsTolerance), xs[2]);
    assert Accepts(VideoTarget(CaptureFpsTolerance), xs[3]);
    assert xs[1..][1..][1..] == xs[3..];
  }

  /** An audio device offering only AAC fails both the strict pass and the PCM-only fallback. */
  lemma AacOnlyDeviceFailsBothPasses()
    ensures FirstMatch([AudioAttrs(AAC, 2, 48000, 16, S_OK)], AudioTarget(false)).None?
    ensures FirstMatch([AudioAttrs(AAC, 2, 48000, 16, S_OK)], AudioTarget(true)).None?
  {
  }
}
