/**
 * The older synchronous path of mf/mf.cpp: negotiation on a source reader (video at
 * tolerance 0.01, audio in two passes), blocking reads classified one by one, the
 * counting loops that stop after 5 video or 200 audio frames, and its own capability
 * report with its audio subtype table.
 *
 * The file-level variable holding the video stride is passed in and returned. The
 * default-stride query is the same code as in mf/mf-util.hpp and is used from there.
 */
module Legacy {
  import opened Platform
  import opened Formats
  import opened MfUtil
  import Enumeration

  // ---------------------------------------------------------------------------
  // Negotiation

  /**
   * Scans the video stream's native types in order for NV12 1280x720 within 0.01 of
   * 30 fps that the reader agrees to apply. S_OK when one is found, E_FAIL otherwise.
   * On acceptance the stride variable is updated only if the default-stride query
   * succeeds.
   */
  method SetReaderMediaType(reader: SourceReader, strideFor: StrideFunction, yStride: int32)
      returns (hr: HResult, newStride: int32)
    modifies reader, reader.natives
    ensures reader.requests == old(reader.requests)
    ensures var pick := FirstMatch(AttrsOf(reader.natives), VideoTarget(LegacyFpsTolerance));
      && hr == (if pick.Some? then S_OK else E_FAIL)
      && (pick.Some? ==>
            var t := reader.natives[pick.value];
            var r := DefaultStride(old(t.defaultStride), t.attrs, strideFor);
            && reader.current == t && StridesKeptExcept(reader.natives, t)
            && newStride == (if r.Ok? then r.value else yStride)
            && t.defaultStride == (if r.Ok? then Some(r.value) else old(t.defaultStride)))
      && (pick.None? ==> reader.current == old(reader.current) && newStride == yStride && StridesKeptExcept(reader.natives, null))
  {
    ghost var xs := AttrsOf(reader.natives);
    ghost var crit := VideoTarget(LegacyFpsTolerance);
    newStride := yStride;
    var found := false;
    var index: nat := 0;
    while !found
      invariant index <= |reader.natives|
      invariant reader.requests == old(reader.requests)
      invariant forall k :: 0 <= k < (if found then index - 1 else index) ==> !Accepts(crit, xs[k])
      invariant found ==> 1 <= index && Accepts(crit, xs[index - 1])
      invariant found ==>
        var t := reader.natives[index - 1];
        var r := DefaultStride(old(t.defaultStride), t.attrs, strideFor);
        && reader.current == t && StridesKeptExcept(reader.natives, t)
        && newStride == (if r.Ok? then r.value else yStride)
        && t.defaultStride == (if r.Ok? then Some(r.value) else old(t.defaultStride))
      invariant !found ==> reader.current == old(reader.current) && newStride == yStride && StridesKeptExcept(reader.natives, null)
      decreases |reader.natives| - index
    {
      var native := reader.GetNativeMediaType(index);
      if native.Err? {
        break;
      }
      var t := native.value;
      var a := t.attrs;
      if a.subtype == Some(TargetSubtype) {
        if a.frameSize.Some? && a.frameSize.value.width == TargetWidth && a.frameSize.value.height == TargetHeight {
          if a.frameRate.Some? {
            var rate := a.frameRate.value;
            if rate.den != 0 && AbsReal(rate.num as real / rate.den as real - TargetFps) < LegacyFpsTolerance {
              var applied := reader.SetCurrentMediaType(t);
              if Succeeded(applied) {
                found := true;
                var strideHr, stride := GetDefaultStride(t, strideFor, newStride);
                newStride := stride;
              }
            }
          }
        }
      }
      index := index + 1;
    }
    if found {
      FirstMatchAt(xs, crit, index - 1);
      hr := S_OK;
    } else {
      hr := E_FAIL;
    }
  }

  /**
   * One audio pass: the first native type whose subtype passes (PCM or float, or PCM
   * only) and which the reader agrees to apply becomes the current type.
   */
  method AudioPass(reader: SourceReader, pcmOnly: bool) returns (found: bool)
    modifies reader
    ensures reader.requests == old(reader.requests)
    ensures var pick := FirstMatch(AttrsOf(reader.natives), AudioTarget(pcmOnly));
      && found == pick.Some?
      && reader.current == (if found then reader.natives[pick.value] else old(reader.current))
  {
    ghost var xs := AttrsOf(reader.natives);
    ghost var crit := AudioTarget(pcmOnly);
    found := false;
    var index: nat := 0;
    while !found
      invariant index <= |reader.natives|
      invariant reader.requests == old(reader.requests)
      invariant forall k :: 0 <= k < (if found then index - 1 else index) ==> !Accepts(crit, xs[k])
      invariant found ==> 1 <= index && Accepts(crit, xs[index - 1]) && reader.current == reader.natives[index - 1]
      invariant !found ==> reader.current == old(reader.current)
      decreases |reader.natives| - index
    {
      var native := reader.GetNativeMediaType(index);
      if native.Err? {
        break;
      }
      var t := native.value;
      var subtype := t.attrs.subtype;
      if subtype == Some(PCM) || (!pcmOnly && subtype == Some(Float)) {
        var applied := reader.SetCurrentMediaType(t);
        if Succeeded(applied) {
          found := true;
        }
      }
      index := index + 1;
    }
    if found {
      FirstMatchAt(xs, crit, index - 1);
    }
  }

  /**
   * PCM or float first; only if that pass accepts nothing, a second pass for PCM.
   * E_FAIL when neither accepts. Since each type's answer to being applied is fixed,
   * the second pass can never succeed where the first failed.
   */
  method SetAudioReaderMediaType(reader: SourceReader) returns (hr: HResult)
    modifies reader
    ensures reader.requests == old(reader.requests)
    ensures var first := FirstMatch(AttrsOf(reader.natives), AudioTarget(false));
            var second := FirstMatch(AttrsOf(reader.natives), AudioTarget(true));
      && (first.Some? ==> hr == S_OK && reader.current == reader.natives[first.value])
      && (first.None? && second.Some? ==> hr == S_OK && reader.current == reader.natives[second.value])
      && (first.None? && second.None? ==> hr == E_FAIL && reader.current == old(reader.current))
    ensures Succeeded(hr) <==> FirstMatch(AttrsOf(reader.natives), AudioTarget(false)).Some?
  {
    var found := AudioPass(reader, false);
    if !found {
      found := AudioPass(reader, true);
    }
    PcmFallbackNeverRescues(AttrsOf(reader.natives));
    hr := if found then S_OK else E_FAIL;
  }

  // ---------------------------------------------------------------------------
  // Blocking reads

  /** The answer to one blocking ReadSample: a failure, or the stream flags and the sample (possibly null). */
  datatype ReadOutcome = ReadFailed(hr: FailCode) | ReadDone(flags: bv32, sample: Option<Sample>)

  function StreamOf(video: bool): uint32
  {
    if video then FIRST_VIDEO_STREAM else FIRST_AUDIO_STREAM
  }

  predicate IsTick(flags: bv32)
  {
    flags & STREAMTICK_FLAG != 0
  }

  /** A read that sets the caller's flag: no failure, no stream tick, and a sample. */
  predicate Counts(o: ReadOutcome)
  {
    o.ReadDone? && !IsTick(o.flags) && o.sample.Some?
  }

  /** The contiguous buffer a counted read obtains, if any. */
  function BufferOf(o: ReadOutcome): set<MediaBuffer>
  {
    if Counts(o) && o.sample.value.buffer.Ok? then {o.sample.value.buffer.value} else {}
  }

  function BuffersOf(answers: seq<ReadOutcome>): set<MediaBuffer>
  {
    set o, b | o in answers && b in BufferOf(o) :: b
  }

  /**
   * One blocking read. A failure is returned as is; a stream tick or a null sample
   * returns S_OK leaving the flag as it was; any other sample sets the flag, even if
   * the buffer conversion or the lock fails. The buffer is unlocked only after a
   * successful lock; written is the length handed to the file writer.
   */
  method ReadFrame(reader: SourceReader, video: bool, outcome: ReadOutcome, got: bool)
      returns (hr: HResult, gotNow: bool, written: Option<uint32>)
    modifies reader, BufferOf(outcome)
    ensures reader.requests == old(reader.requests) + [StreamOf(video)] && reader.current == old(reader.current)
    ensures hr == (if outcome.ReadFailed? then outcome.hr else S_OK)
    ensures gotNow == (got || Counts(outcome))
    ensures written == (if BufferOf(outcome) != {} && outcome.sample.value.buffer.value.lockOutcome.Ok?
                        then Some(outcome.sample.value.buffer.value.lockOutcome.value) else None)
    ensures forall b :: b in BufferOf(outcome) ==> b.locks == old(b.locks) && b.locks2D == old(b.locks2D)
  {
    var answer := reader.ReadSample(StreamOf(video), if outcome.ReadFailed? then outcome.hr else S_OK);
    gotNow, written := got, None;
    if !Succeeded(answer) {
      return answer, gotNow, written;
    }
    if outcome.flags & STREAMTICK_FLAG != 0 {
      return S_OK, gotNow, written;
    }
    if outcome.sample.None? {
      return S_OK, gotNow, written;
    }
    var buffer := outcome.sample.value.buffer;
    if buffer.Ok? {
      var data := buffer.value.Lock();
      if data.Ok? {
        written := Some(data.value);
        buffer.value.Unlock();
      }
    }
    gotNow := true;
    hr := S_OK;
  }

  // ---------------------------------------------------------------------------
  // Counting loops

  const VideoFrameBound: nat := 5
  const AudioFrameBound: nat := 200

  function FrameBound(video: bool): nat
  {
    if video then VideoFrameBound else AudioFrameBound
  }

  /** Where a counting loop stops: the frames counted and the answers it consumed. */
  datatype RunEnd = RunEnd(frames: nat, consumed: nat)

  /**
   * The loop from a count of count over the remaining answers: it stops when the count
   * reaches bound or a read fails; None when the answers run out before that.
   */
  function RunFrom(answers: seq<ReadOutcome>, count: nat, bound: nat): Option<RunEnd>
  {
    if count >= bound then Some(RunEnd(count, 0))
    else if answers == [] then None
    else if answers[0].ReadFailed? then Some(RunEnd(count, 1))
    else
      match RunFrom(answers[1..], count + (if Counts(answers[0]) then 1 else 0), bound)
      case None => None
      case Some(e) => Some(RunEnd(e.frames, e.consumed + 1))
  }

  function CountedReads(answers: seq<ReadOutcome>): nat
  {
    if answers == [] then 0 else (if Counts(answers[0]) then 1 else 0) + CountedReads(answers[1..])
  }

  /**
   * The loop never counts past its bound; it stops short of the bound only on a
   * failed read, which is the last one consumed; no earlier read failed; and the
   * count is the number of counted answers among those consumed.
   */
  lemma {:induction false} RunEndsAtBoundOrFailure(answers: seq<ReadOutcome>, count: nat, bound: nat)
    requires count <= bound && RunFrom(answers, count, bound).Some?
    ensures var e := RunFrom(answers, count, bound).value;
      && count <= e.frames <= bound
      && e.consumed <= |answers|
      && (e.frames < bound ==> 1 <= e.consumed && answers[e.consumed - 1].ReadFailed?)
      && (forall k :: 0 <= k < e.consumed - 1 ==> answers[k].ReadDone?)
      && e.frames == count + CountedReads(answers[..e.consumed])
  {
    if count < bound && answers != [] && !answers[0].ReadFailed? {
      var next := count + (if Counts(answers[0]) then 1 else 0);
      RunEndsAtBoundOrFailure(answers[1..], next, bound);
      var e := RunFrom(answers[1..], next, bound).value;
      assert answers[..e.consumed + 1][1..] == answers[1..][..e.consumed];
      forall k | 1 <= k < e.consumed
        ensures answers[k].ReadDone?
      {
        assert answers[k] == answers[1..][k - 1];
      }
    } else if count < bound && answers != [] {
      assert answers[..1][1..] == [];
    }
  }

  function Repeat(x: uint32, n: nat): seq<uint32>
  {
    seq(n, _ => x)
  }

  /**
   * Answers that neither fail nor count never end the loop, however many there are:
   * against a device that delivers only stream ticks or null samples it keeps reading.
   */
  lemma {:induction false} IdleAnswersNeverEndTheLoop(answers: seq<ReadOutcome>, count: nat, bound: nat)
    requires count < bound
    requires forall k :: 0 <= k < |answers| ==> answers[k].ReadDone? && !Counts(answers[k])
    ensures RunFrom(answers, count, bound).None?
  {
    if answers != [] {
      IdleAnswersNeverEndTheLoop(answers[1..], count, bound);
    }
  }

  /**
   * Reads until the kind's bound of frames is counted or a read fails, given answers
   * that reach one of the two; returns the count.
   */
  method ReadFrames(reader: SourceReader, video: bool, answers: seq<ReadOutcome>) returns (frames: nat)
    requires RunFrom(answers, 0, FrameBound(video)).Some?
    modifies reader, BuffersOf(answers)
    ensures var e := RunFrom(answers, 0, FrameBound(video)).value;
      frames == e.frames && reader.requests == old(reader.requests) + Repeat(StreamOf(video), e.consumed)
    ensures reader.current == old(reader.current)
    ensures forall b :: b in BuffersOf(answers) ==> b.locks == old(b.locks) && b.locks2D == old(b.locks2D)
  {
    ghost var e := RunFrom(answers, 0, FrameBound(video)).value;
    var bound := FrameBound(video);
    frames := 0;
    var i := 0;
    assert answers[0..] == answers;
    while frames < bound
      invariant i <= |answers| && i <= e.consumed
      invariant RunFrom(answers[i..], frames, bound) == Some(RunEnd(e.frames, e.consumed - i))
      invariant reader.requests == old(reader.requests) + Repeat(StreamOf(video), i)
      invariant reader.current == old(reader.current)
      invariant forall b :: b in BuffersOf(answers) ==> b.locks == old(b.locks) && b.locks2D == old(b.locks2D)
      decreases |answers| - i
    {
      var o := answers[i];
      assert answers[i..][1..] == answers[i + 1..];
      assert forall b :: b in BufferOf(o) ==> b in BuffersOf(answers);
      var hr, got, written := ReadFrame(reader, video, o, false);
      i := i + 1;
      if !Succeeded(hr) {
        break;
      }
      if got {
        frames := frames + 1;
      }
    }
  }

  /**
   * Captures 5 video frames: E_FAIL when the reader cannot be created or negotiation
   * finds nothing, otherwise S_OK however the loop ended.
   */
  method CaptureVideo(readerHr: HResult, reader: SourceReader, strideFor: StrideFunction, yStride: int32, answers: seq<ReadOutcome>)
      returns (hr: HResult, newStride: int32, frames: nat)
    requires Succeeded(readerHr) && FirstMatch(AttrsOf(reader.natives), VideoTarget(LegacyFpsTolerance)).Some? ==>
      RunFrom(answers, 0, VideoFrameBound).Some?
    modifies reader, reader.natives, BuffersOf(answers)
    ensures !Succeeded(readerHr) ==>
      && hr == E_FAIL && frames == 0 && newStride == yStride && reader.requests == old(reader.requests)
      && reader.current == old(reader.current) && StridesKeptExcept(reader.natives, null)
    ensures Succeeded(readerHr) && FirstMatch(AttrsOf(reader.natives), VideoTarget(LegacyFpsTolerance)).None? ==>
      && hr == E_FAIL && frames == 0 && newStride == yStride && reader.requests == old(reader.requests)
      && reader.current == old(reader.current) && StridesKeptExcept(reader.natives, null)
    ensures Succeeded(readerHr) && FirstMatch(AttrsOf(reader.natives), VideoTarget(LegacyFpsTolerance)).Some? ==>
      var e := RunFrom(answers, 0, VideoFrameBound).value;
      var t := reader.natives[FirstMatch(AttrsOf(reader.natives), VideoTarget(LegacyFpsTolerance)).value];
      var r := DefaultStride(old(t.defaultStride), t.attrs, strideFor);
      && hr == S_OK && frames == e.frames && frames <= VideoFrameBound
      && reader.requests == old(reader.requests) + Repeat(FIRST_VIDEO_STREAM, e.consumed)
      && reader.current == t && StridesKeptExcept(reader.natives, t)
      && newStride == (if r.Ok? then r.value else yStride)
      && t.defaultStride == (if r.Ok? then Some(r.value) else old(t.defaultStride))
    ensures forall b :: b in BuffersOf(answers) ==> b.locks == old(b.locks) && b.locks2D == old(b.locks2D)
  {
    newStride, frames := yStride, 0;
    if !Succeeded(readerHr) {
      return E_FAIL, newStride, frames;
    }
    var negotiated;
    negotiated, newStride := SetReaderMediaType(reader, strideFor, yStride);
    if !Succeeded(negotiated) {
      return E_FAIL, newStride, frames;
    }
    RunEndsAtBoundOrFailure(answers, 0, VideoFrameBound);
    frames := ReadFrames(reader, true, answers);
    hr := S_OK;
  }

  /**
   * Captures 200 audio frames: E_FAIL when the reader cannot be created or neither
   * negotiation pass accepts a type, otherwise S_OK however the loop ended.
   */
  method CaptureAudio(readerHr: HResult, reader: SourceReader, answers: seq<ReadOutcome>) returns (hr: HResult, frames: nat)
    requires Succeeded(readerHr) && FirstMatch(AttrsOf(reader.natives), AudioTarget(false)).Some? ==>
      RunFrom(answers, 0, AudioFrameBound).Some?
    modifies reader, BuffersOf(answers)
    ensures !Succeeded(readerHr) ==>
      hr == E_FAIL && frames == 0 && reader.requests == old(reader.requests) && reader.current == old(reader.current)
    ensures Succeeded(readerHr) && FirstMatch(AttrsOf(reader.natives), AudioTarget(false)).None? ==>
      hr == E_FAIL && frames == 0 && reader.requests == old(reader.requests) && reader.current == old(reader.current)
    ensures Succeeded(readerHr) && FirstMatch(AttrsOf(reader.natives), AudioTarget(false)).Some? ==>
      var e := RunFrom(answers, 0, AudioFrameBound).value;
      && hr == S_OK && frames == e.frames && frames <= AudioFrameBound
      && reader.requests == old(reader.requests) + Repeat(FIRST_AUDIO_STREAM, e.consumed)
      && reader.current == reader.natives[FirstMatch(AttrsOf(reader.natives), AudioTarget(false)).value]
    ensures forall b :: b in BuffersOf(answers) ==> b.locks == old(b.locks) && b.locks2D == old(b.locks2D)
  {
    frames := 0;
    if !Succeeded(readerHr) {
      return E_FAIL, frames;
    }
    var negotiated := SetAudioReaderMediaType(reader);
    if !Succeeded(negotiated) {
      return E_FAIL, frames;
    }
    RunEndsAtBoundOrFailure(answers, 0, AudioFrameBound);
    frames := ReadFrames(reader, false, answers);
    hr := S_OK;
  }

  // ---------------------------------------------------------------------------
  // Capability report

  /**
   * The older audio table: 19 entries, ADTS listed twice (the second entry can never
   * be the first match).
   */
  const LegacyAudioSubtypeNames: seq<Enumeration.SubtypeEntry> := [
    Enumeration.SubtypeEntry(PCM, "PCM"), Enumeration.SubtypeEntry(Float, "Float"),
    Enumeration.SubtypeEntry(AAC, "AAC"), Enumeration.SubtypeEntry(DTS, "DTS"),
    Enumeration.SubtypeEntry(Dolby_AC3, "Dolby_AC3"), Enumeration.SubtypeEntry(ADTS, "ADTS"),
    Enumeration.SubtypeEntry(MP3, "MP3"), Enumeration.SubtypeEntry(MPEG, "MPEG"),
    Enumeration.SubtypeEntry(WMAudioV8, "WMAudioV8"), Enumeration.SubtypeEntry(WMAudioV9, "WMAudioV9"),
    Enumeration.SubtypeEntry(WMAudio_Lossless, "WMAudio_Lossless"), Enumeration.SubtypeEntry(WMASPDIF, "WMASPDIF"),
    Enumeration.SubtypeEntry(MSP1, "MSP1"), Enumeration.SubtypeEntry(FLAC, "FLAC"),
    Enumeration.SubtypeEntry(ALAC, "ALAC"), Enumeration.SubtypeEntry(AMR_NB, "AMR_NB"),
    Enumeration.SubtypeEntry(AMR_WB, "AMR_WB"), Enumeration.SubtypeEntry(DRM, "DRM"),
    Enumeration.SubtypeEntry(ADTS, "ADTS")]

  /** The older audio name of a subtype: non-empty exactly when the table lists it, and then that entry's name. */
  function LegacyAudioSubtypeString(g: Guid): (name: string)
    ensures name != "" <==> Enumeration.Lists(LegacyAudioSubtypeNames, g)
    ensures name != "" ==> Enumeration.SubtypeEntry(g, name) in LegacyAudioSubtypeNames
  {
    Enumeration.NamedIffListed(LegacyAudioSubtypeNames, g);
    Enumeration.SubtypeName(LegacyAudioSubtypeNames, g)
  }

  /**
   * The older audio table names every subtype the newer one names, with the same
   * name; it also names formats the newer one drops, such as FLAC.
   */
  lemma LegacyAudioTableExtendsActive(g: Guid)
    ensures Enumeration.GetAudioSubtypeString(g) != "" ==> LegacyAudioSubtypeString(g) == Enumeration.GetAudioSubtypeString(g)
  {
    Enumeration.AudioNamesExactlyFour(g);
    if g == PCM || g == Float || g == AAC || g == MP3 {
      LegacyNamesActiveSubtype(g);
      Enumeration.AudioNamesAreTheirOwn(g);
    }
  }

  lemma LegacyNamesActiveSubtype(g: Guid)
    requires g == PCM || g == Float || g == AAC || g == MP3
    ensures LegacyAudioSubtypeString(g) == if g == PCM then "PCM" else if g == Float then "Float" else if g == AAC then "AAC" else "MP3"
  {
    var t := LegacyAudioSubtypeNames;
    if g == PCM {
      Enumeration.SubtypeNameIsFirstEntry(t, g, 0);
    } else if g == Float {
      Enumeration.SubtypeNameIsFirstEntry(t, g, 1);
    } else if g == AAC {
      Enumeration.SubtypeNameIsFirstEntry(t, g, 2);
    } else {
      Enumeration.SubtypeNameIsFirstEntry(t, g, 6);
    }
  }

  /** FLAC, among others, is named by the older table and not by the newer one. */
  lemma LegacyAudioTableNamesFlac()
    ensures Enumeration.GetAudioSubtypeString(FLAC) == "" && LegacyAudioSubtypeString(FLAC) == "FLAC"
  {
    Enumeration.AudioNamesExactlyFour(FLAC);
    Enumeration.SubtypeNameIsFirstEntry(LegacyAudioSubtypeNames, FLAC, 13);
  }

  /** The second ADTS entry is never consulted: ADTS is named by the earlier entry. */
  lemma DuplicateAdtsEntryUnreachable()
    ensures LegacyAudioSubtypeNames[18].guid == LegacyAudioSubtypeNames[5].guid == ADTS
    ensures LegacyAudioSubtypeString(ADTS) == LegacyAudioSubtypeNames[5].name
  {
    Enumeration.SubtypeNameIsFirstEntry(LegacyAudioSubtypeNames, ADTS, 5);
  }

  /**
   * Which major type a type is compared against. As written, the loop's inner
   * declaration hides the requested kind, so the stream's own major type is used and
   * the stream is never skipped for its kind; the intended comparison is with the
   * requested kind, for the stream and for the type.
   */
  datatype KindCheck = AgainstStreamKind | AgainstRequestedKind

  /** A missing subtype leaves the all-zero GUID the local was initialised with. */
  function SubtypeOrNull(a: MediaTypeAttrs): Guid
  {
    if a.subtype.Some? then a.subtype.value else GuidNull
  }

  function OrZero(x: Option<uint32>): uint32
  {
    if x.Some? then x.value else 0
  }

  /**
   * The report for a type: its major type must equal compareWith and its subtype must
   * have a name; every other value is printed as read, a value that cannot be read
   * as the zero its local was initialised with.
   */
  function LegacyTypeReport(video: bool, i: nat, j: nat, compareWith: MajorType, a: MediaTypeAttrs): (r: Option<Enumeration.Capability>)
    ensures r.Some? <==> && a.major == Some(compareWith)
                         && (if video then Enumeration.GetVideoSubtypeString(SubtypeOrNull(a))
                             else LegacyAudioSubtypeString(SubtypeOrNull(a))) != ""
    ensures r.Some? ==> r.value.stream == i && r.value.index == j
    ensures r.Some? && video ==> && r.value.VideoCap?
                                 && r.value.subtype == Enumeration.GetVideoSubtypeString(SubtypeOrNull(a))
                                 && (a.frameSize.Some? ==> a.frameSize == Some(FrameSize(r.value.width, r.value.height)))
                                 && (a.frameSize.None? ==> r.value.width == 0 && r.value.height == 0)
                                 && (a.frameRate.Some? ==> a.frameRate == Some(r.value.rate))
                                 && (a.frameRate.None? ==> r.value.rate == Ratio(0, 0))
    ensures r.Some? && !video ==> && r.value.AudioCap?
                                  && r.value.subtype == LegacyAudioSubtypeString(SubtypeOrNull(a))
                                  && (a.sampleRate.Some? ==> a.sampleRate == Some(r.value.sampleRate))
                                  && (a.sampleRate.None? ==> r.value.sampleRate == 0)
                                  && (a.channels.Some? ==> a.channels == Some(r.value.channels))
                                  && (a.channels.None? ==> r.value.channels == 0)
                                  && (a.bitsPerSample.Some? ==> a.bitsPerSample == Some(r.value.bitsPerSample))
                                  && (a.bitsPerSample.None? ==> r.value.bitsPerSample == 0)
  {
    if a.major != Some(compareWith) then None
    else if video then
      var name := Enumeration.GetVideoSubtypeString(SubtypeOrNull(a));
      if name == "" then None
      else
        var size := if a.frameSize.Some? then a.frameSize.value else FrameSize(0, 0);
        var rate := if a.frameRate.Some? then a.frameRate.value else Ratio(0, 0);
        Some(Enumeration.VideoCap(i, j, name, size.width, size.height, rate))
    else
      var name := LegacyAudioSubtypeString(SubtypeOrNull(a));
      if name == "" then None
      else Some(Enumeration.AudioCap(i, j, name, OrZero(a.sampleRate), OrZero(a.channels), OrZero(a.bitsPerSample)))
  }

  function LegacyTypesReports(video: bool, i: nat, compareWith: MajorType, ts: seq<Call<MediaTypeAttrs>>): seq<Enumeration.Capability>
  {
    if ts == [] then []
    else
      var j := |ts| - 1;
      LegacyTypesReports(video, i, compareWith, ts[..j])
        + (if ts[j].Ok? then Enumeration.AsSeq(LegacyTypeReport(video, i, j, compareWith, ts[j].value)) else [])
  }

  /** The kind the types of a stream are compared against, and their list, when the stream is examined. */
  function LegacyStreamTypes(video: bool, check: KindCheck, sd: Call<StreamDescriptor>): Option<(MajorType, seq<Call<MediaTypeAttrs>>)>
  {
    if sd.Err? || sd.value.handler.Err? then None
    else
      var h := sd.value.handler.value;
      if h.majorType.Err? then None
      else if check == AgainstRequestedKind && h.majorType.value != Enumeration.DestMajor(video) then None
      else if h.mediaTypes.Err? then None
      else if check == AgainstStreamKind then Some((h.majorType.value, h.mediaTypes.value))
      else Some((Enumeration.DestMajor(video), h.mediaTypes.value))
  }

  function LegacyStreamsReports(video: bool, check: KindCheck, ss: seq<Call<StreamDescriptor>>): seq<Enumeration.Capability>
  {
    if ss == [] then []
    else
      var i := |ss| - 1;
      var st := LegacyStreamTypes(video, check, ss[i]);
      LegacyStreamsReports(video, check, ss[..i]) + (if st.Some? then LegacyTypesReports(video, i, st.value.0, st.value.1) else [])
  }

  /** The checks the inner loop makes on one fetched type, in the order it makes them. */
  method ReportType(video: bool, i: nat, j: nat, compareWith: MajorType, a: MediaTypeAttrs)
      returns (r: Option<Enumeration.Capability>)
    ensures r == LegacyTypeReport(video, i, j, compareWith, a)
  {
    r := None;
    if a.major.None? || a.major.value != compareWith {
      return;
    }
    var subtype := SubtypeOrNull(a);
    if video {
      var name := Enumeration.GetVideoSubtypeString(subtype);
      if name == "" {
        return;
      }
      var size := if a.frameSize.Some? then a.frameSize.value else FrameSize(0, 0);
      var rate := if a.frameRate.Some? then a.frameRate.value else Ratio(0, 0);
      r := Some(Enumeration.VideoCap(i, j, name, size.width, size.height, rate));
    } else {
      var name := LegacyAudioSubtypeString(subtype);
      if name == "" {
        return;
      }
      r := Some(Enumeration.AudioCap(i, j, name, OrZero(a.sampleRate), OrZero(a.channels), OrZero(a.bitsPerSample)));
    }
  }

  /** The inner loop over the types of stream i, each compared against compareWith. */
  method ReportStreamTypes(video: bool, i: nat, compareWith: MajorType, ts: seq<Call<MediaTypeAttrs>>)
      returns (found: seq<Enumeration.Capability>)
    ensures found == LegacyTypesReports(video, i, compareWith, ts)
  {
    found := [];
    for j := 0 to |ts|
      invariant found == LegacyTypesReports(video, i, compareWith, ts[..j])
    {
      assert ts[..j + 1][..j] == ts[..j];
      if ts[j].Ok? {
        var r := ReportType(video, i, j, compareWith, ts[j].value);
        found := found + Enumeration.AsSeq(r);
      }
    }
    assert ts[..|ts|] == ts;
  }

  /**
   * The report loops with the kind comparison as a parameter; EnumCapability runs
   * them as written and EnumCapabilityIntended with the comparison the code means.
   */
  method ReportCapabilities(source: Option<SourceCaps>, video: bool, check: KindCheck)
      returns (hr: HResult, reports: seq<Enumeration.Capability>)
    ensures source.None? ==> hr == E_POINTER && reports == []
    ensures source.Some? && source.value.presentation.Err? ==> hr == source.value.presentation.hr && reports == []
    ensures source.Some? && source.value.presentation.Ok? && source.value.presentation.value.streams.Err? ==>
      hr == source.value.presentation.value.streams.hr && reports == []
    ensures source.Some? && source.value.presentation.Ok? && source.value.presentation.value.streams.Ok? ==>
      hr == S_OK && reports == LegacyStreamsReports(video, check, source.value.presentation.value.streams.value)
  {
    if source.None? {
      return E_POINTER, [];
    }
    var pd := source.value.presentation;
    if pd.Err? {
      return pd.hr, [];
    }
    var streams := pd.value.streams;
    if streams.Err? {
      return streams.hr, [];
    }
    var ss := streams.value;
    var requested := Enumeration.DestMajor(video);
    reports := [];
    for i := 0 to |ss|
      invariant reports == LegacyStreamsReports(video, check, ss[..i])
    {
      assert ss[..i + 1][..i] == ss[..i];
      var sd := ss[i];
      if sd.Err? {
        continue;
      }
      var handler := sd.value.handler;
      if handler.Err? {
        continue;
      }
      var streamMajor := handler.value.majorType;
      if streamMajor.Err? {
        continue;
      }
      if check == AgainstRequestedKind && streamMajor.value != requested {
        continue;
      }
      var types := handler.value.mediaTypes;
      if types.Err? {
        continue;
      }
      var compareWith := if check == AgainstStreamKind then streamMajor.value else requested;
      var found := ReportStreamTypes(video, i, compareWith, types.value);
      reports := reports + found;
    }
    assert ss[..|ss|] == ss;
    hr := S_OK;
  }

  /** The older capability report as written. */
  method EnumCapability(source: Option<SourceCaps>, video: bool) returns (hr: HResult, reports: seq<Enumeration.Capability>)
    ensures source.None? ==> hr == E_POINTER && reports == []
    ensures source.Some? && source.value.presentation.Ok? && source.value.presentation.value.streams.Ok? ==>
      hr == S_OK && reports == LegacyStreamsReports(video, AgainstStreamKind, source.value.presentation.value.streams.value)
    ensures source.Some? && source.value.presentation.Err? ==> hr == source.value.presentation.hr && reports == []
    ensures source.Some? && source.value.presentation.Ok? && source.value.presentation.value.streams.Err? ==>
      hr == source.value.presentation.value.streams.hr && reports == []
  {
    hr, reports := ReportCapabilities(source, video, AgainstStreamKind);
  }

  /** The older capability report with the comparison against the requested kind. */
  method EnumCapabilityIntended(source: Option<SourceCaps>, video: bool) returns (hr: HResult, reports: seq<Enumeration.Capability>)
    ensures source.None? ==> hr == E_POINTER && reports == []
    ensures source.Some? && source.value.presentation.Ok? && source.value.presentation.value.streams.Ok? ==>
      hr == S_OK && reports == LegacyStreamsReports(video, AgainstRequestedKind, source.value.presentation.value.streams.value)
    ensures source.Some? && source.value.presentation.Err? ==> hr == source.value.presentation.hr && reports == []
    ensures source.Some? && source.value.presentation.Ok? && source.value.presentation.value.streams.Err? ==>
      hr == source.value.presentation.value.streams.hr && reports == []
  {
    hr, reports := ReportCapabilities(source, video, AgainstRequestedKind);
  }

  /** The type a report names, found at its stream and type indices. */
  ghost predicate ReportedTypeHasMajor(ss: seq<Call<StreamDescriptor>>, c: Enumeration.Capability, streamMajor: MajorType, typeMajor: MajorType)
  {
    && c.stream < |ss| && ss[c.stream].Ok? && ss[c.stream].value.handler.Ok?
    && ss[c.stream].value.handler.value.majorType == Ok(streamMajor)
    && ss[c.stream].value.handler.value.mediaTypes.Ok?
    && var ts := ss[c.stream].value.handler.value.mediaTypes.value;
       c.index < |ts| && ts[c.index].Ok? && ts[c.index].value.major == Some(typeMajor)
  }

  lemma {:induction false} LegacyTypesReportsLocate(video: bool, i: nat, compareWith: MajorType, ts: seq<Call<MediaTypeAttrs>>, c: Enumeration.Capability)
    requires c in LegacyTypesReports(video, i, compareWith, ts)
    ensures c.stream == i && c.index < |ts| && ts[c.index].Ok? && ts[c.index].value.major == Some(compareWith)
  {
    var j := |ts| - 1;
    if c !in LegacyTypesReports(video, i, compareWith, ts[..j]) {
      assert c.index == j;
    } else {
      LegacyTypesReportsLocate(video, i, compareWith, ts[..j], c);
      assert ts[..j][c.index] == ts[c.index];
    }
  }

  /**
   * Where a report comes from: the type it names has the major type its stream
   * reports (as written) or the requested kind, as does its stream (intended).
   */
  lemma {:induction false} LegacyReportOrigin(video: bool, check: KindCheck, ss: seq<Call<StreamDescriptor>>, c: Enumeration.Capability)
    requires c in LegacyStreamsReports(video, check, ss)
    ensures check == AgainstRequestedKind ==>
      ReportedTypeHasMajor(ss, c, Enumeration.DestMajor(video), Enumeration.DestMajor(video))
    ensures check == AgainstStreamKind ==>
      exists m :: ReportedTypeHasMajor(ss, c, m, m)
  {
    var i := |ss| - 1;
    var st := LegacyStreamTypes(video, check, ss[i]);
    if c in LegacyStreamsReports(video, check, ss[..i]) {
      LegacyReportOrigin(video, check, ss[..i], c);
      assert ss[..i][c.stream] == ss[c.stream];
      if check == AgainstStreamKind {
        var m :| ReportedTypeHasMajor(ss[..i], c, m, m);
        assert ReportedTypeHasMajor(ss, c, m, m);
      }
    } else {
      assert st.Some?;
      LegacyTypesReportsLocate(video, i, st.value.0, st.value.1, c);
      if check == AgainstStreamKind {
        assert ReportedTypeHasMajor(ss, c, st.value.0, st.value.0);
      }
    }
  }

  /** One audio stream whose single PCM type claims the video major type. */
  function MislabelledStream(): seq<Call<StreamDescriptor>>
  {
    var t := MediaTypeAttrs(Some(MajorVideo), Some(PCM), None, None, Some(2), Some(48000), Some(16), S_OK);
    [Ok(StreamDescriptor(Ok(TypeHandler(Ok(MajorVideo), Ok([Ok(t)])))))]
  }

  /**
   * As written, an audio enumeration reports a type whose stream and type both carry
   * the video major type: neither is compared with the requested kind. The intended
   * comparison reports nothing for it.
   */
  lemma ShadowedKindReportsOtherKind()
    ensures LegacyStreamsReports(false, AgainstStreamKind, MislabelledStream())
      == [Enumeration.AudioCap(0, 0, "PCM", 48000, 2, 16)]
    ensures LegacyStreamsReports(false, AgainstRequestedKind, MislabelledStream()) == []
  {
    var t := MediaTypeAttrs(Some(MajorVideo), Some(PCM), None, None, Some(2), Some(48000), Some(16), S_OK);
    var ts := [Ok(t)];
    var ss := MislabelledStream();
    Enumeration.SubtypeNameIsFirstEntry(LegacyAudioSubtypeNames, PCM, 0);
    assert LegacyTypeReport(false, 0, 0, MajorVideo, t) == Some(Enumeration.AudioCap(0, 0, "PCM", 48000, 2, 16));
    assert ts[..0] == [];
    assert LegacyTypesReports(false, 0, MajorVideo, ts) == [Enumeration.AudioCap(0, 0, "PCM", 48000, 2, 16)];
    assert ss[..0] == [];
    assert LegacyStreamTypes(false, AgainstStreamKind, ss[0]) == Some((MajorVideo, ts));
    assert LegacyStreamTypes(false, AgainstRequestedKind, ss[0]).None?;
  }
}
