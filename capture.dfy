/**
 * The asynchronous capture session of mf/mf-capture.h and mf/mf-capture.cpp: a
 * reference-counted object owning a media source and, once started, a source reader
 * that calls back with every sample. The session negotiates NV12 1280x720 at 30 fps
 * (video) or PCM/float (audio), then re-arms a read request after each callback until
 * a failure is reported.
 *
 * The session is modelled sequentially, with the critical section held for each whole
 * method. Platform answers are inputs: the outcomes of the set-up calls, the status and
 * sample of each callback, the answer to each re-arm request. What the session hands
 * to its file writer, and every NotifyException call, are recorded in ghost logs.
 */
module Capture {
  import opened Platform
  import opened Formats
  import opened MfUtil

  /** Bytes of one NV12 frame at the target size, as written for each video frame. */
  const NV12FrameBytes: nat := TargetWidth * TargetHeight * 3 / 2

  /** One hand-off to the file writer: where the data starts and how many bytes are written. */
  datatype SinkCall = VideoFrame(scanLine0: int, length: nat) | AudioChunk(bytes: uint32)

  /** The answers of the platform calls StartCapture makes, in the order it makes them. */
  datatype StartOutcomes = StartOutcomes(
    attributesHr: HResult,         // MFCreateAttributes
    disableConvertersHr: HResult,  // SetUINT32(MF_READWRITE_DISABLE_CONVERTERS)
    callbackHr: HResult,           // SetUnknown(MF_SOURCE_READER_ASYNC_CALLBACK)
    readerHr: HResult,             // MFCreateSourceReaderFromMediaSource
    primeHr: HResult)              // the first ReadSample request

  /** Every step before negotiation succeeds: a reader exists afterwards. */
  predicate SetupSucceeds(o: StartOutcomes)
  {
    Succeeded(o.attributesHr) && Succeeded(o.disableConvertersHr) && Succeeded(o.callbackHr) && Succeeded(o.readerHr)
  }

  /** The session's acceptance test: video at tolerance 0.1, audio PCM or float. */
  function CriterionFor(video: bool): Criterion
  {
    if video then VideoTarget(CaptureFpsTolerance) else AudioTarget(false)
  }

  /** GetUINT32 on a missing attribute leaves the destination as it was. */
  function ReadOr(attr: Option<uint32>, prior: uint32): uint32
  {
    if attr.Some? then attr.value else prior
  }

  /** The callback asks for the next sample: status succeeded and either no sample or buffer 0 fetched. */
  predicate Rearms(hrStatus: HResult, sample: Option<Sample>)
  {
    Succeeded(hrStatus) && (sample.None? || sample.value.buffer.Ok?)
  }

  /**
   * What a callback returns: the failing status, else the failure to fetch buffer 0,
   * else the answer to the re-arm request. It fails exactly when the session does not
   * go on reading, and a failing status is returned as is.
   */
  function CallbackHr(hrStatus: HResult, sample: Option<Sample>, rearmHr: HResult): (hr: HResult)
    ensures !Succeeded(hrStatus) ==> hr == hrStatus
    ensures Succeeded(hr) <==> Rearms(hrStatus, sample) && Succeeded(rearmHr)
    ensures !Rearms(hrStatus, sample) ==> !Succeeded(hr)
  {
    if !Succeeded(hrStatus) then hrStatus
    else if sample.Some? && sample.value.buffer.Err? then sample.value.buffer.hr
    else rearmHr
  }

  /** The buffer a callback hands to OnData, if any. */
  function Delivered(hrStatus: HResult, sample: Option<Sample>): set<MediaBuffer>
  {
    if Succeeded(hrStatus) && sample.Some? && sample.value.buffer.Ok? then {sample.value.buffer.value} else {}
  }

  /**
   * What OnData writes for one buffer: a video frame when its lock (2-D when offered,
   * else flat with the session's stride) succeeds, the current length of an audio
   * buffer when its lock succeeds, and nothing when the lock fails.
   */
  function SinkCallsFor(video: bool, yStride: int32, b: MediaBuffer): seq<SinkCall>
  {
    if video then
      if b.supports2D then
        if b.lock2DOutcome.Ok? then [VideoFrame(b.lock2DOutcome.value.scanLine0, NV12FrameBytes)] else []
      else if b.lockOutcome.Ok? then [VideoFrame(ScanLine0Offset(yStride, TargetHeight), NV12FrameBytes)] else []
    else if b.lockOutcome.Ok? then [AudioChunk(b.lockOutcome.value)] else []
  }

  class MFCapture {
    var refCount: int
    const isVideo: bool
    const readerStream: uint32
    var source: MediaSource?
    var reader: SourceReader?
    var yStride: int32
    var channels: uint32
    var sampleRate: uint32
    var bitsPerSample: uint32
    /** The argument of every NotifyException call, in order. */
    ghost var notified: seq<HResult>
    /** Every hand-off to the file writer, in order. */
    ghost var sinkLog: seq<SinkCall>
    /** The object has been deleted by its last Release. */
    ghost var destroyed: bool

    /** No reader, no negotiated format, nothing logged. */
    ghost predicate Idle()
      reads this
    {
      && reader == null
      && yStride == 0 && channels == 0 && sampleRate == 0 && bitsPerSample == 0
      && notified == [] && sinkLog == [] && !destroyed
    }

    constructor (source: MediaSource, video: bool)
      ensures refCount == 1 && this.source == source && isVideo == video
      ensures readerStream == (if video then FIRST_VIDEO_STREAM else FIRST_AUDIO_STREAM)
      ensures Idle()
    {
      refCount := 1;
      isVideo := video;
      readerStream := if video then FIRST_VIDEO_STREAM else FIRST_AUDIO_STREAM;
      this.source := source;
      reader := null;
      yStride := 0;
      channels, sampleRate, bitsPerSample := 0, 0, 0;
      notified, sinkLog := [], [];
      destroyed := false;
    }

    /**
     * Creates a session over an opened device (source is null when opening failed).
     * The smart pointer takes a reference and the extra one from construction is
     * dropped, so the caller holds the only reference.
     */
    static method CreateInstance(video: bool, source: MediaSource?) returns (c: MFCapture?)
      ensures source == null ==> c == null
      ensures source != null ==> c != null && fresh(c) && c.refCount == 1 && c.source == source
      ensures source != null ==> c.isVideo == video && c.Idle()
      ensures source != null ==> c.readerStream == (if video then FIRST_VIDEO_STREAM else FIRST_AUDIO_STREAM)
    {
      if source == null {
        return null;
      }
      var ins := new MFCapture(source, video);
      var count := ins.AddRef();
      count := ins.Release();
      c := ins;
    }

    method AddRef() returns (count: int)
      requires !destroyed
      modifies this`refCount
      ensures refCount == old(refCount) + 1 && count == refCount
    {
      refCount := refCount + 1;
      count := refCount;
    }

    /**
     * The reference counts of the owners and of the reader: once created, the reader
     * holds a reference to the session (its callback) for as long as it exists, so a
     * caller holding a reference of its own finds the count above the reader's share.
     */
    ghost predicate CallerHoldsReference()
      reads this
    {
      refCount > (if reader != null then 1 else 0)
    }

    /**
     * Drops a caller's reference; the last one deletes the session, whose destructor
     * stops it. While a reader exists its reference keeps the count above zero, so
     * releasing every other reference neither deletes nor stops the session.
     */
    method Release() returns (count: int)
      requires !destroyed && CallerHoldsReference()
      modifies this`refCount, this`destroyed, this`source, this`reader
      ensures refCount == old(refCount) - 1 && count == refCount
      ensures destroyed <==> count == 0
      ensures old(reader) != null ==> count >= 1
      ensures count == 0 ==> source == null && reader == null
      ensures count != 0 ==> source == old(source) && reader == old(reader)
    {
      refCount := refCount - 1;
      count := refCount;
      if count == 0 {
        Destroy();
      }
    }

    /** The destructor: it runs only once the reader's reference is gone, and always runs StopCapture. */
    method Destroy()
      requires !destroyed && reader == null
      modifies this`destroyed, this`source, this`reader, this`refCount
      ensures destroyed && source == null && reader == null && refCount == old(refCount)
    {
      StopCapture();
      destroyed := true;
    }

    /**
     * Drops the source and the reader; dropping the reader releases the reference it
     * held on the session. A second call finds both gone and changes nothing. The
     * caller's own reference keeps the session alive through the reader's release.
     */
    method StopCapture()
      requires !destroyed && (reader != null ==> refCount >= 2)
      modifies this`source, this`reader, this`refCount
      ensures source == null && reader == null
      ensures refCount == old(refCount) - (if old(reader) != null then 1 else 0)
    {
      source := null;
      if reader != null {
        refCount := refCount - 1;
      }
      reader := null;
    }

    /** The derived fields after accepting a video type: the default stride, written only when the query succeeds. */
    twostate predicate VideoTook(t: MediaType, strideFor: StrideFunction)
      reads this, t
    {
      var r := DefaultStride(old(t.defaultStride), t.attrs, strideFor);
      && yStride == (if r.Ok? then r.value else old(yStride))
      && t.defaultStride == (if r.Ok? then Some(r.value) else old(t.defaultStride))
    }

    /** The derived fields after accepting an audio type: each attribute that is present. */
    twostate predicate AudioTook(t: MediaType)
      reads this
    {
      && channels == ReadOr(t.attrs.channels, old(channels))
      && sampleRate == ReadOr(t.attrs.sampleRate, old(sampleRate))
      && bitsPerSample == ReadOr(t.attrs.bitsPerSample, old(bitsPerSample))
    }

    twostate predicate FormatKept()
      reads this
    {
      && yStride == old(yStride)
      && channels == old(channels) && sampleRate == old(sampleRate) && bitsPerSample == old(bitsPerSample)
    }

    /** The session's fields after accepting t, by session kind; the other kind's fields are kept. */
    twostate predicate TookFormat(t: MediaType, strideFor: StrideFunction)
      reads this, t
    {
      if isVideo then
        && VideoTook(t, strideFor)
        && channels == old(channels) && sampleRate == old(sampleRate) && bitsPerSample == old(bitsPerSample)
      else
        && AudioTook(t)
        && yStride == old(yStride) && t.defaultStride == old(t.defaultStride)
    }

    /**
     * Starts capturing. Refused (false, nothing changed) when a reader already exists
     * or there is no source. A failing set-up call returns false before a reader exists.
     * The reader is created with the session as its callback and holds a reference to
     * it from then on. If negotiation accepts nothing, false is returned with the new
     * reader (and its reference) kept, so a later start is refused. Otherwise the first
     * request is issued; if it fails the source is shut down and the session stopped,
     * with neither source nor reader left and the reader's reference given back. The
     * attribute store's reference to the session lasts only for this call.
     */
    method StartCapture(o: StartOutcomes, strideFor: StrideFunction) returns (ok: bool)
      requires !destroyed && CallerHoldsReference()
      modifies this`source, this`reader, this`refCount, this`yStride, this`channels, this`sampleRate, this`bitsPerSample
      modifies source, if source == null then [] else source.nativeTypes
      ensures CallerHoldsReference()
      ensures var src := old(source);
        if old(reader) != null || src == null then
          && !ok && source == src && reader == old(reader) && refCount == old(refCount) && FormatKept()
          && (src != null ==> src.isShutdown == old(src.isShutdown) && StridesKeptExcept(src.nativeTypes, null))
        else if !SetupSucceeds(o) then
          && !ok && source == src && reader == null && refCount == old(refCount) && FormatKept()
          && src.isShutdown == old(src.isShutdown) && StridesKeptExcept(src.nativeTypes, null)
        else
          var pick := FirstMatch(AttrsOf(src.nativeTypes), CriterionFor(isVideo));
          if pick.None? then
            && !ok && source == src && reader != null && fresh(reader) && refCount == old(refCount) + 1
            && reader.natives == src.nativeTypes && reader.current == null && reader.requests == []
            && FormatKept() && src.isShutdown == old(src.isShutdown) && StridesKeptExcept(src.nativeTypes, null)
          else
            var t := src.nativeTypes[pick.value];
            && TookFormat(t, strideFor) && StridesKeptExcept(src.nativeTypes, t)
            && (Succeeded(o.primeHr) ==>
                  && ok && source == src && reader != null && fresh(reader) && refCount == old(refCount) + 1
                  && reader.natives == src.nativeTypes && reader.current == t && reader.requests == [readerStream]
                  && src.isShutdown == old(src.isShutdown))
            && (!Succeeded(o.primeHr) ==> !ok && source == null && reader == null && refCount == old(refCount) && src.isShutdown)
    {
      if reader != null || source == null {
        return false;
      }
      if !Succeeded(o.attributesHr) || !Succeeded(o.disableConvertersHr) || !Succeeded(o.callbackHr) || !Succeeded(o.readerHr) {
        return false;
      }
      reader := new SourceReader(source.nativeTypes);
      refCount := refCount + 1;
      var found := SelectMediaType(strideFor);
      if !found {
        return false;
      }
      var hr := reader.ReadSample(readerStream, o.primeHr);
      if !Succeeded(hr) {
        source.Shutdown();
        StopCapture();
        return false;
      }
      ok := true;
    }

    /**
     * StartCapture with the roll-back the session's design asks of a failed start:
     * when negotiation accepts nothing the session is stopped, as after a failed first
     * request, so no reader is left holding a reference to it. Every other path is
     * that of StartCapture.
     */
    method StartCaptureIntended(o: StartOutcomes, strideFor: StrideFunction) returns (ok: bool)
      requires !destroyed && CallerHoldsReference()
      modifies this`source, this`reader, this`refCount, this`yStride, this`channels, this`sampleRate, this`bitsPerSample
      modifies source, if source == null then [] else source.nativeTypes
      ensures CallerHoldsReference()
      ensures var src := old(source);
        if old(reader) != null || src == null then
          && !ok && source == src && reader == old(reader) && refCount == old(refCount) && FormatKept()
          && (src != null ==> src.isShutdown == old(src.isShutdown) && StridesKeptExcept(src.nativeTypes, null))
        else if !SetupSucceeds(o) then
          && !ok && source == src && reader == null && refCount == old(refCount) && FormatKept()
          && src.isShutdown == old(src.isShutdown) && StridesKeptExcept(src.nativeTypes, null)
        else
          var pick := FirstMatch(AttrsOf(src.nativeTypes), CriterionFor(isVideo));
          if pick.None? then
            && !ok && source == null && reader == null && refCount == old(refCount)
            && FormatKept() && src.isShutdown == old(src.isShutdown) && StridesKeptExcept(src.nativeTypes, null)
          else
            var t := src.nativeTypes[pick.value];
            && TookFormat(t, strideFor) && StridesKeptExcept(src.nativeTypes, t)
            && (Succeeded(o.primeHr) ==>
                  && ok && source == src && reader != null && fresh(reader) && refCount == old(refCount) + 1
                  && reader.natives == src.nativeTypes && reader.current == t && reader.requests == [readerStream]
                  && src.isShutdown == old(src.isShutdown))
            && (!Succeeded(o.primeHr) ==> !ok && source == null && reader == null && refCount == old(refCount) && src.isShutdown)
    {
      if reader != null || source == null {
        return false;
      }
      if !Succeeded(o.attributesHr) || !Succeeded(o.disableConvertersHr) || !Succeeded(o.callbackHr) || !Succeeded(o.readerHr) {
        return false;
      }
      reader := new SourceReader(source.nativeTypes);
      refCount := refCount + 1;
      var found := SelectMediaType(strideFor);
      if !found {
        StopCapture();
        return false;
      }
      var hr := reader.ReadSample(readerStream, o.primeHr);
      if !Succeeded(hr) {
        source.Shutdown();
        StopCapture();
        return false;
      }
      ok := true;
    }

    /**
     * Tries the reader's native types at indices 0, 1, 2, ... and stops at the first one
     * the session's test accepts or at the first index the reader cannot supply. The
     * result says whether a type was accepted; it is then the reader's current type.
     */
    method SelectMediaType(strideFor: StrideFunction) returns (found: bool)
      requires reader != null
      modifies this`yStride, this`channels, this`sampleRate, this`bitsPerSample, reader, reader.natives
      ensures reader.requests == old(reader.requests)
      ensures var pick := FirstMatch(AttrsOf(reader.natives), CriterionFor(isVideo));
        && found == pick.Some?
        && (found ==> var t := reader.natives[pick.value];
              reader.current == t && TookFormat(t, strideFor) && StridesKeptExcept(reader.natives, t))
        && (!found ==> reader.current == old(reader.current) && FormatKept() && StridesKeptExcept(reader.natives, null))
    {
      ghost var xs := AttrsOf(reader.natives);
      ghost var crit := CriterionFor(isVideo);
      found := false;
      var index: nat := 0;
      while !found
        invariant index <= |reader.natives|
        invariant reader.requests == old(reader.requests)
        invariant forall k :: 0 <= k < (if found then index - 1 else index) ==> !Accepts(crit, xs[k])
        invariant found ==> 1 <= index && Accepts(crit, xs[index - 1])
        invariant found ==> var t := reader.natives[index - 1];
          reader.current == t && TookFormat(t, strideFor) && StridesKeptExcept(reader.natives, t)
        invariant !found ==> reader.current == old(reader.current) && FormatKept() && StridesKeptExcept(reader.natives, null)
        decreases |reader.natives| - index
      {
        var native := reader.GetNativeMediaType(index);
        if native.Err? {
          break;
        }
        if isVideo {
          found := TestVideoMediaType(native.value, strideFor);
        } else {
          found := TestAudioMediaType(native.value);
        }
        index := index + 1;
      }
      if found {
        FirstMatchAt(xs, crit, index - 1);
      }
    }

    /**
     * Accepts an NV12 1280x720 type whose frame rate is within 0.1 of 30 fps and which
     * the reader agrees to apply; the session's stride then comes from GetDefaultStride.
     */
    method TestVideoMediaType(t: MediaType, strideFor: StrideFunction) returns (accepted: bool)
      requires reader != null
      modifies this`yStride, reader, t
      ensures accepted == Accepts(VideoTarget(CaptureFpsTolerance), t.attrs)
      ensures reader.requests == old(reader.requests)
      ensures accepted ==> reader.current == t && VideoTook(t, strideFor)
      ensures !accepted ==> reader.current == old(reader.current) && yStride == old(yStride) && t.defaultStride == old(t.defaultStride)
    {
      var a := t.attrs;
      if a.subtype == Some(TargetSubtype) {
        if a.frameSize.Some? && a.frameSize.value.width == TargetWidth && a.frameSize.value.height == TargetHeight {
          if a.frameRate.Some? {
            var rate := a.frameRate.value;
            if rate.den != 0 && AbsReal(rate.num as real / rate.den as real - TargetFps) < CaptureFpsTolerance {
              var hr := reader.SetCurrentMediaType(t);
              if Succeeded(hr) {
                var _, stride := GetDefaultStride(t, strideFor, yStride);
                yStride := stride;
                return true;
              }
            }
          }
        }
      }
      return false;
    }

    /**
     * Accepts a PCM or float type the reader agrees to apply, with no filter on rate,
     * channels or depth, and then records whichever of the three attributes are present.
     */
    method TestAudioMediaType(t: MediaType) returns (accepted: bool)
      requires reader != null
      modifies this`channels, this`sampleRate, this`bitsPerSample, reader
      ensures accepted == Accepts(AudioTarget(false), t.attrs)
      ensures reader.requests == old(reader.requests)
      ensures accepted ==> reader.current == t && AudioTook(t)
      ensures !accepted ==> reader.current == old(reader.current) && FormatKept()
    {
      var a := t.attrs;
      if a.subtype.Some? {
        if a.subtype.value == PCM || a.subtype.value == Float {
          var hr := reader.SetCurrentMediaType(t);
          if Succeeded(hr) {
            channels := ReadOr(a.channels, channels);
            sampleRate := ReadOr(a.sampleRate, sampleRate);
            bitsPerSample := ReadOr(a.bitsPerSample, bitsPerSample);
            return true;
          }
        }
      }
      return false;
    }

    /**
     * One completed read. A sample's buffer 0 is handed to OnData when the status
     * succeeded; the next read is requested exactly when the status succeeded and
     * buffer 0 was fetched or there was no sample; any failure is reported once to
     * NotifyException and ends the chain of requests. What OnData does never changes
     * the decision, and every buffer ends with the lock counts it started with.
     * Re-arming dereferences the reader without a check, so a successful callback
     * after StopCapture is outside the code's contract.
     */
    method OnReadSample(hrStatus: HResult, sample: Option<Sample>, rearmHr: HResult) returns (hr: HResult)
      requires !destroyed && (Rearms(hrStatus, sample) ==> reader != null)
      modifies this`notified, this`sinkLog, reader, Delivered(hrStatus, sample)
      ensures hr == CallbackHr(hrStatus, sample, rearmHr)
      ensures notified == old(notified) + (if Succeeded(hr) then [] else [hr])
      ensures Delivered(hrStatus, sample) == {} ==> sinkLog == old(sinkLog)
      ensures forall b :: b in Delivered(hrStatus, sample) ==>
        sinkLog == old(sinkLog) + SinkCallsFor(isVideo, yStride, b) && b.locks == old(b.locks) && b.locks2D == old(b.locks2D)
      ensures Rearms(hrStatus, sample) ==> reader.requests == old(reader.requests) + [readerStream]
      ensures !Rearms(hrStatus, sample) && reader != null ==> reader.requests == old(reader.requests)
      ensures reader != null ==> reader.current == old(reader.current)
    {
      hr := S_OK;
      if !Succeeded(hrStatus) {
        hr := hrStatus;
      }
      if Succeeded(hr) {
        if sample.Some? {
          var buffer := sample.value.buffer;
          if buffer.Ok? {
            OnData(buffer.value);
          } else {
            hr := buffer.hr;
          }
        }
      }
      if Succeeded(hr) {
        hr := reader.ReadSample(readerStream, rearmHr);
      }
      if !Succeeded(hr) {
        NotifyException(hr);
      }
    }

    method OnData(b: MediaBuffer)
      modifies this`sinkLog, b
      ensures sinkLog == old(sinkLog) + SinkCallsFor(isVideo, yStride, b)
      ensures b.locks == old(b.locks) && b.locks2D == old(b.locks2D)
    {
      if isVideo {
        OnVideoData(b);
      } else {
        OnAudioData(b);
      }
    }

    /**
     * Locks through the helper with the session's stride and the target height, hands
     * the frame on, and unlocks; a failed lock returns at once and the helper's
     * destructor then has nothing to release.
     */
    method OnVideoData(b: MediaBuffer)
      modifies this`sinkLog, b
      ensures sinkLog == old(sinkLog) + SinkCallsFor(true, yStride, b)
      ensures b.locks == old(b.locks) && b.locks2D == old(b.locks2D)
    {
      var helper := new VideoBufferLock(b);
      var r := helper.LockBuffer(yStride, TargetHeight);
      if r.Err? {
        helper.Dispose();
        return;
      }
      sinkLog := sinkLog + [VideoFrame(r.value.scanLine0, NV12FrameBytes)];
      helper.UnlockBuffer();
      helper.Dispose();
    }

    /** Locks the buffer flat, hands its current length on, and unlocks only after a successful lock. */
    method OnAudioData(b: MediaBuffer)
      modifies this`sinkLog, b
      ensures sinkLog == old(sinkLog) + SinkCallsFor(false, yStride, b)
      ensures b.locks == old(b.locks) && b.locks2D == old(b.locks2D)
    {
      var data := b.Lock();
      if data.Err? {
        return;
      }
      sinkLog := sinkLog + [AudioChunk(data.value)];
      b.Unlock();
    }

    /** A hook with no effect; the ghost log only records that it was called and with what. */
    method NotifyException(hr: HResult)
      modifies this`notified
      ensures notified == old(notified) + [hr]
    {
      notified := notified + [hr];
    }

    /** Always succeeds and changes nothing. */
    method OnEvent() returns (hr: HResult)
      ensures hr == S_OK
    {
      hr := S_OK;
    }

    /** Always succeeds and changes nothing. */
    method OnFlush() returns (hr: HResult)
      ensures hr == S_OK
    {
      hr := S_OK;
    }
  }

  /** A platform that could compute no stride, for the audio scenarios below. */
  function NoStride(g: Guid, w: uint32): Call<int32>
  {
    Err(E_FAIL)
  }

  /** A platform whose NV12 rows are as many bytes wide as the frame is pixels wide. */
  function Nv12Stride(g: Guid, w: uint32): Call<int32>
  {
    if g == NV12 && w < 0x8000_0000 then Ok(w as int32) else Err(E_FAIL)
  }

  /** An NV12 1280x720 type at 30 fps that declares no stride. */
  method NewNv12Type() returns (t: MediaType)
    ensures fresh(t) && t.attrs == VideoAttrs(NV12, 1280, 720, Ratio(30, 1), S_OK) && t.defaultStride == None
  {
    t := new MediaType(VideoAttrs(NV12, 1280, 720, Ratio(30, 1), S_OK), None);
  }

  function AllSucceed(): StartOutcomes
  {
    StartOutcomes(S_OK, S_OK, S_OK, S_OK, S_OK)
  }

  /**
   * A video session over a camera offering MJPG then NV12 1280x720 at 30 fps with no
   * declared stride: it starts, derives the stride 1280 and caches it on the type, and
   * a callback with a successful status and no sample issues a second request without
   * writing anything or notifying.
   */
  method NullSampleKeepsReading() returns (started: bool, stride: int32, cached: Option<int32>, hr: HResult, requests: nat, ghost notifications: nat)
    ensures started && stride == 1280 && cached == Some(1280)
    ensures hr == S_OK && requests == 2 && notifications == 0
  {
    var mjpg := new MediaType(VideoAttrs(MJPG, 1280, 720, Ratio(30, 1), S_OK), None);
    var nv12 := NewNv12Type();
    var src := new MediaSource([mjpg, nv12]);
    var c := MFCapture.CreateInstance(true, src);
    assert !Accepts(VideoTarget(CaptureFpsTolerance), mjpg.attrs);
    assert FirstMatch(AttrsOf([mjpg, nv12]), VideoTarget(CaptureFpsTolerance)) == Some(1);
    started := c.StartCapture(AllSucceed(), Nv12Stride);
    cached := nv12.defaultStride;
    stride := c.yStride;
    hr := c.OnReadSample(S_OK, None, S_OK);
    requests := |c.reader.requests|;
    notifications := |c.notified|;
  }

  /**
   * The camera is unplugged: the callback carries the device-lost status, which is
   * returned and reported once, and no further request is issued.
   */
  method DeviceLostStopsReading() returns (hr: HResult, requests: nat, ghost notifications: seq<HResult>)
    ensures hr == MF_E_VIDEO_RECORDING_DEVICE_INVALIDATED
    ensures requests == 1 && notifications == [MF_E_VIDEO_RECORDING_DEVICE_INVALIDATED]
  {
    var nv12 := NewNv12Type();
    var src := new MediaSource([nv12]);
    var c := MFCapture.CreateInstance(true, src);
    assert FirstMatch(AttrsOf([nv12]), VideoTarget(CaptureFpsTolerance)) == Some(0);
    var started := c.StartCapture(AllSucceed(), Nv12Stride);
    hr := c.OnReadSample(MF_E_VIDEO_RECORDING_DEVICE_INVALIDATED, None, S_OK);
    requests := |c.reader.requests|;
    notifications := c.notified;
  }

  /**
   * A device with no acceptable type: the first start fails but keeps its reader, so a
   * second start is refused before it does anything, and the reader's reference
   * outlives the owner's: its only Release returns 1 and the session is never deleted.
   */
  method NegotiationFailureBlocksRestart() returns (first: bool, second: bool, readerKept: bool, count: int, ghost deleted: bool)
    ensures !first && !second && readerKept
    ensures count == 1 && !deleted
  {
    var aac := new MediaType(AudioAttrs(AAC, 2, 48000, 16, S_OK), None);
    var src := new MediaSource([aac]);
    var c := MFCapture.CreateInstance(false, src);
    first := c.StartCapture(AllSucceed(), NoStride);
    second := c.StartCapture(AllSucceed(), NoStride);
    readerKept := c.reader != null;
    count := c.Release();
    deleted := c.destroyed;
  }

  /**
   * The same device with the roll-back: the failed start leaves no reader, so the
   * owner's only Release is the last and deletes the session.
   */
  method NegotiationFailureRollsBack() returns (started: bool, readerLeft: bool, count: int, ghost deleted: bool)
    ensures !started && !readerLeft && count == 0 && deleted
  {
    var aac := new MediaType(AudioAttrs(AAC, 2, 48000, 16, S_OK), None);
    var src := new MediaSource([aac]);
    var c := MFCapture.CreateInstance(false, src);
    started := c.StartCaptureIntended(AllSucceed(), NoStride);
    readerLeft := c.reader != null;
    count := c.Release();
    deleted := c.destroyed;
  }

  /**
   * A camera whose NV12 type declares no stride, on a platform that cannot derive one:
   * the type is accepted and the session starts with its stride still 0.
   */
  method UnknownStrideLeavesZero() returns (started: bool, stride: int32)
    ensures started && stride == 0
  {
    var nv12 := NewNv12Type();
    var src := new MediaSource([nv12]);
    var c := MFCapture.CreateInstance(true, src);
    assert FirstMatch(AttrsOf([nv12]), VideoTarget(CaptureFpsTolerance)) == Some(0);
    started := c.StartCapture(AllSucceed(), NoStride);
    stride := c.yStride;
  }

  /**
   * A microphone whose PCM type lacks the channel count: the type is accepted and the
   * session starts with 0 channels, the rate and depth read as given.
   */
  method MissingChannelsLeaveZero() returns (started: bool, channels: uint32, sampleRate: uint32, bitsPerSample: uint32)
    ensures started && channels == 0 && sampleRate == 48000 && bitsPerSample == 16
  {
    var pcm := new MediaType(MediaTypeAttrs(Some(MajorAudio), Some(PCM), None, None, None, Some(48000), Some(16), S_OK), None);
    var src := new MediaSource([pcm]);
    var c := MFCapture.CreateInstance(false, src);
    assert FirstMatch(AttrsOf([pcm]), AudioTarget(false)) == Some(0);
    started := c.StartCapture(AllSucceed(), NoStride);
    channels, sampleRate, bitsPerSample := c.channels, c.sampleRate, c.bitsPerSample;
  }

  /**
   * A failing first request shuts the source down and stops the session; afterwards a
   * failing callback is still within the contract and only reports its status.
   */
  method PrimingFailureStops() returns (started: bool, shutdown: bool, stopped: bool, late: HResult)
    ensures !started && shutdown && stopped && late == E_FAIL
  {
    var pcm := new MediaType(AudioAttrs(Float, 2, 48000, 32, S_OK), None);
    var src := new MediaSource([pcm]);
    var c := MFCapture.CreateInstance(false, src);
    started := c.StartCapture(StartOutcomes(S_OK, S_OK, S_OK, S_OK, E_FAIL), NoStride);
    shutdown := src.isShutdown;
    stopped := c.source == null && c.reader == null;
    late := c.OnReadSample(E_FAIL, None, S_OK);
  }

  /** The last Release deletes the session, whose destructor leaves no source or reader. */
  method LastReleaseStops() returns (counts: seq<int>, stopped: bool)
    ensures counts == [2, 1, 0] && stopped
  {
    var src := new MediaSource([]);
    var c := MFCapture.CreateInstance(true, src);
    var a := c.AddRef();
    var b := c.Release();
    var d := c.Release();
    counts := [a, b, d];
    stopped := c.source == null && c.reader == null;
  }

  /**
   * The owner releases its only reference while capturing: the reader's reference keeps
   * the count at 1, so the session is neither deleted nor stopped and keeps its source
   * and reader.
   */
  method OwnerReleaseKeepsCapturing() returns (started: bool, count: int, running: bool)
    ensures started && count == 1 && running
  {
    var nv12 := NewNv12Type();
    var src := new MediaSource([nv12]);
    var c := MFCapture.CreateInstance(true, src);
    assert FirstMatch(AttrsOf([nv12]), VideoTarget(CaptureFpsTolerance)) == Some(0);
    started := c.StartCapture(AllSucceed(), Nv12Stride);
    count := c.Release();
    running := c.source == src && c.reader != null;
  }

  /**
   * Stopping a started session gives the reader's reference back, so the owner's one
   * Release is then the last and deletes the session.
   */
  method StopThenReleaseDeletes() returns (counts: seq<int>, ghost deleted: bool)
    ensures counts == [2, 1, 0] && deleted
  {
    var nv12 := NewNv12Type();
    var src := new MediaSource([nv12]);
    var c := MFCapture.CreateInstance(true, src);
    assert FirstMatch(AttrsOf([nv12]), VideoTarget(CaptureFpsTolerance)) == Some(0);
    var started := c.StartCapture(AllSucceed(), Nv12Stride);
    var afterStart := c.refCount;
    c.StopCapture();
    var afterStop := c.refCount;
    var last := c.Release();
    counts := [afterStart, afterStop, last];
    deleted := c.destroyed;
  }
}
