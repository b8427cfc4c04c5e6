/**
 * The Media Foundation surface the capture code talks to, reduced to the outcomes
 * the code branches on. Every platform call is an outcome given to the code: an
 * attribute that is present or missing, a call that succeeds with a value or fails
 * with a failing HRESULT. Objects whose state the code changes through the platform
 * (a media type's cached stride, a buffer's lock count, a reader's current type and
 * its pending read requests, a source's shutdown flag) are classes.
 */
module Platform {

  type uint32 = x: int | 0 <= x < 0x1_0000_0000
  type int32 = x: int | -0x8000_0000 <= x < 0x8000_0000

  /** An HRESULT: negative values are failures (FAILED), the others successes (SUCCEEDED). */
  type HResult = int32

  /** A failing HRESULT. */
  type FailCode = x: int | -0x8000_0000 <= x < 0 witness -1

  predicate Succeeded(hr: int) { hr >= 0 }

  const S_OK: HResult := 0
  const E_FAIL: FailCode := 0x8000_4005 - 0x1_0000_0000
  const E_POINTER: FailCode := 0x8000_4003 - 0x1_0000_0000
  const MF_E_ATTRIBUTENOTFOUND: FailCode := 0xC00D_36E6 - 0x1_0000_0000
  const MF_E_NO_MORE_TYPES: FailCode := 0xC00D_36B9 - 0x1_0000_0000
  /** The status a capture callback receives when the device is unplugged. */
  const MF_E_VIDEO_RECORDING_DEVICE_INVALIDATED: FailCode := 0xC00D_3EA2 - 0x1_0000_0000

  /** Stream selectors of the source reader. */
  const FIRST_VIDEO_STREAM: uint32 := 0xFFFF_FFFC
  const FIRST_AUDIO_STREAM: uint32 := 0xFFFF_FFFD

  /** Bit of the reader's stream flags that marks a stream tick (a gap without data). */
  const STREAMTICK_FLAG: bv32 := 0x100

  datatype Option<+T> = None | Some(value: T)

  /** The outcome of a platform call: a value, or the failing HRESULT it returned. */
  datatype Call<+T> = Ok(value: T) | Err(hr: FailCode)

  function HrOf<T>(c: Call<T>): (hr: HResult)
    ensures Succeeded(hr) <==> c.Ok?
  {
    if c.Ok? then S_OK else c.hr
  }

  /**
   * The GUIDs the code compares against. GuidNull is the all-zero GUID a local is
   * initialised with; OtherGuid stands for any GUID the code never names.
   */
  datatype Guid =
    | GuidNull
    // video subtypes
    | RGB32 | ARGB32 | RGB24 | RGB555 | RGB565 | I420 | IYUV | YV12 | NV12 | NV21 | YUY2 | UYVY
    | AYUV | P010 | P016 | P210 | P216 | V210 | V216 | V410 | Y210 | Y216 | Y410 | Y416
    | MJPG | H264 | HEVC
    // audio subtypes
    | PCM | Float | AAC | MP3 | DTS | Dolby_AC3 | ADTS | MPEG | WMAudioV8 | WMAudioV9
    | WMAudio_Lossless | WMASPDIF | MSP1 | FLAC | ALAC | AMR_NB | AMR_WB | DRM
    | OtherGuid(id: nat)

  datatype MajorType = MajorVideo | MajorAudio | OtherMajor(id: nat)

  datatype FrameSize = FrameSize(width: uint32, height: uint32)
  datatype Ratio = Ratio(num: uint32, den: uint32)

  /**
   * The attributes of one media type that the code reads, each present or missing,
   * and the answer the source reader gives when the type is applied to its stream.
   */
  datatype MediaTypeAttrs = MediaTypeAttrs(
    major: Option<MajorType>,       // MF_MT_MAJOR_TYPE
    subtype: Option<Guid>,          // MF_MT_SUBTYPE
    frameSize: Option<FrameSize>,   // MF_MT_FRAME_SIZE
    frameRate: Option<Ratio>,       // MF_MT_FRAME_RATE
    channels: Option<uint32>,       // MF_MT_AUDIO_NUM_CHANNELS
    sampleRate: Option<uint32>,     // MF_MT_AUDIO_SAMPLES_PER_SECOND
    bitsPerSample: Option<uint32>,  // MF_MT_AUDIO_BITS_PER_SAMPLE
    applyHr: HResult)               // what SetCurrentMediaType answers for this type

  /** A media type object: fixed attributes plus the default-stride attribute, which the code may write. */
  class MediaType {
    const attrs: MediaTypeAttrs
    var defaultStride: Option<int32>  // MF_MT_DEFAULT_STRIDE

    constructor (attrs: MediaTypeAttrs, defaultStride: Option<int32>)
      ensures this.attrs == attrs && this.defaultStride == defaultStride
    {
      this.attrs := attrs;
      this.defaultStride := defaultStride;
    }
  }

  /** Where scan line 0 starts (a byte offset from the start of the buffer) and the row stride. */
  datatype ScanLine = ScanLine(scanLine0: int, stride: int32)

  /**
   * A media buffer. Its lock calls answer with fixed outcomes; the counters are the
   * number of locks taken and not yet released, per lock variant. Unlocking a buffer
   * that is not locked is outside the platform's contract, hence the preconditions.
   */
  class MediaBuffer {
    const supports2D: bool             // QueryInterface for IMF2DBuffer succeeds
    const lockOutcome: Call<uint32>    // Lock: the current data length
    const lock2DOutcome: Call<ScanLine>  // Lock2D: scan line 0 and the actual stride
    var locks: nat
    var locks2D: nat

    constructor (supports2D: bool, lockOutcome: Call<uint32>, lock2DOutcome: Call<ScanLine>)
      ensures this.supports2D == supports2D && this.lockOutcome == lockOutcome
      ensures this.lock2DOutcome == lock2DOutcome
      ensures locks == 0 && locks2D == 0
    {
      this.supports2D := supports2D;
      this.lockOutcome := lockOutcome;
      this.lock2DOutcome := lock2DOutcome;
      locks, locks2D := 0, 0;
    }

    method Lock() returns (r: Call<uint32>)
      modifies this
      ensures r == lockOutcome
      ensures locks == old(locks) + (if r.Ok? then 1 else 0) && locks2D == old(locks2D)
    {
      r := lockOutcome;
      if r.Ok? {
        locks := locks + 1;
      }
    }

    method Unlock()
      requires locks > 0
      modifies this
      ensures locks == old(locks) - 1 && locks2D == old(locks2D)
    {
      locks := locks - 1;
    }

    method Lock2D() returns (r: Call<ScanLine>)
      requires supports2D
      modifies this
      ensures r == lock2DOutcome
      ensures locks2D == old(locks2D) + (if r.Ok? then 1 else 0) && locks == old(locks)
    {
      r := lock2DOutcome;
      if r.Ok? {
        locks2D := locks2D + 1;
      }
    }

    method Unlock2D()
      requires supports2D && locks2D > 0
      modifies this
      ensures locks2D == old(locks2D) - 1 && locks == old(locks)
    {
      locks2D := locks2D - 1;
    }
  }

  /** A delivered sample. buffer is the answer when the code asks it for its data: GetBufferByIndex(0) in the session, ConvertToContiguousBuffer in the older synchronous path. */
  datatype Sample = Sample(buffer: Call<MediaBuffer>)

  /** A capture device opened as a media source, with the native types of the stream that is read. */
  class MediaSource {
    const nativeTypes: seq<MediaType>
    var isShutdown: bool

    constructor (nativeTypes: seq<MediaType>)
      ensures this.nativeTypes == nativeTypes && !isShutdown
    {
      this.nativeTypes := nativeTypes;
      isShutdown := false;
    }

    method Shutdown()
      modifies this
      ensures isShutdown
    {
      isShutdown := true;
    }
  }

  /**
   * A source reader bound to one stream: it offers the native types in order, keeps
   * the type last applied successfully, and logs the stream of every ReadSample request.
   */
  class SourceReader {
    const natives: seq<MediaType>
    var current: MediaType?
    var requests: seq<uint32>

    constructor (natives: seq<MediaType>)
      ensures this.natives == natives && current == null && requests == []
    {
      this.natives := natives;
      current := null;
      requests := [];
    }

    method GetNativeMediaType(index: nat) returns (r: Call<MediaType>)
      ensures index < |natives| ==> r == Ok(natives[index])
      ensures |natives| <= index ==> r == Err(MF_E_NO_MORE_TYPES)
    {
      if index < |natives| {
        r := Ok(natives[index]);
      } else {
        r := Err(MF_E_NO_MORE_TYPES);
      }
    }

    method SetCurrentMediaType(t: MediaType) returns (hr: HResult)
      modifies this
      ensures hr == t.attrs.applyHr
      ensures current == (if Succeeded(hr) then t else old(current)) && requests == old(requests)
    {
      hr := t.attrs.applyHr;
      if Succeeded(hr) {
        current := t;
      }
    }

    /** Issues one read request on stream; outcome is the platform's answer to it. */
    method ReadSample(stream: uint32, outcome: HResult) returns (hr: HResult)
      modifies this
      ensures hr == outcome
      ensures requests == old(requests) + [stream] && current == old(current)
    {
      hr := outcome;
      requests := requests + [stream];
    }
  }

  /** The capability view of a media source: presentation descriptor, streams, type handlers. */
  datatype TypeHandler = TypeHandler(majorType: Call<MajorType>, mediaTypes: Call<seq<Call<MediaTypeAttrs>>>)
  datatype StreamDescriptor = StreamDescriptor(handler: Call<TypeHandler>)
  datatype PresentationDescriptor = PresentationDescriptor(streams: Call<seq<Call<StreamDescriptor>>>)
  datatype SourceCaps = SourceCaps(presentation: Call<PresentationDescriptor>)
}
