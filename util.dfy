/**
 * The helpers of mf/mf-util.hpp: the video buffer lock, which takes the 2-D lock
 * when the buffer offers it and otherwise a flat lock plus manual scan-line
 * arithmetic, and the default-stride query that caches a computed stride on the
 * media type.
 */
module MfUtil {
  import opened Platform

  const TwoPow32: int := 0x1_0000_0000

  /**
   * Byte offset of scan line 0 in a flat buffer. A negative default stride means the
   * image is bottom-up, so scan line 0 is the last row in memory; otherwise it is the
   * buffer start. The multiplication is unsigned 32-bit arithmetic (the height is an
   * unsigned DWORD), so it wraps around.
   */
  function ScanLine0Offset(defaultStride: int32, height: uint32): (offset: int)
    ensures 0 <= offset < TwoPow32
  {
    if defaultStride < 0 then (-(defaultStride as int) * ((height as int - 1) % TwoPow32)) % TwoPow32 else 0
  }

  /**
   * For a bottom-up image whose last row lies within 4 GiB, scan line 0 starts
   * |stride| * (height - 1) bytes in; a top-down image starts at offset 0.
   */
  lemma ScanLine0IsLastRowInMemory(defaultStride: int32, height: uint32)
    requires height >= 1
    requires -(defaultStride as int) * (height - 1) < TwoPow32
    ensures defaultStride < 0 ==> ScanLine0Offset(defaultStride, height) == -(defaultStride as int) * (height - 1)
    ensures defaultStride >= 0 ==> ScanLine0Offset(defaultStride, height) == 0
  {
    if defaultStride < 0 {
      var rows := height as int - 1;
      assert rows % TwoPow32 == rows;
      assert 0 <= -(defaultStride as int) * rows;
    }
  }

  /** A zero height (outside what the session passes) wraps to the last row of a 4 GiB range. */
  lemma ZeroHeightWraps()
    ensures ScanLine0Offset(-1280, 0) == TwoPow32 - 1280
  {
    assert (0 - 1) % TwoPow32 == TwoPow32 - 1;
    assert 1280 * (TwoPow32 - 1) == 1279 * TwoPow32 + (TwoPow32 - 1280);
  }

  /**
   * The lock helper: remembers whether the 2-D interface was obtained and whether
   * the buffer is currently locked through it.
   */
  class VideoBufferLock {
    const buffer: MediaBuffer
    const has2D: bool
    var locked: bool

    /** The helper holds at most what it has taken: locked implies a lock of its variant is outstanding. */
    ghost predicate Valid()
      reads this, buffer
    {
      && has2D == buffer.supports2D
      && (locked ==> if has2D then buffer.locks2D > 0 else buffer.locks > 0)
    }

    constructor (buffer: MediaBuffer)
      ensures this.buffer == buffer && has2D == buffer.supports2D && !locked
      ensures Valid()
    {
      this.buffer := buffer;
      has2D := buffer.supports2D;
      locked := false;
    }

    /**
     * Locks the buffer. With the 2-D interface the answer of Lock2D is returned as is;
     * otherwise a successful flat lock reports the caller's default stride and the
     * computed scan-line-0 offset. The helper is locked exactly when the chosen lock
     * call succeeded.
     */
    method LockBuffer(defaultStride: int32, height: uint32) returns (r: Call<ScanLine>)
      requires Valid()
      modifies this, buffer
      ensures Valid()
      ensures locked == r.Ok?
      ensures has2D ==> r == buffer.lock2DOutcome
      ensures has2D ==> buffer.locks2D == old(buffer.locks2D) + (if r.Ok? then 1 else 0) && buffer.locks == old(buffer.locks)
      ensures !has2D ==> r == (if buffer.lockOutcome.Ok?
                               then Ok(ScanLine(ScanLine0Offset(defaultStride, height), defaultStride))
                               else Err(buffer.lockOutcome.hr))
      ensures !has2D ==> buffer.locks == old(buffer.locks) + (if r.Ok? then 1 else 0) && buffer.locks2D == old(buffer.locks2D)
    {
      if has2D {
        r := buffer.Lock2D();
      } else {
        var data := buffer.Lock();
        if data.Ok? {
          r := Ok(ScanLine(ScanLine0Offset(defaultStride, height), defaultStride));
        } else {
          r := Err(data.hr);
        }
      }
      locked := r.Ok?;
    }

    /**
     * Releases the lock taken, with the unlock call matching its variant, and only if
     * the helper is locked; afterwards it is not, so a second call does nothing.
     */
    method UnlockBuffer()
      requires Valid()
      modifies this, buffer
      ensures Valid() && !locked
      ensures old(locked) && has2D ==> buffer.locks2D == old(buffer.locks2D) - 1 && buffer.locks == old(buffer.locks)
      ensures old(locked) && !has2D ==> buffer.locks == old(buffer.locks) - 1 && buffer.locks2D == old(buffer.locks2D)
      ensures !old(locked) ==> buffer.locks == old(buffer.locks) && buffer.locks2D == old(buffer.locks2D)
    {
      if locked {
        if has2D {
          buffer.Unlock2D();
        } else {
          buffer.Unlock();
        }
        locked := false;
      }
    }

    /** The destructor: it runs UnlockBuffer. */
    method Dispose()
      requires Valid()
      modifies this, buffer
      ensures Valid() && !locked
      ensures old(locked) && has2D ==> buffer.locks2D == old(buffer.locks2D) - 1 && buffer.locks == old(buffer.locks)
      ensures old(locked) && !has2D ==> buffer.locks == old(buffer.locks) - 1 && buffer.locks2D == old(buffer.locks2D)
      ensures !old(locked) ==> buffer.locks == old(buffer.locks) && buffer.locks2D == old(buffer.locks2D)
    {
      UnlockBuffer();
    }
  }

  /**
   * One scope of the helper: lock, optionally unlock explicitly, then leave the scope.
   * Whatever the lock's outcome and whether or not the explicit unlock happens, the
   * buffer ends with the lock counts it started with: a taken lock is released exactly
   * once and a failed lock is never released.
   */
  method LockScope(buffer: MediaBuffer, defaultStride: int32, height: uint32, unlockExplicitly: bool)
      returns (r: Call<ScanLine>)
    modifies buffer
    ensures buffer.locks == old(buffer.locks) && buffer.locks2D == old(buffer.locks2D)
    ensures r == (if buffer.supports2D then buffer.lock2DOutcome
                  else if buffer.lockOutcome.Ok? then Ok(ScanLine(ScanLine0Offset(defaultStride, height), defaultStride))
                  else Err(buffer.lockOutcome.hr))
  {
    var helper := new VideoBufferLock(buffer);
    r := helper.LockBuffer(defaultStride, height);
    if unlockExplicitly {
      helper.UnlockBuffer();
    }
    helper.Dispose();
  }

  /** The stride MFGetStrideForBitmapInfoHeader derives from a subtype and a width. */
  type StrideFunction = (Guid, uint32) -> Call<int32>

  /** The derivation path: subtype and frame size must be readable, then the platform computes. */
  function ComputedStride(a: MediaTypeAttrs, strideFor: StrideFunction): Call<int32>
  {
    if a.subtype.None? || a.frameSize.None? then Err(MF_E_ATTRIBUTENOTFOUND)
    else strideFor(a.subtype.value, a.frameSize.value.width)
  }

  /** The answer of the default-stride query: the declared attribute if present, else the derived value. */
  function DefaultStride(declared: Option<int32>, a: MediaTypeAttrs, strideFor: StrideFunction): Call<int32>
  {
    if declared.Some? then Ok(declared.value) else ComputedStride(a, strideFor)
  }

  /**
   * The default stride of a media type. A declared attribute is returned unchanged and
   * nothing is written; otherwise the stride is derived and, on success, stored back on
   * the type. The caller's variable (callerStride on entry) is overwritten only on success.
   * The attribute is stored as a UINT32 and read back through the same bits, so a
   * negative stride survives the round trip; the model keeps the signed value.
   */
  method GetDefaultStride(t: MediaType, strideFor: StrideFunction, callerStride: int32)
      returns (hr: HResult, stride: int32)
    modifies t
    ensures var r := DefaultStride(old(t.defaultStride), t.attrs, strideFor);
      && hr == HrOf(r)
      && stride == (if r.Ok? then r.value else callerStride)
      && t.defaultStride == (if r.Ok? then Some(r.value) else old(t.defaultStride))
  {
    stride := callerStride;
    if t.defaultStride.Some? {
      hr := S_OK;
      stride := t.defaultStride.value;
    } else {
      var computed := ComputedStride(t.attrs, strideFor);
      if computed.Ok? {
        t.defaultStride := Some(computed.value);
        hr := S_OK;
        stride := computed.value;
      } else {
        hr := computed.hr;
      }
    }
  }

  /** A media type list in which no type other than chosen had its cached stride changed. */
  twostate predicate StridesKeptExcept(ts: seq<MediaType>, chosen: MediaType?)
    reads ts
  {
    forall k :: 0 <= k < |ts| && ts[k] != chosen ==> ts[k].defaultStride == old(ts[k].defaultStride)
  }

  /**
   * Asking twice: once the first query has succeeded, the second one is answered from
   * the attribute with the same value, and writes nothing new.
   */
  method QueryStrideTwice(t: MediaType, strideFor: StrideFunction) returns (first: Call<int32>, second: Call<int32>)
    modifies t
    ensures first.Ok? ==> second == first && t.defaultStride == Some(first.value)
    ensures first.Err? ==> second == first && t.defaultStride == old(t.defaultStride)
  {
    var hr1, s1 := GetDefaultStride(t, strideFor, 0);
    first := if Succeeded(hr1) then Ok(s1) else Err(hr1);
    var hr2, s2 := GetDefaultStride(t, strideFor, 0);
    second := if Succeeded(hr2) then Ok(s2) else Err(hr2);
  }
}
