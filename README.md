# Media Foundation capture study, modelled in Dafny

This project models the capture core of a Windows Media Foundation study program
(`mf/`). It covers four parts:

- Device and capability enumeration (`mf-enum.cpp`): which cameras and microphones
  enter the device list, and which native formats of a device are reported.
- The asynchronous capture session `CMFCapture` (`mf-capture.h`, `mf-capture.cpp`):
  a reference-counted object that opens a source reader and negotiates NV12
  1280x720 at 30 fps (video) or PCM/float (audio). After each completed read it
  requests the next sample, until a failure is reported.
- The helpers of `mf-util.hpp`: the video buffer lock with its scan-line-0
  arithmetic, and the default-stride query that caches its answer on the media type.
- The older synchronous path of `mf.cpp`: its own negotiation (video tolerance 0.01,
  audio in two passes), blocking reads counted up to 5 video or 200 audio frames,
  and its own capability report.

The Media Foundation API is not code of the project. Every platform call is an
outcome given to the model: a value or a failing HRESULT, and an attribute that is
present or missing. Objects whose state the code changes through the platform are
classes (`Platform`): a media type's cached stride, a buffer's lock counts, a
reader's current type and its list of read requests, a source's shutdown flag. The
session is a class whose fields are the C++ members. What the code writes to its
files, and every `NotifyException` call, are kept in ghost logs.

Modules, one per file:
- `Platform` (platform.dfy): HRESULTs, GUIDs, media-type attributes and the platform objects.
- `Formats` (formats.dfy): the negotiation targets and the first-match scan both paths share.
- `MfUtil` (util.dfy): `mf-util.hpp`.
- `Capture` (capture.dfy): `mf-capture.h` and `mf-capture.cpp`.
- `Enumeration` (enumeration.dfy): `mf-enum.cpp`.
- `Legacy` (legacy.dfy): `mf.cpp`.

On the frame-rate tolerance, both values are modelled as they appear in the code:
0.1 in the session (`mf-capture.cpp:185`) and 0.01 in the older path (`mf.cpp:429`).
`Formats.SessionChoosesNoLaterThanLegacy` relates the two. A native type counts as
accepted only when the reader also agrees to apply it, as the code does. A type whose
`SetCurrentMediaType` fails does not end the scan: the next index is tried.

## Model

| member | source | states |
|---|---|---|
| Formats.FirstMatch | mf/mf-capture.cpp:158-175 | the index chosen is accepted and no earlier entry is; None means no entry is accepted |
| Formats.WiderStopsNoLater | mf/mf-capture.cpp:158-175 | a scan with a more permissive test stops at the same index or earlier, and finds something whenever the narrower scan does |
| Formats.TighterToleranceIsNarrower | mf/mf-capture.cpp:185 | a smaller frame-rate tolerance accepts no type a larger one rejects |
| Formats.SessionChoosesNoLaterThanLegacy | mf/mf.cpp:429 | whenever the older path (0.01) selects a video type, the session (0.1) selects one at the same index or earlier |
| Formats.PcmFallbackNeverRescues | mf/mf.cpp:567-590 | when the PCM-or-float pass accepts nothing, the PCM-only fallback pass accepts nothing either |
| Formats.NtscRateOnlyNearWithinSessionTolerance | mf/mf-capture.cpp:185 | 30/1 passes the 0.01 test, 30000/1001 passes 0.1 but not 0.01, and a zero denominator never passes |
| Formats.NegotiationPicksTargetAmongOthers | mf/mf-capture.cpp:177-199 | among unrelated formats listed first, the scan selects exactly the NV12 1280x720 30/1 entry |
| Formats.AacOnlyDeviceFailsBothPasses | mf/mf.cpp:540-597 | an AAC-only device fails the PCM-or-float pass and the PCM-only pass |
| MfUtil.ScanLine0Offset | mf/mf-util.hpp:65-79 | the scan-line-0 offset always lies in the 32-bit unsigned range, whatever the stride and height |
| MfUtil.ScanLine0IsLastRowInMemory | mf/mf-util.hpp:70-78 | a bottom-up image starts at abs(stride)*(height-1) and a top-down one at 0, when that product fits in 32 bits |
| MfUtil.ZeroHeightWraps | mf/mf-util.hpp:73 | with height 0 the unsigned height-1 wraps, so stride -1280 yields offset 2^32-1280 |
| MfUtil.VideoBufferLock.constructor | mf/mf-util.hpp:39-43 | the helper holds the buffer, notes whether the 2-D interface exists, and starts unlocked |
| MfUtil.VideoBufferLock.LockBuffer | mf/mf-util.hpp:53-85 | with the 2-D interface it returns Lock2D's answer; otherwise a flat lock returns the caller's stride and the scan-line-0 offset; it is locked exactly when the chosen lock succeeded, and exactly that lock count rises by one |
| MfUtil.VideoBufferLock.UnlockBuffer | mf/mf-util.hpp:87-97 | releases with the unlock of the variant taken, only when locked; afterwards unlocked, so a second call changes nothing |
| MfUtil.VideoBufferLock.Dispose | mf/mf-util.hpp:45 | the destructor releases exactly what UnlockBuffer would |
| MfUtil.LockScope | mf/mf-util.hpp:37-103 | a lock scope, with or without an explicit unlock, leaves both lock counts of the buffer as they were |
| MfUtil.GetDefaultStride | mf/mf-util.hpp:138-170 | a declared stride is returned and nothing is written; otherwise the stride is derived from subtype and width, stored on success, and the caller's variable changes only on success; the HRESULT succeeds exactly when a stride was obtained |
| MfUtil.QueryStrideTwice | mf/mf-util.hpp:160-163 | after a successful query the attribute holds the stride, and a second query gives the same answer |
| Capture.CallbackHr | mf/mf-capture.cpp:119-156 | a failing status is returned as is; the result succeeds exactly when the status succeeded, buffer 0 was fetched (or there was no sample) and the re-arm request succeeded |
| Capture.MFCapture.constructor | mf/mf-capture.cpp:21-24 | one reference, the given source, the stream selector of the kind, no reader, zeroed format fields, empty logs |
| Capture.MFCapture.CreateInstance | mf/mf-capture.cpp:9-19 | no source gives null; otherwise a new idle session whose only reference the caller holds |
| Capture.MFCapture.AddRef | mf/mf-capture.cpp:94-97 | the count rises by one and the new count is returned |
| Capture.MFCapture.Release | mf/mf-capture.cpp:99-107 | the count falls by one and is returned; the session is deleted exactly when it reaches 0, and then holds neither source nor reader; while a reader exists its reference keeps the count at 1 or more, so no other Release deletes or stops the session |
| Capture.MFCapture.Destroy | mf/mf-capture.cpp:26-29 | the destructor, reached only after the reader's reference is gone, stops the session: no source, no reader, the count unchanged |
| Capture.MFCapture.StopCapture | mf/mf-capture.cpp:86-92 | afterwards neither source nor reader is held; dropping a reader gives back the reference it held on the session, so the count falls by one exactly when a reader was held |
| Capture.MFCapture.StartCapture | mf/mf-capture.cpp:31-84 | refused without change when a reader exists or no source; a failing set-up call leaves no reader; if negotiation fails the new reader is kept; otherwise the first match's format is taken and one read is requested, and a failing request shuts the source down and stops the session; the created reader holds a reference to the session (the callback set at line 55), so the count is one higher while the reader is kept and back to its old value once it is dropped |
| Capture.MFCapture.StartCaptureIntended | mf/mf-capture.cpp:67-81 | every path of StartCapture, except that a failed negotiation stops the session: no reader is left, and the count is back to its old value |
| Capture.MFCapture.SelectMediaType | mf/mf-capture.cpp:158-175 | true exactly when the first-match scan with the session's test finds a type; that type is then current and its format is recorded; no other type's cached stride changes |
| Capture.MFCapture.TestVideoMediaType | mf/mf-capture.cpp:177-199 | accepts exactly NV12 1280x720 within 0.1 of 30 fps that the reader applies; then it is current and the stride comes from the default-stride query; a rejection changes nothing |
| Capture.MFCapture.TestAudioMediaType | mf/mf-capture.cpp:201-219 | accepts exactly PCM or float that the reader applies; then the present channel, rate and depth attributes are recorded; a rejection changes nothing |
| Capture.MFCapture.OnReadSample | mf/mf-capture.cpp:119-156 | returns CallbackHr; buffer 0 of a sample goes to OnData only on success; the next read is requested exactly when the callback re-arms; any failure is notified once; buffer lock counts are balanced |
| Capture.MFCapture.OnData | mf/mf-capture.cpp:221-227 | dispatches by kind: the writer log grows by exactly the buffer's frame or chunk, and lock counts are balanced |
| Capture.MFCapture.OnVideoData | mf/mf-capture.cpp:229-254 | a successful lock hands on one NV12 frame at the scan-line-0 offset; a failed lock hands on nothing; lock counts are balanced either way |
| Capture.MFCapture.OnAudioData | mf/mf-capture.cpp:256-279 | a successful flat lock hands on the current length and is unlocked; a failed lock is never unlocked |
| Capture.MFCapture.NotifyException | mf/mf-capture.h:39 | the hook does nothing but is called with the failing HRESULT, recorded in order |
| Capture.MFCapture.OnEvent | mf/mf-capture.h:27 | always S_OK |
| Capture.MFCapture.OnFlush | mf/mf-capture.h:28 | always S_OK |
| Capture.NullSampleKeepsReading | mf/mf-capture.cpp:128-149 | a video session over MJPG then NV12 with no declared stride derives stride 1280 and caches it on the type; a successful callback without a sample issues a second request and notifies nothing |
| Capture.DeviceLostStopsReading | mf/mf-capture.h:39 | in a video session the device-lost status 0xC00D3EA2 is returned and notified once, and no further read is requested |
| Capture.NegotiationFailureBlocksRestart | mf/mf-capture.cpp:35-70 | a failed negotiation keeps the reader, so a second start is refused, and the reader's reference outlives the owner's: its only Release returns 1 and the session is never deleted |
| Capture.NegotiationFailureRollsBack | mf/mf-capture.cpp:67-81 | with the roll-back, a device with no acceptable type leaves no reader after the failed start, and the owner's only Release returns 0 and deletes the session |
| Capture.UnknownStrideLeavesZero | mf/mf-capture.cpp:188-190 | an NV12 type with no declared stride, on a platform that cannot derive one, is accepted and the session starts with stride 0 |
| Capture.MissingChannelsLeaveZero | mf/mf-capture.cpp:209-214 | a PCM type without a channel count is accepted and the session starts with 0 channels and the given rate and depth |
| Capture.PrimingFailureStops | mf/mf-capture.cpp:72-81 | a failing first request shuts the source down and leaves no source or reader; a later failing callback only returns its status |
| Capture.LastReleaseStops | mf/mf-capture.cpp:99-107 | AddRef then two Releases report 2, 1, 0, and the last one leaves no source or reader |
| Capture.OwnerReleaseKeepsCapturing | mf/mf-capture.cpp:55-61 | after a successful start the owner's only Release returns 1: the session is not deleted and keeps its source and reader |
| Capture.StopThenReleaseDeletes | mf/mf-capture.cpp:86-107 | a started session counts 2; StopCapture gives the reader's reference back (1), and the owner's Release is then the last (0) and deletes the session |
| Enumeration.SubtypeName | mf/mf-enum.cpp:212-251 | an unlisted GUID gets ""; a non-empty name belongs to an entry listing the GUID |
| Enumeration.GetVideoSubtypeString | mf/mf-enum.cpp:212-251 | a subtype has a video name exactly when the active 25-entry table lists it |
| Enumeration.GetAudioSubtypeString | mf/mf-enum.cpp:253-289 | a subtype has an audio name exactly when the active four-entry table lists it |
| Enumeration.VideoNamesNonEmpty | mf/mf-enum.cpp:235-241 | no entry of the active video table has an empty name, so "" means not listed |
| Enumeration.SubtypeNameIsFirstEntry | mf/mf-enum.cpp:212-251 | the first entry listing the GUID gives the name; later entries are never consulted |
| Enumeration.NamedIffListed | mf/mf-enum.cpp:212-251 | in a table without empty names, a GUID is named exactly when some entry lists it |
| Enumeration.VideoTableNames | mf/mf-enum.cpp:232-241 | the active video table has 25 entries, and NV12 is named "NV12" |
| Enumeration.VideoNamedIffListed | mf/mf-enum.cpp:212-251 | a GUID has a video name exactly when the active table lists it |
| Enumeration.VideoTableOmitsRgb16 | mf/mf-enum.cpp:214-241 | RGB555 and RGB565 get no video name |
| Enumeration.VideoTableOmitsNonVideo | mf/mf-enum.cpp:212-251 | PCM and the all-zero GUID get no video name |
| Enumeration.AudioNamesExactlyFour | mf/mf-enum.cpp:253-289 | exactly PCM, Float, AAC and MP3 have an audio name |
| Enumeration.AudioNamesAreTheirOwn | mf/mf-enum.cpp:253-289 | each of the four is named by its own name |
| Enumeration.Admitted | mf/mf-enum.cpp:28-51 | a device gets an entry exactly when its name and its kind's link were fetched; a null string becomes "" |
| Enumeration.EnumDevices | mf/mf-enum.cpp:3-74 | a failure before the loop gives an empty list; otherwise the admitted devices in enumeration order, and every activated device is queried |
| Enumeration.ListedAppend | mf/mf-enum.cpp:22-70 | listing keeps the enumeration order: the list of a concatenation is the concatenation of the lists |
| Enumeration.ListedIffAdmitted | mf/mf-enum.cpp:22-70 | an entry is in the list exactly when some device contributes it |
| Enumeration.ListedKeepsAllIffAllAdmitted | mf/mf-enum.cpp:28-51 | the list is never longer than the device array, and equally long exactly when every device's fetches succeed |
| Enumeration.ListedIgnoresEndpointAndCapabilities | mf/mf-enum.cpp:36 | devices that differ only in the endpoint fetch or in activation give the same list |
| Enumeration.TypeReport | mf/mf-enum.cpp:115-205 | a type is reported only with the requested major type and a named subtype; video needs a readable non-zero size and a rate; audio needs rate, channels and depth, reported as read |
| Enumeration.EnumCapability | mf/mf-enum.cpp:76-210 | null source gives E_POINTER; a descriptor or count failure is returned; otherwise S_OK with the reports of every stream in order, per-stream and per-type failures skipped |
| Enumeration.TypesReportsSound | mf/mf-enum.cpp:115-205 | every report of a stream's types is yielded by a fetched type at its own index |
| Enumeration.TypesReportsComplete | mf/mf-enum.cpp:115-205 | every report a fetched type yields at its index is in the stream's reports |
| Enumeration.TypesReportsIff | mf/mf-enum.cpp:115-205 | a report of a stream's types is produced exactly when some fetched type yields it at its own index |
| Enumeration.ReportedIffReportable | mf/mf-enum.cpp:93-207 | a format is reported exactly when its stream and its type pass every filter; one failure never hides another's report |
| Enumeration.ReportsAreOfRequestedKind | mf/mf-enum.cpp:105-108 | every report comes from a stream of the requested kind and has a named subtype of that kind |
| Legacy.SetReaderMediaType | mf/mf.cpp:412-453 | S_OK exactly when the 0.01 first-match scan finds a type, which becomes current; the stride variable changes only if the default-stride query succeeds; otherwise E_FAIL and nothing changes |
| Legacy.AudioPass | mf/mf.cpp:543-565 | true exactly when the pass's first match exists; that type is then current |
| Legacy.SetAudioReaderMediaType | mf/mf.cpp:540-597 | PCM or float first, PCM second, E_FAIL when neither finds a type; succeeds exactly when the first pass does |
| Legacy.ReadFrame | mf/mf.cpp:455-496 | a failed read is returned; a tick or null sample leaves the flag as it was; any other sample sets it, even when conversion or lock fails; only a locked buffer is unlocked, and its current length is written |
| Legacy.RunEndsAtBoundOrFailure | mf/mf.cpp:509-517 | the loop counts at most its bound, stops short only on a failed read (the last one consumed), and the count equals the counted reads consumed |
| Legacy.IdleAnswersNeverEndTheLoop | mf/mf.cpp:509-517 | answers that neither fail nor count (stream ticks, null samples) never end the loop, however many there are |
| Legacy.ReadFrames | mf/mf.cpp:652-659 | the count and the number of read requests are those the loop's end determines; lock counts are balanced |
| Legacy.CaptureVideo | mf/mf.cpp:498-521 | E_FAIL when the reader or negotiation fails, with no reads, the current type and every cached stride unchanged; otherwise S_OK with at most 5 frames whatever ended the loop, the first 0.01 match current, the stride variable replaced only by a successful default-stride query, and no other type's cached stride changed; buffer lock counts are balanced |
| Legacy.CaptureAudio | mf/mf.cpp:641-663 | E_FAIL when the reader or negotiation fails, with no reads and the current type unchanged; otherwise S_OK with at most 200 frames and the first PCM-or-float type current; buffer lock counts are balanced |
| Legacy.LegacyAudioSubtypeString | mf/mf.cpp:321-355 | a subtype has an older audio name exactly when the 19-entry table lists it, and the name is that of an entry listing it |
| Legacy.LegacyAudioTableExtendsActive | mf/mf.cpp:321-355 | every audio subtype the newer table names gets the same name from the older one |
| Legacy.LegacyNamesActiveSubtype | mf/mf.cpp:321-355 | the older table names PCM, Float, AAC and MP3 by their own names |
| Legacy.LegacyAudioTableNamesFlac | mf/mf.cpp:321-355 | FLAC is named by the older table and not by the newer one |
| Legacy.DuplicateAdtsEntryUnreachable | mf/mf.cpp:321-355 | ADTS is listed twice and the earlier entry always answers |
| Legacy.LegacyTypeReport | mf/mf.cpp:130-191 | a type is reported exactly when its major type is the compared one and its subtype (the all-zero GUID when missing) has a name in the kind's table; the report carries that name and the values read, each missing value as 0 |
| Legacy.ReportCapabilities | mf/mf.cpp:82-200 | E_POINTER, the descriptor or count failure, or S_OK with the reports of every stream in order, for either kind check |
| Legacy.EnumCapability | mf/mf.cpp:82-200 | the report as written: E_POINTER for a null source, the descriptor or count failure returned as is, else S_OK with each type compared with its own stream's major type |
| Legacy.EnumCapabilityIntended | mf/mf.cpp:82-200 | the same failures returned as is, else S_OK with streams and types compared with the requested kind |
| Legacy.LegacyTypesReportsLocate | mf/mf.cpp:130-142 | each report of a stream's types names a fetched type whose major type is the compared one |
| Legacy.LegacyReportOrigin | mf/mf.cpp:115-141 | intended: a reported type and its stream have the requested kind; as written: only their own major types agree |
| Legacy.ShadowedKindReportsOtherKind | mf/mf.cpp:115-120 | an audio enumeration over a stream and a PCM type both labelled video reports that type as written, and nothing when corrected |

## Left out

- Console output, log lines and file writing are not modelled as I/O. The data handed to the writer is kept in a ghost log (session) or returned (older path).
- Thread safety: the critical section, the interlocked counters and concurrent callbacks are not modelled. Each method runs as one atomic step.
- QueryInterface (mf-capture.cpp:109-116) is not modelled: it is a table lookup in a platform helper.
- CreateMediaSource (mf-util.hpp:108-136), CreateSourceReader and CreateAudioSourceReader (mf.cpp:358-376, 524-538), CreateVideoSource (mf.cpp:57-80) and both main functions are not modelled. The model receives their results: a source or null, and the reader's HRESULT.
- The older EnumDevices (mf.cpp:202-278) is not modelled. It builds no device list, and once enumeration has started it returns S_OK (mf.cpp:277). It activates every device and runs the older capability report on it even when the name or link fetch failed, since the activation overwrites the HRESULT (mf.cpp:252). It runs the synchronous capture of its kind on every activated device whose friendly name contains "Logitech" (mf.cpp:256-263). For audio, the endpoint fetch overwrites the link fetch's HRESULT (mf.cpp:236-238).
- Capture.MFCapture.CreateInstance: a failed allocation (`new (std::nothrow)` returning null and then being dereferenced) is not modelled.
- Frame rates are compared as exact rationals, not as doubles. Rounding of the double division is not modelled.
- The frame-rate range attributes (mf.cpp:159-163, mf-enum.cpp:158-160) are read and only printed, so they are not modelled.
- Pointers into buffers are byte offsets from the start of the buffer.
- Debug-only `assert` calls in the code are not modelled as aborts; the release behaviour is modelled.
- Legacy.ReadFrames, Legacy.CaptureVideo, Legacy.CaptureAudio: the answers to the blocking reads are a finite list that must reach the frame bound or a failure. A device that only ever delivers ticks or null samples keeps the C++ loop running forever; `Legacy.IdleAnswersNeverEndTheLoop` states that no finite run of such answers ends it, and the methods do not model the endless run.
- Capture.MFCapture.TestVideoMediaType: accepting a type does not promise a non-zero stride, although the session's design does. When the default-stride query fails, the stride keeps its old value, which is 0 on a first start. Only the debug assert at mf-capture.cpp:190 checks it (`Capture.UnknownStrideLeavesZero`).
- Capture.MFCapture.TestAudioMediaType: accepting a type does not promise non-zero channels, rate and depth, although the session's design does. A missing attribute keeps the old value, which is 0 on a first start. Only the debug assert at mf-capture.cpp:214 checks them, and neither the session nor mf.cpp:540-597 tries another type because of a zero field (`Capture.MissingChannelsLeaveZero`).
- MfUtil.GetDefaultStride: the SetUINT32 that caches a derived stride on the type (mf-util.hpp:162) is taken to succeed, since the code discards its HRESULT; the model always stores the stride. MfUtil.QueryStrideTwice relies on the same assumption.
- Legacy.SetReaderMediaType: the file-level stride variable is passed in and returned rather than kept as a global.
- The older video subtype table (mf.cpp:280-319) has the same 25 entries as the newer one, so `Enumeration.GetVideoSubtypeString` serves both.
- The stride attribute is stored as a UINT32 and read back through the same bits. The model keeps the signed value, which is the same number.

## Findings

| source | as written | input that shows it | evidently intended | confidence | as-written member | corrected member |
|---|---|---|---|---|---|---|
| mf/mf.cpp:115-120,140 | the inner `GUID majorType` hides the requested kind, so `majorType != majorType` never skips a stream and each type is compared with its own stream's major type | audio enumeration of a stream whose handler and single PCM type both say video: that type is reported as audio | skip streams and types that are not of the requested kind, as mf-enum.cpp:105-108,121-124 does | high (not executed) | Legacy.EnumCapability, Legacy.ShadowedKindReportsOtherKind | Legacy.EnumCapabilityIntended, Legacy.LegacyReportOrigin |
| mf/mf-capture.cpp:67-70 | a failed negotiation returns false and keeps the new reader, which holds a reference to the session | a device offering only AAC: StartCapture fails, and the owner's only Release returns 1, so the session is never deleted and its source never released | a failed start rolls back to idle with its partial resources released, as the priming-failure branch at lines 72-81 does with StopCapture | medium (not executed) | Capture.MFCapture.StartCapture, Capture.NegotiationFailureBlocksRestart | Capture.MFCapture.StartCaptureIntended, Capture.NegotiationFailureRollsBack |
