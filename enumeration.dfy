/**
 * Device and capability enumeration of mf/mf-enum.cpp: which devices enter the list
 * the session's callers choose from, which native formats of a device are reported,
 * and the subtype-to-name tables that decide whether a format is known.
 *
 * The platform's answers are inputs (Call outcomes nested as the code queries them).
 * The capability report, which the code prints, is returned as a list of records,
 * one per printed line, in the order they are printed.
 */
module Enumeration {
  import opened Platform

  // ---------------------------------------------------------------------------
  // Subtype names

  datatype SubtypeEntry = SubtypeEntry(guid: Guid, name: string)

  /** Every entry of a table has a non-empty name, so "" can mean "not found". */
  ghost predicate NamesNonEmpty(table: seq<SubtypeEntry>)
  {
    forall k :: 0 <= k < |table| ==> table[k].name != ""
  }

  /** Some entry of the table lists g. */
  ghost predicate Lists(table: seq<SubtypeEntry>, g: Guid)
  {
    exists k :: 0 <= k < |table| && table[k].guid == g
  }

  /** The name of the first entry whose GUID equals g, or "" when there is none. */
  function SubtypeName(table: seq<SubtypeEntry>, g: Guid): (name: string)
    ensures (forall k :: 0 <= k < |table| ==> table[k].guid != g) ==> name == ""
    ensures name != "" ==> exists k :: 0 <= k < |table| && table[k].guid == g && table[k].name == name
  {
    if table == [] then ""
    else if table[0].guid == g then table[0].name
    else SubtypeName(table[1..], g)
  }

  /** The first entry with the GUID wins: entries after it are never consulted. */
  lemma {:induction false} SubtypeNameIsFirstEntry(table: seq<SubtypeEntry>, g: Guid, k: nat)
    requires k < |table| && table[k].guid == g
    requires forall m :: 0 <= m < k ==> table[m].guid != g
    ensures SubtypeName(table, g) == table[k].name
  {
    if k > 0 {
      SubtypeNameIsFirstEntry(table[1..], g, k - 1);
    }
  }

  /** In a table without empty names, a GUID gets a name exactly when some entry lists it. */
  lemma {:induction false} NamedIffListed(table: seq<SubtypeEntry>, g: Guid)
    requires NamesNonEmpty(table)
    ensures SubtypeName(table, g) != "" <==> exists k :: 0 <= k < |table| && table[k].guid == g
  {
    if table != [] && table[0].guid != g {
      NamedIffListed(table[1..], g);
      if exists k :: 0 <= k < |table| && table[k].guid == g {
        var k :| 0 <= k < |table| && table[k].guid == g;
        assert table[1..][k - 1].guid == g;
      }
    }
  }

  /** The active video table: 25 entries; RGB555 and RGB565 are only in the disabled list. */
  const VideoSubtypeNames: seq<SubtypeEntry> := [
    SubtypeEntry(RGB32, "RGB32"), SubtypeEntry(ARGB32, "ARGB32"), SubtypeEntry(RGB24, "RGB24"),
    SubtypeEntry(I420, "I420"), SubtypeEntry(IYUV, "IYUV"),
    SubtypeEntry(YV12, "YV12"), SubtypeEntry(NV12, "NV12"), SubtypeEntry(NV21, "NV21"),
    SubtypeEntry(YUY2, "YUY2"), SubtypeEntry(UYVY, "UYVY"),
    SubtypeEntry(AYUV, "AYUV"), SubtypeEntry(P010, "P010"), SubtypeEntry(P016, "P016"),
    SubtypeEntry(P210, "P210"), SubtypeEntry(P216, "P216"),
    SubtypeEntry(V210, "v210"), SubtypeEntry(V216, "v216"), SubtypeEntry(V410, "v410"),
    SubtypeEntry(Y210, "Y210"), SubtypeEntry(Y216, "Y216"),
    SubtypeEntry(Y410, "Y410"), SubtypeEntry(Y416, "Y416"), SubtypeEntry(MJPG, "MJPG"),
    SubtypeEntry(H264, "H264"), SubtypeEntry(HEVC, "HEVC")]

  lemma VideoNamesNonEmpty()
    ensures NamesNonEmpty(VideoSubtypeNames)
  {
    var t := VideoSubtypeNames;
    forall k | 0 <= k < |t|
      ensures t[k].name != ""
    {
      assert |t[k].name| >= 4;
    }
  }

  /** The active audio table: PCM, Float, AAC and MP3; every other entry is compiled out. */
  const AudioSubtypeNames: seq<SubtypeEntry> := [
    SubtypeEntry(PCM, "PCM"), SubtypeEntry(Float, "Float"), SubtypeEntry(AAC, "AAC"), SubtypeEntry(MP3, "MP3")]

  /** The video name of a subtype: non-empty exactly when the active table lists it, and then that entry's name. */
  function GetVideoSubtypeString(g: Guid): (name: string)
    ensures name != "" <==> Lists(VideoSubtypeNames, g)
  {
    VideoNamesNonEmpty();
    NamedIffListed(VideoSubtypeNames, g);
    SubtypeName(VideoSubtypeNames, g)
  }

  /** The audio name of a subtype: non-empty exactly when the active table lists it, and then that entry's name. */
  function GetAudioSubtypeString(g: Guid): (name: string)
    ensures name != "" <==> Lists(AudioSubtypeNames, g)
  {
    NamedIffListed(AudioSubtypeNames, g);
    SubtypeName(AudioSubtypeNames, g)
  }

  /** The video table has 25 entries, and the format the session negotiates is named. */
  lemma VideoTableNames()
    ensures |VideoSubtypeNames| == 25
    ensures GetVideoSubtypeString(NV12) == "NV12"
  {
    SubtypeNameIsFirstEntry(VideoSubtypeNames, NV12, 6);
  }

  /** A GUID has a video name exactly when the active table lists it. */
  lemma VideoNamedIffListed(g: Guid)
    ensures GetVideoSubtypeString(g) != "" <==> exists k :: 0 <= k < |VideoSubtypeNames| && VideoSubtypeNames[k].guid == g
  {
    NamedIffListed(VideoSubtypeNames, g);
  }

  /** The 16-bit RGB formats get no video name: they are only in the disabled list. */
  lemma VideoTableOmitsRgb16()
    ensures GetVideoSubtypeString(RGB555) == "" && GetVideoSubtypeString(RGB565) == ""
  {
    var t := VideoSubtypeNames;
    assert forall k :: 0 <= k < |t| ==> t[k].guid != RGB555 && t[k].guid != RGB565;
  }

  /** An audio subtype and the all-zero GUID (a subtype that could not be read) get no video name. */
  lemma VideoTableOmitsNonVideo()
    ensures GetVideoSubtypeString(PCM) == "" && GetVideoSubtypeString(GuidNull) == ""
  {
    var t := VideoSubtypeNames;
    assert forall k :: 0 <= k < |t| ==> t[k].guid != PCM && t[k].guid != GuidNull;
  }

  /** The audio lookup names exactly the four active subtypes, each by its own name. */
  lemma AudioNamesExactlyFour(g: Guid)
    ensures GetAudioSubtypeString(g) != "" <==> g == PCM || g == Float || g == AAC || g == MP3
    ensures g == AAC ==> GetAudioSubtypeString(g) == "AAC"
  {
    var t := AudioSubtypeNames;
    if g != PCM && g != Float && g != AAC && g != MP3 {
      assert forall k :: 0 <= k < |t| ==> t[k].guid != g;
    } else {
      var k := if g == PCM then 0 else if g == Float then 1 else if g == AAC then 2 else 3;
      SubtypeNameIsFirstEntry(t, g, k);
    }
  }

  /** Each of the four audio subtypes is named by its own name. */
  lemma AudioNamesAreTheirOwn(g: Guid)
    requires g == PCM || g == Float || g == AAC || g == MP3
    ensures GetAudioSubtypeString(g) == if g == PCM then "PCM" else if g == Float then "Float" else if g == AAC then "AAC" else "MP3"
  {
    var u := AudioSubtypeNames;
    if g == PCM {
      SubtypeNameIsFirstEntry(u, g, 0);
    } else if g == Float {
      SubtypeNameIsFirstEntry(u, g, 1);
    } else if g == AAC {
      SubtypeNameIsFirstEntry(u, g, 2);
    } else {
      SubtypeNameIsFirstEntry(u, g, 3);
    }
  }

  // ---------------------------------------------------------------------------
  // Device list

  datatype MFDevice = MFDevice(name: string, path: string)

  /**
   * One enumerated device: the answers to the string fetches (an allocated string,
   * possibly null) and to activating it as a media source.
   */
  datatype DeviceActivate = DeviceActivate(
    friendlyName: Call<Option<string>>,
    videoLink: Call<Option<string>>,      // the video-capture symbolic link
    audioLink: Call<Option<string>>,      // the audio-capture symbolic link
    audioEndpoint: Call<Option<string>>,  // the audio endpoint id
    source: Call<SourceCaps>)             // ActivateObject

  function OrEmpty(s: Option<string>): string
  {
    if s.Some? then s.value else ""
  }

  function LinkOf(video: bool, d: DeviceActivate): Call<Option<string>>
  {
    if video then d.videoLink else d.audioLink
  }

  /**
   * The entry a device contributes: present exactly when both the friendly name and
   * the kind's symbolic link were fetched, with a null string read as "".
   */
  function Admitted(video: bool, d: DeviceActivate): (r: Option<MFDevice>)
    ensures r.Some? <==> d.friendlyName.Ok? && LinkOf(video, d).Ok?
    ensures r.Some? ==> r.value.name == OrEmpty(d.friendlyName.value) && r.value.path == OrEmpty(LinkOf(video, d).value)
  {
    if d.friendlyName.Ok? && LinkOf(video, d).Ok? then
      Some(MFDevice(OrEmpty(d.friendlyName.value), OrEmpty(LinkOf(video, d).value)))
    else None
  }

  function AsSeq<T>(o: Option<T>): seq<T>
  {
    if o.Some? then [o.value] else []
  }

  /** The list built from the devices in enumeration order. */
  function Listed(video: bool, ds: seq<DeviceActivate>): seq<MFDevice>
  {
    if ds == [] then [] else Listed(video, ds[..|ds| - 1]) + AsSeq(Admitted(video, ds[|ds| - 1]))
  }

  /** The number of devices whose activation succeeded, each of which gets a capability query. */
  function Activated(ds: seq<DeviceActivate>): nat
  {
    if ds == [] then 0 else Activated(ds[..|ds| - 1]) + (if ds[|ds| - 1].source.Ok? then 1 else 0)
  }

  /**
   * The devices of one kind. Any failure before the loop gives the empty list. Each
   * device is then added when its name and link fetches succeed; the endpoint fetch
   * (audio) is made and its answer dropped; every device that activates is queried
   * for its capabilities and the answer is dropped too.
   */
  method EnumDevices(video: bool, attributesHr: HResult, sourceTypeHr: HResult, enumerated: Call<seq<DeviceActivate>>)
      returns (devices: seq<MFDevice>, ghost queried: nat)
    ensures !Succeeded(attributesHr) || !Succeeded(sourceTypeHr) || enumerated.Err? ==> devices == [] && queried == 0
    ensures Succeeded(attributesHr) && Succeeded(sourceTypeHr) && enumerated.Ok? ==>
      devices == Listed(video, enumerated.value) && queried == Activated(enumerated.value)
  {
    devices, queried := [], 0;
    if !Succeeded(attributesHr) || !Succeeded(sourceTypeHr) || enumerated.Err? {
      return;
    }
    var ds := enumerated.value;
    for i := 0 to |ds|
      invariant devices == Listed(video, ds[..i])
      invariant queried == Activated(ds[..i])
    {
      assert ds[..i + 1][..i] == ds[..i];
      var d := ds[i];
      var name := d.friendlyName;
      if name.Ok? {
        var link;
        if video {
          link := d.videoLink;
        } else {
          link := d.audioLink;
          var endpoint := d.audioEndpoint;
        }
        if link.Ok? {
          devices := devices + [MFDevice(OrEmpty(name.value), OrEmpty(link.value))];
        }
      }
      if d.source.Ok? {
        var hr, reports := EnumCapability(Some(d.source.value), video);
        queried := queried + 1;
      }
    }
    assert ds[..|ds|] == ds;
  }

  /** Listing a concatenation lists the parts one after the other: the order of devices is kept. */
  lemma {:induction false} ListedAppend(video: bool, a: seq<DeviceActivate>, b: seq<DeviceActivate>)
    ensures Listed(video, a + b) == Listed(video, a) + Listed(video, b)
  {
    if b == [] {
      assert a + b == a;
    } else {
      var b' := b[..|b| - 1];
      assert (a + b)[..|a + b| - 1] == a + b';
      ListedAppend(video, a, b');
    }
  }

  /** A device is in the list exactly when some enumerated device contributes it. */
  lemma {:induction false} ListedIffAdmitted(video: bool, ds: seq<DeviceActivate>, m: MFDevice)
    ensures m in Listed(video, ds) <==> exists k :: 0 <= k < |ds| && Admitted(video, ds[k]) == Some(m)
  {
    if ds != [] {
      var ds' := ds[..|ds| - 1];
      ListedIffAdmitted(video, ds', m);
      if exists k :: 0 <= k < |ds'| && Admitted(video, ds'[k]) == Some(m) {
        var k :| 0 <= k < |ds'| && Admitted(video, ds'[k]) == Some(m);
        assert ds[k] == ds'[k];
      }
      if exists k :: 0 <= k < |ds| && Admitted(video, ds[k]) == Some(m) {
        var k :| 0 <= k < |ds| && Admitted(video, ds[k]) == Some(m);
        if k < |ds'| {
          assert ds'[k] == ds[k];
        }
      }
    }
  }

  /** The list has one entry per device exactly when every device's fetches succeed. */
  lemma {:induction false} ListedKeepsAllIffAllAdmitted(video: bool, ds: seq<DeviceActivate>)
    ensures |Listed(video, ds)| <= |ds|
    ensures |Listed(video, ds)| == |ds| <==> forall k :: 0 <= k < |ds| ==> Admitted(video, ds[k]).Some?
  {
    if ds != [] {
      var ds' := ds[..|ds| - 1];
      ListedKeepsAllIffAllAdmitted(video, ds');
      assert forall k :: 0 <= k < |ds'| ==> ds'[k] == ds[k];
    }
  }

  /** Two devices that answer the name and link fetches alike, whatever else they answer. */
  predicate SameIdentity(video: bool, d: DeviceActivate, e: DeviceActivate)
  {
    d.friendlyName == e.friendlyName && LinkOf(video, d) == LinkOf(video, e)
  }

  /**
   * The endpoint fetch and the capability query never change the list: devices that
   * differ only in those answers give the same list.
   */
  lemma {:induction false} ListedIgnoresEndpointAndCapabilities(video: bool, ds: seq<DeviceActivate>, es: seq<DeviceActivate>)
    requires |ds| == |es|
    requires forall k :: 0 <= k < |ds| ==> SameIdentity(video, ds[k], es[k])
    ensures Listed(video, ds) == Listed(video, es)
  {
    if ds != [] {
      ListedIgnoresEndpointAndCapabilities(video, ds[..|ds| - 1], es[..|es| - 1]);
    }
  }

  // ---------------------------------------------------------------------------
  // Capability report

  /** One reported format: its stream and type indices, its subtype's name and the values printed. */
  datatype Capability =
    | VideoCap(stream: nat, index: nat, subtype: string, width: uint32, height: uint32, rate: Ratio)
    | AudioCap(stream: nat, index: nat, subtype: string, sampleRate: uint32, channels: uint32, bitsPerSample: uint32)

  function DestMajor(video: bool): MajorType
  {
    if video then MajorVideo else MajorAudio
  }

  /**
   * The report for type j of stream i, if it is reported: its major type must be the
   * requested kind and its subtype must have a name in the kind's table; a video type
   * also needs a readable non-zero size and a readable frame rate, an audio type a
   * readable rate, channel count and bit depth.
   */
  function TypeReport(video: bool, i: nat, j: nat, a: MediaTypeAttrs): (r: Option<Capability>)
    ensures r.Some? ==> r.value.stream == i && r.value.index == j && a.major == Some(DestMajor(video))
    ensures r.Some? && video ==> && r.value.VideoCap? && a.subtype.Some?
                                 && r.value.subtype == GetVideoSubtypeString(a.subtype.value) != ""
                                 && a.frameSize == Some(FrameSize(r.value.width, r.value.height))
                                 && r.value.width != 0 && r.value.height != 0
                                 && a.frameRate == Some(r.value.rate)
    ensures r.Some? && !video ==> && r.value.AudioCap? && a.subtype.Some?
                                  && r.value.subtype == GetAudioSubtypeString(a.subtype.value) != ""
                                  && a.sampleRate == Some(r.value.sampleRate) && a.channels == Some(r.value.channels)
                                  && a.bitsPerSample == Some(r.value.bitsPerSample)
  {
    if a.major != Some(DestMajor(video)) || a.subtype.None? then None
    else if video then
      var name := GetVideoSubtypeString(a.subtype.value);
      if name == "" || a.frameSize.None? || a.frameSize.value.width == 0 || a.frameSize.value.height == 0 || a.frameRate.None? then None
      else Some(VideoCap(i, j, name, a.frameSize.value.width, a.frameSize.value.height, a.frameRate.value))
    else
      var name := GetAudioSubtypeString(a.subtype.value);
      if name == "" || a.sampleRate.None? || a.channels.None? || a.bitsPerSample.None? then None
      else Some(AudioCap(i, j, name, a.sampleRate.value, a.channels.value, a.bitsPerSample.value))
  }

  /** The reports for the types of stream i, in type order; a type that cannot be fetched is skipped. */
  function TypesReports(video: bool, i: nat, ts: seq<Call<MediaTypeAttrs>>): seq<Capability>
  {
    if ts == [] then []
    else
      var j := |ts| - 1;
      TypesReports(video, i, ts[..j]) + (if ts[j].Ok? then AsSeq(TypeReport(video, i, j, ts[j].value)) else [])
  }

  /**
   * The type list of a stream whose types are examined: the descriptor, its handler,
   * the handler's major type (equal to the requested kind) and its type count must
   * all be obtained.
   */
  function StreamTypes(video: bool, sd: Call<StreamDescriptor>): Option<seq<Call<MediaTypeAttrs>>>
  {
    if sd.Err? || sd.value.handler.Err? then None
    else
      var h := sd.value.handler.value;
      if h.majorType.Err? || h.majorType.value != DestMajor(video) || h.mediaTypes.Err? then None
      else Some(h.mediaTypes.value)
  }

  function StreamsReports(video: bool, ss: seq<Call<StreamDescriptor>>): seq<Capability>
  {
    if ss == [] then []
    else
      var i := |ss| - 1;
      var ts := StreamTypes(video, ss[i]);
      StreamsReports(video, ss[..i]) + (if ts.Some? then TypesReports(video, i, ts.value) else [])
  }

  /** The checks the inner loop makes on one fetched type, in the order it makes them. */
  method ReportType(video: bool, i: nat, j: nat, a: MediaTypeAttrs) returns (r: Option<Capability>)
    ensures r == TypeReport(video, i, j, a)
  {
    r := None;
    if a.major.None? || a.major.value != DestMajor(video) {
      return;
    }
    if a.subtype.None? {
      return;
    }
    if video {
      var name := GetVideoSubtypeString(a.subtype.value);
      if name == "" {
        return;
      }
      if a.frameSize.None? || a.frameSize.value.width == 0 || a.frameSize.value.height == 0 {
        return;
      }
      if a.frameRate.None? {
        return;
      }
      r := Some(VideoCap(i, j, name, a.frameSize.value.width, a.frameSize.value.height, a.frameRate.value));
    } else {
      var name := GetAudioSubtypeString(a.subtype.value);
      if name == "" {
        return;
      }
      if a.sampleRate.None? || a.channels.None? || a.bitsPerSample.None? {
        return;
      }
      r := Some(AudioCap(i, j, name, a.sampleRate.value, a.channels.value, a.bitsPerSample.value));
    }
  }

  /** The inner loop over the types of stream i: the reports of its types, in type order. */
  method ReportStreamTypes(video: bool, i: nat, ts: seq<Call<MediaTypeAttrs>>) returns (found: seq<Capability>)
    ensures found == TypesReports(video, i, ts)
  {
    found := [];
    for j := 0 to |ts|
      invariant found == TypesReports(video, i, ts[..j])
    {
      assert ts[..j + 1][..j] == ts[..j];
      if ts[j].Ok? {
        var r := ReportType(video, i, j, ts[j].value);
        found := found + AsSeq(r);
      }
    }
    assert ts[..|ts|] == ts;
  }

  /**
   * Reports the formats of one kind. A null source gives E_POINTER, a failure to
   * create the presentation descriptor or to read the stream count is returned, and
   * otherwise the result is S_OK whatever individual streams and types answered.
   */
  method EnumCapability(source: Option<SourceCaps>, video: bool) returns (hr: HResult, reports: seq<Capability>)
    ensures source.None? ==> hr == E_POINTER && reports == []
    ensures source.Some? && source.value.presentation.Err? ==> hr == source.value.presentation.hr && reports == []
    ensures source.Some? && source.value.presentation.Ok? && source.value.presentation.value.streams.Err? ==>
      hr == source.value.presentation.value.streams.hr && reports == []
    ensures source.Some? && source.value.presentation.Ok? && source.value.presentation.value.streams.Ok? ==>
      hr == S_OK && reports == StreamsReports(video, source.value.presentation.value.streams.value)
  {
    if source.None? {
      return E_POINTER, [];
    }
    var pd := source.value.presentation;
    if pd.Err? {
      return pd.hr, [];
    }
    var streams := pd.value.streams;
    if streams.Err? {
      return streams.hr, [];
    }
    var ss := streams.value;
    var dest := DestMajor(video);
    reports := [];
    for i := 0 to |ss|
      invariant reports == StreamsReports(video, ss[..i])
    {
      assert ss[..i + 1][..i] == ss[..i];
      var sd := ss[i];
      if sd.Err? {
        continue;
      }
      var handler := sd.value.handler;
      if handler.Err? {
        continue;
      }
      var major := handler.value.majorType;
      if major.Err? || major.value != dest {
        continue;
      }
      var types := handler.value.mediaTypes;
      if types.Err? {
        continue;
      }
      var found := ReportStreamTypes(video, i, types.value);
      reports := reports + found;
    }
    assert ss[..|ss|] == ss;
    hr := S_OK;
  }

  /** c is the report of a type that passes every filter, at the indices it names. */
  ghost predicate Reportable(video: bool, ss: seq<Call<StreamDescriptor>>, c: Capability)
  {
    && c.stream < |ss|
    && StreamTypes(video, ss[c.stream]).Some?
    && var ts := StreamTypes(video, ss[c.stream]).value;
       c.index < |ts| && ts[c.index].Ok? && TypeReport(video, c.stream, c.index, ts[c.index].value) == Some(c)
  }

  /** A type yields report c of stream i at its own index. */
  ghost predicate YieldsAt(video: bool, i: nat, ts: seq<Call<MediaTypeAttrs>>, c: Capability)
  {
    c.stream == i && c.index < |ts| && ts[c.index].Ok? && TypeReport(video, i, c.index, ts[c.index].value) == Some(c)
  }

  lemma {:induction false} TypesReportsSound(video: bool, i: nat, ts: seq<Call<MediaTypeAttrs>>, c: Capability)
    requires c in TypesReports(video, i, ts)
    ensures YieldsAt(video, i, ts, c)
  {
    var j := |ts| - 1;
    if c in TypesReports(video, i, ts[..j]) {
      TypesReportsSound(video, i, ts[..j], c);
      assert ts[..j][c.index] == ts[c.index];
    } else {
      assert ts[j].Ok? && TypeReport(video, i, j, ts[j].value) == Some(c);
    }
  }

  lemma {:induction false} TypesReportsComplete(video: bool, i: nat, ts: seq<Call<MediaTypeAttrs>>, c: Capability)
    requires YieldsAt(video, i, ts, c)
    ensures c in TypesReports(video, i, ts)
  {
    var j := |ts| - 1;
    var last := if ts[j].Ok? then AsSeq(TypeReport(video, i, j, ts[j].value)) else [];
    assert TypesReports(video, i, ts) == TypesReports(video, i, ts[..j]) + last;
    if c.index < j {
      assert ts[..j][c.index] == ts[c.index];
      TypesReportsComplete(video, i, ts[..j], c);
    } else {
      assert last == [c];
    }
  }

  lemma TypesReportsIff(video: bool, i: nat, ts: seq<Call<MediaTypeAttrs>>, c: Capability)
    ensures c in TypesReports(video, i, ts) <==>
      c.stream == i && c.index < |ts| && ts[c.index].Ok? && TypeReport(video, i, c.index, ts[c.index].value) == Some(c)
  {
    if c in TypesReports(video, i, ts) {
      TypesReportsSound(video, i, ts, c);
    }
    if YieldsAt(video, i, ts, c) {
      TypesReportsComplete(video, i, ts, c);
    }
  }

  /**
   * A format is reported exactly when its stream and its type pass every filter;
   * the failure of one stream or one type never hides the report of another.
   */
  lemma {:induction false} ReportedIffReportable(video: bool, ss: seq<Call<StreamDescriptor>>, c: Capability)
    ensures c in StreamsReports(video, ss) <==> Reportable(video, ss, c)
  {
    if ss != [] {
      var i := |ss| - 1;
      var ss' := ss[..i];
      ReportedIffReportable(video, ss', c);
      var ts := StreamTypes(video, ss[i]);
      if ts.Some? {
        TypesReportsIff(video, i, ts.value, c);
      }
      if c.stream < i {
        assert ss'[c.stream] == ss[c.stream];
      }
    }
  }

  /** Every reported format is of the requested kind and has a known subtype. */
  lemma ReportsAreOfRequestedKind(video: bool, ss: seq<Call<StreamDescriptor>>, c: Capability)
    requires c in StreamsReports(video, ss)
    ensures c.stream < |ss| && ss[c.stream].Ok? && ss[c.stream].value.handler.Ok?
    ensures ss[c.stream].value.handler.value.majorType == Ok(DestMajor(video))
    ensures c.subtype != "" && (video <==> c.VideoCap?)
  {
    ReportedIffReportable(video, ss, c);
  }
}
