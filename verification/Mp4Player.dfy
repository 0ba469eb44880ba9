/**
  A player's view of a media segment: boxes that tile the file, and samples found through the track
  runs' data offsets alone (ISO/IEC 14496-12, sections 8.8.4 to 8.8.8). It shares no code with the
  writer; reading a written segment gives back its fragments.
 */
module Mp4Player {
  import opened Bytes
  import opened Mp4

  datatype BoxView = BoxView(tag: bytes, payload: bytes)

  /** The boxes of `d` when they tile it from the first byte to the last. */
  function Boxes(d: bytes): Option<seq<BoxView>>
    decreases |d|
  {
    if d == [] then Some([])
    else if |d| < 8 then None
    else
      var size := Rd32(d[..4]);
      if size < 8 || size > |d| then None
      else
        match Boxes(d[size..])
        case None => None
        case Some(rest) => Some([BoxView(d[4..8], d[8..size])] + rest)
  }

  function Signed(n: nat): int {
    if n < 0x8000_0000 then n else n - TWO_32
  }

  /** The segment type of ISO base media, fifth edition, which a sixth edition reader takes as well. */
  const BRANDS: bytes := Ascii("iso5") + [0, 0, 2, 0] + Ascii("iso5") + Ascii("iso6")

  /** The names that the writer spells in bytes. */
  lemma Names()
    ensures STYP == Ascii("styp") && MOOF == Ascii("moof") && MDAT == Ascii("mdat") && MFHD == Ascii("mfhd")
    ensures TRAF == Ascii("traf") && TFHD == Ascii("tfhd") && TFDT == Ascii("tfdt") && TRUN == Ascii("trun")
  {
  }

  lemma Brands()
    ensures ISO5 + Be32(512) + ISO5 + ISO6 == BRANDS
  {
    assert ISO5 == Ascii("iso5") && ISO6 == Ascii("iso6") && Be32(512) == [0, 0, 2, 0];
  }

  /** `n` entries of a track run, their payloads lying back to back in `media`. */
  function ReadSamples(n: nat, table: bytes, media: bytes): Option<seq<Sample>> {
    if n == 0 then if table == [] then Some([]) else None
    else if |table| < 16 then None
    else
      var size := Rd32(table[4..8]);
      if size > |media| then None
      else
        match ReadSamples(n - 1, table[16..], media[size..])
        case None => None
        case Some(rest) =>
          Some([Sample(Rd32(table[..4]), media[..size], Rd32(table[8..12]), Signed(Rd32(table[12..16])))] + rest)
  }

  /** A track run: `moof` is the file from the start of the moof on, where data offsets count from. */
  function ReadTrun(p: bytes, moof: bytes): Option<seq<Sample>> {
    if |p| < 12 || p[..4] != [1, 0, 0x0F, 0x01] || Rd32(p[8..12]) > |moof| then None
    else ReadSamples(Rd32(p[4..8]), p[12..], moof[Rd32(p[8..12])..])
  }

  function ReadTraf(body: bytes, moof: bytes): Option<Fragment> {
    match Boxes(body)
    case None => None
    case Some(b) =>
      if |b| != 3 || b[0].tag != Ascii("tfhd") || b[1].tag != Ascii("tfdt") || b[2].tag != Ascii("trun") then None
      else if |b[0].payload| != 8 || |b[1].payload| != 12 then None
      else if b[0].payload[..4] != [0, 2, 0, 0] || b[1].payload[..4] != [1, 0, 0, 0] then None
      else
        match ReadTrun(b[2].payload, moof)
        case None => None
        case Some(samples) =>
          var base := Rd32(b[1].payload[4..8]) * TWO_32 + Rd32(b[1].payload[8..]);
          Some(Fragment(Rd32(b[0].payload[4..]), base, samples))
  }

  function ReadTrafs(boxes: seq<BoxView>, moof: bytes): Option<seq<Fragment>> {
    if boxes == [] then Some([])
    else if boxes[0].tag != Ascii("traf") then None
    else
      match (ReadTraf(boxes[0].payload, moof), ReadTrafs(boxes[1..], moof))
      case (Some(f), Some(rest)) => Some([f] + rest)
      case _ => None
  }

  datatype MediaFile = MediaFile(sequence: nat, frags: seq<Fragment>)

  /** Exactly styp, moof and mdat, and inside the moof one mfhd followed by trafs. */
  function Demux(seg: bytes): Option<MediaFile> {
    match Boxes(seg)
    case None => None
    case Some(top) =>
      if |top| != 3 then None
      else if top[0].tag != Ascii("styp") || top[1].tag != Ascii("moof") || top[2].tag != Ascii("mdat") then None
      else if top[0].payload != BRANDS || 8 + |top[0].payload| > |seg| then None
      else
        match Boxes(top[1].payload)
        case None => None
        case Some(b) =>
          if b == [] || b[0].tag != Ascii("mfhd") || |b[0].payload| != 8 then None
          else
            match ReadTrafs(b[1..], seg[8 + |top[0].payload|..])
            case None => None
            case Some(frags) => Some(MediaFile(Rd32(b[0].payload[4..]), frags))
  }

  // ---------------------------------------------------------------------------------
  // Values that fit their fields
  // ---------------------------------------------------------------------------------

  predicate SampleFits(s: Sample) {
    s.duration < TWO_32 && |s.payload| < TWO_32 && s.flags < TWO_32 && -0x8000_0000 <= s.offset < 0x8000_0000
  }

  predicate SamplesFit(samples: seq<Sample>) {
    forall s :: s in samples ==> SampleFits(s)
  }

  predicate FragmentsFit(frags: seq<Fragment>) {
    forall f :: f in frags ==> f.trackId < TWO_32 && f.baseTime < TWO_32 * TWO_32 && SamplesFit(f.samples)
  }

  predicate Fits(sequence: nat, frags: seq<Fragment>) {
    && sequence < TWO_32
    && FragmentsFit(frags)
    && MoofLen(frags) + 8 + |AllPayloads(frags)| < TWO_32
  }

  // ---------------------------------------------------------------------------------
  // Reading back what was written
  // ---------------------------------------------------------------------------------

  lemma BoxesCons(tag: bytes, payload: bytes, rest: bytes)
    requires |tag| == 4 && 8 + |payload| < TWO_32 && Boxes(rest).Some?
    ensures Boxes(Box(tag, payload) + rest) == Some([BoxView(tag, payload)] + Boxes(rest).value)
  {
    hide Be32, Rd32;
    var d := Box(tag, payload) + rest;
    Rd32Be32(8 + |payload|);
    assert d == Be32(8 + |payload|) + (tag + payload + rest);
    assert d[..4] == Be32(8 + |payload|);
    assert d[4..8] == tag;
    assert d[8..8 + |payload|] == payload;
    assert d[8 + |payload|..] == rest;
  }

  lemma FourFields(a: bytes, b: bytes, c: bytes, d: bytes, rest: bytes)
    requires |a| == |b| == |c| == |d| == 4
    ensures var t := a + b + c + d + rest;
      t[..4] == a && t[4..8] == b && t[8..12] == c && t[12..16] == d && t[16..] == rest
  {
  }

  lemma EntryFields(s: Sample, rest: bytes)
    requires SampleFits(s)
    ensures var t := SampleEntry(s) + rest;
      && |t| >= 16 && Rd32(t[..4]) == s.duration && Rd32(t[4..8]) == |s.payload| && Rd32(t[8..12]) == s.flags
      && Signed(Rd32(t[12..16])) == s.offset && t[16..] == rest
  {
    hide Be32, Rd32;
    Rd32Be32(s.duration);
    Rd32Be32(|s.payload|);
    Rd32Be32(s.flags);
    Rd32Be32(s.offset % TWO_32);
    FourFields(Be32(s.duration), Be32(|s.payload|), Be32(s.flags), Be32(s.offset % TWO_32), rest);
  }

  lemma HeadSample(samples: seq<Sample>)
    requires samples != [] && SamplesFit(samples)
    ensures SampleFits(samples[0]) && SamplesFit(samples[1..])
    ensures SampleEntries(samples) == SampleEntry(samples[0]) + SampleEntries(samples[1..])
    ensures Payloads(samples) == samples[0].payload + Payloads(samples[1..])
    ensures samples == [samples[0]] + samples[1..]
  {
  }

  lemma {:induction false} SamplesRead(samples: seq<Sample>, rest: bytes)
    requires SamplesFit(samples)
    ensures ReadSamples(|samples|, SampleEntries(samples), Payloads(samples) + rest) == Some(samples)
  {
    hide SampleEntry, Rd32, Signed, SampleFits, SamplesFit;
    if samples != [] {
      hide SampleEntries, Payloads;
      var s, more := samples[0], samples[1..];
      HeadSample(samples);
      EntryFields(s, SampleEntries(more));
      var media := Payloads(samples) + rest;
      assert media == s.payload + (Payloads(more) + rest);
      assert media[..|s.payload|] == s.payload;
      assert media[|s.payload|..] == Payloads(more) + rest;
      SamplesRead(more, rest);
    }
  }

  lemma TrunRead(f: Fragment, at: nat, moof: bytes, rest: bytes)
    requires SamplesFit(f.samples) && |f.samples| < TWO_32 && at < TWO_32
    requires at <= |moof| && moof[at..] == Payloads(f.samples) + rest
    ensures ReadTrun([1] + Be24(TRUN_FLAGS) + (Be32(|f.samples|) + Be32(at) + SampleEntries(f.samples)), moof)
         == Some(f.samples)
  {
    hide Be32, Be24, Rd32, ReadSamples, SampleEntries, SamplesFit;
    var p := [1] + Be24(TRUN_FLAGS) + (Be32(|f.samples|) + Be32(at) + SampleEntries(f.samples));
    Rd32Be32(|f.samples|);
    Rd32Be32(at);
    SamplesRead(f.samples, rest);
    assert p[..4] == [1] + Be24(TRUN_FLAGS) == [1, 0, 0x0F, 0x01] by { RunFlags(); }
    assert p[4..8] == Be32(|f.samples|);
    assert p[8..12] == Be32(at);
    assert p[12..] == SampleEntries(f.samples);
  }

  /** Data offset, duration, size, flags and composition offset; offsets count from the moof. */
  lemma RunFlags()
    ensures Be24(TRUN_FLAGS) == [0, 0x0F, 0x01] && Be24(TFHD_FLAGS) == [2, 0, 0] && Be24(0) == [0, 0, 0]
  {
  }

  function TfhdView(f: Fragment): BoxView {
    BoxView(TFHD, [0] + Be24(TFHD_FLAGS) + Be32(f.trackId))
  }

  function TfdtView(f: Fragment): BoxView {
    BoxView(TFDT, [1] + Be24(0) + Be64(f.baseTime))
  }

  function TrunView(f: Fragment, at: nat): BoxView {
    BoxView(TRUN, [1] + Be24(TRUN_FLAGS) + (Be32(|f.samples|) + Be32(at) + SampleEntries(f.samples)))
  }

  function TrafBody(f: Fragment, at: nat): bytes {
    TfhdBox(f) + TfdtBox(f) + TrunBox(f, at)
  }

  lemma TrafBoxes(f: Fragment, at: nat)
    requires 64 + 16 * |f.samples| < TWO_32
    ensures Boxes(TrafBody(f, at)) == Some([TfhdView(f), TfdtView(f), TrunView(f, at)])
  {
    hide Boxes, Be32, Be24, Be64, SampleEntries;
    NoBoxes();
    BoxesCons(TRUN, TrunView(f, at).payload, []);
    assert TrunBox(f, at) + [] == TrunBox(f, at);
    BoxesCons(TFDT, TfdtView(f).payload, TrunBox(f, at));
    BoxesCons(TFHD, TfhdView(f).payload, TfdtBox(f) + TrunBox(f, at));
    assert TrafBody(f, at) == TfhdBox(f) + (TfdtBox(f) + TrunBox(f, at));
    assert [TfhdView(f)] + ([TfdtView(f)] + ([TrunView(f, at)] + [])) == [TfhdView(f), TfdtView(f), TrunView(f, at)];
  }

  lemma NoBoxes()
    ensures Boxes([]) == Some([])
  {
  }

  lemma FieldsRead(f: Fragment)
    requires f.trackId < TWO_32 && f.baseTime < TWO_32 * TWO_32
    ensures TfhdView(f).payload[..4] == [0, 2, 0, 0] && TfdtView(f).payload[..4] == [1, 0, 0, 0]
    ensures Rd32(TfhdView(f).payload[4..]) == f.trackId
    ensures Rd32(TfdtView(f).payload[4..8]) * TWO_32 + Rd32(TfdtView(f).payload[8..]) == f.baseTime
  {
    hide Be32, Be24, Rd32;
    RunFlags();
    Rd32Be32(f.trackId);
    assert TfhdView(f).payload[4..] == Be32(f.trackId);
    var hi, lo := f.baseTime / TWO_32, f.baseTime % TWO_32;
    Rd32Be32(hi);
    Rd32Be32(lo);
    assert f.baseTime == hi * TWO_32 + lo && hi < TWO_32;
    assert TfdtView(f).payload[4..8] == Be32(hi);
    assert TfdtView(f).payload[8..] == Be32(lo);
  }

  lemma TrafRead(f: Fragment, at: nat, moof: bytes, rest: bytes)
    requires f.trackId < TWO_32 && f.baseTime < TWO_32 * TWO_32 && SamplesFit(f.samples)
    requires 64 + 16 * |f.samples| < TWO_32 && at < TWO_32
    requires at <= |moof| && moof[at..] == Payloads(f.samples) + rest
    ensures ReadTraf(TrafBody(f, at), moof) == Some(f)
  {
    hide Boxes, Be32, Be24, Be64, Rd32, SampleEntries, SamplesFit, ReadTrun, TrafBody, Payloads, Ascii;
    Names();
    TrafBoxes(f, at);
    FieldsRead(f);
    TrunRead(f, at, moof, rest);
  }

  function TrafViews(frags: seq<Fragment>, at: nat): seq<BoxView> {
    if frags == [] then []
    else [BoxView(TRAF, TrafBody(frags[0], at))] + TrafViews(frags[1..], at + |Payloads(frags[0].samples)|)
  }

  lemma {:induction false} TrafsTile(frags: seq<Fragment>, at: nat)
    requires |BlankTrafs(frags)| < TWO_32
    ensures Boxes(Trafs(frags, at)) == Some(TrafViews(frags, at))
  {
    hide Boxes, TrafBody, TfhdBox, TfdtBox, TrunBox, Payloads;
    NoBoxes();
    if frags == [] {
    } else {
      TrafLength(frags[0], 0);
      TrafLength(frags[0], at);
      var next := at + |Payloads(frags[0].samples)|;
      TrafsTile(frags[1..], next);
      TrafIsBox(frags[0], at);
      BoxesCons(TRAF, TrafBody(frags[0], at), Trafs(frags[1..], next));
    }
  }

  lemma TrafIsBox(f: Fragment, at: nat)
    ensures TrafBox(f, at) == Box(TRAF, TrafBody(f, at)) && |TrafBody(f, at)| == 56 + 16 * |f.samples|
  {
    TrafLength(f, at);
  }

  lemma HeadFragment(frags: seq<Fragment>)
    requires frags != [] && FragmentsFit(frags)
    ensures var f := frags[0];
      && f.trackId < TWO_32 && f.baseTime < TWO_32 * TWO_32 && SamplesFit(f.samples) && FragmentsFit(frags[1..])
      && |BlankTrafs(frags)| == 64 + 16 * |f.samples| + |BlankTrafs(frags[1..])|
      && AllPayloads(frags) == Payloads(f.samples) + AllPayloads(frags[1..])
      && frags == [f] + frags[1..]
  {
    hide Payloads, SamplesFit, TrafBox;
    TrafLength(frags[0], 0);
  }

  lemma {:induction false} TrafsRead(frags: seq<Fragment>, at: nat, moof: bytes)
    requires FragmentsFit(frags) && |BlankTrafs(frags)| < TWO_32
    requires at + |AllPayloads(frags)| == |moof| < TWO_32 && moof[at..] == AllPayloads(frags)
    ensures ReadTrafs(TrafViews(frags, at), moof) == Some(frags)
  {
    hide ReadTraf, TrafBody, Payloads, SamplesFit, FragmentsFit, Ascii, BlankTrafs, AllPayloads;
    Names();
    if frags != [] {
      var f, more := frags[0], frags[1..];
      HeadFragment(frags);
      TrafRead(f, at, moof, AllPayloads(more));
      Cut(moof, at, Payloads(f.samples), AllPayloads(more));
      TrafsRead(more, at + |Payloads(f.samples)|, moof);
      assert TrafViews(frags, at)[1..] == TrafViews(more, at + |Payloads(f.samples)|);
    }
  }

  /** The boxes tile the segment: styp, moof and mdat with no byte left over, and likewise inside the moof. */
  lemma SegmentTiles(sequence: nat, frags: seq<Fragment>)
    requires Fits(sequence, frags)
    ensures var moof := MfhdBox(sequence) + Trafs(frags, MoofLen(frags) + 8);
      && Boxes(Segment(sequence, frags)) == Some([BoxView(Ascii("styp"), BRANDS), BoxView(Ascii("moof"), moof),
                                                  BoxView(Ascii("mdat"), AllPayloads(frags))])
      && Boxes(moof) ==
         Some([BoxView(Ascii("mfhd"), [0] + Be24(0) + Be32(sequence))] + TrafViews(frags, MoofLen(frags) + 8))
      && 8 + |moof| == MoofLen(frags)
  {
    hide Boxes, Be32, Be24, Trafs, BlankTrafs, AllPayloads, FragmentsFit, Ascii;
    Names();
    Brands();
    var at := MoofLen(frags) + 8;
    TrafsLength(frags, at);
    TrafsTile(frags, at);
    BoxesCons(MFHD, [0] + Be24(0) + Be32(sequence), Trafs(frags, at));
    NoBoxes();
    var mdat := Box(MDAT, AllPayloads(frags));
    assert mdat + [] == mdat;
    BoxesCons(MDAT, AllPayloads(frags), []);
    BoxesCons(MOOF, MfhdBox(sequence) + Trafs(frags, at), mdat);
    BoxesCons(STYP, ISO5 + Be32(512) + ISO5 + ISO6, MoofBox(sequence, frags, at) + mdat);
    assert Segment(sequence, frags) == StypBox() + (MoofBox(sequence, frags, at) + mdat);
    var styp, view := BoxView(STYP, ISO5 + Be32(512) + ISO5 + ISO6), BoxView(MDAT, AllPayloads(frags));
    var moof := BoxView(MOOF, MfhdBox(sequence) + Trafs(frags, at));
    assert [styp] + ([moof] + ([view] + [])) == [styp, moof, view];
  }

  /** At moof start plus the first data offset the file holds all payloads, to its last byte. */
  lemma MediaPlace(sequence: nat, frags: seq<Fragment>)
    requires Fits(sequence, frags)
    ensures |Segment(sequence, frags)| >= 24
    ensures var moof := Segment(sequence, frags)[24..];
      && |moof| == MoofLen(frags) + 8 + |AllPayloads(frags)|
      && moof[MoofLen(frags) + 8..] == AllPayloads(frags)
  {
    hide Be32, Trafs, BlankTrafs, AllPayloads, FragmentsFit, MfhdBox;
    var at := MoofLen(frags) + 8;
    TrafsLength(frags, at);
    MoofShape(sequence, frags, at);
    var front := StypBox() + MoofBox(sequence, frags, at) + (Be32(8 + |AllPayloads(frags)|) + MDAT);
    assert |StypBox()| == 24 && |front| == 24 + at;
    assert Segment(sequence, frags) == front + AllPayloads(frags);
    assert Segment(sequence, frags)[24..][at..] == (front + AllPayloads(frags))[|front|..];
  }

  /** A player that trusts only box sizes and data offsets recovers every fragment of a written segment. */
  lemma SegmentRoundTrip(sequence: nat, frags: seq<Fragment>)
    requires Fits(sequence, frags)
    ensures Demux(Segment(sequence, frags)) == Some(MediaFile(sequence, frags))
  {
    hide Boxes, Be32, Be24, Rd32, Trafs, BlankTrafs, AllPayloads, FragmentsFit, Segment, TrafViews, ReadTrafs,
         MfhdBox, Ascii;
    Names();
    Brands();
    var at := MoofLen(frags) + 8;
    SegmentTiles(sequence, frags);
    MediaPlace(sequence, frags);
    TrafsRead(frags, at, Segment(sequence, frags)[24..]);
    var mfhd := BoxView(MFHD, [0] + Be24(0) + Be32(sequence));
    assert ([mfhd] + TrafViews(frags, at))[1..] == TrafViews(frags, at);
    Rd32Be32(sequence);
    assert mfhd.payload[4..] == Be32(sequence);
  }

  /** The same of the writer itself. */
  method WriteAndRead(sequence: nat, frags: seq<Fragment>) returns (seg: bytes)
    requires Fits(sequence, frags)
    ensures Demux(seg) == Some(MediaFile(sequence, frags))
  {
    seg := MediaSegment(sequence, frags);
    SegmentRoundTrip(sequence, frags);
  }
}
