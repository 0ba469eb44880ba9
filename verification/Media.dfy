/** Media packets, and the audio and parameter-set headers the muxer looks for inside them. */
module Media {
  import opened Bytes
  import H264

  datatype MediaKind = Video | Audio

  /** One unit of compressed media; times are in milliseconds. */
  datatype MediaPacket = MediaPacket(kind: MediaKind, pts: int, dts: int, isKey: bool, data: bytes)

  predicate IsKeyframe(p: MediaPacket) {
    p.kind == Video && p.isKey
  }

  // ADTS-wrapped audio

  datatype AdtsHeader = AdtsHeader(objectType: nat, frequencyIndex: nat, channels: nat, headerLength: nat)

  function ParseAdts(d: bytes): (h: Option<AdtsHeader>)
    ensures h.Some? ==> h.value.headerLength <= |d|
  {
    if |d| < 7 || d[0] != 0xFF || d[1] < 0xF0 then None
    else
      var headerLength := if d[1] % 2 == 1 then 7 else 9;
      if |d| < headerLength then None
      else Some(AdtsHeader(d[2] / 64 + 1, d[2] / 4 % 16, d[2] % 2 * 4 + d[3] / 64, headerLength))
  }

  /** The raw frame inside an ADTS wrapper, or the data itself when there is none. */
  function StripAdts(d: bytes): bytes {
    match ParseAdts(d)
    case None => d
    case Some(h) => d[h.headerLength..]
  }

  function BuildAsc(h: AdtsHeader): bytes {
    [(h.objectType - 1) % 32 * 8 + h.frequencyIndex / 2 % 8, h.frequencyIndex % 2 * 128 + h.channels % 16 * 8]
  }

  function AdtsToAsc(d: bytes): Option<bytes> {
    match ParseAdts(d)
    case None => None
    case Some(h) => Some(BuildAsc(h))
  }

  // Parameter sets inside a video packet

  const NAL_SPS := 7
  const NAL_PPS := 8

  function NalType(nal: bytes): nat
    requires nal != []
  {
    nal[0] % 32
  }

  /** The first point at which both parameter sets have been seen, the latest of each kind. */
  function FindSets(nals: seq<bytes>, sps: Option<bytes>, pps: Option<bytes>): Option<(bytes, bytes)> {
    if sps.Some? && pps.Some? then Some((sps.value, pps.value))
    else if nals == [] then None
    else if nals[0] == [] then FindSets(nals[1..], sps, pps)
    else if NalType(nals[0]) == NAL_SPS then FindSets(nals[1..], Some(nals[0]), pps)
    else if NalType(nals[0]) == NAL_PPS then FindSets(nals[1..], sps, Some(nals[0]))
    else FindSets(nals[1..], sps, pps)
  }

  function BuildAvcc(sps: bytes, pps: bytes): bytes {
    [1,
     if |sps| > 1 then sps[1] else 0x64,
     if |sps| > 2 then sps[2] else 0,
     if |sps| > 3 then sps[3] else 0x1F,
     0xFF, 0xE1]
    + Be16(|sps|) + sps + [1] + Be16(|pps|) + pps
  }

  function AnnexBToAvcc(d: bytes): Option<bytes> {
    match FindSets(H264.Nals(d), None, None)
    case None => None
    case Some((sps, pps)) => Some(BuildAvcc(sps, pps))
  }

  // ---------------------------------------------------------------------------------
  // Reading the decoder configuration record back
  // ---------------------------------------------------------------------------------

  /** The first of `count` length-prefixed sets from `pos` on, and the position after them all. */
  function ReadSets(d: bytes, pos: nat, count: nat, first: Option<bytes>): Option<(Option<bytes>, nat)>
    requires pos <= |d|
    decreases count
  {
    if count == 0 then Some((first, pos))
    else if |d| < pos + 2 then None
    else
      var len := Rd16(d[pos..pos + 2]);
      if |d| < pos + 2 + len then None
      else
        var set0 := d[pos + 2..pos + 2 + len];
        ReadSets(d, pos + 2 + len, count - 1, if first.None? then Some(set0) else first)
  }

  lemma {:induction false} ReadSetsInside(d: bytes, pos: nat, count: nat, first: Option<bytes>)
    requires pos <= |d| && ReadSets(d, pos, count, first).Some?
    requires first.Some? ==> |first.value| < TWO_16
    ensures var r := ReadSets(d, pos, count, first).value;
            r.1 <= |d| && (r.0.Some? ==> |r.0.value| < TWO_16)
    decreases count
  {
    if count > 0 {
      var len := Rd16(d[pos..pos + 2]);
      var set0 := d[pos + 2..pos + 2 + len];
      ReadSetsInside(d, pos + 2 + len, count - 1, if first.None? then Some(set0) else first);
    }
  }

  function SetsOf(d: bytes): Option<(bytes, bytes)> {
    if |d| < 7 || d[0] != 1 then None
    else
      var sps := ReadSets(d, 6, d[5] % 32, None);
      if sps.None? then None
      else
        ReadSetsInside(d, 6, d[5] % 32, None);
        var pos := sps.value.1;
        if pos == |d| then None
        else
          var pps := ReadSets(d, pos + 1, d[pos], None);
          if pps.None? || sps.value.0.None? || pps.value.0.None? then None
          else Some((sps.value.0.value, pps.value.0.value))
  }

  /** Parameter sets as a record lists them. */
  function SetList(sets: seq<bytes>): bytes {
    if sets == [] then [] else Be16(|sets[0]|) + sets[0] + SetList(sets[1..])
  }

  predicate Listable(sets: seq<bytes>) {
    forall i :: 0 <= i < |sets| ==> |sets[i]| < TWO_16
  }

  lemma {:induction false} ListRead(d: bytes, pos: nat, sets: seq<bytes>, tail: bytes, first: Option<bytes>)
    requires pos <= |d| && d[pos..] == SetList(sets) + tail && Listable(sets)
    ensures ReadSets(d, pos, |sets|, first) ==
      Some((if first.Some? || sets == [] then first else Some(sets[0]), pos + |SetList(sets)|))
    decreases |sets|
  {
    hide Be16, Rd16;
    if sets != [] {
      var len, more := |sets[0]|, SetList(sets[1..]) + tail;
      Rd16Be16(len);
      assert d[pos..] == Be16(len) + (sets[0] + more);
      Cut(d, pos, Be16(len), sets[0] + more);
      Cut(d, pos + 2, sets[0], more);
      ListRead(d, pos + 2 + len, sets[1..], tail, if first.None? then Some(sets[0]) else first);
    }
  }

  lemma SecondList(d: bytes, pos: nat, pps: seq<bytes>, tail: bytes)
    requires pos <= |d| && d[pos..] == [|pps|] + (SetList(pps) + tail) && |pps| < 256 && Listable(pps)
    ensures pos < |d| && d[pos] == |pps|
    ensures ReadSets(d, pos + 1, |pps|, None).Some?
    ensures ReadSets(d, pos + 1, |pps|, None).value.0 == if pps == [] then None else Some(pps[0])
  {
    hide ReadSets, SetList;
    Cut(d, pos, [|pps|], SetList(pps) + tail);
    assert d[pos] == d[pos..][0];
    ListRead(d, pos + 1, pps, tail, None);
  }

  lemma ListsRead(d: bytes, sps: seq<bytes>, pps: seq<bytes>, tail: bytes)
    requires |d| >= 7 && d[0] == 1 && d[5] % 32 == |sps| && |pps| < 256 && Listable(sps) && Listable(pps)
    requires d[6..] == SetList(sps) + ([|pps|] + (SetList(pps) + tail))
    ensures SetsOf(d) == if sps == [] || pps == [] then None else Some((sps[0], pps[0]))
  {
    hide ReadSets, SetList;
    var later := [|pps|] + (SetList(pps) + tail);
    ListRead(d, 6, sps, later, None);
    Cut(d, 6, SetList(sps), later);
    SecondList(d, 6 + |SetList(sps)|, pps, tail);
  }

  /** A record of any number of sets gives the first of each kind, or nothing without one. */
  lemma RecordOfMany(head: bytes, sps: seq<bytes>, pps: seq<bytes>, tail: bytes)
    requires |head| == 6 && head[0] == 1 && head[5] % 32 == |sps| && |pps| < 256 && Listable(sps) && Listable(pps)
    ensures SetsOf(head + (SetList(sps) + ([|pps|] + (SetList(pps) + tail)))) ==
      if sps == [] || pps == [] then None else Some((sps[0], pps[0]))
  {
    hide SetsOf, SetList, Listable;
    var lists := SetList(sps) + ([|pps|] + (SetList(pps) + tail));
    var d := head + lists;
    assert d[6..] == lists;
    ListsRead(d, sps, pps, tail);
  }

  /** The loop that reads the sets of one kind, keeping the first. */
  method ReadSetLoop(d: bytes, start: nat, count: nat) returns (r: Option<(Option<bytes>, nat)>)
    requires start <= |d|
    ensures r == ReadSets(d, start, count, None)
  {
    var pos: nat := start;
    var first: Option<bytes> := None;
    for i := 0 to count
      invariant pos <= |d|
      invariant ReadSets(d, start, count, None) == ReadSets(d, pos, count - i, first)
    {
      if |d| < pos + 2 {
        return None;
      }
      var len := Rd16(d[pos..pos + 2]);
      pos := pos + 2;
      if |d| < pos + len {
        return None;
      }
      if first.None? {
        first := Some(d[pos..pos + len]);
      }
      pos := pos + len;
    }
    return Some((first, pos));
  }

  /** Extracts the first SPS and PPS of a configuration record. */
  method ExtractSets(avcc: bytes) returns (r: Option<(bytes, bytes)>)
    ensures r == SetsOf(avcc)
  {
    if |avcc| < 7 || avcc[0] != 1 {
      return None;
    }
    var sps := ReadSetLoop(avcc, 6, avcc[5] % 32);
    if sps.None? {
      return None;
    }
    ReadSetsInside(avcc, 6, avcc[5] % 32, None);
    var pos := sps.value.1;
    if pos >= |avcc| {
      return None;
    }
    var pps := ReadSetLoop(avcc, pos + 1, avcc[pos]);
    if pps.None? || sps.value.0.None? || pps.value.0.None? {
      return None;
    }
    return Some((sps.value.0.value, pps.value.0.value));
  }

  lemma ReadOneSet(d: bytes, pos: nat, set0: bytes, tail: bytes)
    requires pos <= |d| && |set0| < TWO_16
    requires d[pos..] == Be16(|set0|) + (set0 + tail)
    ensures ReadSets(d, pos, 1, None) == Some((Some(set0), pos + 2 + |set0|))
    ensures pos + 2 + |set0| <= |d| && d[pos + 2 + |set0|..] == tail
  {
    Cut(d, pos, Be16(|set0|), set0 + tail);
    Cut(d, pos + 2, set0, tail);
    Rd16Be16(|set0|);
  }

  /** A built record yields its parameter sets exactly when their lengths fit 16 bits. */
  lemma AvccRoundTrip(sps: bytes, pps: bytes)
    ensures SetsOf(BuildAvcc(sps, pps)) == Some((sps, pps)) <==> |sps| < TWO_16 && |pps| < TWO_16
  {
    var d := BuildAvcc(sps, pps);
    assert d[5] == 0xE1 && 0xE1 % 32 == 1;
    if |sps| < TWO_16 && |pps| < TWO_16 {
      var tail := [1] + Be16(|pps|) + pps;
      assert d[6..] == Be16(|sps|) + (sps + tail);
      ReadOneSet(d, 6, sps, tail);
      var pos := 8 + |sps|;
      assert d[pos] == d[pos..][0] == 1;
      assert d[pos + 1..] == d[pos..][1..] == Be16(|pps|) + (pps + []);
      ReadOneSet(d, pos + 1, pps, []);
    } else if SetsOf(d).Some? {
      ReadSetsInside(d, 6, 1, None);
      var pos := ReadSets(d, 6, 1, None).value.1;
      ReadSetsInside(d, pos + 1, d[pos], None);
    }
  }

  // ---------------------------------------------------------------------------------
  // What the headers mean
  // ---------------------------------------------------------------------------------

  /** The fields of an ADTS header that matter here, as numbers; the other bits are free. */
  datatype AdtsFields = AdtsFields(profile: nat, frequencyIndex: nat, channels: nat, crc: bool)

  predicate AdtsInRange(f: AdtsFields) {
    f.profile < 4 && f.frequencyIndex < 16 && f.channels < 8
  }

  /** Twelve sync bits, then bit by bit; two bytes of checksum follow when there is one. */
  function AdtsFrame(f: AdtsFields, layer: nat, private: nat, low: nat, rest: bytes, raw: bytes): bytes
    requires AdtsInRange(f) && layer < 8 && private < 2 && low < 64 && |rest| == if f.crc then 5 else 3
  {
    [0xFF, 0xF0 + layer * 2 + (if f.crc then 0 else 1),
     f.profile * 64 + f.frequencyIndex * 4 + private * 2 + f.channels / 4, f.channels % 4 * 64 + low] + rest + raw
  }

  /** The fields come out of their bits. */
  lemma ProfileBits(profile: nat, index: nat, private: nat, top: nat)
    requires profile < 4 && index < 16 && private < 2 && top < 2
    ensures var b := profile * 64 + index * 4 + private * 2 + top;
      b / 64 == profile && b / 4 % 16 == index && b % 2 == top
  {
    var b := profile * 64 + index * 4 + private * 2 + top;
    assert b / 4 == profile * 16 + index;
  }

  lemma SmallBits(layer: nat, absent: nat, low: nat, channels: nat)
    requires layer < 8 && absent < 2 && low < 64 && channels < 8
    ensures (0xF0 + layer * 2 + absent) % 2 == absent
    ensures (channels % 4 * 64 + low) / 64 == channels % 4
  {
  }

  lemma AscBits(h: AdtsHeader)
    requires 1 <= h.objectType <= 4 && h.frequencyIndex < 16 && h.channels < 8
    ensures var asc := BuildAsc(h);
      && asc[0] / 8 == h.objectType - 1
      && asc[0] % 8 * 2 + asc[1] / 128 == h.frequencyIndex && asc[1] / 8 % 16 == h.channels
  {
  }

  /** A wrapped frame is unwrapped, and its configuration has the frame's fields: 5, 4 and 4 bits of them. */
  lemma AdtsRoundTrip(f: AdtsFields, layer: nat, private: nat, low: nat, rest: bytes, raw: bytes)
    requires AdtsInRange(f) && layer < 8 && private < 2 && low < 64 && |rest| == if f.crc then 5 else 3
    ensures var d := AdtsFrame(f, layer, private, low, rest, raw);
      && StripAdts(d) == raw
      && AdtsToAsc(d).Some?
      && var asc := AdtsToAsc(d).value;
         && |asc| == 2 && asc[0] / 8 == f.profile
         && asc[0] % 8 * 2 + asc[1] / 128 == f.frequencyIndex && asc[1] / 8 % 16 == f.channels
  {
    hide BuildAsc;
    var d := AdtsFrame(f, layer, private, low, rest, raw);
    AdtsParsed(f, layer, private, low, rest, raw);
    assert d[4 + |rest|..] == raw;
    AscBits(ParseAdts(d).value);
    AscLength(ParseAdts(d).value);
  }

  lemma AscLength(h: AdtsHeader)
    ensures |BuildAsc(h)| == 2
  {
  }

  lemma AdtsParsed(f: AdtsFields, layer: nat, private: nat, low: nat, rest: bytes, raw: bytes)
    requires AdtsInRange(f) && layer < 8 && private < 2 && low < 64 && |rest| == if f.crc then 5 else 3
    ensures ParseAdts(AdtsFrame(f, layer, private, low, rest, raw)) ==
      Some(AdtsHeader(f.profile + 1, f.frequencyIndex, f.channels, 4 + |rest|))
  {
    ProfileBits(f.profile, f.frequencyIndex, private, f.channels / 4);
    SmallBits(layer, if f.crc then 0 else 1, low, f.channels);
  }

  /** Without the twelve sync bits, or too short for a header, data is taken as it is and configures nothing. */
  lemma NotAdts(d: bytes)
    requires |d| < 7 || d[0] != 0xFF || d[1] / 16 != 0xF
    ensures StripAdts(d) == d && AdtsToAsc(d).None?
  {
  }

  predicate IsSet(nal: bytes, kind: nat) {
    nal != [] && NalType(nal) == kind
  }

  ghost predicate HasSet(nals: seq<bytes>, kind: nat) {
    exists k :: 0 <= k < |nals| && IsSet(nals[k], kind)
  }

  /** The last unit of a kind in a list that has one. */
  ghost predicate LastSet(nals: seq<bytes>, kind: nat, set0: bytes) {
    exists k :: 0 <= k < |nals| && IsSet(nals[k], kind) && nals[k] == set0
                && forall j :: k < j < |nals| ==> !IsSet(nals[j], kind)
  }

  /** Where the search for parameter sets stops: the shortest list of leading units that has both kinds. */
  ghost predicate FirstWithBoth(nals: seq<bytes>, n: nat) {
    && n <= |nals| && HasSet(nals[..n], NAL_SPS) && HasSet(nals[..n], NAL_PPS)
    && (n > 0 ==> !(HasSet(nals[..n - 1], NAL_SPS) && HasSet(nals[..n - 1], NAL_PPS)))
  }

  /** What the search holds of a kind after some units. */
  ghost predicate Holds(seen: seq<bytes>, kind: nat, held: Option<bytes>) {
    if held.Some? then LastSet(seen, kind, held.value) else !HasSet(seen, kind)
  }

  lemma HoldsNext(seen: seq<bytes>, nal: bytes, kind: nat, held: Option<bytes>)
    requires Holds(seen, kind, held)
    ensures Holds(seen + [nal], kind, if IsSet(nal, kind) then Some(nal) else held)
  {
    hide NalType;
    var all := seen + [nal];
    assert forall k :: 0 <= k < |seen| ==> all[k] == seen[k];
    assert all[|seen|] == nal;
    if !IsSet(nal, kind) {
      if held.Some? {
        var k :| 0 <= k < |seen| && IsSet(seen[k], kind) && seen[k] == held.value
                 && forall j :: k < j < |seen| ==> !IsSet(seen[j], kind);
        assert all[k] == held.value;
      }
    }
  }

  lemma LastIsOne(nals: seq<bytes>, kind: nat, held: Option<bytes>)
    requires Holds(nals, kind, held)
    ensures HasSet(nals, kind) <==> held.Some?
  {
  }

  lemma {:induction false} FindSetsFrom(seen: seq<bytes>, nals: seq<bytes>, sps: Option<bytes>, pps: Option<bytes>)
    requires Holds(seen, NAL_SPS, sps) && Holds(seen, NAL_PPS, pps)
    requires seen != [] ==> !(HasSet(seen[..|seen| - 1], NAL_SPS) && HasSet(seen[..|seen| - 1], NAL_PPS))
    ensures match FindSets(nals, sps, pps)
            case None => !HasSet(seen + nals, NAL_SPS) || !HasSet(seen + nals, NAL_PPS)
            case Some((a, b)) =>
              exists n: nat :: |seen| <= n && FirstWithBoth(seen + nals, n)
                          && LastSet((seen + nals)[..n], NAL_SPS, a) && LastSet((seen + nals)[..n], NAL_PPS, b)
    decreases |nals|
  {
    hide NalType, HasSet, LastSet, Holds;
    var all := seen + nals;
    LastIsOne(seen, NAL_SPS, sps);
    LastIsOne(seen, NAL_PPS, pps);
    if sps.Some? && pps.Some? {
      BothHeld(seen, nals, sps, pps);
    } else if nals == [] {
      assert all == seen;
    } else {
      var nal, next := nals[0], seen + [nals[0]];
      assert next + nals[1..] == all && next[..|next| - 1] == seen;
      HoldsNext(seen, nal, NAL_SPS, sps);
      HoldsNext(seen, nal, NAL_PPS, pps);
      FindSetsFrom(next, nals[1..], if IsSet(nal, NAL_SPS) then Some(nal) else sps,
                   if IsSet(nal, NAL_PPS) then Some(nal) else pps);
    }
  }

  lemma BothHeld(seen: seq<bytes>, nals: seq<bytes>, sps: Option<bytes>, pps: Option<bytes>)
    requires Holds(seen, NAL_SPS, sps) && Holds(seen, NAL_PPS, pps) && sps.Some? && pps.Some?
    requires HasSet(seen, NAL_SPS) && HasSet(seen, NAL_PPS)
    requires seen != [] ==> !(HasSet(seen[..|seen| - 1], NAL_SPS) && HasSet(seen[..|seen| - 1], NAL_PPS))
    ensures var all := seen + nals;
      && FirstWithBoth(all, |seen|)
      && LastSet(all[..|seen|], NAL_SPS, sps.value) && LastSet(all[..|seen|], NAL_PPS, pps.value)
  {
    hide NalType, HasSet, LastSet;
    var all := seen + nals;
    assert all[..|seen|] == seen;
    if seen != [] {
      assert all[..|seen| - 1] == seen[..|seen| - 1];
    }
  }

  /**
    The configuration a keyframe brings: there is one exactly when its units have parameter sets of both
    kinds, and it is built from the latest of each among the first units that do.
   */
  lemma ConfigFromUnits(d: bytes)
    ensures var nals := H264.Nals(d);
      AnnexBToAvcc(d).Some? <==> HasSet(nals, NAL_SPS) && HasSet(nals, NAL_PPS)
    ensures AnnexBToAvcc(d).Some? ==>
      exists n: nat, sps, pps ::
        && FirstWithBoth(H264.Nals(d), n) && LastSet(H264.Nals(d)[..n], NAL_SPS, sps)
        && LastSet(H264.Nals(d)[..n], NAL_PPS, pps) && AnnexBToAvcc(d) == Some(BuildAvcc(sps, pps))
  {
    hide H264.Nals, BuildAvcc, LastSet;
    var nals := H264.Nals(d);
    NothingHeld();
    FindSetsFrom([], nals, None, None);
    assert [] + nals == nals;
    if FindSets(nals, None, None).Some? {
      var (sps, pps) := FindSets(nals, None, None).value;
      var n: nat :| FirstWithBoth(nals, n) && LastSet(nals[..n], NAL_SPS, sps) && LastSet(nals[..n], NAL_PPS, pps);
      HasMore(nals, n, NAL_SPS);
      HasMore(nals, n, NAL_PPS);
    }
  }

  lemma NothingHeld()
    ensures Holds([], NAL_SPS, None) && Holds([], NAL_PPS, None)
  {
  }

  lemma HasMore(nals: seq<bytes>, n: nat, kind: nat)
    requires n <= |nals| && HasSet(nals[..n], kind)
    ensures HasSet(nals, kind)
  {
    var k :| 0 <= k < n && IsSet(nals[..n][k], kind);
    assert IsSet(nals[k], kind);
  }

  /** A record says version 1, lengths of four bytes and one set of each kind, and has the profile of its SPS. */
  lemma RecordHeader(sps: bytes, pps: bytes)
    requires |sps| >= 4
    ensures var d := BuildAvcc(sps, pps);
      && d[0] == 1 && d[1..4] == sps[1..4] && d[4] % 4 + 1 == 4 && d[5] % 32 == 1
      && d[8 + |sps|] == 1 && |d| == 11 + |sps| + |pps|
  {
  }
}
