/**
  Fragmented MP4 media segments (ISO/IEC 14496-12, section 8.8): the serializer that patches its
  own data offsets, and a demuxer that reads segments as a player does.
 */
module Mp4 {
  import opened Bytes

  const STYP: bytes := [0x73, 0x74, 0x79, 0x70]
  const MOOF: bytes := [0x6D, 0x6F, 0x6F, 0x66]
  const MFHD: bytes := [0x6D, 0x66, 0x68, 0x64]
  const TRAF: bytes := [0x74, 0x72, 0x61, 0x66]
  const TFHD: bytes := [0x74, 0x66, 0x68, 0x64]
  const TFDT: bytes := [0x74, 0x66, 0x64, 0x74]
  const TRUN: bytes := [0x74, 0x72, 0x75, 0x6E]
  const MDAT: bytes := [0x6D, 0x64, 0x61, 0x74]
  const ISO5: bytes := [0x69, 0x73, 0x6F, 0x35]
  const ISO6: bytes := [0x69, 0x73, 0x6F, 0x36]

  const TFHD_FLAGS := 0x02_0000
  const TRUN_FLAGS := 0xF01

  /** One sample: duration and composition offset in ticks of the track, payload and flags. */
  datatype Sample = Sample(duration: nat, payload: bytes, flags: nat, offset: int)

  datatype Fragment = Fragment(trackId: nat, baseTime: nat, samples: seq<Sample>)

  // ---------------------------------------------------------------------------------
  // Boxes
  // ---------------------------------------------------------------------------------

  function Box(tag: bytes, payload: bytes): bytes {
    Be32(8 + |payload|) + tag + payload
  }

  function FullBox(tag: bytes, version: byte, flags: nat, payload: bytes): bytes {
    Box(tag, [version] + Be24(flags) + payload)
  }

  function StypBox(): bytes {
    Box(STYP, ISO5 + Be32(512) + ISO5 + ISO6)
  }

  function MfhdBox(sequence: nat): bytes {
    FullBox(MFHD, 0, 0, Be32(sequence))
  }

  function TfhdBox(f: Fragment): bytes {
    FullBox(TFHD, 0, TFHD_FLAGS, Be32(f.trackId))
  }

  function TfdtBox(f: Fragment): bytes {
    FullBox(TFDT, 1, 0, Be64(f.baseTime))
  }

  function SampleEntry(s: Sample): bytes {
    Be32(s.duration) + Be32(|s.payload|) + Be32(s.flags) + Be32(s.offset % TWO_32)
  }

  function SampleEntries(samples: seq<Sample>): (r: bytes)
    ensures |r| == 16 * |samples|
  {
    if samples == [] then [] else SampleEntry(samples[0]) + SampleEntries(samples[1..])
  }

  function TrunBox(f: Fragment, dataOffset: nat): bytes {
    FullBox(TRUN, 1, TRUN_FLAGS, Be32(|f.samples|) + Be32(dataOffset) + SampleEntries(f.samples))
  }

  function TrafBox(f: Fragment, dataOffset: nat): bytes {
    Box(TRAF, TfhdBox(f) + TfdtBox(f) + TrunBox(f, dataOffset))
  }

  function Payloads(samples: seq<Sample>): bytes {
    if samples == [] then [] else samples[0].payload + Payloads(samples[1..])
  }

  function AllPayloads(frags: seq<Fragment>): bytes {
    if frags == [] then [] else Payloads(frags[0].samples) + AllPayloads(frags[1..])
  }

  /** One traf per fragment, with data offsets that start at `at` and follow the payloads. */
  function Trafs(frags: seq<Fragment>, at: nat): bytes {
    if frags == [] then []
    else TrafBox(frags[0], at) + Trafs(frags[1..], at + |Payloads(frags[0].samples)|)
  }

  /** The same before any offset is known. */
  function BlankTrafs(frags: seq<Fragment>): bytes {
    if frags == [] then [] else TrafBox(frags[0], 0) + BlankTrafs(frags[1..])
  }

  function MoofLen(frags: seq<Fragment>): nat {
    24 + |BlankTrafs(frags)|
  }

  function MoofBox(sequence: nat, frags: seq<Fragment>, at: nat): bytes {
    Box(MOOF, MfhdBox(sequence) + Trafs(frags, at))
  }

  /** The segment: each data offset points behind the moof and the mdat header, past earlier payloads. */
  function Segment(sequence: nat, frags: seq<Fragment>): bytes {
    StypBox() + MoofBox(sequence, frags, MoofLen(frags) + 8) + Box(MDAT, AllPayloads(frags))
  }

  lemma TrafLength(f: Fragment, at: nat)
    ensures |TfhdBox(f)| == 16 && |TfdtBox(f)| == 20 && |TrunBox(f, at)| == 20 + 16 * |f.samples|
    ensures |TrafBox(f, at)| == 64 + 16 * |f.samples|
  {
  }

  lemma {:induction false} TrafsLength(frags: seq<Fragment>, at: nat)
    ensures |Trafs(frags, at)| == |BlankTrafs(frags)|
  {
    hide TrafBox;
    if frags != [] {
      TrafLength(frags[0], at);
      TrafLength(frags[0], 0);
      TrafsLength(frags[1..], at + |Payloads(frags[0].samples)|);
    }
  }

  // ---------------------------------------------------------------------------------
  // The serializer
  // ---------------------------------------------------------------------------------

  /** A traf up to its offset field, and what follows the field. */
  function TrafHead(f: Fragment): (r: bytes)
    ensures |r| == 60
  {
    Be32(64 + 16 * |f.samples|) + TRAF + TfhdBox(f) + TfdtBox(f)
    + Be32(20 + 16 * |f.samples|) + TRUN + [1] + Be24(TRUN_FLAGS) + Be32(|f.samples|)
  }

  lemma TrafSplit(f: Fragment, at: nat)
    ensures TrafBox(f, at) == TrafHead(f) + Be32(at) + SampleEntries(f.samples)
  {
    TrafLength(f, at);
    var e, n, o := SampleEntries(f.samples), Be32(|f.samples|), Be32(at);
    var trun := Be32(20 + 16 * |f.samples|) + TRUN + ([1] + Be24(TRUN_FLAGS) + (n + o + e));
    assert TrunBox(f, at) == trun;
    assert trun == Be32(20 + 16 * |f.samples|) + TRUN + [1] + Be24(TRUN_FLAGS) + n + o + e;
  }

  method PatchAt(out: array<byte>, at: nat, v: nat, ghost head: bytes, ghost tail: bytes)
    requires out[..] == head + Be32(0) + tail && at == |head|
    modifies out
    ensures out[..] == head + Be32(v) + tail
  {
    var b := Be32(v);
    out[at], out[at + 1], out[at + 2], out[at + 3] := b[0], b[1], b[2], b[3];
  }

  /** What the walk sees of the box at the cursor. */
  ghost predicate BoxAt(d: bytes, at: nat, size: nat, tag: bytes) {
    at + 8 <= |d| && d[at..at + 4] == Be32(size) && d[at + 4..at + 8] == tag
  }

  lemma BoxIsAt(d: bytes, head: bytes, size: nat, tag: bytes, tail: bytes)
    requires |tag| == 4 && d == head + (Be32(size) + tag + tail)
    ensures BoxAt(d, |head|, size, tag)
  {
    assert d[|head|..] == Be32(size) + (tag + tail);
    Cut(d, |head|, Be32(size), tag + tail);
    Cut(d, |head| + 4, tag, tail);
  }

  lemma AtTraf(d: bytes, head: bytes, f: Fragment, tail: bytes)
    requires d == head + (TrafHead(f) + tail)
    ensures BoxAt(d, |head|, 64 + 16 * |f.samples|, TRAF)
  {
    hide Be32, Be24, Be64, BoxAt, TfhdBox, TfdtBox;
    var rest :=
      TfhdBox(f) + TfdtBox(f) + Be32(20 + 16 * |f.samples|) + TRUN + [1] + Be24(TRUN_FLAGS) + Be32(|f.samples|) + tail;
    assert TrafHead(f) + tail == Be32(64 + 16 * |f.samples|) + TRAF + rest;
    BoxIsAt(d, head, 64 + 16 * |f.samples|, TRAF, rest);
  }

  lemma AtTfhd(d: bytes, head: bytes, f: Fragment, tail: bytes)
    requires d == head + (TrafHead(f) + tail)
    ensures BoxAt(d, |head| + 8, 16, TFHD)
  {
    hide Be32, Be24, Be64, BoxAt, TfdtBox;
    var front := Be32(64 + 16 * |f.samples|) + TRAF;
    var p := [0] + Be24(TFHD_FLAGS) + Be32(f.trackId);
    var rest := TfdtBox(f) + Be32(20 + 16 * |f.samples|) + TRUN + [1] + Be24(TRUN_FLAGS) + Be32(|f.samples|) + tail;
    assert TfhdBox(f) == Be32(16) + TFHD + p;
    assert head + (TrafHead(f) + tail) == (head + front) + (Be32(16) + TFHD + (p + rest));
    BoxIsAt(d, head + front, 16, TFHD, p + rest);
  }

  lemma AtTfdt(d: bytes, head: bytes, f: Fragment, tail: bytes)
    requires d == head + (TrafHead(f) + tail)
    ensures BoxAt(d, |head| + 24, 20, TFDT)
  {
    hide Be32, Be24, Be64, BoxAt, TfhdBox;
    TrafLength(f, 0);
    var front := Be32(64 + 16 * |f.samples|) + TRAF + TfhdBox(f);
    var p := [1] + Be24(0) + Be64(f.baseTime);
    var rest := Be32(20 + 16 * |f.samples|) + TRUN + [1] + Be24(TRUN_FLAGS) + Be32(|f.samples|) + tail;
    assert TfdtBox(f) == Be32(20) + TFDT + p;
    assert head + (TrafHead(f) + tail) == (head + front) + (Be32(20) + TFDT + (p + rest));
    BoxIsAt(d, head + front, 20, TFDT, p + rest);
  }

  lemma AtTrun(d: bytes, head: bytes, f: Fragment, tail: bytes)
    requires d == head + (TrafHead(f) + tail)
    ensures BoxAt(d, |head| + 44, 20 + 16 * |f.samples|, TRUN)
  {
    hide Be32, Be24, Be64, BoxAt, TfhdBox, TfdtBox;
    TrafLength(f, 0);
    var front := Be32(64 + 16 * |f.samples|) + TRAF + TfhdBox(f) + TfdtBox(f);
    var rest := [1] + Be24(TRUN_FLAGS) + Be32(|f.samples|) + tail;
    assert head + (TrafHead(f) + tail) == (head + front) + (Be32(20 + 16 * |f.samples|) + TRUN + rest);
    BoxIsAt(d, head + front, 20 + 16 * |f.samples|, TRUN, rest);
  }

  lemma AtMfhd(d: bytes, head: bytes, sequence: nat, tail: bytes)
    requires d == head + (MfhdBox(sequence) + tail)
    ensures BoxAt(d, |head|, 16, MFHD)
  {
    hide Be32, Be24, BoxAt;
    var p := [0] + Be24(0) + Be32(sequence);
    assert MfhdBox(sequence) + tail == Be32(16) + MFHD + (p + tail);
    BoxIsAt(d, head, 16, MFHD, p + tail);
  }

  lemma {:induction false} BlankAppend(xs: seq<Fragment>, ys: seq<Fragment>)
    ensures BlankTrafs(xs + ys) == BlankTrafs(xs) + BlankTrafs(ys)
  {
    hide TrafBox;
    if xs == [] {
      assert xs + ys == ys;
    } else {
      assert (xs + ys)[1..] == xs[1..] + ys;
      BlankAppend(xs[1..], ys);
    }
  }

  function PayloadSize(samples: seq<Sample>): (n: nat)
    ensures n == |Payloads(samples)|
  {
    if samples == [] then 0 else |samples[0].payload| + PayloadSize(samples[1..])
  }

  function SizeSum(sizes: seq<nat>): nat {
    if sizes == [] then 0 else sizes[0] + SizeSum(sizes[1..])
  }

  function Sizes(frags: seq<Fragment>): (r: seq<nat>)
    ensures |r| == |frags|
  {
    seq(|frags|, i requires 0 <= i < |frags| => PayloadSize(frags[i].samples))
  }

  lemma {:induction false} SizeSumSnoc(sizes: seq<nat>, k: nat)
    requires k < |sizes|
    ensures SizeSum(sizes[..k + 1]) == SizeSum(sizes[..k]) + sizes[k]
    decreases k
  {
    if k == 0 {
      assert sizes[..1] == [sizes[0]] + [];
    } else {
      assert sizes[..k + 1][1..] == sizes[1..][..k];
      assert sizes[..k][1..] == sizes[1..][..k - 1];
      SizeSumSnoc(sizes[1..], k - 1);
    }
  }

  /** The walk over the moof up to fragment `k`: the offsets before it are set, the others are blank. */
  ghost predicate Walked(d: bytes, front: bytes, frags: seq<Fragment>, k: nat, done: bytes, rel: nat) {
    && k <= |frags|
    && d == front + done + BlankTrafs(frags[k..])
    && done + Trafs(frags[k..], rel + SizeSum(Sizes(frags)[..k])) == Trafs(frags, rel)
  }

  lemma WalkStart(front: bytes, frags: seq<Fragment>, rel: nat)
    ensures Walked(front + BlankTrafs(frags), front, frags, 0, [], rel)
  {
    hide BlankTrafs, Trafs, Sizes;
    assert frags[0..] == frags;
    assert Sizes(frags)[..0] == [];
    assert front + [] == front;
    assert [] + Trafs(frags, rel) == Trafs(frags, rel);
  }

  lemma WalkNext(d: bytes, front: bytes, frags: seq<Fragment>, k: nat, done: bytes, rel: nat)
    requires Walked(d, front, frags, k, done, rel) && k < |frags|
    ensures d == (front + done) + TrafBox(frags[k], 0) + BlankTrafs(frags[k + 1..])
  {
    hide TrafBox, Trafs, SizeSum, Sizes;
    assert frags[k..][1..] == frags[k + 1..];
    assert BlankTrafs(frags[k..]) == TrafBox(frags[k], 0) + BlankTrafs(frags[k + 1..]);
  }

  lemma WalkStep(d: bytes, front: bytes, frags: seq<Fragment>, k: nat, done: bytes, rel: nat, e: bytes)
    requires Walked(d, front, frags, k, done, rel) && k < |frags|
    requires e == (front + done) + TrafBox(frags[k], rel + SizeSum(Sizes(frags)[..k])) + BlankTrafs(frags[k + 1..])
    ensures Walked(e, front, frags, k + 1, done + TrafBox(frags[k], rel + SizeSum(Sizes(frags)[..k])), rel)
  {
    hide TrafBox, BlankTrafs, SizeSum;
    var at := rel + SizeSum(Sizes(frags)[..k]);
    SizeSumSnoc(Sizes(frags), k);
    assert frags[k..][1..] == frags[k + 1..];
    assert Trafs(frags[k..], at) == TrafBox(frags[k], at) + Trafs(frags[k + 1..], at + |Payloads(frags[k].samples)|);
    var t, u := TrafBox(frags[k], at), Trafs(frags[k + 1..], at + |Payloads(frags[k].samples)|);
    assert done + (t + u) == (done + t) + u;
    assert (front + done) + t + BlankTrafs(frags[k + 1..]) == front + (done + t) + BlankTrafs(frags[k + 1..]);
  }

  lemma WalkEnd(d: bytes, front: bytes, frags: seq<Fragment>, done: bytes, rel: nat)
    requires Walked(d, front, frags, |frags|, done, rel)
    ensures d == front + Trafs(frags, rel)
  {
    assert frags[|frags|..] == [];
  }

  /** The boxes the walk finds inside a traf, in order, and where the offset field sits. */
  lemma TrafInside(d: bytes, head: bytes, f: Fragment, at: nat, tail: bytes)
    requires d == head + TrafBox(f, at) + tail
    ensures BoxAt(d, |head|, 64 + 16 * |f.samples|, TRAF)
    ensures BoxAt(d, |head| + 8, 16, TFHD) && BoxAt(d, |head| + 24, 20, TFDT)
    ensures BoxAt(d, |head| + 44, 20 + 16 * |f.samples|, TRUN)
    ensures d == (head + TrafHead(f)) + Be32(at) + (SampleEntries(f.samples) + tail)
  {
    hide Be32, Be24, BoxAt, TrafHead, TrafBox, SampleEntries;
    TrafSplit(f, at);
    var rest := Be32(at) + SampleEntries(f.samples) + tail;
    assert d == head + (TrafHead(f) + rest);
    AtTraf(d, head, f, rest);
    AtTfhd(d, head, f, rest);
    AtTfdt(d, head, f, rest);
    AtTrun(d, head, f, rest);
  }

  lemma ReadBox(d: bytes, at: nat, size: nat, tag: bytes)
    requires BoxAt(d, at, size, tag) && size < TWO_32
    ensures at + 8 <= |d| && Rd32(d[at..at + 4]) == size && d[at + 4..at + 8] == tag
  {
    Rd32Be32(size);
  }

  /** Inside one traf: skip tfhd and tfdt, find the trun and overwrite its offset field. */
  method PatchTraf(out: array<byte>, cursor: nat, size: nat, rel: nat, earlier: seq<nat>,
                   ghost head: bytes, ghost f: Fragment, ghost tail: bytes)
    requires out[..] == head + TrafBox(f, 0) + tail && cursor == |head|
    requires size == 64 + 16 * |f.samples| < TWO_32
    modifies out
    ensures out[..] == head + TrafBox(f, rel + SizeSum(earlier)) + tail
  {
    hide TrafBox, TrafHead, BoxAt, SampleEntries, Be32, SizeSum;
    ghost var d := out[..];
    TrafInside(d, head, f, 0, tail);
    var c := cursor + 8;
    var end := cursor + size;
    while c + 8 <= end
      invariant out[..] == d
      invariant c == cursor + 8 || c == cursor + 24 || c == cursor + 44
      decreases end - c
    {
      ReadBox(d, c, if c == cursor + 8 then 16 else if c == cursor + 24 then 20 else 20 + 16 * |f.samples|,
              if c == cursor + 8 then TFHD else if c == cursor + 24 then TFDT else TRUN);
      assert TFHD[1] != TRUN[1] && TFDT[2] != TRUN[2];
      var inner := Rd32(out[c..c + 4]);
      if out[c + 4..c + 8] == TRUN {
        PatchAt(out, c + 16, rel + SizeSum(earlier), head + TrafHead(f), SampleEntries(f.samples) + tail);
        TrafSplit(f, rel + SizeSum(earlier));
        break;
      }
      c := c + if inner < 8 then 8 else inner;
    }
  }

  function MoofFront(sequence: nat, frags: seq<Fragment>): (r: bytes)
    ensures |r| == 24
  {
    Be32(MoofLen(frags)) + MOOF + MfhdBox(sequence)
  }

  lemma FirstBox(d: bytes, sequence: nat, frags: seq<Fragment>, rel: nat)
    requires Walked(d, MoofFront(sequence, frags), frags, 0, [], rel)
    ensures |d| == MoofLen(frags) && Rd32(d[8..12]) == 16 && d[12..16] == MFHD
  {
    hide MfhdBox, BlankTrafs, Be32, BoxAt, Trafs, SizeSum;
    assert frags[0..] == frags;
    var head := Be32(MoofLen(frags)) + MOOF;
    assert d == head + (MfhdBox(sequence) + BlankTrafs(frags));
    AtMfhd(d, head, sequence, BlankTrafs(frags));
    ReadBox(d, 8, 16, MFHD);
  }

  lemma NextTraf(d: bytes, front: bytes, frags: seq<Fragment>, k: nat, done: bytes, rel: nat)
    requires Walked(d, front, frags, k, done, rel) && k < |frags| && |d| < TWO_32
    ensures d == (front + done) + TrafBox(frags[k], 0) + BlankTrafs(frags[k + 1..])
    ensures |front + done| + 64 <= |d| && 64 + 16 * |frags[k].samples| < TWO_32
    ensures BoxAt(d, |front + done|, 64 + 16 * |frags[k].samples|, TRAF)
  {
    hide TrafBox, Trafs, SizeSum, Sizes, BlankTrafs, BoxAt;
    WalkNext(d, front, frags, k, done, rel);
    TrafInside(d, front + done, frags[k], 0, BlankTrafs(frags[k + 1..]));
    TrafLength(frags[k], 0);
  }

  /** The walk over the serialized moof: one traf per fragment, every other box skipped. */
  method PatchOffsets(out: array<byte>, sizes: seq<nat>, ghost sequence: nat, ghost frags: seq<Fragment>)
    requires out[..] == MoofFront(sequence, frags) + BlankTrafs(frags)
    requires sizes == Sizes(frags) && MoofLen(frags) < TWO_32
    modifies out
    ensures out[..] == MoofFront(sequence, frags) + Trafs(frags, MoofLen(frags) + 8)
  {
    hide TrafBox, Trafs, BlankTrafs, BoxAt, SizeSum, Walked, MoofFront, Sizes;
    ghost var front := MoofFront(sequence, frags);
    ghost var done: bytes := [];
    var rel := out.Length + 8;
    WalkStart(front, frags, rel);
    FirstBox(out[..], sequence, frags, rel);
    var cursor, k: nat := 8, 0;
    while cursor + 8 <= out.Length && k < |sizes|
      invariant k <= |sizes| == |frags| && Walked(out[..], front, frags, k, done, rel)
      invariant cursor == 24 + |done| || (cursor == 8 && k == 0 && done == [])
      invariant k < |sizes| ==> cursor + 8 <= out.Length
      decreases out.Length - cursor
    {
      NextTraf(out[..], front, frags, k, done, rel);
      if cursor == 8 {
        FirstBox(out[..], sequence, frags, rel);
        assert MFHD[0] != TRAF[0];
      } else {
        ReadBox(out[..], cursor, 64 + 16 * |frags[k].samples|, TRAF);
      }
      assert out[cursor..cursor + 4] == out[..][cursor..cursor + 4];
      assert out[cursor + 4..cursor + 8] == out[..][cursor + 4..cursor + 8];
      var size := Rd32(out[cursor..cursor + 4]);
      if out[cursor + 4..cursor + 8] == TRAF {
        ghost var d := out[..];
        PatchTraf(out, cursor, size, rel, sizes[..k], front + done, frags[k], BlankTrafs(frags[k + 1..]));
        WalkStep(d, front, frags, k, done, rel, out[..]);
        done := done + TrafBox(frags[k], rel + SizeSum(sizes[..k]));
        TrafLength(frags[k], rel + SizeSum(sizes[..k]));
        k := k + 1;
        if k < |sizes| {
          NextTraf(out[..], front, frags, k, done, rel);
        }
      }
      cursor := cursor + if size < 8 then 8 else size;
    }
    WalkEnd(out[..], front, frags, done, rel);
  }

  lemma {:induction false} EntriesSnoc(samples: seq<Sample>, k: nat)
    requires k < |samples|
    ensures SampleEntries(samples[..k + 1]) == SampleEntries(samples[..k]) + SampleEntry(samples[k])
    decreases k
  {
    hide SampleEntry;
    if k == 0 {
      assert samples[..1][1..] == [] && samples[..0] == [];
    } else {
      assert samples[..k + 1][1..] == samples[1..][..k];
      assert samples[..k][1..] == samples[1..][..k - 1];
      EntriesSnoc(samples[1..], k - 1);
    }
  }

  lemma {:induction false} PayloadsSnoc(samples: seq<Sample>, k: nat)
    requires k < |samples|
    ensures Payloads(samples[..k + 1]) == Payloads(samples[..k]) + samples[k].payload
    decreases k
  {
    if k == 0 {
      assert samples[..1][1..] == [] && samples[..0] == [];
    } else {
      assert samples[..k + 1][1..] == samples[1..][..k];
      assert samples[..k][1..] == samples[1..][..k - 1];
      PayloadsSnoc(samples[1..], k - 1);
    }
  }

  lemma {:induction false} AllPayloadsSnoc(frags: seq<Fragment>, k: nat)
    requires k < |frags|
    ensures AllPayloads(frags[..k + 1]) == AllPayloads(frags[..k]) + Payloads(frags[k].samples)
    decreases k
  {
    hide Payloads;
    if k == 0 {
      assert frags[..1][1..] == [] && frags[..0] == [];
    } else {
      assert frags[..k + 1][1..] == frags[1..][..k];
      assert frags[..k][1..] == frags[1..][..k - 1];
      AllPayloadsSnoc(frags[1..], k - 1);
    }
  }

  lemma BlankSnoc(frags: seq<Fragment>, k: nat)
    requires k < |frags|
    ensures BlankTrafs(frags[..k + 1]) == BlankTrafs(frags[..k]) + TrafBox(frags[k], 0)
  {
    hide TrafBox;
    assert frags[..k + 1] == frags[..k] + [frags[k]];
    assert [frags[k]][1..] == [];
    BlankAppend(frags[..k], [frags[k]]);
  }

  /** One traf with a blank data offset, sample by sample, and the size of the payloads it will point at. */
  method BuildTraf(f: Fragment) returns (traf: bytes, size: nat)
    ensures traf == TrafBox(f, 0) && size == PayloadSize(f.samples)
  {
    hide SampleEntry, SampleEntries, Payloads, PayloadSize, FullBox;
    var body := TfhdBox(f) + TfdtBox(f);
    var entries: bytes := [];
    size := 0;
    var i: nat := 0;
    FirstEntries(f.samples);
    while i < |f.samples|
      invariant i <= |f.samples|
      invariant entries == SampleEntries(f.samples[..i]) && size == |Payloads(f.samples[..i])|
    {
      EntriesSnoc(f.samples, i);
      PayloadsSnoc(f.samples, i);
      entries := entries + SampleEntry(f.samples[i]);
      size := size + |f.samples[i].payload|;
      i := i + 1;
    }
    assert f.samples[..i] == f.samples;
    traf := Box(TRAF, body + FullBox(TRUN, 1, TRUN_FLAGS, Be32(|f.samples|) + Be32(0) + entries));
  }

  lemma FirstEntries(samples: seq<Sample>)
    ensures SampleEntries(samples[..0]) == [] && Payloads(samples[..0]) == []
  {
  }

  lemma BuildStart(sequence: nat, frags: seq<Fragment>)
    ensures MfhdBox(sequence) == MfhdBox(sequence) + BlankTrafs(frags[..0])
    ensures Sizes(frags)[..0] == [] && AllPayloads(frags[..0]) == []
  {
    hide MfhdBox, Sizes;
    assert frags[..0] == [];
  }

  lemma MoofShape(sequence: nat, frags: seq<Fragment>, at: nat)
    ensures Box(MOOF, MfhdBox(sequence) + BlankTrafs(frags)) == MoofFront(sequence, frags) + BlankTrafs(frags)
    ensures MoofBox(sequence, frags, at) == MoofFront(sequence, frags) + Trafs(frags, at)
  {
    hide BlankTrafs, Trafs, Be32;
    TrafsLength(frags, at);
    var size := Be32(MoofLen(frags));
    assert size + MOOF + (MfhdBox(sequence) + BlankTrafs(frags)) == size + MOOF + MfhdBox(sequence) + BlankTrafs(frags);
    assert size + MOOF + (MfhdBox(sequence) + Trafs(frags, at)) == size + MOOF + MfhdBox(sequence) + Trafs(frags, at);
  }

  lemma {:induction false} MediaSize(frags: seq<Fragment>)
    ensures SizeSum(Sizes(frags)) == |AllPayloads(frags)|
  {
    hide Payloads, PayloadSize;
    if frags != [] {
      assert Sizes(frags)[1..] == Sizes(frags[1..]);
      MediaSize(frags[1..]);
    }
  }

  /** The media data: every sample's payload, fragment after fragment. */
  method MediaBytes(frags: seq<Fragment>) returns (media: bytes)
    ensures media == AllPayloads(frags)
  {
    hide AllPayloads, Payloads;
    media := [];
    NoPayloads();
    for i := 0 to |frags|
      invariant media == AllPayloads(frags[..i])
    {
      AllPayloadsSnoc(frags, i);
      FirstEntries(frags[i].samples);
      for j := 0 to |frags[i].samples|
        invariant media == AllPayloads(frags[..i]) + Payloads(frags[i].samples[..j])
      {
        PayloadsSnoc(frags[i].samples, j);
        media := media + frags[i].samples[j].payload;
      }
      assert frags[i].samples[..|frags[i].samples|] == frags[i].samples;
    }
    assert frags[..|frags|] == frags;
  }

  lemma NoPayloads()
    ensures AllPayloads([]) == []
  {
  }

  /** The whole writer: build a moof with blank offsets, patch it in place, append the media data. */
  method MediaSegment(sequence: nat, frags: seq<Fragment>) returns (seg: bytes)
    requires MoofLen(frags) < TWO_32
    ensures seg == Segment(sequence, frags)
  {
    hide TrafBox, BlankTrafs, Trafs, AllPayloads, Payloads, PayloadSize, StypBox, MfhdBox;
    var body := MfhdBox(sequence);
    var sizes: seq<nat> := [];
    var i: nat := 0;
    BuildStart(sequence, frags);
    while i < |frags|
      invariant i <= |frags|
      invariant body == MfhdBox(sequence) + BlankTrafs(frags[..i])
      invariant sizes == Sizes(frags)[..i]
    {
      var traf, size := BuildTraf(frags[i]);
      BlankSnoc(frags, i);
      body := body + traf;
      sizes := sizes + [size];
      i := i + 1;
    }
    assert frags[..i] == frags && Sizes(frags)[..i] == Sizes(frags);
    var moof := Box(MOOF, body);
    MoofShape(sequence, frags, MoofLen(frags) + 8);
    var out := new byte[|moof|](j requires 0 <= j < |moof| => moof[j]);
    assert out[..] == moof;
    PatchOffsets(out, sizes, sequence, frags);
    var patched := out[..];
    var media := MediaBytes(frags);
    MediaSize(frags);
    seg := StypBox() + patched + Be32(SizeSum(sizes) + 8) + MDAT + media;
    assert Box(MDAT, media) == Be32(SizeSum(sizes) + 8) + MDAT + media;
    assert seg == StypBox() + patched + Box(MDAT, media);
  }
}
