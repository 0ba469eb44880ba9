/**
  NAL-unit framing: Annex-B byte streams, the length-prefixed form FLV carries, and the
  bit reader. The methods run the source's loops; each is proved against a function that
  says what the bytes mean.
 */
module H264 {
  import opened Bytes

  // ---------------------------------------------------------------------------------
  // What an Annex-B stream means
  // ---------------------------------------------------------------------------------

  const START_CODE: bytes := [0, 0, 1]
  const LONG_START_CODE: bytes := [0, 0, 0, 1]

  /** A three-byte start code begins at `p`. */
  predicate CodeAt(d: bytes, p: nat) {
    p + 3 <= |d| && d[p] == 0 && d[p + 1] == 0 && d[p + 2] == 1
  }

  ghost predicate NoCode(d: bytes, s: nat, e: nat) {
    forall q: nat :: s <= q < e ==> !CodeAt(d, q)
  }

  /** The first start code at or after `s`, or the length when there is none. */
  function NextCode(d: bytes, s: nat): (p: nat)
    requires s <= |d|
    ensures s <= p <= |d| && NoCode(d, s, p) && (p < |d| ==> CodeAt(d, p))
    decreases |d| - s
  {
    if s == |d| || CodeAt(d, s) then s else NextCode(d, s + 1)
  }

  /** Where the payload in `d[s..e]` ends once its trailing zero padding is removed. */
  function TrimmedEnd(d: bytes, s: nat, e: nat): (t: nat)
    requires s <= e <= |d|
    ensures s <= t <= e && (t > s ==> d[t - 1] != 0)
    ensures forall k :: t <= k < e ==> d[k] == 0
  {
    if e > s && d[e - 1] == 0 then TrimmedEnd(d, s, e - 1) else e
  }

  /** A trimmed piece is a NAL unit unless nothing is left of it. */
  function Piece(d: bytes, s: nat, e: nat): seq<bytes>
    requires s <= e <= |d|
  {
    var t := TrimmedEnd(d, s, e);
    if t > s then [d[s..t]] else []
  }

  /** The NAL units from `s` on, where a start code ends at `s`. */
  function NalsFrom(d: bytes, s: nat): seq<bytes>
    requires s <= |d|
    decreases |d| - s
  {
    var p := NextCode(d, s);
    if p < |d| then Piece(d, s, p) + NalsFrom(d, p + 3) else Piece(d, s, p)
  }

  /** The NAL units of a stream: what precedes the first start code is not one. */
  function Nals(d: bytes): seq<bytes> {
    var p := NextCode(d, 0);
    if p < |d| then NalsFrom(d, p + 3) else []
  }

  /** A payload that Annex B can carry: not empty, no zero at its end, no start code inside. */
  ghost predicate Carriable(nal: bytes) {
    nal != [] && nal[|nal| - 1] != 0 && NoCode(nal, 0, |nal|)
  }

  ghost predicate AllCarriable(nals: seq<bytes>) {
    forall k :: 0 <= k < |nals| ==> Carriable(nals[k])
  }

  function AnnexB(nals: seq<bytes>): bytes {
    if nals == [] then [] else LONG_START_CODE + nals[0] + AnnexB(nals[1..])
  }

  // ---------------------------------------------------------------------------------
  // Normal form and round trip
  // ---------------------------------------------------------------------------------

  lemma PieceCarriable(d: bytes, s: nat, e: nat)
    requires s <= e <= |d| && NoCode(d, s, e)
    ensures AllCarriable(Piece(d, s, e))
  {
    var nal := d[s..TrimmedEnd(d, s, e)];
    forall q: nat | q < |nal| ensures !CodeAt(nal, q) {
      assert !CodeAt(d, s + q);
    }
  }

  lemma {:induction false} NalsFromCarriable(d: bytes, s: nat)
    requires s <= |d|
    ensures AllCarriable(NalsFrom(d, s))
    decreases |d| - s
  {
    var p := NextCode(d, s);
    PieceCarriable(d, s, p);
    if p < |d| {
      NalsFromCarriable(d, p + 3);
    }
  }

  /** Splitting any byte string yields payloads in normal form. */
  lemma NalsCarriable(d: bytes)
    ensures AllCarriable(Nals(d))
  {
    var p := NextCode(d, 0);
    if p < |d| {
      NalsFromCarriable(d, p + 3);
    }
  }

  lemma NoCodeInside(d: bytes, s: nat, nal: bytes, tail: bytes)
    requires s <= |d| && d[s..] == nal + tail && Carriable(nal)
    ensures NoCode(d, s, s + |nal|) && d[s..s + |nal|] == nal && d[s + |nal| - 1] != 0
    ensures d[s + |nal|..] == tail
  {
    var e := s + |nal|;
    assert d[s..e] == d[s..][..|nal|] == nal;
    assert d[e - 1] == nal[|nal| - 1];
    forall q: nat | s <= q < e ensures !CodeAt(d, q) {
      if q + 3 <= e {
        assert !CodeAt(nal, q - s);
      }
    }
    assert d[e..] == d[s..][|nal|..];
  }

  lemma LongCodeNext(d: bytes, s: nat, e: nat, tail: bytes)
    requires s < e <= |d| && NoCode(d, s, e) && d[e - 1] != 0
    requires d[e..] == LONG_START_CODE + tail
    ensures e + 4 <= |d| && d[e + 4..] == tail
    ensures NextCode(d, s) == e + 1 && TrimmedEnd(d, s, e + 1) == e
  {
    assert d[e] == d[e..][0] && d[e + 1] == d[e..][1] && d[e + 2] == d[e..][2] && d[e + 3] == d[e..][3];
    assert !CodeAt(d, e) && CodeAt(d, e + 1);
    assert d[e + 4..] == d[e..][4..];
  }

  lemma {:induction false} NalsFromAnnexB(d: bytes, s: nat, nal: bytes, nals: seq<bytes>)
    requires s <= |d| && d[s..] == nal + AnnexB(nals)
    requires Carriable(nal) && AllCarriable(nals)
    ensures NalsFrom(d, s) == [nal] + nals
    decreases |nals|
  {
    var e := s + |nal|;
    NoCodeInside(d, s, nal, AnnexB(nals));
    if nals == [] {
      assert e == |d|;
    } else {
      var tail := nals[0] + AnnexB(nals[1..]);
      assert AnnexB(nals) == LONG_START_CODE + tail;
      LongCodeNext(d, s, e, tail);
      NalsFromAnnexB(d, e + 4, nals[0], nals[1..]);
      assert [nals[0]] + nals[1..] == nals;
    }
  }

  lemma LongCodeFirst(d: bytes, tail: bytes)
    requires d == LONG_START_CODE + tail
    ensures NextCode(d, 0) == 1 && d[4..] == tail
  {
    assert !CodeAt(d, 0) && CodeAt(d, 1);
  }

  /** Joining payloads and splitting again gives them back exactly when all are in normal form. */
  lemma NalsAnnexB(nals: seq<bytes>)
    ensures Nals(AnnexB(nals)) == nals <==> AllCarriable(nals)
  {
    NalsCarriable(AnnexB(nals));
    if nals != [] && AllCarriable(nals) {
      NalsOfJoined(nals);
    }
  }

  lemma NalsOfJoined(nals: seq<bytes>)
    requires nals != [] && AllCarriable(nals)
    ensures Nals(AnnexB(nals)) == nals
  {
    var d := AnnexB(nals);
    var tail := nals[0] + AnnexB(nals[1..]);
    assert d == LONG_START_CODE + tail;
    LongCodeFirst(d, tail);
    NalsFromAnnexB(d, 4, nals[0], nals[1..]);
    assert [nals[0]] + nals[1..] == nals;
  }

  /** Splitting is a projection: rejoining what was split changes nothing more. */
  lemma SplitJoinSplit(d: bytes)
    ensures Nals(AnnexB(Nals(d))) == Nals(d)
  {
    NalsCarriable(d);
    NalsAnnexB(Nals(d));
  }

  // ---------------------------------------------------------------------------------
  // The splitter: groups of start codes first, then the payloads between them
  // ---------------------------------------------------------------------------------

  /** A four-byte start code begins at `p`. */
  predicate LongCodeAt(d: bytes, p: nat) {
    p + 4 <= |d| && d[p] == 0 && d[p + 1] == 0 && d[p + 2] == 0 && d[p + 3] == 1
  }

  ghost predicate NoEitherCode(d: bytes, s: nat, e: int) {
    forall q: nat :: s <= q < e ==> !CodeAt(d, q) && !LongCodeAt(d, q)
  }

  /** What the stream still holds past `s`, where `inside` says that a start code was seen. */
  function Rest(d: bytes, s: nat, inside: bool): seq<bytes>
    requires s <= |d|
  {
    if inside then NalsFrom(d, s)
    else if NextCode(d, s) < |d| then NalsFrom(d, NextCode(d, s) + 3)
    else []
  }

  /** A run of start codes from `i` to `j` closes the payload that began at `s`. */
  ghost predicate Run(d: bytes, s: nat, inside: bool, i: nat, j: nat)
    requires s <= i <= |d| && j <= |d|
  {
    Rest(d, s, inside) == (if inside then Piece(d, s, i) else []) + NalsFrom(d, j)
  }

  lemma NextCodeIs(d: bytes, s: nat, p: nat)
    requires s <= p && CodeAt(d, p) && NoCode(d, s, p)
    ensures NextCode(d, s) == p
  {
  }

  lemma FirstCodeOfRun(d: bytes, s: nat, inside: bool, i: nat, n: nat)
    requires s <= i <= |d| && NoCode(d, s, i)
    requires (n == 3 && CodeAt(d, i)) || (n == 4 && LongCodeAt(d, i))
    ensures Run(d, s, inside, i, i + n)
  {
    var p := i + n - 3;
    NextCodeIs(d, s, p);
    assert NalsFrom(d, s) == Piece(d, s, p) + NalsFrom(d, p + 3);
    assert Piece(d, s, p) == Piece(d, s, i);
  }

  lemma CodeAtOnce(d: bytes, j: nat, n: nat)
    requires (n == 3 && CodeAt(d, j)) || (n == 4 && LongCodeAt(d, j))
    ensures NalsFrom(d, j) == NalsFrom(d, j + n)
  {
    NextCodeIs(d, j, j + n - 3);
    assert Piece(d, j, j + n - 3) == [];
  }

  lemma NextCodeOfRun(d: bytes, s: nat, inside: bool, i: nat, j: nat, n: nat)
    requires s <= i <= j <= |d| && Run(d, s, inside, i, j)
    requires (n == 3 && CodeAt(d, j)) || (n == 4 && LongCodeAt(d, j))
    ensures Run(d, s, inside, i, j + n)
  {
    CodeAtOnce(d, j, n);
  }

  /** Reads the run of consecutive start codes at `i`, if one begins there. */
  method ReadRun(data: bytes, i: nat, ghost s: nat, ghost inside: bool) returns (j: nat, found: bool)
    requires s <= i && i + 3 < |data| && NoCode(data, s, i)
    ensures i <= j <= |data| && (found <==> j > i)
    ensures found ==> Run(data, s, inside, i, j)
    ensures !found ==> !CodeAt(data, i) && !LongCodeAt(data, i)
  {
    j, found := i, false;
    while j + 3 < |data| && data[j] == 0 && data[j + 1] == 0
      invariant i <= j <= |data| && (found <==> j > i)
      invariant found ==> Run(data, s, inside, i, j)
      decreases |data| - j
    {
      if data[j + 2] == 1 {
        if found { NextCodeOfRun(data, s, inside, i, j, 3); } else { FirstCodeOfRun(data, s, inside, i, 3); }
        j := j + 3;
        found := true;
      } else if data[j + 2] == 0 && data[j + 3] == 1 {
        if found { NextCodeOfRun(data, s, inside, i, j, 4); } else { FirstCodeOfRun(data, s, inside, i, 4); }
        j := j + 4;
        found := true;
      } else {
        break;
      }
    }
  }

  // A group is a run of start codes; the payloads lie between the groups.

  predicate Groups(d: bytes, groups: seq<(nat, nat)>) {
    && (forall k :: 0 <= k < |groups| ==> groups[k].0 < groups[k].1 <= |d|)
    && (forall j, k :: 0 <= j < k < |groups| ==> groups[j].1 <= groups[k].0)
  }

  function LastEnd(groups: seq<(nat, nat)>): nat {
    if groups == [] then 0 else groups[|groups| - 1].1
  }

  /** The payloads between consecutive ones of the first `n` groups. */
  function Between(d: bytes, groups: seq<(nat, nat)>, n: nat): seq<bytes>
    requires Groups(d, groups) && n <= |groups|
  {
    if n < 2 then [] else Between(d, groups, n - 1) + Piece(d, groups[n - 2].1, groups[n - 1].0)
  }

  lemma {:induction false} BetweenPrefix(d: bytes, groups: seq<(nat, nat)>, more: seq<(nat, nat)>, n: nat)
    requires Groups(d, groups) && Groups(d, more) && n <= |groups| && groups <= more
    ensures Between(d, groups, n) == Between(d, more, n)
  {
    if n >= 2 {
      BetweenPrefix(d, groups, more, n - 1);
    }
  }

  /** The groups found so far account for all of the stream but its rest. */
  ghost predicate Accounted(d: bytes, groups: seq<(nat, nat)>) {
    && Groups(d, groups)
    && Nals(d) == Between(d, groups, |groups|) + Rest(d, LastEnd(groups), groups != [])
  }

  lemma GroupsSnoc(d: bytes, groups: seq<(nat, nat)>, i: nat, j: nat)
    requires Groups(d, groups) && LastEnd(groups) <= i < j <= |d|
    ensures Groups(d, groups + [(i, j)]) && groups <= groups + [(i, j)] && LastEnd(groups + [(i, j)]) == j
  {
  }

  lemma BetweenSnoc(d: bytes, groups: seq<(nat, nat)>, i: nat, j: nat)
    requires Groups(d, groups) && LastEnd(groups) <= i < j <= |d|
    requires Groups(d, groups + [(i, j)])
    ensures Between(d, groups + [(i, j)], |groups| + 1) ==
            Between(d, groups + [(i, j)], |groups|) + if groups == [] then [] else Piece(d, LastEnd(groups), i)
  {
  }

  lemma CloseGroup(d: bytes, groups: seq<(nat, nat)>, i: nat, j: nat)
    requires Accounted(d, groups) && LastEnd(groups) <= i < j <= |d|
    requires Run(d, LastEnd(groups), groups != [], i, j)
    ensures Accounted(d, groups + [(i, j)]) && LastEnd(groups + [(i, j)]) == j
  {
    var more := groups + [(i, j)];
    GroupsSnoc(d, groups, i, j);
    BetweenPrefix(d, groups, more, |groups|);
    BetweenSnoc(d, groups, i, j);
  }

  lemma NothingFoundYet(d: bytes)
    ensures Accounted(d, [])
  {
  }

  method FindGroups(data: bytes) returns (groups: seq<(nat, nat)>)
    ensures Accounted(data, groups)
    ensures NoEitherCode(data, LastEnd(groups), |data| - 3)
  {
    hide Accounted;
    groups := [];
    NothingFoundYet(data);
    var i: nat := 0;
    ghost var s: nat := 0;
    while i + 3 < |data|
      invariant Accounted(data, groups) && s == LastEnd(groups) <= i <= |data|
      invariant NoEitherCode(data, s, i)
    {
      if data[i] == 0 && data[i + 1] == 0 {
        var j, found := ReadRun(data, i, s, groups != []);
        if found {
          CloseGroup(data, groups, i, j);
          groups := groups + [(i, j)];
          i, s := j, j;
          continue;
        }
      }
      i := i + 1;
    }
  }

  method TrimZeros(data: bytes, s: nat, e: nat) returns (end: nat)
    requires s <= e <= |data|
    ensures end == TrimmedEnd(data, s, e)
  {
    end := e;
    while end > s && data[end - 1] == 0
      invariant s <= end <= e && TrimmedEnd(data, s, end) == TrimmedEnd(data, s, e)
    {
      end := end - 1;
    }
  }

  /** Past the last group only a bare start code at the very end can be left unseen. */
  lemma LastPayload(d: bytes, s: nat)
    requires s <= |d| && NoEitherCode(d, s, |d| - 3)
    ensures |d| >= s + 3 && CodeAt(d, |d| - 3) ==>
              && NalsFrom(d, s) == Piece(d, s, |d| - 3)
              && TrimmedEnd(d, s, |d| - 3) == |d| - 3
              && TrimmedEnd(d, s, |d|) == |d|
    ensures |d| < s + 3 || !CodeAt(d, |d| - 3) ==> NalsFrom(d, s) == Piece(d, s, |d|)
    ensures Rest(d, s, false) == []
  {
    if |d| >= s + 3 && CodeAt(d, |d| - 3) {
      NextCodeIs(d, s, |d| - 3);
      assert NalsFrom(d, |d|) == [];
      if |d| - 3 > s {
        assert !LongCodeAt(d, |d| - 4);
      }
    } else {
      assert NoCode(d, s, |d|);
    }
  }

  lemma SliceIsCode(d: bytes, e: nat)
    requires 3 <= e <= |d|
    ensures d[e - 3..e] == START_CODE <==> CodeAt(d, e - 3)
  {
    assert d[e - 3..e] == [d[e - 3], d[e - 2], d[e - 1]];
  }

  /** The trimming of the tail in progress: only a bare code at the very end may still be in the way. */
  ghost predicate Trimming(d: bytes, s: nat, end: nat)
    requires s <= |d|
  {
    && s <= end <= |d| && end == TrimmedEnd(d, s, end)
    && (Piece(d, s, end) == NalsFrom(d, s) || (end == |d| >= s + 3 && CodeAt(d, end - 3)))
  }

  lemma TrimStart(d: bytes, s: nat)
    requires s <= |d| && NoEitherCode(d, s, |d| - 3)
    ensures Trimming(d, s, TrimmedEnd(d, s, |d|))
  {
    hide NalsFrom;
    LastPayload(d, s);
    TrimTwice(d, s, |d|);
  }

  lemma {:induction false} TrimTwice(d: bytes, s: nat, e: nat)
    requires s <= e <= |d|
    ensures TrimmedEnd(d, s, TrimmedEnd(d, s, e)) == TrimmedEnd(d, s, e)
  {
    if e > s && d[e - 1] == 0 {
      TrimTwice(d, s, e - 1);
    }
  }

  lemma TrimStep(d: bytes, s: nat, end: nat)
    requires s <= |d| && NoEitherCode(d, s, |d| - 3) && Trimming(d, s, end)
    requires end >= s + 3 && d[end - 3..end] == START_CODE
    ensures Trimming(d, s, end - 3)
  {
    hide NalsFrom, TrimmedEnd;
    SliceIsCode(d, end);
    LastPayload(d, s);
  }

  lemma TrimDone(d: bytes, s: nat, end: nat)
    requires s <= |d| && Trimming(d, s, end) && (end < s + 3 || d[end - 3..end] != START_CODE)
    ensures (if end > s then [d[s..end]] else []) == NalsFrom(d, s)
    ensures end >= s + 4 ==> d[end - 4..end] != LONG_START_CODE
  {
    hide NalsFrom, TrimmedEnd;
    if end >= s + 3 {
      SliceIsCode(d, end);
    }
    if end >= s + 4 {
      assert d[end - 4..end][1..] == d[end - 3..end];
    }
  }

  /**
    The payload after the last group: trimmed of padding, then of a bare trailing start code.
    The source then looks for a trailing four-byte code as well; the last clause says that
    there never is one.
   */
  method TrimTail(data: bytes, s: nat) returns (end: nat)
    requires s <= |data| && NoEitherCode(data, s, |data| - 3)
    ensures s <= end <= |data|
    ensures (if end > s then [data[s..end]] else []) == NalsFrom(data, s)
    ensures end >= s + 4 ==> data[end - 4..end] != LONG_START_CODE
  {
    hide NalsFrom, TrimmedEnd, NoEitherCode;
    TrimStart(data, s);
    end := TrimZeros(data, s, |data|);
    while end >= s + 3 && data[end - 3..end] == START_CODE
      invariant Trimming(data, s, end)
    {
      TrimStep(data, s, end);
      end := end - 3;
    }
    TrimDone(data, s, end);
  }

  lemma AllGroups(d: bytes, groups: seq<(nat, nat)>)
    requires Accounted(d, groups) && NoEitherCode(d, LastEnd(groups), |d| - 3)
    ensures Groups(d, groups)
    ensures Nals(d) == Between(d, groups, |groups|) + if groups == [] then [] else NalsFrom(d, LastEnd(groups))
  {
    LastPayload(d, LastEnd(groups));
  }

  lemma NothingLeft(d: bytes)
    ensures NalsFrom(d, |d|) == []
  {
  }

  /** Splits an Annex-B stream into its NAL units. */
  method SplitAnnexB(data: bytes) returns (nals: seq<bytes>)
    ensures nals == Nals(data)
  {
    hide NalsFrom, Nals, Accounted, TrimmedEnd, NoEitherCode;
    var groups := FindGroups(data);
    AllGroups(data, groups);
    NothingLeft(data);
    nals := [];
    var w := 0;
    while w + 1 < |groups|
      invariant w < |groups| || |groups| == w == 0
      invariant nals == Between(data, groups, if groups == [] then 0 else w + 1)
    {
      var s, e := groups[w].1, groups[w + 1].0;
      var end := TrimZeros(data, s, e);
      if end > s {
        nals := nals + [data[s..end]];
      }
      w := w + 1;
    }
    if |groups| > 0 {
      var s := groups[|groups| - 1].1;
      if s < |data| {
        var end := TrimTail(data, s);
        if end > s {
          nals := nals + [data[s..end]];
        }
      }
    }
  }

  /** Joins NAL units into one Annex-B packet. */
  method ToAnnexB(nals: seq<bytes>) returns (out: bytes)
    ensures out == AnnexB(nals)
  {
    out := [];
    for i := 0 to |nals|
      invariant AnnexB(nals) == out + AnnexB(nals[i..])
    {
      out := out + LONG_START_CODE + nals[i];
    }
  }

  // ---------------------------------------------------------------------------------
  // Length-prefixed payloads
  // ---------------------------------------------------------------------------------

  function Prefixed(nals: seq<bytes>): bytes {
    if nals == [] then [] else Be32(|nals[0]|) + nals[0] + Prefixed(nals[1..])
  }

  /** What a length field can describe: not empty, and short enough for 32 bits. */
  predicate Sized(nals: seq<bytes>) {
    forall k :: 0 <= k < |nals| ==> 0 < |nals[k]| < TWO_32
  }

  function Prepend(out: seq<bytes>, r: Option<seq<bytes>>): Option<seq<bytes>> {
    if r.Some? then Some(out + r.value) else None
  }

  lemma PrependNothing(r: Option<seq<bytes>>)
    ensures Prepend([], r) == r
  {
    if r.Some? {
      assert [] + r.value == r.value;
    }
  }

  lemma PrependStep(out: seq<bytes>, nal: bytes, r: Option<seq<bytes>>)
    ensures Prepend(out, Prepend([nal], r)) == Prepend(out + [nal], r)
  {
    if r.Some? {
      assert out + ([nal] + r.value) == out + [nal] + r.value;
    }
  }

  function Unprefixed(d: bytes, pos: nat): Option<seq<bytes>>
    requires pos <= |d|
    decreases |d| - pos
  {
    if pos == |d| then Some([])
    else if |d| < pos + 4 then None
    else
      var len := Rd32(d[pos..pos + 4]);
      if len == 0 || |d| < pos + 4 + len then None
      else Prepend([d[pos + 4..pos + 4 + len]], Unprefixed(d, pos + 4 + len))
  }

  lemma {:induction false} UnprefixedSound(d: bytes, pos: nat)
    requires pos <= |d| && Unprefixed(d, pos).Some?
    ensures Sized(Unprefixed(d, pos).value) && Prefixed(Unprefixed(d, pos).value) == d[pos..]
    decreases |d| - pos
  {
    if pos < |d| {
      var len := Rd32(d[pos..pos + 4]);
      var next := pos + 4 + len;
      UnprefixedSound(d, next);
      Be32Rd32(d[pos..pos + 4]);
      var rest := Unprefixed(d, next).value;
      var nals := [d[pos + 4..next]] + rest;
      assert nals[1..] == rest;
      assert d[pos..] == d[pos..pos + 4] + d[pos + 4..next] + d[next..];
    }
  }

  lemma {:induction false} UnprefixedComplete(d: bytes, pos: nat, nals: seq<bytes>)
    requires pos <= |d| && Sized(nals) && d[pos..] == Prefixed(nals)
    ensures Unprefixed(d, pos) == Some(nals)
    decreases |nals|
  {
    if nals != [] {
      var len := |nals[0]|;
      var tail := Prefixed(nals[1..]);
      assert d[pos..] == Be32(len) + (nals[0] + tail);
      Cut(d, pos, Be32(len), nals[0] + tail);
      Cut(d, pos + 4, nals[0], tail);
      Rd32Be32(len);
      UnprefixedComplete(d, pos + 4 + len, nals[1..]);
      assert [nals[0]] + nals[1..] == nals;
    }
  }

  /** The parser accepts exactly the encodings of describable lists, and inverts them. */
  lemma PrefixRoundTrip(d: bytes, nals: seq<bytes>)
    ensures Unprefixed(d, 0) == Some(nals) <==> Sized(nals) && d == Prefixed(nals)
  {
    assert d[0..] == d;
    if Unprefixed(d, 0).Some? {
      UnprefixedSound(d, 0);
    }
    if Sized(nals) && d == Prefixed(nals) {
      UnprefixedComplete(d, 0, nals);
    }
  }

  method ToLengthPrefixed(nals: seq<bytes>) returns (out: bytes)
    ensures out == Prefixed(nals)
  {
    out := [];
    for i := 0 to |nals|
      invariant Prefixed(nals) == out + Prefixed(nals[i..])
    {
      out := out + Be32(|nals[i]|) + nals[i];
    }
  }

  method FromLengthPrefixed(data: bytes) returns (r: Option<seq<bytes>>)
    ensures r == Unprefixed(data, 0)
  {
    var out: seq<bytes> := [];
    var pos := 0;
    PrependNothing(Unprefixed(data, 0));
    while pos < |data|
      invariant pos <= |data|
      invariant Unprefixed(data, 0) == Prepend(out, Unprefixed(data, pos))
      decreases |data| - pos
    {
      if |data| < pos + 4 {
        return None;
      }
      var len := Rd32(data[pos..pos + 4]);
      if len == 0 {
        return None;
      }
      pos := pos + 4;
      if |data| < pos + len {
        return None;
      }
      PrependStep(out, data[pos..pos + len], Unprefixed(data, pos + len));
      out := out + [data[pos..pos + len]];
      pos := pos + len;
    }
    assert out + [] == out;
    return Some(out);
  }
}
