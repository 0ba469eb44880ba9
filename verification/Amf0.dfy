/**
  AMF0 values on the wire (AMF0 specification, sections 2.5 and 2.10): the writer, the reader,
  and their round trip. A double is its eight bytes, a string its UTF-8 bytes.
 */
module Amf0 {
  import opened Bytes

  const TYPE_NUMBER: byte := 0
  const TYPE_BOOLEAN: byte := 1
  const TYPE_STRING: byte := 2
  const TYPE_OBJECT: byte := 3
  const TYPE_NULL: byte := 5
  const TYPE_UNDEFINED: byte := 6
  const TYPE_ECMA_ARRAY: byte := 8
  const TYPE_OBJECT_END: byte := 9

  /** A decoded value. */
  datatype Val =
    | Number(bits: bytes)
    | Boolean(b: bool)
    | Str(s: bytes)
    | Object(fields: seq<(bytes, Val)>)
    | Null
    | Undefined

  /** A value that the writer can put inside an object. */
  datatype ObjVal = Num(bits: bytes) | Bool(b: bool) | Text(s: bytes)

  /** One call of the writer. */
  datatype Item =
    | NumberItem(bits: bytes)
    | BooleanItem(b: bool)
    | StringItem(s: bytes)
    | NullItem
    | ObjectItem(entries: seq<(bytes, ObjVal)>)
    | EcmaItem(numbers: seq<(bytes, bytes)>)

  // ---------------------------------------------------------------------------------
  // Writing
  // ---------------------------------------------------------------------------------

  function EncodeKey(s: bytes): bytes {
    Be16(|s|) + s
  }

  function EncodeField(v: ObjVal): bytes {
    match v
    case Num(bits) => [TYPE_NUMBER] + bits
    case Bool(b) => [TYPE_BOOLEAN, if b then 1 else 0]
    case Text(s) => [TYPE_STRING] + EncodeKey(s)
  }

  function EncodeEntries(entries: seq<(bytes, ObjVal)>): bytes {
    if entries == [] then []
    else EncodeKey(entries[0].0) + EncodeField(entries[0].1) + EncodeEntries(entries[1..])
  }

  const END_MARKER: bytes := [0, 0, TYPE_OBJECT_END]

  function Numbers(entries: seq<(bytes, bytes)>): seq<(bytes, ObjVal)> {
    seq(|entries|, i requires 0 <= i < |entries| => (entries[i].0, Num(entries[i].1)))
  }

  function Encode(item: Item): bytes {
    match item
    case NumberItem(bits) => EncodeField(Num(bits))
    case BooleanItem(b) => EncodeField(Bool(b))
    case StringItem(s) => EncodeField(Text(s))
    case NullItem => [TYPE_NULL]
    case ObjectItem(entries) => [TYPE_OBJECT] + EncodeEntries(entries) + END_MARKER
    case EcmaItem(entries) =>
      [TYPE_ECMA_ARRAY] + Be32(|entries|) + EncodeEntries(Numbers(entries)) + END_MARKER
  }

  function EncodeAll(items: seq<Item>): bytes {
    if items == [] then [] else Encode(items[0]) + EncodeAll(items[1..])
  }

  class Writer {
    var buf: bytes

    constructor ()
      ensures buf == []
    {
      buf := [];
    }

    method PutNumber(bits: bytes)
      modifies this
      ensures buf == old(buf) + Encode(NumberItem(bits))
    {
      buf := buf + [TYPE_NUMBER];
      buf := buf + bits;
      assert buf == old(buf) + ([TYPE_NUMBER] + bits);
    }

    method PutBoolean(b: bool)
      modifies this
      ensures buf == old(buf) + Encode(BooleanItem(b))
    {
      buf := buf + [TYPE_BOOLEAN];
      buf := buf + [if b then 1 else 0];
      assert buf == old(buf) + [TYPE_BOOLEAN, if b then 1 else 0];
    }

    method PutString(s: bytes)
      modifies this
      ensures buf == old(buf) + Encode(StringItem(s))
    {
      buf := buf + [TYPE_STRING];
      buf := buf + Be16(|s|);
      buf := buf + s;
      assert buf == old(buf) + ([TYPE_STRING] + (Be16(|s|) + s));
    }

    method PutNull()
      modifies this
      ensures buf == old(buf) + Encode(NullItem)
    {
      buf := buf + [TYPE_NULL];
    }

    method PutKey(k: bytes)
      modifies this
      ensures buf == old(buf) + EncodeKey(k)
    {
      buf := buf + Be16(|k|);
      buf := buf + k;
      assert buf == old(buf) + (Be16(|k|) + k);
    }

    method PutObject(entries: seq<(bytes, ObjVal)>)
      modifies this
      ensures buf == old(buf) + Encode(ObjectItem(entries))
    {
      hide EncodeKey, EncodeField;
      buf := buf + [TYPE_OBJECT];
      ghost var start := buf;
      for i := 0 to |entries|
        invariant buf + EncodeEntries(entries[i..]) == start + EncodeEntries(entries)
      {
        EntryStep(buf, entries, i);
        PutKey(entries[i].0);
        match entries[i].1 {
          case Num(bits) => PutNumber(bits);
          case Bool(b) => PutBoolean(b);
          case Text(s) => PutString(s);
        }
      }
      assert buf == start + EncodeEntries(entries);
      buf := buf + END_MARKER;
      assert buf == old(buf) + ([TYPE_OBJECT] + EncodeEntries(entries) + END_MARKER);
    }

    method PutEcmaArray(entries: seq<(bytes, bytes)>)
      modifies this
      ensures buf == old(buf) + Encode(EcmaItem(entries))
    {
      hide EncodeKey, EncodeField;
      buf := buf + [TYPE_ECMA_ARRAY];
      buf := buf + Be32(|entries|);
      ghost var start, all := buf, Numbers(entries);
      for i := 0 to |entries|
        invariant buf + EncodeEntries(all[i..]) == start + EncodeEntries(all)
      {
        EntryStep(buf, all, i);
        PutKey(entries[i].0);
        PutNumber(entries[i].1);
      }
      assert buf == start + EncodeEntries(all);
      buf := buf + END_MARKER;
      assert buf == old(buf) + ([TYPE_ECMA_ARRAY] + Be32(|entries|) + EncodeEntries(all) + END_MARKER);
    }
  }

  lemma EntryStep(buf: bytes, entries: seq<(bytes, ObjVal)>, i: nat)
    requires i < |entries|
    ensures buf + EncodeEntries(entries[i..]) ==
            buf + EncodeKey(entries[i].0) + EncodeField(entries[i].1) + EncodeEntries(entries[i + 1..])
    ensures EncodeField(entries[i].1) ==
            match entries[i].1
            case Num(bits) => Encode(NumberItem(bits))
            case Bool(b) => Encode(BooleanItem(b))
            case Text(s) => Encode(StringItem(s))
  {
    var a, b, c := EncodeKey(entries[i].0), EncodeField(entries[i].1), EncodeEntries(entries[i + 1..]);
    assert entries[i..][1..] == entries[i + 1..];
    assert buf + (a + b + c) == buf + a + b + c;
  }

  // ---------------------------------------------------------------------------------
  // Reading
  // ---------------------------------------------------------------------------------

  datatype Parsed<T> = Parsed(value: T, pos: nat)

  function ReadText(d: bytes, pos: nat): (r: Option<Parsed<bytes>>)
    ensures r.Some? ==> pos + 2 <= r.value.pos <= |d|
  {
    if |d| < pos + 2 then None
    else
      var len := Rd16(d[pos..pos + 2]);
      if |d| < pos + 2 + len then None else Some(Parsed(d[pos + 2..pos + 2 + len], pos + 2 + len))
  }

  /** What stands where a key is due: nothing, the end marker, or a key and what follows it. */
  datatype KeyRead = NoKey | EndMarker(pos: nat) | Key(key: bytes, pos: nat)

  /**
    An empty key is a value's only when no end marker follows: the source reads one byte ahead
    and steps back.
   */
  function ReadKey(d: bytes, pos: nat): (r: KeyRead)
    ensures !r.NoKey? ==> pos + 2 <= r.pos <= |d|
  {
    var key := ReadText(d, pos);
    if key.None? then NoKey
    else if key.value.value != [] then Key(key.value.value, key.value.pos)
    else if |d| < pos + 3 then NoKey
    else if d[pos + 2] == TYPE_OBJECT_END then EndMarker(pos + 3)
    else Key([], pos + 2)
  }

  /** Entries up to the end marker or, with a count, up to that many entries and three more bytes. */
  function ReadEntries(d: bytes, pos: nat, left: Option<nat>): (r: Option<Parsed<seq<(bytes, Val)>>>)
    ensures r.Some? ==> pos < r.value.pos <= |d|
    decreases |d| - pos
  {
    if left == Some(0) then
      if |d| < pos + 2 then None
      else Some(Parsed([], if |d| < pos + 3 then pos + 2 else pos + 3))
    else
      match ReadKey(d, pos)
      case NoKey => None
      case EndMarker(next) => Some(Parsed([], next))
      case Key(key, at) =>
        var val := ReadValue(d, at);
        if val.None? then None
        else EntriesAfter([(key, val.value.value)], ReadEntries(d, val.value.pos,
            if left.None? then None else Some(left.value - 1)))
  }

  function ReadValue(d: bytes, pos: nat): (r: Option<Parsed<Val>>)
    ensures r.Some? ==> pos < r.value.pos <= |d|
    decreases |d| - pos
  {
    if |d| < pos + 1 then None
    else if d[pos] == TYPE_NUMBER then
      if |d| < pos + 9 then None else Some(Parsed(Number(d[pos + 1..pos + 9]), pos + 9))
    else if d[pos] == TYPE_BOOLEAN then
      if |d| < pos + 2 then None else Some(Parsed(Boolean(d[pos + 1] != 0), pos + 2))
    else if d[pos] == TYPE_STRING then
      var s := ReadText(d, pos + 1);
      if s.None? then None else Some(Parsed(Str(s.value.value), s.value.pos))
    else if d[pos] == TYPE_OBJECT then
      var f := ReadEntries(d, pos + 1, None);
      if f.None? then None else Some(Parsed(Object(f.value.value), f.value.pos))
    else if d[pos] == TYPE_ECMA_ARRAY then
      if |d| < pos + 5 then None
      else
        var f := ReadEntries(d, pos + 5, Some(Rd32(d[pos + 1..pos + 5])));
        if f.None? then None else Some(Parsed(Object(f.value.value), f.value.pos))
    else if d[pos] == TYPE_NULL then Some(Parsed(Null, pos + 1))
    else if d[pos] == TYPE_UNDEFINED then Some(Parsed(Undefined, pos + 1))
    else None
  }

  /** Every value up to the end of the input or the first thing that is none. */
  function ReadAll(d: bytes, pos: nat): seq<Val>
    decreases |d| - pos
  {
    var v := ReadValue(d, pos);
    if v.None? then [] else [v.value.value] + ReadAll(d, v.value.pos)
  }

  // ---------------------------------------------------------------------------------
  // Where a value stands makes no difference
  // ---------------------------------------------------------------------------------

  /** The same reading at two places: nothing at both, or equal values that end equally far behind. */
  predicate Moved<T(==)>(x: Option<Parsed<T>>, pos: nat, y: Option<Parsed<T>>, at: nat) {
    x.Some? == y.Some? && (x.Some? ==> x.value.value == y.value.value && x.value.pos - pos == y.value.pos - at)
  }

  predicate SameFrom(d: bytes, pos: nat, e: bytes, at: nat) {
    pos <= |d| && at <= |e| && d[pos..] == e[at..]
  }

  lemma SameBytes(d: bytes, pos: nat, e: bytes, at: nat, k: nat, n: nat)
    requires SameFrom(d, pos, e, at) && k + n <= |d| - pos
    ensures |d| - pos == |e| - at && d[pos + k..pos + k + n] == e[at + k..at + k + n]
    ensures SameFrom(d, pos + k, e, at + k)
    ensures k < |d| - pos ==> d[pos + k] == e[at + k]
  {
    assert d[pos..][k..k + n] == d[pos + k..pos + k + n] && e[at..][k..k + n] == e[at + k..at + k + n];
    assert d[pos..][k..] == d[pos + k..] && e[at..][k..] == e[at + k..];
    assert |d[pos..]| == |e[at..]|;
    assert k < |d| - pos ==> d[pos..][k] == d[pos + k] && e[at..][k] == e[at + k];
  }

  lemma TextMoves(d: bytes, pos: nat, e: bytes, at: nat)
    requires SameFrom(d, pos, e, at)
    ensures Moved(ReadText(d, pos), pos, ReadText(e, at), at)
  {
    SameBytes(d, pos, e, at, 0, 0);
    if |d| >= pos + 2 {
      SameBytes(d, pos, e, at, 0, 2);
      var len := Rd16(d[pos..pos + 2]);
      if |d| >= pos + 2 + len {
        SameBytes(d, pos, e, at, 2, len);
      }
    }
  }

  lemma KeyMoves(d: bytes, pos: nat, e: bytes, at: nat)
    requires SameFrom(d, pos, e, at)
    ensures match (ReadKey(d, pos), ReadKey(e, at))
            case (NoKey, NoKey) => true
            case (EndMarker(p), EndMarker(q)) => p - pos == q - at
            case (Key(k, p), Key(l, q)) => k == l && p - pos == q - at
            case _ => false
  {
    TextMoves(d, pos, e, at);
    SameBytes(d, pos, e, at, 0, 0);
    if |d| >= pos + 3 {
      SameBytes(d, pos, e, at, 2, 1);
    }
  }

  /** What comes after an entry, moved, moves the entries. */
  lemma AfterMoves(first: seq<(bytes, Val)>, x: Option<Parsed<seq<(bytes, Val)>>>, pos: nat,
                   y: Option<Parsed<seq<(bytes, Val)>>>, at: nat)
    requires Moved(x, pos, y, at)
    ensures Moved(EntriesAfter(first, x), pos, EntriesAfter(first, y), at)
  {
  }

  lemma MovedFrom<T>(x: Option<Parsed<T>>, pos: nat, y: Option<Parsed<T>>, at: nat, k: nat)
    requires Moved(x, pos + k, y, at + k)
    ensures Moved(x, pos, y, at)
  {
  }

  lemma {:induction false} EntriesMove(d: bytes, pos: nat, e: bytes, at: nat, left: Option<nat>)
    requires SameFrom(d, pos, e, at)
    ensures Moved(ReadEntries(d, pos, left), pos, ReadEntries(e, at, left), at)
    decreases |d| - pos
  {
    hide ReadValue, ReadKey, EntriesAfter;
    SameBytes(d, pos, e, at, 0, 0);
    if left != Some(0) {
      KeyMoves(d, pos, e, at);
      var key := ReadKey(d, pos);
      if key.Key? {
        var k, next := key.pos - pos, ReadKey(e, at).pos;
        SameBytes(d, pos, e, at, k, 0);
        ValueMoves(d, key.pos, e, next);
        var val, fewer := ReadValue(d, key.pos), if left.None? then None else Some(left.value - 1);
        if val.Some? {
          var p, q := val.value.pos, ReadValue(e, next).value.pos;
          SameBytes(d, pos, e, at, p - pos, 0);
          EntriesMove(d, p, e, q, fewer);
          MovedFrom(ReadEntries(d, p, fewer), pos, ReadEntries(e, q, fewer), at, p - pos);
          AfterMoves([(key.key, val.value.value)], ReadEntries(d, p, fewer), pos, ReadEntries(e, q, fewer), at);
        }
      }
    }
  }

  lemma {:induction false} ValueMoves(d: bytes, pos: nat, e: bytes, at: nat)
    requires SameFrom(d, pos, e, at)
    ensures Moved(ReadValue(d, pos), pos, ReadValue(e, at), at)
    decreases |d| - pos
  {
    hide ReadEntries, ReadText;
    SameBytes(d, pos, e, at, 0, 0);
    if |d| >= pos + 1 {
      SameBytes(d, pos, e, at, 0, 1);
      SameBytes(d, pos, e, at, 1, 0);
      if d[pos] == TYPE_NUMBER {
        if |d| >= pos + 9 {
          SameBytes(d, pos, e, at, 1, 8);
        }
      } else if d[pos] == TYPE_BOOLEAN {
        if |d| >= pos + 2 {
          SameBytes(d, pos, e, at, 1, 1);
        }
      } else if d[pos] == TYPE_STRING {
        TextMoves(d, pos + 1, e, at + 1);
      } else if d[pos] == TYPE_OBJECT {
        EntriesMove(d, pos + 1, e, at + 1, None);
      } else if d[pos] == TYPE_ECMA_ARRAY {
        if |d| >= pos + 5 {
          SameBytes(d, pos, e, at, 1, 4);
          SameBytes(d, pos, e, at, 5, 0);
          EntriesMove(d, pos + 5, e, at + 5, Some(Rd32(d[pos + 1..pos + 5])));
        }
      }
    }
  }

  /** What is read depends on the bytes from there on only. */
  lemma {:induction false} AllMoves(d: bytes, pos: nat, e: bytes, at: nat)
    requires SameFrom(d, pos, e, at)
    ensures ReadAll(d, pos) == ReadAll(e, at)
    decreases |d| - pos
  {
    hide ReadValue;
    ValueMoves(d, pos, e, at);
    var v := ReadValue(d, pos);
    if v.Some? {
      SameBytes(d, pos, e, at, v.value.pos - pos, 0);
      AllMoves(d, v.value.pos, e, ReadValue(e, at).value.pos);
    }
  }

  // ---------------------------------------------------------------------------------
  // Round trip
  // ---------------------------------------------------------------------------------

  predicate FieldFits(v: ObjVal) {
    match v
    case Num(bits) => |bits| == 8
    case Bool(_) => true
    case Text(s) => |s| < TWO_16
  }

  predicate EntriesFit(entries: seq<(bytes, ObjVal)>) {
    forall i :: 0 <= i < |entries| ==> |entries[i].0| < TWO_16 && FieldFits(entries[i].1)
  }

  /** Doubles of eight bytes, strings and keys that a 16-bit length describes. */
  predicate Fits(item: Item) {
    match item
    case NumberItem(bits) => FieldFits(Num(bits))
    case BooleanItem(_) => true
    case StringItem(s) => FieldFits(Text(s))
    case NullItem => true
    case ObjectItem(entries) => EntriesFit(entries)
    case EcmaItem(entries) => EntriesFit(Numbers(entries)) && |entries| < TWO_32
  }

  function FieldValue(v: ObjVal): Val {
    match v
    case Num(bits) => Number(bits)
    case Bool(b) => Boolean(b)
    case Text(s) => Str(s)
  }

  function FieldValues(entries: seq<(bytes, ObjVal)>): seq<(bytes, Val)> {
    if entries == [] then []
    else [(entries[0].0, FieldValue(entries[0].1))] + FieldValues(entries[1..])
  }

  /** What each writer call means; an ECMA array reads back as an object. */
  function Meaning(item: Item): Val {
    match item
    case NumberItem(bits) => Number(bits)
    case BooleanItem(b) => Boolean(b)
    case StringItem(s) => Str(s)
    case NullItem => Null
    case ObjectItem(entries) => Object(FieldValues(entries))
    case EcmaItem(entries) => Object(FieldValues(Numbers(entries)))
  }

  function Meanings(items: seq<Item>): seq<Val> {
    if items == [] then [] else [Meaning(items[0])] + Meanings(items[1..])
  }

  lemma TextBack(d: bytes, pos: nat, s: bytes, tail: bytes)
    requires pos <= |d| && |s| < TWO_16 && d[pos..] == EncodeKey(s) + tail
    ensures ReadText(d, pos) == Some(Parsed(s, pos + 2 + |s|))
    ensures pos + 2 + |s| <= |d| && d[pos + 2 + |s|..] == tail
  {
    assert d[pos..] == Be16(|s|) + (s + tail);
    Cut(d, pos, Be16(|s|), s + tail);
    Cut(d, pos + 2, s, tail);
    Rd16Be16(|s|);
  }

  lemma FieldBack(d: bytes, pos: nat, v: ObjVal, tail: bytes)
    requires pos <= |d| && FieldFits(v) && d[pos..] == EncodeField(v) + tail
    ensures ReadValue(d, pos) == Some(Parsed(FieldValue(v), pos + |EncodeField(v)|))
    ensures pos + |EncodeField(v)| <= |d| && d[pos + |EncodeField(v)|..] == tail
    ensures d[pos] != TYPE_OBJECT_END
  {
    Cut(d, pos, EncodeField(v), tail);
    assert d[pos] == d[pos..][0] == EncodeField(v)[0];
    match v
    case Num(bits) =>
      assert d[pos..] == [TYPE_NUMBER] + (bits + tail);
      Cut(d, pos, [TYPE_NUMBER], bits + tail);
      Cut(d, pos + 1, bits, tail);
    case Bool(b) =>
      assert d[pos + 1] == d[pos..][1];
    case Text(s) =>
      assert d[pos..] == [TYPE_STRING] + (EncodeKey(s) + tail);
      Cut(d, pos, [TYPE_STRING], EncodeKey(s) + tail);
      TextBack(d, pos + 1, s, tail);
  }

  /** One entry: its key, its value, and the entries that follow. */
  lemma EntryBack(d: bytes, pos: nat, k: bytes, v: ObjVal, left: Option<nat>, more: bytes)
    requires pos <= |d| && |k| < TWO_16 && FieldFits(v) && (left.Some? ==> left.value > 0)
    requires d[pos..] == EncodeKey(k) + (EncodeField(v) + more)
    ensures var next := pos + 2 + |k| + |EncodeField(v)|;
            && next <= |d| && d[next..] == more
            && ReadEntries(d, pos, left) ==
               EntriesAfter([(k, FieldValue(v))], ReadEntries(d, next,
                   if left.None? then None else Some(left.value - 1)))
  {
    hide EncodeField, EncodeKey, ReadValue, ReadText;
    TextBack(d, pos, k, EncodeField(v) + more);
    FieldBack(d, pos + 2 + |k|, v, more);
  }

  lemma {:induction false} EntriesBack(d: bytes, pos: nat, entries: seq<(bytes, ObjVal)>, left: Option<nat>,
         tail: bytes)
    requires pos <= |d| && EntriesFit(entries) && (left.Some? ==> left.value == |entries|)
    requires d[pos..] == EncodeEntries(entries) + END_MARKER + tail
    ensures ReadEntries(d, pos, left) ==
            Some(Parsed(FieldValues(entries), pos + |EncodeEntries(entries)| + 3))
    ensures pos + |EncodeEntries(entries)| + 3 <= |d| && d[pos + |EncodeEntries(entries)| + 3..] == tail
    decreases |entries|
  {
    hide EncodeField, EncodeKey, ReadEntries;
    if entries == [] {
      assert d[pos..] == END_MARKER + tail;
      EndBack(d, pos, left, tail);
    } else {
      var (k, v) := entries[0];
      var more := EncodeEntries(entries[1..]) + END_MARKER + tail;
      assert d[pos..] == EncodeKey(k) + (EncodeField(v) + more);
      KeyLength(k);
      EntryBack(d, pos, k, v, left, more);
      var fewer := if left.None? then None else Some(|entries| - 1);
      EntriesBack(d, pos + 2 + |k| + |EncodeField(v)|, entries[1..], fewer, tail);
    }
  }

  lemma KeyLength(k: bytes)
    ensures |EncodeKey(k)| == 2 + |k|
  {
  }

  lemma EndBack(d: bytes, pos: nat, left: Option<nat>, tail: bytes)
    requires pos <= |d| && d[pos..] == END_MARKER + tail && (left.Some? ==> left.value == 0)
    ensures ReadEntries(d, pos, left) == Some(Parsed([], pos + 3))
    ensures pos + 3 <= |d| && d[pos + 3..] == tail
  {
    Cut(d, pos, END_MARKER, tail);
    assert d[pos + 2] == d[pos..][2] && d[pos..pos + 2] == d[pos..][..2] == [0, 0];
    assert d[pos + 2..pos + 2] == [];
  }

  lemma ItemBack(d: bytes, pos: nat, item: Item, tail: bytes)
    requires pos <= |d| && Fits(item) && d[pos..] == Encode(item) + tail
    ensures ReadValue(d, pos) == Some(Parsed(Meaning(item), pos + |Encode(item)|))
    ensures pos + |Encode(item)| <= |d| && d[pos + |Encode(item)|..] == tail
  {
    hide EncodeField, ReadEntries, EncodeEntries;
    Cut(d, pos, Encode(item), tail);
    match item
    case NumberItem(bits) => FieldBack(d, pos, Num(bits), tail);
    case BooleanItem(b) => FieldBack(d, pos, Bool(b), tail);
    case StringItem(s) => FieldBack(d, pos, Text(s), tail);
    case NullItem =>
      assert d[pos] == d[pos..][0];
    case ObjectItem(entries) =>
      assert d[pos..] == [TYPE_OBJECT] + (EncodeEntries(entries) + END_MARKER + tail);
      assert d[pos] == d[pos..][0];
      Cut(d, pos, [TYPE_OBJECT], EncodeEntries(entries) + END_MARKER + tail);
      EntriesBack(d, pos + 1, entries, None, tail);
    case EcmaItem(numbers) =>
      var entries := Numbers(numbers);
      var head := [TYPE_ECMA_ARRAY] + Be32(|numbers|);
      assert d[pos..] == head + (EncodeEntries(entries) + END_MARKER + tail);
      assert d[pos] == d[pos..][0];
      Cut(d, pos, head, EncodeEntries(entries) + END_MARKER + tail);
      assert d[pos + 1..pos + 5] == d[pos..pos + 5][1..] == Be32(|numbers|);
      Rd32Be32(|numbers|);
      EntriesBack(d, pos + 5, entries, Some(|numbers|), tail);
  }

  lemma {:induction false} ItemsBack(d: bytes, pos: nat, items: seq<Item>)
    requires pos <= |d| && d[pos..] == EncodeAll(items) && forall i :: 0 <= i < |items| ==> Fits(items[i])
    ensures ReadAll(d, pos) == Meanings(items)
    decreases |items|
  {
    hide Encode, Fits, ReadValue;
    if items == [] {
      assert pos == |d|;
      NothingThere(d);
    } else {
      ItemBack(d, pos, items[0], EncodeAll(items[1..]));
      ItemsBack(d, pos + |Encode(items[0])|, items[1..]);
    }
  }

  /** What other writers send: undefined values, arrays that end before their count, and arrays cut short behind it. */
  lemma OtherForms(entries: seq<(bytes, ObjVal)>, count: nat, tail: bytes)
    requires EntriesFit(entries) && count < TWO_32
    ensures ReadValue([TYPE_UNDEFINED] + tail, 0) == Some(Parsed(Undefined, 1))
    ensures forall flag: byte :: ReadValue([TYPE_BOOLEAN, flag] + tail, 0) == Some(Parsed(Boolean(flag != 0), 2))
    ensures |entries| < count ==>
      var d := [TYPE_ECMA_ARRAY] + Be32(count) + (EncodeEntries(entries) + END_MARKER + tail);
      ReadValue(d, 0) == Some(Parsed(Object(FieldValues(entries)), 8 + |EncodeEntries(entries)|))
    ensures ReadValue([TYPE_ECMA_ARRAY] + Be32(0) + [0, 0], 0) == Some(Parsed(Object([]), 7))
  {
    hide EncodeEntries, ReadEntries, FieldValues;
    var head := [TYPE_ECMA_ARRAY] + Be32(count);
    var d := head + (EncodeEntries(entries) + END_MARKER + tail);
    Rd32Be32(count);
    Rd32Be32(0);
    assert d[5..] == EncodeEntries(entries) + END_MARKER + tail;
    assert d[1..5] == Be32(count);
    if |entries| < count {
      EarlyEnd(d, 5, entries, count, tail);
    }
    var e := [TYPE_ECMA_ARRAY] + Be32(0) + [0, 0];
    assert e[1..5] == Be32(0);
    NoEntries(e);
  }

  lemma NoEntries(d: bytes)
    requires |d| == 7
    ensures ReadEntries(d, 5, Some(0)) == Some(Parsed([], 7))
  {
  }

  /** The end marker ends the entries whatever the count still says. */
  lemma {:induction false} EarlyEnd(d: bytes, pos: nat, entries: seq<(bytes, ObjVal)>, left: nat, tail: bytes)
    requires pos <= |d| && EntriesFit(entries) && |entries| < left
    requires d[pos..] == EncodeEntries(entries) + END_MARKER + tail
    ensures ReadEntries(d, pos, Some(left)) == Some(Parsed(FieldValues(entries), pos + |EncodeEntries(entries)| + 3))
    decreases |entries|
  {
    hide EncodeField, EncodeKey, ReadEntries;
    if entries == [] {
      assert d[pos..] == END_MARKER + tail;
      MarkerEnds(d, pos, left, tail);
    } else {
      var (k, v) := entries[0];
      var more := EncodeEntries(entries[1..]) + END_MARKER + tail;
      assert d[pos..] == EncodeKey(k) + (EncodeField(v) + more);
      KeyLength(k);
      EntryBack(d, pos, k, v, Some(left), more);
      EarlyEnd(d, pos + 2 + |k| + |EncodeField(v)|, entries[1..], left - 1, tail);
    }
  }

  lemma MarkerEnds(d: bytes, pos: nat, left: nat, tail: bytes)
    requires pos <= |d| && d[pos..] == END_MARKER + tail && left > 0
    ensures ReadEntries(d, pos, Some(left)) == Some(Parsed([], pos + 3))
  {
    Cut(d, pos, END_MARKER, tail);
    assert d[pos + 2] == d[pos..][2] && d[pos..pos + 2] == d[pos..][..2] == [0, 0];
    assert d[pos + 2..pos + 2] == [];
  }

  lemma NothingThere(d: bytes)
    ensures ReadAll(d, |d|) == []
  {
  }

  /** Whatever the writer was told to write, the reader returns exactly those values. */
  lemma RoundTrip(items: seq<Item>)
    requires forall i :: 0 <= i < |items| ==> Fits(items[i])
    ensures ReadAll(EncodeAll(items), 0) == Meanings(items)
  {
    hide Fits;
    assert EncodeAll(items)[0..] == EncodeAll(items);
    ItemsBack(EncodeAll(items), 0, items);
  }

  /** A string survives exactly when its length fits the field. */
  lemma StringRoundTrip(s: bytes)
    ensures ReadAll(Encode(StringItem(s)), 0) == [Str(s)] <==> |s| < TWO_16
  {
    var d := Encode(StringItem(s));
    if |s| < TWO_16 {
      assert EncodeAll([StringItem(s)]) == d + EncodeAll([]);
      assert d + [] == d;
      RoundTrip([StringItem(s)]);
      assert Meanings([StringItem(s)]) == [Str(s)] + Meanings([]);
    } else {
      hide ReadEntries;
      if ReadText(d, 1).Some? {
        assert ReadAll(d, 0)[0] == Str(ReadText(d, 1).value.value);
        assert |ReadText(d, 1).value.value| < TWO_16;
      }
    }
  }

  // ---------------------------------------------------------------------------------
  // The reader in place
  // ---------------------------------------------------------------------------------

  class Reader {
    const data: bytes
    var pos: nat

    constructor (data: bytes)
      ensures this.data == data && pos == 0
    {
      this.data, pos := data, 0;
    }

    predicate Valid()
      reads this
    {
      pos <= |data|
    }

    method Take(n: nat) returns (r: Option<bytes>)
      requires Valid()
      modifies this
      ensures Valid() && old(pos) <= pos
      ensures r.Some? <==> old(pos) + n <= |data|
      ensures r.Some? ==> r.value == data[old(pos)..old(pos) + n] && pos == old(pos) + n
    {
      if |data| < pos + n {
        return None;
      }
      r := Some(data[pos..pos + n]);
      pos := pos + n;
    }

    method TakeText() returns (r: Option<bytes>)
      requires Valid()
      modifies this
      ensures Valid() && old(pos) <= pos
      ensures r.Some? <==> ReadText(data, old(pos)).Some?
      ensures r.Some? ==> Parsed(r.value, pos) == ReadText(data, old(pos)).value
    {
      var len := Take(2);
      if len.None? {
        return None;
      }
      r := Take(Rd16(len.value));
    }

    /** Reads a key or the end marker; steps back over a type byte it read ahead. */
    method TakeKey() returns (r: KeyRead)
      requires Valid()
      modifies this
      ensures Valid() && old(pos) <= pos
      ensures r == ReadKey(data, old(pos)) && (!r.NoKey? ==> pos == r.pos)
    {
      var keylen := Take(2);
      if keylen.None? {
        return NoKey;
      }
      if Rd16(keylen.value) == 0 {
        var t := Take(1);
        if t.None? {
          return NoKey;
        }
        if t.value[0] == TYPE_OBJECT_END {
          return EndMarker(pos);
        }
        pos := pos - 1;
        return Key([], pos);
      }
      var raw := Take(Rd16(keylen.value));
      return if raw.None? then NoKey else Key(raw.value, pos);
    }

    /** The loop over entries, up to the end marker or the known count. */
    method TakeEntries(count: Option<nat>) returns (r: Option<seq<(bytes, Val)>>)
      requires Valid()
      modifies this
      ensures Valid() && old(pos) <= pos
      ensures r.Some? <==> ReadEntries(data, old(pos), count).Some?
      ensures r.Some? ==> Parsed(r.value, pos) == ReadEntries(data, old(pos), count).value
      decreases |data| - pos, 1
    {
      hide ReadValue, ReadKey;
      var out: seq<(bytes, Val)> := [];
      var n: nat := 0;
      ghost var start := pos;
      EntriesAfterNothing(ReadEntries(data, pos, count));
      while true
        invariant Valid() && start <= pos
        invariant count.Some? ==> n <= count.value
        invariant EntriesAfter(out, ReadEntries(data, pos, LeftOf(count, n))) == ReadEntries(data, start, count)
        decreases |data| - pos
      {
        assert out + [] == out;
        if count.Some? && n >= count.value {
          var marker := Take(2);
          if marker.None? {
            return None;
          }
          var last := Take(1);
          return Some(out);
        }
        var key := TakeKey();
        if key.NoKey? {
          return None;
        }
        if key.EndMarker? {
          return Some(out);
        }
        var v := TakeValue();
        if v.None? {
          return None;
        }
        EntriesAfterStep(out, (key.key, v.value), ReadEntries(data, pos, LeftOf(count, n + 1)));
        out := out + [(key.key, v.value)];
        n := n + 1;
      }
    }

    method TakeValue() returns (r: Option<Val>)
      requires Valid()
      modifies this
      ensures Valid() && old(pos) <= pos
      ensures r.Some? <==> ReadValue(data, old(pos)).Some?
      ensures r.Some? ==> Parsed(r.value, pos) == ReadValue(data, old(pos)).value
      decreases |data| - pos, 0
    {
      hide ReadEntries;
      var t := Take(1);
      if t.None? {
        return None;
      }
      var tag := t.value[0];
      if tag == TYPE_NUMBER {
        var b := Take(8);
        return if b.None? then None else Some(Number(b.value));
      } else if tag == TYPE_BOOLEAN {
        var b := Take(1);
        return if b.None? then None else Some(Boolean(b.value[0] != 0));
      } else if tag == TYPE_STRING {
        var s := TakeText();
        return if s.None? then None else Some(Str(s.value));
      } else if tag == TYPE_OBJECT {
        var f := TakeEntries(None);
        return if f.None? then None else Some(Object(f.value));
      } else if tag == TYPE_ECMA_ARRAY {
        var c := Take(4);
        if c.None? {
          return None;
        }
        var f := TakeEntries(Some(Rd32(c.value)));
        return if f.None? then None else Some(Object(f.value));
      } else if tag == TYPE_NULL {
        return Some(Null);
      } else if tag == TYPE_UNDEFINED {
        return Some(Undefined);
      }
      return None;
    }

    method TakeAll() returns (out: seq<Val>)
      requires Valid()
      modifies this
      ensures Valid() && out == ReadAll(data, old(pos))
    {
      hide ReadValue, ReadEntries;
      out := [];
      var v := Some(Null);
      ghost var start := pos;
      while v.Some?
        invariant Valid() && start <= pos
        invariant v.Some? ==> out + ReadAll(data, pos) == ReadAll(data, start)
        invariant v.None? ==> out == ReadAll(data, start)
        decreases |data| - pos, v.Some?
      {
        ghost var rest := ReadAll(data, pos);
        v := TakeValue();
        if v.Some? {
          assert out + ([v.value] + ReadAll(data, pos)) == out + [v.value] + ReadAll(data, pos);
          out := out + [v.value];
        } else {
          assert out + [] == out;
        }
      }
    }
  }

  function LeftOf(count: Option<nat>, n: nat): Option<nat>
    requires count.Some? ==> n <= count.value
  {
    if count.None? then None else Some(count.value - n)
  }

  function EntriesAfter(out: seq<(bytes, Val)>, r: Option<Parsed<seq<(bytes, Val)>>>): Option<Parsed<seq<(bytes,
      Val)>>> {
    if r.None? then None else Some(Parsed(out + r.value.value, r.value.pos))
  }

  lemma EntriesAfterNothing(r: Option<Parsed<seq<(bytes, Val)>>>)
    ensures EntriesAfter([], r) == r
  {
    if r.Some? {
      assert [] + r.value.value == r.value.value;
    }
  }

  lemma EntriesAfterStep(out: seq<(bytes, Val)>, e: (bytes, Val), r: Option<Parsed<seq<(bytes, Val)>>>)
    ensures EntriesAfter(out, EntriesAfter([e], r)) == EntriesAfter(out + [e], r)
  {
    if r.Some? {
      assert out + ([e] + r.value.value) == out + [e] + r.value.value;
    }
  }
}
