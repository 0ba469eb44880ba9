/**
  FLV tags on a byte stream, and the incremental parser that cuts the stream back into tags
  (Adobe Flash Video File Format 10.1, annex E).
 */
module FlvTags {
  import opened Bytes

  /** One tag: type, 32-bit timestamp and body. */
  datatype FlvTag = FlvTag(mtype: byte, ts: nat, body: bytes)

  /** A tag whose fields fit the widths the format gives them. */
  predicate Encodable(tag: FlvTag) {
    tag.ts < TWO_32 && |tag.body| < TWO_24
  }

  /** The 9-byte file header and the first PreviousTagSize. */
  const FILE_HEADER: bytes := [0x46, 0x4C, 0x56, 1, 5, 0, 0, 0, 9, 0, 0, 0, 0]

  const MAX_DATA_OFFSET := 4096

  function TagHeader(tag: FlvTag): (h: bytes)
    ensures |h| == 11
  {
    [tag.mtype] + Be24(|tag.body|) + Be24(tag.ts) + [tag.ts / TWO_24 % 0x100] + [0, 0, 0]
  }

  function TagBytes(tag: FlvTag): bytes {
    TagHeader(tag) + tag.body + Be32(11 + |tag.body|)
  }

  function TagsBytes(tags: seq<FlvTag>): bytes {
    if tags == [] then [] else TagBytes(tags[0]) + TagsBytes(tags[1..])
  }

  // ---------------------------------------------------------------------------------
  // The parser as a function of its state
  // ---------------------------------------------------------------------------------

  datatype Phase = Header | AtTag | InBody | AtPrevSize

  datatype TagHead = TagHead(mtype: byte, size: nat, ts: nat)

  datatype Parser = Parser(phase: Phase, buf: bytes, cur: Option<TagHead>)

  const FRESH := Parser(Header, [], None)

  /** Between two tags, with nothing buffered. */
  const CLEAN := Parser(AtTag, [], None)

  /** What the parser can do next: wait for bytes, reject the stream, or move on. */
  datatype Step = Wait | Reject | Go(next: Parser, tags: seq<FlvTag>)

  function HeadOf(b: bytes): TagHead
    requires |b| == 11
  {
    TagHead(b[0], Rd24(b[1..4]), b[7] as int * TWO_24 + Rd24(b[4..7]))
  }

  function StepOf(p: Parser): Step {
    match p.phase
    case Header =>
      if |p.buf| < 13 then Wait
      else if p.buf[..3] != FILE_HEADER[..3] || p.buf[3] != 1 then Reject
      else
        var off := Rd32(p.buf[5..9]);
        if !(9 <= off <= MAX_DATA_OFFSET) then Reject
        else if |p.buf| < off + 4 then Wait
        else Go(p.(buf := p.buf[off + 4..], phase := AtTag), [])
    case AtTag =>
      if |p.buf| < 11 then Wait
      else Go(Parser(InBody, p.buf[11..], Some(HeadOf(p.buf[..11]))), [])
    case InBody =>
      if p.cur.None? then Go(p.(phase := AtTag), [])
      else
        var head := p.cur.value;
        if |p.buf| < head.size then Wait
        else Go(Parser(AtPrevSize, p.buf[head.size..], None),
                [FlvTag(head.mtype, head.ts, p.buf[..head.size])])
    case AtPrevSize =>
      if |p.buf| < 4 then Wait
      else Go(p.(buf := p.buf[4..], phase := AtTag), [])
  }

  /** Moving on shrinks the buffer or, with an empty body, leaves the body phase. */
  function Rank(p: Parser): nat {
    if p.phase == InBody then 1 else 0
  }

  lemma StepDecreases(p: Parser)
    requires StepOf(p).Go?
    ensures var q := StepOf(p).next; |q.buf| < |p.buf| || (|q.buf| == |p.buf| && Rank(q) < Rank(p))
  {
  }

  /** What a feed leaves: the tags it completed, the parser, and whether it rejected the stream. */
  datatype Fed = Fed(tags: seq<FlvTag>, parser: Parser, rejected: bool)

  /** The same outcome, after tags that were completed before. */
  function After(tags: seq<FlvTag>, fed: Fed): Fed {
    fed.(tags := tags + fed.tags)
  }

  lemma AfterAfter(xs: seq<FlvTag>, ys: seq<FlvTag>, fed: Fed)
    ensures After(xs, After(ys, fed)) == After(xs + ys, fed) && After([], fed) == fed
  {
    assert xs + (ys + fed.tags) == xs + ys + fed.tags;
    assert [] + fed.tags == fed.tags;
  }

  /** Runs the parser until it waits or rejects. */
  function Drain(p: Parser): Fed
    decreases |p.buf|, Rank(p)
  {
    match StepOf(p)
    case Wait => Fed([], p, false)
    case Reject => Fed([], p, true)
    case Go(next, tags) =>
      StepDecreases(p);
      After(tags, Drain(next))
  }

  function Feed(p: Parser, data: bytes): Fed {
    Drain(p.(buf := p.buf + data))
  }

  /** Feeds one piece after the other. */
  function FeedAll(p: Parser, pieces: seq<bytes>): Fed
    decreases |pieces|
  {
    if pieces == [] then Fed([], p, false)
    else
      var first := Feed(p, pieces[0]);
      var rest := FeedAll(first.parser, pieces[1..]);
      Fed(first.tags + rest.tags, rest.parser, first.rejected || rest.rejected)
  }

  // ---------------------------------------------------------------------------------
  // Incremental parsing is one-shot parsing
  // ---------------------------------------------------------------------------------

  lemma StepExtends(p: Parser, more: bytes)
    ensures var q := p.(buf := p.buf + more);
            && (StepOf(p).Reject? ==> StepOf(q).Reject?)
            && (StepOf(p).Go? ==>
                  StepOf(q) == Go(StepOf(p).next.(buf := StepOf(p).next.buf + more), StepOf(p).tags))
  {
    var buf := p.buf + more;
    if p.phase == Header && |p.buf| >= 13 {
      assert buf[..3] == p.buf[..3] && buf[5..9] == p.buf[5..9];
      var off := Rd32(p.buf[5..9]);
      if |p.buf| >= off + 4 {
        assert buf[off + 4..] == p.buf[off + 4..] + more;
      }
    } else if p.phase == AtTag && |p.buf| >= 11 {
      assert buf[..11] == p.buf[..11] && buf[11..] == p.buf[11..] + more;
    } else if p.phase == InBody && p.cur.Some? && |p.buf| >= p.cur.value.size {
      var size := p.cur.value.size;
      assert buf[..size] == p.buf[..size] && buf[size..] == p.buf[size..] + more;
    } else if p.phase == AtPrevSize && |p.buf| >= 4 {
      assert buf[4..] == p.buf[4..] + more;
    }
  }

  /** Bytes that arrive later are parsed as if they had been there from the start. */
  lemma {:induction false} DrainExtends(p: Parser, more: bytes)
    ensures var a := Drain(p);
            var b := Drain(a.parser.(buf := a.parser.buf + more));
            Drain(p.(buf := p.buf + more)) == After(a.tags, b)
    ensures Drain(p).rejected ==> Feed(p, more).rejected
    decreases |p.buf|, Rank(p)
  {
    StepExtends(p, more);
    match StepOf(p)
    case Wait =>
    case Reject =>
    case Go(next, tags) =>
      StepDecreases(p);
      DrainExtends(next, more);
      var a := Drain(next);
      var b := Drain(a.parser.(buf := a.parser.buf + more));
      AfterAfter(tags, a.tags, b);
  }

  /** A rejection happens in the file header, before any tag: no completed tag is ever lost. */
  lemma {:induction false} RejectedEmpty(p: Parser)
    ensures Drain(p).rejected ==> p.phase == Header && Drain(p) == Fed([], p, true)
    decreases |p.buf|, Rank(p)
  {
    if StepOf(p).Go? {
      StepDecreases(p);
      RejectedEmpty(StepOf(p).next);
    }
  }

  lemma {:induction false} DrainSettles(p: Parser)
    ensures !Drain(p).rejected ==> StepOf(Drain(p).parser).Wait?
    ensures Drain(p).rejected ==> StepOf(Drain(p).parser).Reject?
    decreases |p.buf|, Rank(p)
  {
    if StepOf(p).Go? {
      StepDecreases(p);
      DrainSettles(StepOf(p).next);
    }
  }

  lemma {:induction false} FeedAllSettled(p: Parser, pieces: seq<bytes>)
    requires !StepOf(p).Go?
    ensures var all := FeedAll(p, pieces);
            Feed(p, Flat(pieces)) == all.(rejected := all.rejected || StepOf(p).Reject?)
    decreases |pieces|
  {
    hide StepOf;
    if pieces == [] {
      assert p.buf + [] == p.buf;
    } else {
      var first := Feed(p, pieces[0]);
      var q := p.(buf := p.buf + pieces[0]);
      DrainSettles(q);
      FeedAllSettled(first.parser, pieces[1..]);
      DrainExtends(q, Flat(pieces[1..]));
      assert q.buf + Flat(pieces[1..]) == p.buf + Flat(pieces);
      StepExtends(p, pieces[0]);
    }
  }

  /**
    However a byte string is cut into feeds, a parser that still waits returns the same tags,
    ends in the same state and rejects exactly when the single feed does.
   */
  lemma IncrementalParsing(p: Parser, pieces: seq<bytes>)
    requires StepOf(p).Wait?
    ensures FeedAll(p, pieces) == Feed(p, Flat(pieces))
  {
    FeedAllSettled(p, pieces);
  }

  // ---------------------------------------------------------------------------------
  // The parser inverts the encoder
  // ---------------------------------------------------------------------------------

  lemma HeadOfHeader(tag: FlvTag)
    requires Encodable(tag)
    ensures HeadOf(TagHeader(tag)) == TagHead(tag.mtype, |tag.body|, tag.ts)
  {
    var h := TagHeader(tag);
    assert h[1..4] == Be24(|tag.body|) && h[4..7] == Be24(tag.ts) && h[7] == tag.ts / TWO_24 % 0x100;
    Rd24Be24(|tag.body|);
    Rd32Be32(tag.ts);
  }

  /** What follows one encoded tag is parsed from the clean state. */
  lemma ParseTag(tag: FlvTag, more: bytes)
    requires Encodable(tag)
    ensures Drain(Parser(AtTag, TagBytes(tag) + more, None)) == After([tag], Drain(Parser(AtTag, more, None)))
  {
    var tail := Be32(11 + |tag.body|) + more;
    var p0 := Parser(AtTag, TagBytes(tag) + more, None);
    var p1 := Parser(InBody, tag.body + tail, Some(TagHead(tag.mtype, |tag.body|, tag.ts)));
    var p2 := Parser(AtPrevSize, tail, None);
    var p3 := Parser(AtTag, more, None);
    assert StepOf(p0) == Go(p1, []) by {
      assert p0.buf == TagHeader(tag) + (tag.body + tail);
      assert p0.buf[..11] == TagHeader(tag) && p0.buf[11..] == tag.body + tail;
      HeadOfHeader(tag);
    }
    assert StepOf(p1) == Go(p2, [tag]) by {
      assert p1.buf[..|tag.body|] == tag.body && p1.buf[|tag.body|..] == tail;
    }
    assert StepOf(p2) == Go(p3, []) by {
      assert tail[4..] == more;
    }
    DrainGo(p0);
    DrainGo(p1);
    DrainGo(p2);
    AfterAfter([], [], Drain(p3));
    AfterAfter([], [tag], Drain(p3));
  }

  /** The tags of an encoded tag that is cut off: a tag is seen once its body is there, trailing size or not. */
  lemma ParseCut(tag: FlvTag, n: nat)
    requires Encodable(tag) && n <= |TagBytes(tag)|
    ensures Drain(Parser(AtTag, TagBytes(tag)[..n], None)).tags == if n >= 11 + |tag.body| then [tag] else []
  {
    hide Be24, HeadOf;
    var d, body := TagBytes(tag), tag.body;
    var p0 := Parser(AtTag, d[..n], None);
    assert d == TagHeader(tag) + (body + Be32(11 + |body|));
    if n >= 11 {
      HeadOfHeader(tag);
      var p1 := Parser(InBody, d[11..n], Some(TagHead(tag.mtype, |body|, tag.ts)));
      assert d[..n][..11] == TagHeader(tag) && d[..n][11..] == d[11..n];
      assert StepOf(p0) == Go(p1, []);
      DrainGo(p0);
      if n >= 11 + |body| {
        var p2 := Parser(AtPrevSize, d[11 + |body|..n], None);
        assert d[11..n][..|body|] == body && d[11..n][|body|..] == d[11 + |body|..n];
        assert StepOf(p1) == Go(p2, [tag]);
        DrainGo(p1);
        CutEnd(p2);
      }
    }
  }

  lemma CutEnd(p: Parser)
    requires p.phase == AtPrevSize && |p.buf| <= 4
    ensures Drain(p).tags == []
  {
    if StepOf(p).Go? {
      DrainGo(p);
    }
  }

  lemma DrainGo(p: Parser)
    requires StepOf(p).Go?
    ensures Drain(p) == After(StepOf(p).tags, Drain(StepOf(p).next))
  {
  }

  lemma {:induction false} ParseTags(tags: seq<FlvTag>, more: bytes)
    requires forall t :: t in tags ==> Encodable(t)
    ensures Drain(Parser(AtTag, TagsBytes(tags) + more, None)) == After(tags, Drain(Parser(AtTag, more, None)))
  {
    hide Drain, TagBytes;
    var rest := Drain(Parser(AtTag, more, None));
    if tags == [] {
      assert TagsBytes(tags) + more == more;
      AfterAfter([], [], rest);
    } else {
      ParseTags(tags[1..], more);
      ParseTag(tags[0], TagsBytes(tags[1..]) + more);
      assert TagsBytes(tags) + more == TagBytes(tags[0]) + (TagsBytes(tags[1..]) + more);
      AfterAfter([tags[0]], tags[1..], rest);
      assert [tags[0]] + tags[1..] == tags;
    }
  }

  /** Behind the header nothing is rejected. */
  lemma {:induction false} TagsNeverRejected(p: Parser)
    requires p.phase != Header
    ensures !Drain(p).rejected
    decreases |p.buf|, Rank(p)
  {
    hide HeadOf;
    if StepOf(p).Go? {
      StepDecreases(p);
      TagsNeverRejected(StepOf(p).next);
    }
  }

  /** A stream is rejected exactly when its first 13 bytes are no header of version 1 with a sane length. */
  lemma HeaderRejects(d: bytes)
    ensures Feed(FRESH, d).rejected <==>
      |d| >= 13 && (d[..3] != Ascii("FLV") || d[3] != 1 || Rd32(d[5..9]) < 9 || Rd32(d[5..9]) > 4096)
  {
    hide Drain;
    Signature();
    assert [] + d == d;
    var p := Parser(Header, d, None);
    DrainStart(p);
    if StepOf(p).Go? {
      TagsNeverRejected(StepOf(p).next);
    }
  }

  lemma DrainStart(p: Parser)
    ensures StepOf(p).Wait? ==> !Drain(p).rejected
    ensures StepOf(p).Reject? ==> Drain(p).rejected
    ensures StepOf(p).Go? ==> Drain(p).rejected == Drain(StepOf(p).next).rejected
  {
    hide StepOf;
    if StepOf(p).Go? {
      StepDecreases(p);
    }
  }

  /** The file header: the signature, version 1, audio and video present, nine bytes, and no tag before. */
  lemma Signature()
    ensures FILE_HEADER[..3] == Ascii("FLV") && FILE_HEADER[3..] == [1, 4 + 1, 0, 0, 0, 9, 0, 0, 0, 0]
  {
  }

  lemma ParseHeader(more: bytes)
    ensures Feed(FRESH, FILE_HEADER + more) == Drain(Parser(AtTag, more, None))
  {
    var d := FILE_HEADER + more;
    var p := Parser(AtTag, more, None);
    assert StepOf(Parser(Header, d, None)) == Go(p, []) by {
      assert d[..3] == FILE_HEADER[..3];
      assert d[3] == 1;
      assert d[5..9] == [0, 0, 0, 9];
      assert d[13..] == more;
    }
    DrainGo(Parser(Header, d, None));
    AfterAfter([], [], Drain(p));
    assert [] + d == d;
  }

  /** A stream of encodable tags is cut back into exactly those tags, with nothing left over. */
  lemma ParseFile(tags: seq<FlvTag>)
    requires forall t :: t in tags ==> Encodable(t)
    ensures Feed(FRESH, FILE_HEADER + TagsBytes(tags)) == Fed(tags, CLEAN, false)
  {
    ParseHeader(TagsBytes(tags));
    ParseTags(tags, []);
    assert TagsBytes(tags) + [] == TagsBytes(tags);
    assert tags + [] == tags;
  }

  // ---------------------------------------------------------------------------------
  // The parser in place
  // ---------------------------------------------------------------------------------

  datatype FlvError = BadHeader

  class FlvTagParser {
    var phase: Phase
    var buf: bytes
    var cur: Option<TagHead>

    function View(): Parser
      reads this
    {
      Parser(phase, buf, cur)
    }

    constructor ()
      ensures View() == FRESH
    {
      phase, buf, cur := Header, [], None;
    }

    /** One turn of the loop: what the phase allows with the bytes at hand. */
    method Advance() returns (step: Step)
      modifies this
      ensures step == StepOf(old(View()))
      ensures View() == if step.Go? then step.next else old(View())
    {
      match phase {
        case Header =>
          if |buf| < 13 {
            return Wait;
          }
          if buf[..3] != FILE_HEADER[..3] || buf[3] != 1 {
            return Reject;
          }
          var off := Rd32(buf[5..9]);
          if !(9 <= off <= MAX_DATA_OFFSET) {
            return Reject;
          }
          if |buf| < off + 4 {
            return Wait;
          }
          buf := buf[off + 4..];
          phase := AtTag;
          return Go(View(), []);
        case AtTag =>
          if |buf| < 11 {
            return Wait;
          }
          cur := Some(HeadOf(buf[..11]));
          buf := buf[11..];
          phase := InBody;
          return Go(View(), []);
        case InBody =>
          if cur.None? {
            phase := AtTag;
            return Go(View(), []);
          }
          var head := cur.value;
          if |buf| < head.size {
            return Wait;
          }
          var tag := FlvTag(head.mtype, head.ts, buf[..head.size]);
          buf := buf[head.size..];
          cur := None;
          phase := AtPrevSize;
          return Go(View(), [tag]);
        case AtPrevSize =>
          if |buf| < 4 {
            return Wait;
          }
          buf := buf[4..];
          phase := AtTag;
          return Go(View(), []);
      }
    }

    /** Feeds more bytes; returns every tag this completes. */
    method FeedBytes(data: bytes) returns (r: Result<seq<FlvTag>, FlvError>)
      modifies this
      ensures View() == Feed(old(View()), data).parser
      ensures r == if Feed(old(View()), data).rejected then Err(BadHeader) else Ok(Feed(old(View()), data).tags)
    {
      hide StepOf;
      ghost var all := Feed(View(), data);
      buf := buf + data;
      var tags: seq<FlvTag> := [];
      AfterAfter([], [], Drain(View()));
      while true
        invariant all == After(tags, Drain(View()))
        decreases |buf|, Rank(View())
      {
        ghost var before := View();
        var step := Advance();
        match step {
          case Wait =>
            assert tags + [] == tags;
            return Ok(tags);
          case Reject =>
            return Err(BadHeader);
          case Go(_, more) =>
            StepDecreases(before);
            AfterAfter(tags, more, Drain(View()));
            tags := tags + more;
        }
      }
    }
  }
}
