/** The chunk reader in place: reassembly slots, chunk size and byte counter over a byte source. */
module ChunkReading {
  import opened Bytes
  import opened Chunks

  /** A source that holds all the bytes it will ever give. */
  class ByteSource {
    const data: bytes
    var pos: nat

    predicate Valid()
      reads this
    {
      pos <= |data|
    }

    function Left(): bytes
      reads this
      requires Valid()
    {
      data[pos..]
    }

    constructor (data: bytes)
      ensures Valid() && Left() == data
    {
      this.data, pos := data, 0;
    }

    method ReadExact(n: nat) returns (r: Option<bytes>)
      requires Valid()
      modifies this
      ensures Valid()
      ensures r.Some? <==> n <= |old(Left())|
      ensures if r.Some? then r.value == old(Left())[..n] && pos == old(pos) + n else pos == old(pos)
    {
      if |data| < pos + n {
        return None;
      }
      r := Some(data[pos..pos + n]);
      pos := pos + n;
    }
  }

  datatype ReadError = Eof | ZeroChunkSize

  function Slots(states: seq<Option<ChunkState>>): Streams {
    map cid: nat | cid < |states| && states[cid].Some? :: states[cid].value
  }

  /** Grows the slot list to reach a stream id, as the source does on first sight of it. */
  function Grown(states: seq<Option<ChunkState>>, cid: nat): (r: seq<Option<ChunkState>>)
    ensures |r| > cid && Slots(r) == Slots(states)
    ensures (if r[cid].Some? then r[cid].value else NO_STATE) == StateOf(Slots(states), cid)
  {
    if cid < |states| then states else states + seq(cid + 1 - |states|, _ => None)
  }

  lemma SlotUpdate(states: seq<Option<ChunkState>>, cid: nat, st: ChunkState)
    requires cid < |states|
    ensures Slots(states[cid := Some(st)]) == Slots(states)[cid := st]
  {
  }

  class ChunkReader {
    var states: seq<Option<ChunkState>>
    var readChunkSize: nat
    var bytesRead: nat

    function View(): Reader
      reads this
    {
      Reader(Slots(states), readChunkSize)
    }

    constructor ()
      ensures View() == NEW_READER && bytesRead == 0
    {
      states, readChunkSize, bytesRead := seq(64, _ => None), DEFAULT_CHUNK_SIZE, 0;
      new;
      assert Slots(states) == map[];
    }

    /** Zero is refused; larger sizes than the reader accepts are clamped. */
    method SetChunkSize(size: nat) returns (ok: bool)
      modifies this
      ensures ok <==> size != 0
      ensures View() == if ok then old(View()).(size := Min(size, MAX_CHUNK_SIZE)) else old(View())
      ensures bytesRead == old(bytesRead)
    {
      if size == 0 {
        return false;
      }
      readChunkSize := Min(size, MAX_CHUNK_SIZE);
      return true;
    }

    /** Discards what was reassembled on one chunk stream. */
    method Abort(cid: nat)
      modifies this
      ensures View() == old(View()).(states := old(View()).states - {cid}) && bytesRead == old(bytesRead)
    {
      if cid < |states| {
        states := states[cid := None];
      }
    }

    method ReadCounted(sock: ByteSource, n: nat) returns (r: Option<bytes>)
      requires sock.Valid()
      modifies this`bytesRead, sock
      ensures sock.Valid()
      ensures r.Some? <==> n <= |old(sock.Left())|
      ensures r.Some? ==>
                && r.value == old(sock.Left())[..n]
                && sock.pos == old(sock.pos) + n && bytesRead == old(bytesRead) + n
      ensures r.None? ==> sock.pos == old(sock.pos) && bytesRead == old(bytesRead)
    {
      r := sock.ReadExact(n);
      if r.Some? {
        bytesRead := bytesRead + n;
      }
    }

    method ReadBasicHeader(sock: ByteSource) returns (r: Option<Basic>)
      requires sock.Valid()
      modifies this`bytesRead, sock
      ensures sock.Valid() && r == ReadBasic(old(sock.Left()))
      ensures r.Some? ==> sock.pos == old(sock.pos) + r.value.len && bytesRead == old(bytesRead) + r.value.len
      ensures bytesRead >= old(bytesRead) && (old(sock.Left()) == [] ==> bytesRead == old(bytesRead))
    {
      var bh := ReadCounted(sock, 1);
      if bh.None? {
        return None;
      }
      var fmt, cid := bh.value[0] / 64, bh.value[0] % 64;
      if cid == 0 {
        var ex := ReadCounted(sock, 1);
        if ex.None? {
          return None;
        }
        return Some(Basic(fmt, 64 + ex.value[0] as int, 2));
      } else if cid == 1 {
        var ex := ReadCounted(sock, 2);
        if ex.None? {
          return None;
        }
        return Some(Basic(fmt, 64 + ex.value[0] as int + ex.value[1] as int * 256, 3));
      }
      return Some(Basic(fmt, cid, 1));
    }

    /** Reads the message header of a chunk whose basic header took `at` bytes of `d`. */
    method ReadMessageHeader(sock: ByteSource, st: ChunkState, fmt: nat, ghost d: bytes, ghost at: nat)
        returns (r: Option<ChunkState>)
      requires sock.Valid() && fmt < 4 && at <= |d| && sock.Left() == d[at..]
      modifies this`bytesRead, sock
      ensures sock.Valid() && (r.Some? <==> ReadHeader(st, d, fmt, at).Some?)
      ensures r.Some? ==>
                var (next, upto) := ReadHeader(st, d, fmt, at).value;
                && r.value == next
                && sock.pos == old(sock.pos) + (upto - at) && bytesRead == old(bytesRead) + (upto - at)
      ensures bytesRead >= old(bytesRead)
    {
      var n := HeaderLen(fmt);
      var h := ReadCounted(sock, n);
      if h.None? {
        return None;
      }
      assert h.value == d[at..at + n];
      var time := 0;
      if fmt < 3 {
        time := Rd24(h.value[..3]);
        if time == EXTENDED_TS {
          assert sock.Left() == d[at + n..];
          var ext := ReadCounted(sock, 4);
          if ext.None? {
            return None;
          }
          assert ext.value == d[at + n..at + n + 4];
          time := Rd32(ext.value);
        }
      }
      return Some(ApplyHeader(st, fmt, h.value, time));
    }

    /** One turn of the loop: one chunk, which may complete a message. */
    method ReadOne(sock: ByteSource) returns (r: Result<Option<Message>, ReadError>)
      requires sock.Valid()
      modifies this, sock
      ensures sock.Valid() && readChunkSize == old(readChunkSize)
      ensures r.Ok? <==> ReadChunk(old(View()).states, readChunkSize, old(sock.Left())).Chunk?
      ensures r.Ok? ==>
                var c := ReadChunk(old(View()).states, readChunkSize, old(sock.Left()));
                && r.value == c.msg && View().states == c.states
                && sock.pos == old(sock.pos) + c.used && bytesRead == old(bytesRead) + c.used
      ensures bytesRead >= old(bytesRead)
      ensures old(sock.Left()) == [] ==> r.Err? && View() == old(View()) && bytesRead == old(bytesRead)
    {
      hide ReadBasic, ReadHeader, Slots;
      ghost var d, streams := sock.Left(), View().states;
      var basic := ReadBasicHeader(sock);
      if basic.None? {
        return Err(Eof);
      }
      var Basic(fmt, cid, len) := basic.value;
      states := Grown(states, cid);
      var st := if states[cid].Some? then states[cid].value else NO_STATE;
      var header := ReadMessageHeader(sock, st, fmt, d, len);
      if header.None? {
        return Err(Eof);
      }
      st := header.value;
      ghost var at := ReadHeader(StateOf(streams, cid), d, fmt, len).value.1;
      assert sock.Left() == d[at..];
      var have := |st.payload|;
      if have >= st.length {
        SlotUpdate(states, cid, st);
        states := states[cid := Some(st)];
        return Ok(None);
      }
      var take := Min(st.length - have, readChunkSize);
      var part := ReadCounted(sock, take);
      if part.None? {
        return Err(Eof);
      }
      assert part.value == d[at..at + take];
      var payload := st.payload + part.value;
      var done := |payload| == st.length;
      st := st.(payload := if done then [] else payload);
      SlotUpdate(states, cid, st);
      states := states[cid := Some(st)];
      return Ok(if done then Some(Message(st.mtype, st.ts, payload)) else None);
    }

    /** Reads one full message, reassembling chunk fragments, and counts every byte it takes. */
    method ReadMsg(sock: ByteSource) returns (r: Result<Message, ReadError>)
      requires sock.Valid()
      modifies this, sock
      ensures sock.Valid() && readChunkSize == old(readChunkSize)
      ensures r.Ok? <==> ReadMessage(old(View()).states, readChunkSize, old(sock.Left())).Got?
      ensures r.Ok? ==>
                var got := ReadMessage(old(View()).states, readChunkSize, old(sock.Left()));
                && r.value == got.msg && View().states == got.states
                && sock.pos == old(sock.pos) + got.used && bytesRead == old(bytesRead) + got.used
      ensures bytesRead >= old(bytesRead)
      ensures old(sock.Left()) == [] ==> View() == old(View()) && bytesRead == old(bytesRead)
    {
      hide ReadChunk, Slots;
      ghost var whole := ReadMessage(View().states, readChunkSize, sock.Left());
      ghost var taken: nat := 0;
      while true
        invariant sock.Valid() && readChunkSize == old(readChunkSize)
        invariant sock.pos == old(sock.pos) + taken && bytesRead == old(bytesRead) + taken
        invariant old(sock.Left()) == [] ==> taken == 0 && View() == old(View())
        invariant whole == match ReadMessage(View().states, readChunkSize, sock.Left())
                           case Starved => Starved
                           case Got(states, used, msg) => Got(states, taken + used, msg)
        decreases |sock.data| - sock.pos
      {
        ghost var d, streams := sock.Left(), View().states;
        var one := ReadOne(sock);
        if one.Err? {
          return Err(Eof);
        }
        ghost var used := ReadChunk(streams, readChunkSize, d).used;
        assert sock.Left() == d[used..];
        taken := taken + used;
        if one.value.Some? {
          return Ok(one.value.value);
        }
      }
    }
  }
}
