/**
 * The audio receiver: it gathers the datagrams of one chunk in a reorder
 * buffer keyed by sequence number, joins their payloads in that order when
 * the marker arrives, and files the chunk under its index in a second
 * reorder buffer, from which playback takes the lowest index first. The
 * sound device is modelled as the list of chunks written to it.
 */
module AudioClientRtp {
  import opened Common
  import opened Rtp
  import opened Buffer

  /** The (sequence number, payload) entries `recvRtp` puts for the datagrams `ps`. */
  function Entries(ps: seq<Packet>): seq<Entry<seq<byte>>>
  {
    seq(|ps|, i requires 0 <= i < |ps| => Entry(ps[i].seqNum as int, ps[i].payload))
  }

  /** The contents of `es` joined front to back, as `byteStream.write` appends them. */
  function Joined(es: seq<Entry<seq<byte>>>): seq<byte>
  {
    if |es| == 0 then [] else es[0].content + Joined(es[1..])
  }

  /**
   * What `recvRtp` files for the datagrams `read` of one chunk: under the
   * timestamp of the last datagram read, the payloads in sequence-number
   * order when that datagram has the marker, and no bytes when the socket
   * ran dry before one did. A last timestamp of -1 is taken for "nothing
   * read" and nothing is filed.
   */
  function Reassemble(read: seq<Packet>): Option<Entry<seq<byte>>>
  {
    if |read| == 0 || read[|read| - 1].timestamp == -1 then None
    else
      var last := read[|read| - 1];
      Some(Entry(last.timestamp, if last.marker then Joined(PutAll([], Entries(read))) else []))
  }

  /**
   * The bytes of a chunk do not depend on the order its datagrams arrived
   * in: they are the payloads in ascending sequence-number order, whatever
   * sorted arrangement of the same entries one compares with.
   */
  lemma ArrivalOrderIrrelevant(read: seq<Packet>, sorted: seq<Entry<seq<byte>>>)
    requires Sorted(sorted) && DistinctKeys(sorted)
    requires multiset(sorted) == multiset(Entries(read))
    ensures Joined(PutAll([], Entries(read))) == Joined(sorted)
  {
    PutAllSorted([], Entries(read));
    PutAllMultiset([], Entries(read));
    SortedUnique(sorted, PutAll([], Entries(read)));
  }

  /**
   * The inner `while True` over `packetBuffer.get()`: take entries off the
   * front until the buffer reports empty, appending their contents.
   */
  method DrainChunk(q: BufferQueue<seq<byte>>) returns (bytes: seq<byte>)
    requires q.Valid()
    modifies q.Repr
    ensures q.Valid() && fresh(q.Repr - old(q.Repr)) && q.Contents == []
    ensures bytes == Joined(old(q.Contents))
  {
    bytes := [];
    while true
      invariant q.Valid() && fresh(q.Repr - old(q.Repr))
      invariant Joined(old(q.Contents)) == bytes + Joined(q.Contents)
      decreases |q.Contents|
    {
      var k, b := q.Get();
      if b.None? {
        break;
      }
      bytes := bytes + b.value;
    }
  }

  /** The entries of a prefix of the datagrams are a prefix of their entries. */
  lemma EntriesPrefix(ps: seq<Packet>, i: nat)
    requires i <= |ps|
    ensures Entries(ps[..i]) == Entries(ps)[..i]
  {
  }

  /** `packetBuffer.put(seq, payload)` for the `i`-th datagram read. */
  method Feed(q: BufferQueue<seq<byte>>, ps: seq<Packet>, i: nat)
    requires q.Valid() && i < |ps| && q.Contents == PutAll([], Entries(ps)[..i])
    modifies q.Repr
    ensures q.Valid() && fresh(q.Repr - old(q.Repr))
    ensures q.Contents == PutAll([], Entries(ps)[..i + 1])
  {
    q.Put(ps[i].seqNum, ps[i].payload);
    PutAllStep([], Entries(ps), i);
  }

  /**
   * The inner loop of `recvRtp` for one chunk: read datagrams into a fresh
   * reorder buffer until one has the marker or the socket has nothing
   * more. Returns how many datagrams were read, the last timestamp read
   * (-1 when none was), and the joined chunk when the marker arrived (no
   * bytes otherwise).
   */
  method ReadChunk(ps: seq<Packet>) returns (i: nat, lastFrameNbr: int, stream: seq<byte>)
    ensures i == FrameEnd(ps)
    ensures lastFrameNbr == if i == 0 then -1 else ps[i - 1].timestamp
    ensures stream == if i > 0 && ps[i - 1].marker then Joined(PutAll([], Entries(ps)[..i])) else []
  {
    ghost var n := FrameEnd(ps);
    lastFrameNbr := -1;
    var packetBuffer := new BufferQueue<seq<byte>>();
    stream := [];
    i := 0;
    while i < |ps|
      invariant 0 <= i <= n <= |ps| && n == i + FrameEnd(ps[i..])
      invariant packetBuffer.Valid() && fresh(packetBuffer.Repr)
      invariant packetBuffer.Contents == PutAll([], Entries(ps)[..i])
      invariant lastFrameNbr == if i == 0 then -1 else ps[i - 1].timestamp
      invariant i == 0 || !ps[i - 1].marker
      invariant stream == []
      decreases |ps| - i
    {
      var p := ps[i];
      assert ps[i..][0] == p && ps[i..][1..] == ps[i + 1..];
      lastFrameNbr := p.timestamp;
      Feed(packetBuffer, ps, i);
      i := i + 1;
      if p.marker {
        stream := DrainChunk(packetBuffer);
        return;
      }
    }
  }

  class AudioClientRtp {
    /** `buffer`: the received chunks, keyed by chunk index. */
    const buffer: BufferQueue<seq<byte>>
    var isMute: bool
    /** The datagrams waiting on the socket, in arrival order. */
    var pending: seq<Packet>
    /** The chunks written to the sound device, in order. */
    var output: seq<seq<byte>>

    /**
     * The chunk buffer is well formed and separate from this object, and
     * no waiting datagram has a timestamp below -1 (filing such a chunk
     * would run the buffer's backward search off its head).
     */
    ghost predicate Valid()
      reads this, buffer, buffer.Repr
    {
      && buffer.Valid() && this !in buffer.Repr
      && forall i :: 0 <= i < |pending| ==> pending[i].timestamp >= -1
    }

    /** `__init__`: an empty chunk buffer, sound on. */
    constructor (incoming: seq<Packet>)
      requires forall i :: 0 <= i < |incoming| ==> incoming[i].timestamp >= -1
      ensures Valid() && fresh(buffer.Repr)
      ensures buffer.Contents == [] && !isMute && pending == incoming && output == []
    {
      buffer := new BufferQueue<seq<byte>>();
      isMute, pending, output := false, incoming, [];
    }

    /**
     * One turn of `recvRtp`'s outer loop: read datagrams into a fresh
     * reorder buffer until one has the marker or the socket has nothing
     * more, join them on the marker, and file the result under the last
     * timestamp read.
     */
    method ReceiveChunk()
      requires Valid()
      modifies this`pending, buffer.Repr
      ensures Valid() && fresh(buffer.Repr - old(buffer.Repr))
      ensures var n := FrameEnd(old(pending));
        && pending == old(pending)[n..]
        && buffer.Contents == match Reassemble(old(pending)[..n])
             case None => old(buffer.Contents)
             case Some(e) => Insert(old(buffer.Contents), e)
    {
      var ps := pending;
      var n, lastFrameNbr, stream := ReadChunk(ps);
      pending := ps[n..];
      EntriesPrefix(ps, n);
      if lastFrameNbr != -1 {
        buffer.Put(lastFrameNbr, stream);
      }
    }

    /**
     * `display`: take the lowest-index chunk out of the buffer, whether or
     * not the sound is muted, and write it to the device only when the
     * sound is on and there was a chunk.
     */
    method Display()
      requires Valid()
      modifies this`output, buffer.Repr
      ensures Valid() && fresh(buffer.Repr - old(buffer.Repr))
      ensures buffer.Contents == if old(buffer.Contents) == [] then [] else old(buffer.Contents)[1..]
      ensures output == old(output) +
        if !isMute && old(buffer.Contents) != [] then [old(buffer.Contents)[0].content] else []
    {
      var k, chunk := buffer.Get();
      if isMute {
        return;
      }
      if chunk.Some? {
        output := output + [chunk.value];
      }
    }

    /** `clearBuffer` */
    method ClearBuffer()
      requires Valid()
      modifies buffer.Repr
      ensures Valid() && fresh(buffer.Repr - old(buffer.Repr)) && buffer.Contents == []
    {
      buffer.Clear();
    }

    /** `mute`: flip the mute flag, so two calls restore it. */
    method Mute()
      modifies this`isMute
      ensures isMute == !old(isMute)
    {
      if isMute {
        isMute := false;
      } else {
        isMute := true;
      }
    }
  }
}
