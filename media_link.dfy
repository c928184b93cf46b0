/**
 * The media datagrams from both ends: a frame or a chunk as the sender
 * cuts it, and what the receiver makes of those datagrams.
 */
module MediaLink {
  import opened Common
  import opened Rtp
  import opened Buffer
  import VideoClientRtp
  import AudioClientRtp
  import V = VideoServerRtp
  import A = AudioServerRtp

  /**
   * A video frame sent whole and in order, numbered above the receiver's
   * mark, is read as one frame and shown exactly: the receiver stops at
   * its marker, keeps every datagram, and its bytes are the frame's; the
   * mark rises to the last number and the next frame's datagrams are left.
   */
  lemma VideoFrameDelivered(data: seq<byte>, first: nat, ssrc: int, ts: int, hw: int, later: seq<Packet>)
    requires |data| > 0 && hw < first
    ensures var frags := Fragments(data, V.BufSize, first, V.Jpeg, ssrc, ts);
      var ps := frags + later;
      var n := FrameEnd(ps);
      && n == |frags|
      && ps[n..] == later
      && Payloads(VideoClientRtp.Kept(hw, ps[..n])) == data
      && VideoClientRtp.HighWater(hw, ps[..n]) == first + |frags| - 1
  {
    var frags := Fragments(data, V.BufSize, first, V.Jpeg, ssrc, ts);
    var ps := frags + later;
    FragmentsFrameEnd(data, V.BufSize, first, V.Jpeg, ssrc, ts, later);
    assert ps[..|frags|] == frags && ps[|frags|..] == later;
    VideoClientRtp.InOrderAllKept(hw, frags);
    FragmentsJoin(data, V.BufSize, first, V.Jpeg, ssrc, ts);
  }

  /** The entries of the datagrams joined are their payloads joined. */
  lemma {:induction false} JoinedEntries(ps: seq<Packet>)
    ensures AudioClientRtp.Joined(AudioClientRtp.Entries(ps)) == Payloads(ps)
    decreases |ps|
  {
    if |ps| > 0 {
      JoinedEntries(ps[1..]);
      assert AudioClientRtp.Entries(ps)[1..] == AudioClientRtp.Entries(ps[1..]);
    }
  }

  /** The entries of two datagram lists with the same elements have the same elements. */
  lemma {:induction false} EntriesMultiset(a: seq<Packet>, b: seq<Packet>)
    requires multiset(a) == multiset(b)
    ensures multiset(AudioClientRtp.Entries(a)) == multiset(AudioClientRtp.Entries(b))
    decreases |a|
  {
    if |a| == 0 {
      assert |multiset(b)| == 0;
    } else {
      var x := a[0];
      assert x in multiset(b);
      var j :| 0 <= j < |b| && b[j] == x;
      var b' := b[..j] + b[j + 1..];
      assert b == b[..j] + [x] + b[j + 1..];
      assert a == [x] + a[1..];
      assert multiset(b') == multiset(b) - multiset{x} by {
        assert multiset(b) == multiset(b[..j]) + multiset{x} + multiset(b[j + 1..]);
        assert multiset(b') == multiset(b[..j]) + multiset(b[j + 1..]);
      }
      assert multiset(a[1..]) == multiset(a) - multiset{x} by {
        assert multiset(a) == multiset{x} + multiset(a[1..]);
      }
      EntriesMultiset(a[1..], b');
      EntriesAppend([x], a[1..]);
      EntriesAppend(b[..j] + [x], b[j + 1..]);
      EntriesAppend(b[..j], [x]);
      EntriesAppend(b[..j], b[j + 1..]);
    }
  }

  /** The entries of two lists one after the other. */
  lemma EntriesAppend(u: seq<Packet>, v: seq<Packet>)
    ensures AudioClientRtp.Entries(u + v) == AudioClientRtp.Entries(u) + AudioClientRtp.Entries(v)
  {
  }

  /** A value at two places of a list occurs at least twice in it. */
  lemma CountTwo<T>(s: seq<T>, i: nat, j: nat)
    requires i < j < |s| && s[i] == s[j]
    ensures multiset(s)[s[i]] >= 2
  {
    assert s == s[..j] + [s[j]] + s[j + 1..];
    assert s[i] in s[..j];
  }

  /** In a list of pairwise different values each occurs once. */
  lemma CountOne<T>(s: seq<T>, k: nat)
    requires k < |s|
    requires forall i, j :: 0 <= i < j < |s| ==> s[i] != s[j]
    ensures multiset(s)[s[k]] == 1
  {
    assert s == s[..k] + [s[k]] + s[k + 1..];
    assert s[k] !in s[..k];
    assert s[k] !in s[k + 1..];
  }

  /**
   * In any arrival order of a chunk's datagrams with the marked one last,
   * no earlier datagram has the marker.
   */
  lemma OneMarker(frags: seq<Packet>, arrival: seq<Packet>)
    requires forall i :: 0 <= i < |frags| ==> (frags[i].marker <==> i == |frags| - 1)
    requires forall i, j :: 0 <= i < j < |frags| ==> frags[i].seqNum != frags[j].seqNum
    requires multiset(arrival) == multiset(frags)
    requires |arrival| > 0 && arrival[|arrival| - 1].marker
    ensures forall i :: 0 <= i < |arrival| - 1 ==> !arrival[i].marker
  {
    forall i | 0 <= i < |arrival| - 1 ensures !arrival[i].marker {
      if arrival[i].marker {
        var last := |frags| - 1;
        assert arrival[i] in multiset(frags) && arrival[|arrival| - 1] in multiset(frags);
        var k :| 0 <= k < |frags| && frags[k] == arrival[i];
        var k' :| 0 <= k' < |frags| && frags[k'] == arrival[|arrival| - 1];
        assert k == last && k' == last;
        CountTwo(arrival, i, |arrival| - 1);
        CountOne(frags, last);
        assert false;
      }
    }
  }

  /**
   * An audio chunk's datagrams, in any order that leaves the marked one
   * last, are read as one chunk and reassembled into the chunk's bytes,
   * filed under its index; the next chunk's datagrams are left.
   */
  lemma AudioChunkDelivered(chunk: seq<byte>, first: nat, ssrc: int, index: int, arrival: seq<Packet>, later: seq<Packet>)
    requires |chunk| > 0 && index != -1
    requires multiset(arrival) == multiset(Fragments(chunk, A.BufSize, first, A.AudioType, ssrc, index))
    requires |arrival| > 0 && arrival[|arrival| - 1].marker
    ensures var ps := arrival + later;
      && FrameEnd(ps) == |arrival|
      && ps[|arrival|..] == later
      && AudioClientRtp.Reassemble(ps[..|arrival|]) == Some(Entry(index, chunk))
  {
    var frags := Fragments(chunk, A.BufSize, first, A.AudioType, ssrc, index);
    OneMarker(frags, arrival);
    MarkerEndsFrame(arrival, later);
    assert (arrival + later)[..|arrival|] == arrival;
    ChunkReassembled(chunk, first, ssrc, index, arrival);
  }

  /** A read whose only marker is its last datagram ends at that datagram. */
  lemma MarkerEndsFrame(arrival: seq<Packet>, later: seq<Packet>)
    requires |arrival| > 0 && arrival[|arrival| - 1].marker
    requires forall i :: 0 <= i < |arrival| - 1 ==> !arrival[i].marker
    ensures FrameEnd(arrival + later) == |arrival|
    ensures (arrival + later)[|arrival|..] == later
  {
    var ps := arrival + later;
    forall i | 0 <= i < |arrival| - 1 ensures !ps[i].marker {
      assert ps[i] == arrival[i];
    }
    assert ps[|arrival| - 1] == arrival[|arrival| - 1];
    FrameEndUnique(ps, |arrival|);
  }

  /** The datagrams of one chunk, in any order and with the marked one last, are put back into that chunk. */
  lemma ChunkReassembled(chunk: seq<byte>, first: nat, ssrc: int, index: int, arrival: seq<Packet>)
    requires |chunk| > 0 && index != -1
    requires multiset(arrival) == multiset(Fragments(chunk, A.BufSize, first, A.AudioType, ssrc, index))
    requires |arrival| > 0 && arrival[|arrival| - 1].marker
    ensures AudioClientRtp.Reassemble(arrival) == Some(Entry(index, chunk))
  {
    var frags := Fragments(chunk, A.BufSize, first, A.AudioType, ssrc, index);
    var last := arrival[|arrival| - 1];
    assert last in multiset(arrival);
    assert last in multiset(frags);
    var k :| 0 <= k < |frags| && frags[k] == last;
    assert last.timestamp == index;
    ChunkBytes(chunk, first, ssrc, index, arrival);
  }

  /** The bytes filed for the datagrams of one chunk, in any order, are the chunk. */
  lemma ChunkBytes(chunk: seq<byte>, first: nat, ssrc: int, index: int, arrival: seq<Packet>)
    requires multiset(arrival) == multiset(Fragments(chunk, A.BufSize, first, A.AudioType, ssrc, index))
    ensures AudioClientRtp.Joined(PutAll([], AudioClientRtp.Entries(arrival))) == chunk
  {
    var frags := Fragments(chunk, A.BufSize, first, A.AudioType, ssrc, index);
    var es := AudioClientRtp.Entries(frags);
    assert Sorted(es) && DistinctKeys(es);
    EntriesMultiset(frags, arrival);
    AudioClientRtp.ArrivalOrderIrrelevant(arrival, es);
    JoinedEntries(frags);
    FragmentsJoin(chunk, A.BufSize, first, A.AudioType, ssrc, index);
  }
}
