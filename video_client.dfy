/**
 * The video receiver's handling of one frame: it reads datagrams until one
 * carries the marker, and keeps a datagram's payload only when its
 * sequence number is above the highest number kept so far. Decoding the
 * JPEG bytes and showing the picture are not part of the model.
 */
module VideoClientRtp {
  import opened Common
  import opened Rtp

  /**
   * The datagrams of `ps` whose payload is kept when the highest number
   * kept so far is `hw`: each must beat every number kept before it.
   */
  function Kept(hw: int, ps: seq<Packet>): (r: seq<Packet>)
    ensures |r| <= |ps|
    decreases |ps|
  {
    if |ps| == 0 then []
    else if ps[0].seqNum > hw then [ps[0]] + Kept(ps[0].seqNum, ps[1..])
    else Kept(hw, ps[1..])
  }

  /**
   * What is kept beats the mark it started from, rises strictly from one
   * datagram to the next, and was all received: nothing is invented or
   * kept twice.
   */
  lemma {:induction false} KeptIncreasing(hw: int, ps: seq<Packet>)
    ensures var r := Kept(hw, ps);
      && (forall i :: 0 <= i < |r| ==> r[i].seqNum > hw)
      && (forall i, j :: 0 <= i < j < |r| ==> r[i].seqNum < r[j].seqNum)
      && multiset(r) <= multiset(ps)
    decreases |ps|
  {
    if |ps| > 0 {
      var p, t := ps[0], ps[1..];
      assert ps == [p] + t;
      if p.seqNum > hw {
        KeptIncreasing(p.seqNum, t);
        var k := Kept(p.seqNum, t);
        var r := [p] + k;
        assert Kept(hw, ps) == r;
        assert forall i :: 1 <= i < |r| ==> r[i] == k[i - 1];
      } else {
        KeptIncreasing(hw, t);
        assert Kept(hw, ps) == Kept(hw, t);
      }
    }
  }

  /** The highest number seen: `hw` raised by every datagram of `ps`. */
  function HighWater(hw: int, ps: seq<Packet>): (m: int)
    ensures m >= hw
    decreases |ps|
  {
    if |ps| == 0 then hw
    else HighWater(Max(hw, ps[0].seqNum), ps[1..])
  }

  /** The mark ends at or above every number seen, and is one of them unless it never moved. */
  lemma {:induction false} HighWaterBound(hw: int, ps: seq<Packet>)
    ensures var m := HighWater(hw, ps);
      && (forall i :: 0 <= i < |ps| ==> ps[i].seqNum <= m)
      && (m == hw || exists i :: 0 <= i < |ps| && ps[i].seqNum == m)
    decreases |ps|
  {
    if |ps| > 0 {
      var t := ps[1..];
      var h := Max(hw, ps[0].seqNum);
      HighWaterBound(h, t);
      var m := HighWater(h, t);
      assert forall i :: 1 <= i < |ps| ==> ps[i] == t[i - 1];
      if m != hw {
        if m == h {
          assert ps[0].seqNum == m;
        } else {
          var i :| 0 <= i < |t| && t[i].seqNum == m;
          assert ps[i + 1].seqNum == m;
        }
      }
    }
  }

  /**
   * One datagram read, as the receiver handles it: when its number beats
   * the mark its payload is appended and the mark rises to it; otherwise
   * both stay. What remains to be read then accounts for the rest.
   */
  lemma KeepStep(hw0: int, ps: seq<Packet>, n: nat, i: nat, hw: int, frame: seq<byte>)
    requires i < n <= |ps|
    requires Payloads(Kept(hw0, ps[..n])) == frame + Payloads(Kept(hw, ps[i..n]))
    requires HighWater(hw0, ps[..n]) == HighWater(hw, ps[i..n])
    ensures var p := ps[i];
      var hw' := if p.seqNum > hw then p.seqNum else hw;
      var frame' := if p.seqNum > hw then frame + p.payload else frame;
      && Payloads(Kept(hw0, ps[..n])) == frame' + Payloads(Kept(hw', ps[i + 1..n]))
      && HighWater(hw0, ps[..n]) == HighWater(hw', ps[i + 1..n])
  {
    var rest, p := ps[i..n], ps[i];
    assert rest[0] == p && rest[1..] == ps[i + 1..n];
    if p.seqNum > hw {
      var k := Kept(p.seqNum, rest[1..]);
      assert Kept(hw, rest) == [p] + k;
      assert ([p] + k)[1..] == k;
      assert Payloads([p] + k) == p.payload + Payloads(k);
    } else {
      assert Kept(hw, rest) == Kept(hw, rest[1..]);
    }
    assert HighWater(hw, rest) == HighWater(Max(hw, p.seqNum), rest[1..]);
  }

  /** Datagrams that arrive in increasing order above `hw` are all kept. */
  lemma {:induction false} InOrderAllKept(hw: int, ps: seq<Packet>)
    requires forall i :: 0 <= i < |ps| ==> ps[i].seqNum > hw
    requires forall i, j :: 0 <= i < j < |ps| ==> ps[i].seqNum < ps[j].seqNum
    ensures Kept(hw, ps) == ps
    ensures |ps| > 0 ==> HighWater(hw, ps) == ps[|ps| - 1].seqNum
    decreases |ps|
  {
    if |ps| > 0 {
      var t := ps[1..];
      assert forall i :: 0 <= i < |t| ==> t[i] == ps[i + 1];
      InOrderAllKept(ps[0].seqNum, t);
      assert Kept(hw, ps) == [ps[0]] + Kept(ps[0].seqNum, t);
      assert HighWater(hw, ps) == HighWater(ps[0].seqNum, t);
      assert ps == [ps[0]] + t;
    }
  }

  /** The highest number kept is the highest number seen. */
  lemma {:induction false} KeptLast(hw: int, ps: seq<Packet>)
    ensures var r := Kept(hw, ps); HighWater(hw, ps) == if |r| == 0 then hw else r[|r| - 1].seqNum
    decreases |ps|
  {
    if |ps| > 0 {
      var h := if ps[0].seqNum > hw then ps[0].seqNum else hw;
      KeptLast(h, ps[1..]);
    }
  }

  class VideoClientRtp {
    /** The highest sequence number kept so far. */
    var seqNum: int
    /** The datagrams waiting on the socket, in arrival order. */
    var pending: seq<Packet>

    /** `__init__`: nothing kept yet, so the high-water mark is 0. */
    constructor (incoming: seq<Packet>)
      ensures seqNum == 0 && pending == incoming
    {
      seqNum, pending := 0, incoming;
    }

    /**
     * The inner loop of `recvRtp`: read datagrams until the first one with
     * the marker, or until the socket has nothing more, and collect the
     * kept payloads in the order they were read. A marker ends the frame
     * even when its own payload is dropped.
     */
    method ReceiveFrame() returns (frame: seq<byte>)
      modifies this
      ensures var n := FrameEnd(old(pending));
        && pending == old(pending)[n..]
        && frame == Payloads(Kept(old(seqNum), old(pending)[..n]))
        && seqNum == HighWater(old(seqNum), old(pending)[..n])
    {
      var ps := pending;
      ghost var hw0, n := seqNum, FrameEnd(ps);
      var i := 0;
      frame := [];
      while i < |ps|
        invariant 0 <= i <= n <= |ps| && n == i + FrameEnd(ps[i..])
        invariant Payloads(Kept(hw0, ps[..n])) == frame + Payloads(Kept(seqNum, ps[i..n]))
        invariant HighWater(hw0, ps[..n]) == HighWater(seqNum, ps[i..n])
        decreases |ps| - i
      {
        var p := ps[i];
        assert ps[i..][0] == p && ps[i..][1..] == ps[i + 1..];
        KeepStep(hw0, ps, n, i, seqNum, frame);
        if p.seqNum > seqNum {
          seqNum := p.seqNum;
          frame := frame + p.payload;
        }
        i := i + 1;
        if p.marker {
          break;
        }
      }
      pending := ps[i..];
      assert ps[i..n] == [];
    }
  }
}
