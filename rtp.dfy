/**
 * The media datagram as both ends see it once it is decoded, and the way
 * the two senders cut one encoded video frame or audio chunk into
 * consecutive datagrams. Both receivers read the datagrams of one frame up
 * to the first one that carries the marker.
 */
module Rtp {
  import opened Common

  /**
   * The fixed-header fields that the senders fill in and the receivers read
   * back: sequence number, marker bit, payload type, SSRC and timestamp.
   */
  datatype Packet = Packet(seqNum: nat, marker: bool, payloadType: int, ssrc: int, timestamp: int, payload: seq<byte>)

  /**
   * The datagrams `sendData` produces for `data`: pieces of `size` bytes
   * taken in order, the last one possibly shorter, numbered from `first`,
   * each stamped with the same payload type, SSRC and timestamp, the marker
   * on the last piece only. An empty frame produces no datagram.
   */
  function Fragments(data: seq<byte>, size: nat, first: nat, pt: int, ssrc: int, ts: int): (ps: seq<Packet>)
    requires size > 0
    ensures |data| == 0 <==> |ps| == 0
    ensures forall i :: 0 <= i < |ps| ==>
      ps[i].seqNum == first + i && ps[i].payloadType == pt && ps[i].ssrc == ssrc && ps[i].timestamp == ts
    ensures forall i :: 0 <= i < |ps| ==> (ps[i].marker <==> i == |ps| - 1)
    ensures forall i :: 0 <= i < |ps| ==> 0 < |ps[i].payload| <= size
    ensures forall i :: 0 <= i < |ps| - 1 ==> |ps[i].payload| == size
    decreases |data|
  {
    if |data| == 0 then []
    else if |data| <= size then [Packet(first, true, pt, ssrc, ts, data)]
    else [Packet(first, false, pt, ssrc, ts, data[..size])] + Fragments(data[size..], size, first + 1, pt, ssrc, ts)
  }

  /** The payloads of `ps`, concatenated in order. */
  function Payloads(ps: seq<Packet>): seq<byte>
  {
    if |ps| == 0 then [] else ps[0].payload + Payloads(ps[1..])
  }

  /** `ceil(n / size)` for a positive size. */
  function CeilDiv(n: nat, size: nat): nat
    requires size > 0
  {
    (n + size - 1) / size
  }

  /** An n-byte frame is cut into ceil(n / size) datagrams. */
  lemma {:induction false} FragmentCount(data: seq<byte>, size: nat, first: nat, pt: int, ssrc: int, ts: int)
    requires size > 0
    ensures |Fragments(data, size, first, pt, ssrc, ts)| == CeilDiv(|data|, size)
    decreases |data|
  {
    var n := |data|;
    if n == 0 {
    } else if n <= size {
      DivBetween(n + size - 1, size, 1);
    } else {
      FragmentCount(data[size..], size, first + 1, pt, ssrc, ts);
      assert n + size - 1 == (n - size + size - 1) + size;
      DivShift(n - size + size - 1, size);
    }
  }

  /** `a / size` is the `q` whose multiples of `size` bracket `a`. */
  lemma DivBetween(a: nat, size: nat, q: nat)
    requires size > 0 && q * size <= a < q * size + size
    ensures a / size == q
  {
    var d := a / size;
    assert a == d * size + a % size;
    assert (d + 1) * size == d * size + size;
    assert (q + 1) * size == q * size + size;
    MulMono(d + 1, q, size);
    MulMono(q + 1, d, size);
  }

  lemma MulMono(x: nat, y: nat, z: nat)
    ensures x <= y ==> x * z <= y * z
  {
    if x <= y {
      assert y * z == x * z + (y - x) * z;
    }
  }

  lemma DivShift(a: nat, size: nat)
    requires size > 0
    ensures (a + size) / size == a / size + 1
  {
    var q := a / size;
    assert a == q * size + a % size;
    assert (q + 1) * size == q * size + size;
    DivBetween(a + size, size, q + 1);
  }

  /** The fragments concatenate back to the frame. */
  lemma {:induction false} FragmentsJoin(data: seq<byte>, size: nat, first: nat, pt: int, ssrc: int, ts: int)
    requires size > 0
    ensures Payloads(Fragments(data, size, first, pt, ssrc, ts)) == data
    decreases |data|
  {
    var ps := Fragments(data, size, first, pt, ssrc, ts);
    if |data| == 0 {
    } else if |data| <= size {
      assert Payloads(ps) == data + Payloads([]);
    } else {
      FragmentsJoin(data[size..], size, first + 1, pt, ssrc, ts);
      assert ps[1..] == Fragments(data[size..], size, first + 1, pt, ssrc, ts);
      assert data == data[..size] + data[size..];
    }
  }

  /**
   * Cutting from byte `p` on: one datagram holding the next `size` bytes
   * (or what remains), marked exactly when it reaches the end, followed by
   * the cut of the rest. This is one turn of the sender's loop.
   */
  lemma FragmentsFrom(data: seq<byte>, p: nat, size: nat, first: nat, pt: int, ssrc: int, ts: int)
    requires size > 0 && p < |data|
    ensures var q := Min(p + size, |data|);
      Fragments(data[p..], size, first, pt, ssrc, ts)
      == [Packet(first, p + size >= |data|, pt, ssrc, ts, data[p..q])] + Fragments(data[q..], size, first + 1, pt, ssrc, ts)
  {
    var rest := data[p..];
    if |rest| <= size {
      assert data[Min(p + size, |data|)..] == [];
      assert rest == data[p..|data|];
    } else {
      assert rest[..size] == data[p..p + size];
      assert rest[size..] == data[p + size..];
    }
  }

  /** Moving the next datagram from what is still to be sent onto what was sent. */
  lemma Shift(whole: seq<Packet>, done: seq<Packet>, p: Packet, rest: seq<Packet>)
    requires whole == done + ([p] + rest)
    ensures whole == (done + [p]) + rest
  {
  }

  /** Moving the datagrams of a whole frame from what is still to be sent onto what was sent. */
  lemma ShiftAll(whole: seq<Packet>, done: seq<Packet>, ps: seq<Packet>, rest: seq<Packet>)
    requires whole == done + (ps + rest)
    ensures whole == (done + ps) + rest
  {
  }

  /**
   * How many datagrams a receiver reads for one frame: up to and including
   * the first one with the marker, or all of them when none has it.
   */
  function FrameEnd(ps: seq<Packet>): (n: nat)
    ensures n <= |ps| && (|ps| > 0 ==> n > 0)
    ensures forall i :: 0 <= i < n - 1 ==> !ps[i].marker
    ensures n == |ps| || ps[n - 1].marker
  {
    if |ps| == 0 then 0
    else if ps[0].marker then 1
    else 1 + FrameEnd(ps[1..])
  }

  /** The conditions `FrameEnd` ensures single out its value. */
  lemma FrameEndUnique(ps: seq<Packet>, n: nat)
    requires 0 < n <= |ps| && ps[n - 1].marker
    requires forall i :: 0 <= i < n - 1 ==> !ps[i].marker
    ensures FrameEnd(ps) == n
  {
    var m := FrameEnd(ps);
    if m < n {
      assert ps[m - 1].marker;
    }
  }

  /**
   * A whole frame's datagrams, whatever follows them, are read as one frame:
   * reading stops at its marker and the next frame's datagrams are left.
   */
  lemma FragmentsFrameEnd(data: seq<byte>, size: nat, first: nat, pt: int, ssrc: int, ts: int, later: seq<Packet>)
    requires size > 0 && |data| > 0
    ensures var ps := Fragments(data, size, first, pt, ssrc, ts); FrameEnd(ps + later) == |ps|
  {
    var ps := Fragments(data, size, first, pt, ssrc, ts);
    var all := ps + later;
    assert all[|ps| - 1] == ps[|ps| - 1];
    forall i | 0 <= i < |ps| - 1 ensures !all[i].marker {
      assert all[i] == ps[i];
    }
    FrameEndUnique(all, |ps|);
  }
}
