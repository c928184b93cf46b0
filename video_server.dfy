/**
 * The video sender: it reads frames from the capture, has each one resized
 * and JPEG-encoded, and sends the encoded frame as datagrams of at most
 * 16384 bytes with payload type 26, stamped with the frame index.
 *
 * The encoding thread and the sending thread hand frames over through a
 * one-slot buffer; here one step is a finished encode followed by the send
 * of what it produced.
 */
module VideoServerRtp {
  import opened Common
  import opened Rtp
  import opened ServerRtp

  /** `BUF_SIZE`: the largest payload of one datagram. */
  const BufSize: nat := 16384
  /** The payload type of a JPEG frame. */
  const Jpeg: int := 26
  /** The quality levels `setQuality` accepts. */
  const Blur: int := 0
  const Hd: int := 1

  /**
   * OpenCV's resize to the given size followed by JPEG encoding; None when
   * `imencode` reports failure. It is opaque to the model.
   */
  type Encoder = (seq<byte>, (int, int)) -> Option<seq<byte>>

  /**
   * What a run does from frame index `frame` on, with the capture about to
   * read frame `pos`: while frames remain below `total`, read `stride`
   * frames, encode the last one read and send it as datagrams stamped with
   * the next frame index, numbered on from `first` without a gap across
   * frames. The flag is true when an encode fails before the end: the
   * encoder is gone and the sender blocks for good.
   */
  function RunOutput(capture: Option<seq<seq<byte>>>, pos: int, frame: int, total: int, stride: nat,
                     jpeg: Encoder, quality: (int, int), first: nat, ssrc: int): (seq<Packet>, bool)
    requires stride > 0
    decreases total - frame
  {
    if frame >= total then ([], false)
    else if capture.None? || !(0 <= pos && pos + stride <= |capture.value|)
            || jpeg(capture.value[pos + stride - 1], quality).None? then ([], true)
    else
      var frags := Fragments(jpeg(capture.value[pos + stride - 1], quality).value, BufSize, first, Jpeg, ssrc, frame + 1);
      var rest := RunOutput(capture, pos + stride, frame + 1, total, stride, jpeg, quality, first + |frags|, ssrc);
      (frags + rest.0, rest.1)
  }

  /**
   * A run's datagrams are numbered on from `first` without a gap across
   * frames, all with payload type 26 and the sender's SSRC.
   */
  lemma {:induction false} RunOutputNumbered(capture: Option<seq<seq<byte>>>, pos: int, frame: int, total: int, stride: nat,
                                             jpeg: Encoder, quality: (int, int), first: nat, ssrc: int)
    requires stride > 0
    ensures forall i :: 0 <= i < |RunOutput(capture, pos, frame, total, stride, jpeg, quality, first, ssrc).0| ==>
      && RunOutput(capture, pos, frame, total, stride, jpeg, quality, first, ssrc).0[i].seqNum == first + i
      && RunOutput(capture, pos, frame, total, stride, jpeg, quality, first, ssrc).0[i].payloadType == Jpeg
      && RunOutput(capture, pos, frame, total, stride, jpeg, quality, first, ssrc).0[i].ssrc == ssrc
    decreases total - frame
  {
    if frame < total && capture.Some? && 0 <= pos && pos + stride <= |capture.value|
       && jpeg(capture.value[pos + stride - 1], quality).Some? {
      var frags := Fragments(jpeg(capture.value[pos + stride - 1], quality).value, BufSize, first, Jpeg, ssrc, frame + 1);
      var rest := RunOutput(capture, pos + stride, frame + 1, total, stride, jpeg, quality, first + |frags|, ssrc).0;
      RunOutputNumbered(capture, pos + stride, frame + 1, total, stride, jpeg, quality, first + |frags|, ssrc);
      var ps := RunOutput(capture, pos, frame, total, stride, jpeg, quality, first, ssrc).0;
      assert ps == frags + rest;
      forall i | 0 <= i < |ps| ensures ps[i].seqNum == first + i && ps[i].payloadType == Jpeg && ps[i].ssrc == ssrc {
        if i >= |frags| {
          assert ps[i] == rest[i - |frags|];
          assert rest[i - |frags|].seqNum == first + |frags| + (i - |frags|);
        } else {
          assert ps[i] == frags[i];
          assert frags[i].seqNum == first + i;
        }
      }
    }
  }

  /** A run with a frame left whose encode succeeds sends that frame, then the rest of the run. */
  lemma RunOutputStep(capture: Option<seq<seq<byte>>>, pos: int, frame: int, total: int, stride: nat,
                      jpeg: Encoder, quality: (int, int), first: nat, ssrc: int)
    requires stride > 0 && frame < total
    requires capture.Some? && 0 <= pos && pos + stride <= |capture.value|
    requires jpeg(capture.value[pos + stride - 1], quality).Some?
    ensures var frags := Fragments(jpeg(capture.value[pos + stride - 1], quality).value, BufSize, first, Jpeg, ssrc, frame + 1);
      var rest := RunOutput(capture, pos + stride, frame + 1, total, stride, jpeg, quality, first + |frags|, ssrc);
      RunOutput(capture, pos, frame, total, stride, jpeg, quality, first, ssrc) == (frags + rest.0, rest.1)
  {
  }

  /** A run with a frame left whose read or encode fails sends nothing more and hangs. */
  lemma RunOutputFail(capture: Option<seq<seq<byte>>>, pos: int, frame: int, total: int, stride: nat,
                      jpeg: Encoder, quality: (int, int), first: nat, ssrc: int)
    requires stride > 0 && frame < total
    requires !(capture.Some? && 0 <= pos && pos + stride <= |capture.value| && jpeg(capture.value[pos + stride - 1], quality).Some?)
    ensures RunOutput(capture, pos, frame, total, stride, jpeg, quality, first, ssrc) == ([], true)
  {
  }

  /**
   * One step of a run, seen from the run: a failed read or encode ends it
   * hanging, and a successful one sends `frags` and leaves the rest of the
   * run to the advanced cursor.
   */
  lemma RunOutputAfter(capture: Option<seq<seq<byte>>>, pos0: int, frame0: int, total: int, stride: nat,
                       jpeg: Encoder, quality: (int, int), seq0: nat, ssrc: int,
                       data: Option<seq<byte>>, pos1: int, frame1: int, frags: seq<Packet>)
    requires stride > 0 && frame0 < total
    requires data.Some? <==>
      capture.Some? && 0 <= pos0 && pos0 + stride <= |capture.value| && jpeg(capture.value[pos0 + stride - 1], quality).Some?
    requires data.Some? ==>
      && data == jpeg(capture.value[pos0 + stride - 1], quality) && pos1 == pos0 + stride && frame1 == frame0 + 1
      && frags == Fragments(data.value, BufSize, seq0, Jpeg, ssrc, frame1)
    ensures var r0 := RunOutput(capture, pos0, frame0, total, stride, jpeg, quality, seq0, ssrc);
      var r := RunOutput(capture, pos1, frame1, total, stride, jpeg, quality, seq0 + |frags|, ssrc);
      if data.None? then r0 == ([], true) else r0 == (frags + r.0, r.1)
  {
    if data.None? {
      RunOutputFail(capture, pos0, frame0, total, stride, jpeg, quality, seq0, ssrc);
    } else {
      RunOutputStep(capture, pos0, frame0, total, stride, jpeg, quality, seq0, ssrc);
    }
  }

  class VideoServerRtp {
    const engine: Engine
    var currentFrame: int
    var totalLength: int
    /** `cap`: the frames of the opened video, None before `setCapture`. */
    var capture: Option<seq<seq<byte>>>
    /** The index of the frame the capture reads next. */
    var capPos: int
    var currentSeq: nat
    var quality: (int, int)
    /** The datagrams sent to the client so far, in order. */
    var sent: seq<Packet>

    /**
     * Every datagram sent so far carries payload type 26, and they are
     * numbered 1, 2, 3, ... in the order they went out; `currentSeq` is the
     * next number.
     */
    ghost predicate Valid()
      reads this
    {
      && currentSeq == |sent| + 1
      && forall i :: 0 <= i < |sent| ==> sent[i].seqNum == i + 1 && sent[i].payloadType == Jpeg
    }

    /** `__init__`: frame 0 of an empty video, numbering from 1, full quality. */
    constructor ()
      ensures Valid() && fresh(engine)
      ensures engine.resumed && engine.alive && !engine.isStart && !engine.doubleSpeed && engine.socketOpen
      ensures currentFrame == 0 && totalLength == 0 && capture == None
      ensures currentSeq == 1 && quality == (480, 270) && sent == []
    {
      engine := new Engine();
      currentFrame, totalLength, capture, capPos := 0, 0, None, 0;
      currentSeq, quality, sent := 1, (480, 270), [];
    }

    /** `sendCondition`: frames remain to be sent. */
    predicate SendCondition()
      reads this
    {
      currentFrame < totalLength
    }

    /** `cap.read()`: the next frame and a step forward, or failure past either end. */
    method ReadFrame() returns (ok: bool, frame: seq<byte>)
      requires capture.Some?
      modifies this`capPos
      ensures ok <==> 0 <= old(capPos) < |capture.value|
      ensures ok ==> frame == capture.value[old(capPos)] && capPos == old(capPos) + 1
      ensures !ok ==> capPos == old(capPos)
    {
      ok := 0 <= capPos < |capture.value|;
      if ok {
        frame := capture.value[capPos];
        capPos := capPos + 1;
      } else {
        frame := [];
      }
    }

    /**
     * One turn of `encode`'s loop, up to the hand-over: read a frame (two
     * at double speed, keeping the second), encode it at the current
     * quality, and count it. A missing capture, a failed read or a failed
     * encoding ends the encoder with None.
     */
    method EncodeStep(jpeg: Encoder) returns (data: Option<seq<byte>>)
      modifies this`capPos, this`currentFrame
      ensures var k := if engine.doubleSpeed then 2 else 1;
        data.Some? <==>
          && old(capture).Some? && 0 <= old(capPos) && old(capPos) + k <= |old(capture).value|
          && jpeg(old(capture).value[old(capPos) + k - 1], quality).Some?
      ensures var k := if engine.doubleSpeed then 2 else 1;
        data.Some? ==>
          && data == jpeg(old(capture).value[old(capPos) + k - 1], quality)
          && capPos == old(capPos) + k
          && currentFrame == old(currentFrame) + 1
      ensures data.None? ==> currentFrame == old(currentFrame)
    {
      if capture.None? {
        return None;
      }
      var ok, frame := ReadFrame();
      if engine.doubleSpeed {
        ok, frame := ReadFrame();
      }
      if !ok {
        return None;
      }
      data := jpeg(frame, quality);
      if data.None? {
        return None;
      }
      currentFrame := currentFrame + 1;
    }

    /**
     * `sendData`: cut the frame into datagrams numbered on from
     * `currentSeq`, stamped with `currentFrame`, and send them in order.
     * Nothing is sent once the socket is closed.
     */
    method SendData(data: seq<byte>)
      requires Valid()
      modifies this`currentSeq, this`sent
      ensures Valid()
      ensures sent == old(sent) +
        if engine.socketOpen then Fragments(data, BufSize, old(currentSeq), Jpeg, engine.ssrc, currentFrame) else []
    {
      if !engine.socketOpen {
        return;
      }
      ghost var all := Fragments(data, BufSize, currentSeq, Jpeg, engine.ssrc, currentFrame);
      var totalBytes := |data|;
      var sentBytes := 0;
      var pos := 0;
      while sentBytes < totalBytes
        invariant Valid()
        invariant pos == Min(sentBytes, totalBytes)
        invariant old(sent) + all == sent + Fragments(data[pos..], BufSize, currentSeq, Jpeg, engine.ssrc, currentFrame)
        decreases totalBytes - sentBytes
      {
        ghost var before := sent;
        FragmentsFrom(data, pos, BufSize, currentSeq, Jpeg, engine.ssrc, currentFrame);
        sentBytes := sentBytes + BufSize;
        var marker := !(sentBytes < totalBytes);
        var next := Min(pos + BufSize, totalBytes);
        var packet := Packet(currentSeq, marker, Jpeg, engine.ssrc, currentFrame, data[pos..next]);
        pos := next;
        Emit(packet);
        Shift(old(sent) + all, before, packet, Fragments(data[pos..], BufSize, currentSeq, Jpeg, engine.ssrc, currentFrame));
      }
      assert data[pos..] == [];
    }

    /** `socket.sendto` of one datagram followed by `currentSeq += 1`. */
    method Emit(packet: Packet)
      requires Valid() && packet.seqNum == currentSeq && packet.payloadType == Jpeg
      modifies this`currentSeq, this`sent
      ensures Valid() && sent == old(sent) + [packet]
    {
      currentSeq := currentSeq + 1;
      sent := sent + [packet];
    }

    /**
     * One encode followed by the send of the frame it produced, stamped with
     * the frame count after the encode. None when the encoder ended, after
     * which the sender would wait forever.
     */
    method Step(jpeg: Encoder) returns (data: Option<seq<byte>>)
      requires Valid()
      modifies this`capPos, this`currentFrame, this`currentSeq, this`sent
      ensures Valid() && old(sent) <= sent
      ensures var k := Stride(engine.doubleSpeed);
        data.Some? <==>
          && capture.Some? && 0 <= old(capPos) && old(capPos) + k <= |capture.value|
          && jpeg(capture.value[old(capPos) + k - 1], quality).Some?
      ensures var k := Stride(engine.doubleSpeed);
        data.Some? ==> data == jpeg(capture.value[old(capPos) + k - 1], quality) && capPos == old(capPos) + k
      ensures data.Some? ==> currentFrame == old(currentFrame) + 1
      ensures data.Some? && engine.socketOpen ==>
        sent == old(sent) + Fragments(data.value, BufSize, old(currentSeq), Jpeg, engine.ssrc, currentFrame)
      ensures data.None? ==> currentFrame == old(currentFrame) && sent == old(sent)
      ensures old(SendCondition()) && engine.socketOpen ==>
        var k := Stride(engine.doubleSpeed);
        var r0 := RunOutput(capture, old(capPos), old(currentFrame), totalLength, k, jpeg, quality, old(currentSeq), engine.ssrc);
        var r := RunOutput(capture, capPos, currentFrame, totalLength, k, jpeg, quality, currentSeq, engine.ssrc);
        if data.None? then r0 == ([], true) else r0 == (sent[|old(sent)|..] + r.0, r.1)
    {
      ghost var pos0, frame0, seq0 := capPos, currentFrame, currentSeq;
      data := EncodeStep(jpeg);
      if data.None? {
        if frame0 < totalLength {
          RunOutputAfter(capture, pos0, frame0, totalLength, Stride(engine.doubleSpeed), jpeg, quality, seq0, engine.ssrc,
                         data, capPos, currentFrame, []);
        }
        return;
      }
      SendData(data.value);
      if frame0 < totalLength && engine.socketOpen {
        ghost var frags := Fragments(data.value, BufSize, seq0, Jpeg, engine.ssrc, currentFrame);
        assert sent[|old(sent)|..] == frags && currentSeq == seq0 + |frags|;
        RunOutputAfter(capture, pos0, frame0, totalLength, Stride(engine.doubleSpeed), jpeg, quality, seq0, engine.ssrc,
                       data, capPos, currentFrame, frags);
      }
    }

    /**
     * `run`: mark the thread started, then step while frames remain and no
     * stop was asked for, then close the socket. The run flag must be set,
     * since `_pause.wait()` would otherwise block before the first step.
     * What is sent, and whether the encoder dies first, is `RunOutput`;
     * when it dies the sender blocks for good and the socket stays open
     * (`hung`).
     */
    method Run(jpeg: Encoder) returns (hung: bool)
      requires Valid() && engine.resumed && engine.socketOpen
      modifies this`capPos, this`currentFrame, this`currentSeq, this`sent, engine`isStart, engine`socketOpen
      ensures Valid() && engine.isStart && old(sent) <= sent
      ensures !old(engine.alive) || !old(SendCondition()) ==> sent == old(sent) && !hung
      ensures old(engine.alive) ==>
        var r := RunOutput(capture, old(capPos), old(currentFrame), totalLength, Stride(engine.doubleSpeed),
                           jpeg, quality, old(currentSeq), engine.ssrc);
        sent == old(sent) + r.0 && hung == r.1
      ensures !hung ==> !SendCondition() || !engine.alive
      ensures hung <==> engine.socketOpen
    {
      engine.Launch();
      hung := false;
      ghost var stride := Stride(engine.doubleSpeed);
      ghost var whole := RunOutput(capture, capPos, currentFrame, totalLength, stride, jpeg, quality, currentSeq, engine.ssrc);
      ghost var rest := whole;
      while SendCondition() && engine.alive
        invariant Valid() && old(sent) <= sent && !hung
        invariant !old(engine.alive) ==> sent == old(sent)
        invariant rest == RunOutput(capture, capPos, currentFrame, totalLength, stride, jpeg, quality, currentSeq, engine.ssrc)
        invariant old(sent) + whole.0 == sent + rest.0 && whole.1 == rest.1
        invariant engine.socketOpen && engine.isStart
        decreases totalLength - currentFrame
      {
        ghost var before := sent;
        var data := Step(jpeg);
        if data.None? {
          hung := true;
          break;
        }
        ghost var next := RunOutput(capture, capPos, currentFrame, totalLength, stride, jpeg, quality, currentSeq, engine.ssrc);
        ghost var frags := sent[|before|..];
        assert sent == before + frags;
        ShiftAll(old(sent) + whole.0, before, frags, next.0);
        rest := next;
      }
      if !hung {
        engine.CloseSocket();
      }
    }

    /**
     * `setCapture`: the video to send and its frame count. The frame rate
     * only sets the pacing interval; a rate of zero makes that division
     * fail after the capture and the count are set (`ok` false).
     */
    method SetCapture(frames: seq<seq<byte>>, frameCount: int, fps: real) returns (ok: bool)
      modifies this`capture, this`capPos, this`totalLength
      ensures capture == Some(frames) && capPos == 0 && totalLength == frameCount
      ensures ok <==> fps != 0.0
    {
      capture, capPos, totalLength := Some(frames), 0, frameCount;
      ok := fps != 0.0;
    }

    /** `setPosition`: jump to the frame `pos` per mille into the video. */
    method SetPosition(pos: int)
      modifies this`currentFrame, this`capPos
      ensures currentFrame == PerMille(totalLength, pos) && capPos == currentFrame
      ensures 0 <= totalLength && 0 <= pos <= 1000 ==> 0 <= currentFrame <= totalLength
    {
      currentFrame := PerMille(totalLength, pos);
      capPos := currentFrame;
      if 0 <= totalLength && 0 <= pos <= 1000 {
        PerMilleRange(totalLength, pos);
      }
    }

    /** `setQuality`: level 1 is 480x270, level 0 is 320x180, others are ignored. */
    method SetQuality(level: int)
      modifies this`quality
      ensures level == Hd ==> quality == (480, 270)
      ensures level == Blur ==> quality == (320, 180)
      ensures level != Hd && level != Blur ==> quality == old(quality)
    {
      if level == Hd {
        quality := (480, 270);
      } else if level == Blur {
        quality := (320, 180);
      }
    }
  }
}
