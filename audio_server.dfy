/**
 * The audio sender: it takes the sound track chunk by chunk and sends each
 * chunk as datagrams of at most 16386 bytes with payload type 35, stamped
 * with the chunk index.
 *
 * As for video, one step is a finished encode followed by the send of the
 * chunk it produced.
 */
module AudioServerRtp {
  import opened Common
  import opened Rtp
  import opened ServerRtp

  /** `BUF_SIZE`: the largest payload of one datagram (16386, not 16384). */
  const BufSize: nat := 16386
  /** The payload type the audio sender uses. */
  const AudioType: int := 35

  /**
   * The bytes of the chunk at a given index: the sub-clip that moviepy
   * cuts, laid out as 32-bit float samples. It is opaque to the model.
   */
  type ChunkSource = int -> seq<byte>

  /**
   * What a run sends from chunk `chunk` on while chunks remain below
   * `total`: each chunk cut into datagrams, stamped with the index the
   * cursor moves to, the cursor moving on by `stride` chunks, and the
   * datagrams numbered on from `first` without a gap across chunks.
   */
  function RunSent(source: ChunkSource, chunk: int, total: int, stride: nat, first: nat, ssrc: int): (ps: seq<Packet>)
    requires stride > 0
    ensures forall i :: 0 <= i < |ps| ==>
      ps[i].seqNum == first + i && ps[i].payloadType == AudioType && ps[i].ssrc == ssrc
    decreases total - chunk
  {
    if chunk >= total then []
    else
      var frags := Fragments(source(chunk), BufSize, first, AudioType, ssrc, chunk + stride);
      var rest := RunSent(source, chunk + stride, total, stride, first + |frags|, ssrc);
      assert forall i :: |frags| <= i < |frags + rest| ==> (frags + rest)[i] == rest[i - |frags|];
      frags + rest
  }

  class AudioServerRtp {
    const engine: Engine
    /** `audio`: the sound track, None before `setAudio`. */
    var audio: Option<ChunkSource>
    var currentChunk: int
    var totalChunks: int
    var currentSeq: nat
    /** The datagrams sent to the client so far, in order. */
    var sent: seq<Packet>

    /**
     * Every datagram sent so far carries payload type 35, and they are
     * numbered 1, 2, 3, ... across chunks; `currentSeq` is the next number.
     */
    ghost predicate Valid()
      reads this
    {
      && currentSeq == |sent| + 1
      && forall i :: 0 <= i < |sent| ==> sent[i].seqNum == i + 1 && sent[i].payloadType == AudioType
    }

    /** `__init__`: chunk 0 of an empty track, numbering from 1. */
    constructor ()
      ensures Valid() && fresh(engine)
      ensures engine.resumed && engine.alive && !engine.isStart && !engine.doubleSpeed && engine.socketOpen
      ensures audio == None && currentChunk == 0 && totalChunks == 0
      ensures currentSeq == 1 && sent == []
    {
      engine := new Engine();
      audio, currentChunk, totalChunks := None, 0, 0;
      currentSeq, sent := 1, [];
    }

    /** `sendCondition`: chunks remain to be sent. */
    predicate SendCondition()
      reads this
    {
      currentChunk < totalChunks
    }

    /**
     * One turn of `encode`'s loop, up to the hand-over: take the current
     * chunk and move on by one chunk, or by two at double speed, skipping
     * one. Without a sound track the encoder fails (None).
     */
    method EncodeStep() returns (chunk: Option<seq<byte>>)
      modifies this`currentChunk
      ensures old(audio).None? ==> chunk.None? && currentChunk == old(currentChunk)
      ensures old(audio).Some? ==>
        && chunk == Some(old(audio).value(old(currentChunk)))
        && currentChunk == old(currentChunk) + if engine.doubleSpeed then 2 else 1
    {
      if audio.None? {
        return None;
      }
      chunk := Some(audio.value(currentChunk));
      currentChunk := currentChunk + if !engine.doubleSpeed then 1 else 2;
    }

    /**
     * `sendData`: cut the chunk into datagrams numbered on from
     * `currentSeq`, stamped with `currentChunk`, and send them in order.
     * Nothing is sent once the socket is closed.
     */
    method SendData(chunk: seq<byte>)
      requires Valid()
      modifies this`currentSeq, this`sent
      ensures Valid()
      ensures sent == old(sent) +
        if engine.socketOpen then Fragments(chunk, BufSize, old(currentSeq), AudioType, engine.ssrc, currentChunk) else []
    {
      if !engine.socketOpen {
        return;
      }
      ghost var all := Fragments(chunk, BufSize, currentSeq, AudioType, engine.ssrc, currentChunk);
      var totalBytes := |chunk|;
      var sendBytes := 0;
      var pos := 0;
      while sendBytes < totalBytes
        invariant Valid()
        invariant pos == Min(sendBytes, totalBytes)
        invariant old(sent) + all == sent + Fragments(chunk[pos..], BufSize, currentSeq, AudioType, engine.ssrc, currentChunk)
        decreases totalBytes - sendBytes
      {
        ghost var before := sent;
        FragmentsFrom(chunk, pos, BufSize, currentSeq, AudioType, engine.ssrc, currentChunk);
        sendBytes := sendBytes + BufSize;
        var marker := !(sendBytes < totalBytes);
        var next := Min(pos + BufSize, totalBytes);
        var packet := Packet(currentSeq, marker, AudioType, engine.ssrc, currentChunk, chunk[pos..next]);
        pos := next;
        Emit(packet);
        Shift(old(sent) + all, before, packet, Fragments(chunk[pos..], BufSize, currentSeq, AudioType, engine.ssrc, currentChunk));
      }
      assert chunk[pos..] == [];
    }

    /** `socket.sendto` of one datagram followed by `currentSeq += 1`. */
    method Emit(packet: Packet)
      requires Valid() && packet.seqNum == currentSeq && packet.payloadType == AudioType
      modifies this`currentSeq, this`sent
      ensures Valid() && sent == old(sent) + [packet]
    {
      currentSeq := currentSeq + 1;
      sent := sent + [packet];
    }

    /**
     * One encode followed by the send of the chunk it produced, stamped with
     * the chunk index after the encode moved it on.
     */
    method Step() returns (chunk: Option<seq<byte>>)
      requires Valid()
      modifies this`currentChunk, this`currentSeq, this`sent
      ensures Valid() && old(sent) <= sent
      ensures chunk.Some? ==> currentChunk == old(currentChunk) + if engine.doubleSpeed then 2 else 1
      ensures chunk.Some? && engine.socketOpen ==>
        sent == old(sent) + Fragments(chunk.value, BufSize, old(currentSeq), AudioType, engine.ssrc, currentChunk)
      ensures chunk.None? <==> audio.None?
      ensures audio.Some? ==> chunk == Some(audio.value(old(currentChunk)))
      ensures chunk.None? ==> currentChunk == old(currentChunk) && sent == old(sent)
    {
      chunk := EncodeStep();
      if chunk.Some? {
        SendData(chunk.value);
      }
    }

    /**
     * `run`: mark the thread started, then step while chunks remain and no
     * stop was asked for, then close the socket. The run flag must be set,
     * since `_pause.wait()` would otherwise block before the first step.
     * With a sound track the run sends `RunSent` from the cursor on; without
     * one the encoder dies at the first step and the sender blocks for good
     * with the socket open (`hung`).
     */
    method Run() returns (hung: bool)
      requires Valid() && engine.resumed && engine.socketOpen
      modifies this`currentChunk, this`currentSeq, this`sent, engine`isStart, engine`socketOpen
      ensures Valid() && engine.isStart && old(sent) <= sent
      ensures !old(engine.alive) || !old(SendCondition()) ==> sent == old(sent) && !hung
      ensures old(engine.alive) && old(SendCondition()) ==> (hung <==> audio.None?)
      ensures audio.None? ==> sent == old(sent)
      ensures old(engine.alive) && audio.Some? ==>
        sent == old(sent) + RunSent(audio.value, old(currentChunk), totalChunks, Stride(engine.doubleSpeed), old(currentSeq), engine.ssrc)
      ensures !hung ==> !SendCondition() || !engine.alive
      ensures hung <==> engine.socketOpen
    {
      engine.Launch();
      hung := false;
      ghost var stride := Stride(engine.doubleSpeed);
      while SendCondition() && engine.alive
        invariant Valid() && old(sent) <= sent && !hung
        invariant !old(engine.alive) ==> sent == old(sent)
        invariant audio.None? ==> sent == old(sent) && currentChunk == old(currentChunk)
        invariant audio.Some? ==>
          old(sent) + RunSent(audio.value, old(currentChunk), totalChunks, stride, old(currentSeq), engine.ssrc)
          == sent + RunSent(audio.value, currentChunk, totalChunks, stride, currentSeq, engine.ssrc)
        invariant engine.socketOpen && engine.isStart
        decreases totalChunks - currentChunk
      {
        ghost var before, chunk0, seq0 := sent, currentChunk, currentSeq;
        var chunk := Step();
        if chunk.None? {
          hung := true;
          break;
        }
        ghost var frags := Fragments(audio.value(chunk0), BufSize, seq0, AudioType, engine.ssrc, currentChunk);
        assert RunSent(audio.value, chunk0, totalChunks, stride, seq0, engine.ssrc)
          == frags + RunSent(audio.value, currentChunk, totalChunks, stride, currentSeq, engine.ssrc);
        ShiftAll(before + RunSent(audio.value, chunk0, totalChunks, stride, seq0, engine.ssrc), before, frags,
              RunSent(audio.value, currentChunk, totalChunks, stride, currentSeq, engine.ssrc));
      }
      if !hung {
        engine.CloseSocket();
      }
    }

    /**
     * `setAudio`: the sound track and its number of chunks. The chunk size
     * and the pacing interval are worked out in floating point and are not
     * part of the model.
     */
    method SetAudio(source: ChunkSource, chunks: int)
      modifies this`audio, this`totalChunks
      ensures audio == Some(source) && totalChunks == chunks
    {
      audio, totalChunks := Some(source), chunks;
    }

    /** `setPosition`: jump to the chunk `pos` per mille into the track. */
    method SetPosition(pos: int)
      modifies this`currentChunk
      ensures currentChunk == PerMille(totalChunks, pos)
      ensures 0 <= totalChunks && 0 <= pos <= 1000 ==> 0 <= currentChunk <= totalChunks
    {
      currentChunk := PerMille(totalChunks, pos);
      if 0 <= totalChunks && 0 <= pos <= 1000 {
        PerMilleRange(totalChunks, pos);
      }
    }

    /**
     * `align`: shift the cursor by a whole number of chunks, without any
     * clamping, so it may leave the track on either side.
     */
    method Align(deltaChunk: int)
      modifies this`currentChunk
      ensures currentChunk == old(currentChunk) + deltaChunk
    {
      currentChunk := currentChunk + deltaChunk;
    }
  }
}
