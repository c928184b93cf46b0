/**
 * The server's side of the control session: it parses each request, drives
 * the video and audio senders, and answers with a response text. Requests
 * arrive as strings. What OpenCV and moviepy report for a file is a
 * parameter (`Library`), and so is the conversion of an `align` value in
 * seconds into whole audio chunks.
 */
module ServerRtspController {
  import opened Common
  import opened Text
  import opened ServerRtp
  import V = VideoServerRtp
  import A = AudioServerRtp

  /** What OpenCV reports for a video file: its frames, frame rate and frame count. */
  datatype Capture = Capture(frames: seq<seq<byte>>, fps: real, frameCount: nat)

  /** What moviepy reports for a file's sound track: its chunks and sample rate. */
  datatype Sound = Sound(chunks: A.ChunkSource, fps: real)

  /** A file as the libraries open it; no sound when moviepy fails to open it. */
  datatype Media = Media(capture: Capture, sound: Option<Sound>)

  type Library = string -> Media

  /** The stream description `getInfo` returns: video length and rates, floored. */
  datatype Info = Info(length: int, framerate: int, audioFramerate: int)

  /** `getInfo` for a file whose sound track opened. */
  function InfoOf(m: Media): Info
    requires m.sound.Some?
  {
    Info(m.capture.frameCount, m.capture.fps.Floor, m.sound.value.fps.Floor)
  }

  /** The position of a PLAY request: absent, a number, or text `int` rejects. */
  datatype Position = NoPosition | At(pos: int) | BadPosition

  /** A request as `handleRequest` reads it. */
  datatype Command =
    | NoRequest
    | Malformed
    | DescribeCmd(cseq: int, filename: string)
    | SetupCmd(cseq: int, port: Option<int>)
    | PlayCmd(cseq: int, position: Position)
    | PauseCmd(cseq: int)
    | TeardownCmd(cseq: int)
    | SetParameterCmd(cseq: int, param: Option<(string, string)>)
    | UnknownCmd

  /**
   * `int(lines[3].split(' ')[-1][4:])` when there is a fourth line: the
   * last word of that line without its first four characters.
   */
  function PlayPosition(request: string): Position
  {
    var lines := Split(request, '\n');
    if |lines| <= 3 then NoPosition
    else
      var w := LastPiece(lines[3], ' ');
      match ParseInt(if |w| >= 4 then w[4..] else "")
      case None => BadPosition
      case Some(p) => At(p)
  }

  /** `key, value = lines[3].split(':')`: None unless the line exists and has one colon. */
  function Parameter(request: string): Option<(string, string)>
  {
    var lines := Split(request, '\n');
    if |lines| <= 3 then None
    else
      var kv := Split(lines[3], ':');
      if |kv| != 2 then None else Some((kv[0], kv[1]))
  }

  /**
   * The reading part of `handleRequest`: the CSeq is the number after the
   * first space of line 2, the command and the file name are the first two
   * words of line 1, and each command reads what it needs from the rest.
   * Malformed where Python raises before any effect.
   */
  function Parse(request: string): Command
  {
    if |request| == 0 then NoRequest
    else
      var cseq := LineWordNumber(request, 1, 1);
      var words := Split(Split(request, '\n')[0], ' ');
      if cseq.None? || |words| < 2 then Malformed
      else
        var c := cseq.value;
        if words[0] == "DESCRIBE" then DescribeCmd(c, words[1])
        else if words[0] == "SETUP" then SetupCmd(c, LineTailNumber(request, 2, '='))
        else if words[0] == "PLAY" then PlayCmd(c, PlayPosition(request))
        else if words[0] == "PAUSE" then PauseCmd(c)
        else if words[0] == "TEARDOWN" then TeardownCmd(c)
        else if words[0] == "SET_PARAMETER" then SetParameterCmd(c, Parameter(request))
        else UnknownCmd
  }

  /** The response every command gets: status 200, the request's CSeq and the session. */
  function Response(cseq: int, session: int): string
  {
    "RTSP/1.0 200 OK\nCSeq: " + IntToString(cseq) + "\nSession: " + IntToString(session)
  }

  /** The DESCRIBE response: the common lines, then the video and the audio description. */
  function DescribeResponse(cseq: int, session: int, info: Info): string
  {
    Response(cseq, session)
      + "\nm=video 0\na=control:streamid=0\na=length:" + IntToString(info.length)
      + "\na=framerate:" + IntToString(info.framerate)
      + "\nm=audio 0\na=control:streamid=1\na=framerate:" + IntToString(info.audioFramerate)
  }

  /** Neither sender, nor its engine, changed at all. */
  twostate predicate SendersKept(v0: V.VideoServerRtp?, a0: A.AudioServerRtp?)
    reads v0, a0, if v0 != null then {v0.engine} else {}, if a0 != null then {a0.engine} else {}
  {
    && (v0 != null ==> unchanged(v0) && unchanged(v0.engine))
    && (a0 != null ==> unchanged(a0) && unchanged(a0.engine))
  }

  /** The senders' read positions did not move. */
  twostate predicate CursorsKept(v0: V.VideoServerRtp?, a0: A.AudioServerRtp?)
    reads v0, a0
  {
    && (v0 != null ==> v0.currentFrame == old(v0.currentFrame) && v0.capPos == old(v0.capPos))
    && (a0 != null ==> a0.currentChunk == old(a0.currentChunk))
  }

  /** The video quality did not change. */
  twostate predicate QualityKept(v0: V.VideoServerRtp?)
    reads v0
  {
    v0 != null ==> v0.quality == old(v0.quality)
  }

  /** The engines' speed did not change. */
  twostate predicate SpeedKept(v0: V.VideoServerRtp?, a0: A.AudioServerRtp?)
    reads if v0 != null then {v0.engine} else {}, if a0 != null then {a0.engine} else {}
  {
    && (v0 != null ==> v0.engine.doubleSpeed == old(v0.engine.doubleSpeed))
    && (a0 != null ==> a0.engine.doubleSpeed == old(a0.engine.doubleSpeed))
  }

  /** The engines' started and alive flags did not change. */
  twostate predicate LifeKept(v0: V.VideoServerRtp?, a0: A.AudioServerRtp?)
    reads if v0 != null then {v0.engine} else {}, if a0 != null then {a0.engine} else {}
  {
    && (v0 != null ==> v0.engine.isStart == old(v0.engine.isStart) && v0.engine.alive == old(v0.engine.alive))
    && (a0 != null ==> a0.engine.isStart == old(a0.engine.isStart) && a0.engine.alive == old(a0.engine.alive))
  }

  /** The engines' run flags did not change. */
  twostate predicate RunFlagsKept(v0: V.VideoServerRtp?, a0: A.AudioServerRtp?)
    reads if v0 != null then {v0.engine} else {}, if a0 != null then {a0.engine} else {}
  {
    && (v0 != null ==> v0.engine.resumed == old(v0.engine.resumed))
    && (a0 != null ==> a0.engine.resumed == old(a0.engine.resumed))
  }

  class ServerRtspController {
    const clientAddr: string
    const ssrc: int
    const sessionid: int
    var clientVideoRtpPort: int
    var info: Option<Info>
    /** `cap`: the opened video, None when there is none or it was released. */
    var cap: Option<Capture>
    var audioClip: Option<Sound>
    var videoRtp: V.VideoServerRtp?
    var audioRtp: A.AudioServerRtp?
    /** Whether `rtspSocket` is still there. */
    var socketOpen: bool
    /** The responses written to the RTSP socket, in order. */
    var responses: seq<string>

    /**
     * The two senders have separate engines, and a stream description is
     * only ever set together with the sound track it describes.
     */
    ghost predicate Valid()
      reads this
    {
      && (videoRtp != null && audioRtp != null ==> videoRtp.engine != audioRtp.engine)
      && (info.Some? ==> audioClip.Some?)
    }

    /** The senders present. */
    ghost function Video(): set<V.VideoServerRtp>
      reads this
    {
      if videoRtp != null then {videoRtp} else {}
    }

    ghost function Audio(): set<A.AudioServerRtp>
      reads this
    {
      if audioRtp != null then {audioRtp} else {}
    }

    /** The engines of the senders present. */
    ghost function Engines(): set<Engine>
      reads this
    {
      (if videoRtp != null then {videoRtp.engine} else {}) + (if audioRtp != null then {audioRtp.engine} else {})
    }

    /**
     * `__init__` followed by `init`: no stream, no senders, port 0, and an
     * SSRC and a session id drawn from 1 to 99999 (passed in here).
     */
    constructor (clientAddr: string, ssrc: int, sessionid: int)
      requires 1 <= ssrc <= 99999 && 1 <= sessionid <= 99999
      ensures Valid()
      ensures this.clientAddr == clientAddr && this.ssrc == ssrc && this.sessionid == sessionid
      ensures clientVideoRtpPort == 0 && info == None && cap == None && audioClip == None
      ensures videoRtp == null && audioRtp == null && socketOpen && responses == []
    {
      this.clientAddr, this.ssrc, this.sessionid := clientAddr, ssrc, sessionid;
      clientVideoRtpPort, info, cap, audioClip := 0, None, None, None;
      videoRtp, audioRtp, socketOpen, responses := null, null, true, [];
    }

    /** `rtspSocket.send` of one response. */
    method Send(response: string)
      modifies this`responses
      ensures responses == old(responses) + [response]
    {
      responses := responses + [response];
    }

    /**
     * `getInfo` with `getVideoInfo` and `getAudioInfo`: the old capture is
     * released and the file opened anew; when its sound track cannot be
     * opened the call raises (`ok` false) with the new capture in place
     * and the old description and sound track kept.
     */
    method GetInfo(filename: string, library: Library) returns (ok: bool)
      requires Valid()
      modifies this`cap, this`audioClip, this`info
      ensures Valid()
      ensures cap == Some(library(filename).capture)
      ensures ok <==> library(filename).sound.Some?
      ensures ok ==> audioClip == library(filename).sound && info == Some(InfoOf(library(filename)))
      ensures !ok ==> audioClip == old(audioClip) && info == old(info)
    {
      var m := library(filename);
      cap := Some(m.capture);
      if m.sound.None? {
        return false;
      }
      audioClip := m.sound;
      info := Some(InfoOf(m));
      ok := true;
    }

    /**
     * `setup`: a new video sender aimed at the client's RTP port with the
     * capture, then a new audio sender aimed at that port + 2 with the
     * sound track, both with the session's SSRC. It raises without a
     * capture, on a capture frame rate of 0, without a description, and on
     * a described frame rate of 0 (the seconds-to-chunks division), each
     * time keeping what was done before.
     */
    method Setup() returns (ok: bool)
      requires Valid()
      modifies this`videoRtp, this`audioRtp
      ensures Valid()
      ensures ok <==> cap.Some? && cap.value.fps != 0.0 && info.Some? && info.value.framerate != 0
      ensures fresh(videoRtp) && fresh(videoRtp.engine)
      ensures videoRtp.engine.client == Some((clientAddr, clientVideoRtpPort)) && videoRtp.engine.ssrc == ssrc
      ensures videoRtp.engine.resumed && videoRtp.engine.alive && !videoRtp.engine.isStart
      ensures cap.Some? ==> videoRtp.capture == Some(cap.value.frames) && videoRtp.totalLength == cap.value.frameCount
      ensures !(cap.Some? && cap.value.fps != 0.0 && info.Some?) ==> audioRtp == old(audioRtp)
      ensures cap.Some? && cap.value.fps != 0.0 && info.Some? ==>
        && fresh(audioRtp) && fresh(audioRtp.engine)
        && audioRtp.engine.client == Some((clientAddr, clientVideoRtpPort + 2)) && audioRtp.engine.ssrc == ssrc
        && audioRtp.engine.resumed && audioRtp.engine.alive && !audioRtp.engine.isStart
      ensures ok ==> audioRtp.audio == Some(audioClip.value.chunks) && audioRtp.totalChunks == info.value.length
    {
      var video := new V.VideoServerRtp();
      videoRtp := video;
      video.engine.SetClientInfo(clientAddr, clientVideoRtpPort);
      video.engine.SetSsrc(ssrc);
      if cap.None? {
        return false;
      }
      var capOk := video.SetCapture(cap.value.frames, cap.value.frameCount, cap.value.fps);
      if !capOk || info.None? {
        return false;
      }
      var fs := info.value.framerate;
      var audio := new A.AudioServerRtp();
      audioRtp := audio;
      audio.engine.SetClientInfo(clientAddr, clientVideoRtpPort + 2);
      audio.engine.SetSsrc(ssrc);
      if fs == 0 {
        return false;
      }
      audio.SetAudio(audioClip.value.chunks, info.value.length);
      ok := true;
    }

    /**
     * `play(pos)`: with a position, pause each sender and move it to `pos`
     * per mille; then resume both, and start both unless the video sender
     * has started. A missing sender raises (`ok` false) at its first use.
     */
    method Play(pos: Option<int>) returns (ok: bool)
      requires Valid()
      modifies Video()`currentFrame, Video()`capPos, Audio()`currentChunk, Engines()`resumed, Engines()`isStart
      ensures ok <==> videoRtp != null && audioRtp != null
      ensures videoRtp == null ==> audioRtp != null ==>
        audioRtp.currentChunk == old(audioRtp.currentChunk) && audioRtp.engine.resumed == old(audioRtp.engine.resumed)
        && audioRtp.engine.isStart == old(audioRtp.engine.isStart)
      ensures videoRtp != null && pos.Some? ==> videoRtp.currentFrame == PerMille(videoRtp.totalLength, pos.value)
      ensures videoRtp != null && pos.None? ==> videoRtp.currentFrame == old(videoRtp.currentFrame)
      ensures videoRtp != null && pos.Some? ==> videoRtp.capPos == videoRtp.currentFrame
      ensures videoRtp != null && pos.None? ==> videoRtp.capPos == old(videoRtp.capPos)
      ensures ok && pos.Some? ==> audioRtp.currentChunk == PerMille(audioRtp.totalChunks, pos.value)
      ensures ok && pos.None? ==> audioRtp.currentChunk == old(audioRtp.currentChunk)
      ensures videoRtp != null ==> videoRtp.engine.resumed == (ok || pos.None?)
      ensures ok ==> audioRtp.engine.resumed && videoRtp.engine.isStart
      ensures ok ==> audioRtp.engine.isStart == (old(audioRtp.engine.isStart) || !old(videoRtp.engine.isStart))
      ensures !ok && videoRtp != null ==> videoRtp.engine.isStart == old(videoRtp.engine.isStart)
    {
      var video, audio := videoRtp, audioRtp;
      if pos.Some? {
        if video == null {
          return false;
        }
        video.engine.Pause();
        video.SetPosition(pos.value);
        if audio == null {
          return false;
        }
        audio.engine.Pause();
        audio.SetPosition(pos.value);
      }
      if video == null {
        return false;
      }
      video.engine.Resume();
      if audio == null {
        return false;
      }
      audio.engine.Resume();
      if !video.engine.isStart {
        video.engine.Launch();
        audio.engine.Launch();
      }
      ok := true;
    }

    /** `pause`: pause the video sender, then the audio sender. */
    method Pause() returns (ok: bool)
      requires Valid()
      modifies Engines()`resumed
      ensures ok <==> videoRtp != null && audioRtp != null
      ensures videoRtp != null ==> !videoRtp.engine.resumed
      ensures audioRtp != null ==> audioRtp.engine.resumed == (old(audioRtp.engine.resumed) && videoRtp == null)
    {
      if videoRtp == null {
        return false;
      }
      videoRtp.engine.Pause();
      if audioRtp == null {
        return false;
      }
      audioRtp.engine.Pause();
      ok := true;
    }

    /** Nothing is left to release. */
    predicate TornDown()
      reads this
    {
      videoRtp == null && audioRtp == null && !socketOpen && cap == None
    }

    /**
     * `teardown`: stop and drop each sender, close the socket and release
     * the capture, each only when still there. A second call finds nothing
     * to do and changes nothing.
     */
    method Teardown()
      requires Valid()
      modifies this`videoRtp, this`audioRtp, this`socketOpen, this`cap, Engines()`resumed, Engines()`alive
      ensures Valid() && TornDown()
      ensures old(videoRtp) != null ==> old(videoRtp).engine.resumed && !old(videoRtp).engine.alive
      ensures old(audioRtp) != null ==> old(audioRtp).engine.resumed && !old(audioRtp).engine.alive
      ensures old(TornDown()) ==> unchanged(this)
    {
      if videoRtp != null {
        videoRtp.engine.Stop();
        videoRtp := null;
      }
      if audioRtp != null {
        audioRtp.engine.Stop();
        audioRtp := null;
      }
      if socketOpen {
        socketOpen := false;
      }
      if cap.Some? {
        cap := None;
      }
    }

    /**
     * The SET_PARAMETER branch: `align` shifts the audio cursor by the
     * chunks the value converts to, `level` sets the video quality, and
     * both are answered; `speed` sets both senders' speed without an
     * answer; any other key is ignored. A value that does not convert, or
     * a missing sender, raises (`ok` false).
     */
    method SetParameter(cseq: int, key: string, value: string, alignChunks: string -> Option<int>) returns (ok: bool)
      requires Valid()
      modifies this`responses, Audio()`currentChunk, Video()`quality, Engines()`doubleSpeed
      ensures Valid()
      ensures key == "align" ==>
        && (ok <==> alignChunks(value).Some? && audioRtp != null)
        && (ok ==> audioRtp.currentChunk == old(audioRtp.currentChunk) + alignChunks(value).value)
      ensures key == "level" ==>
        && (ok <==> ParseInt(value).Some? && videoRtp != null)
        && (ok ==> videoRtp.quality == (if ParseInt(value).value == V.Hd then (480, 270)
                                        else if ParseInt(value).value == V.Blur then (320, 180)
                                        else old(videoRtp.quality)))
      ensures key == "speed" ==>
        && (ok <==> ParseInt(value).Some? && videoRtp != null && audioRtp != null)
        && (ParseInt(value).Some? && videoRtp != null ==>
              videoRtp.engine.doubleSpeed == SpeedAfter(ParseInt(value).value, old(videoRtp.engine.doubleSpeed)))
        && (ok ==> audioRtp.engine.doubleSpeed == SpeedAfter(ParseInt(value).value, old(audioRtp.engine.doubleSpeed)))
      ensures key !in {"align", "level", "speed"} ==> ok
      ensures !(key == "align" && ok) ==> CursorsKept(null, audioRtp)
      ensures !(key == "level" && ok) ==> QualityKept(videoRtp)
      ensures key != "speed" ==> SpeedKept(videoRtp, audioRtp)
      ensures key == "speed" && !ok ==> SpeedKept(null, audioRtp)
      ensures key == "speed" && (ParseInt(value).None? || videoRtp == null) ==> SpeedKept(videoRtp, null)
      ensures ParameterOutcome(Some((key, value)), alignChunks, old(videoRtp), old(audioRtp), ok)
      ensures responses == old(responses) + if ok && key in {"align", "level"} then [Response(cseq, sessionid)] else []
    {
      if key == "align" {
        var delta := alignChunks(value);
        if delta.None? || audioRtp == null {
          return false;
        }
        audioRtp.Align(delta.value);
        Send(Response(cseq, sessionid));
      } else if key == "level" {
        var level := ParseInt(value);
        if level.None? || videoRtp == null {
          return false;
        }
        videoRtp.SetQuality(level.value);
        Send(Response(cseq, sessionid));
      } else if key == "speed" {
        var speed := ParseInt(value);
        if speed.None? || videoRtp == null {
          return false;
        }
        videoRtp.engine.Speed(speed.value);
        if audioRtp == null {
          return false;
        }
        audioRtp.engine.Speed(speed.value);
      }
      ok := true;
    }

    /** The DESCRIBE branch: describe the file, then answer with the description. */
    method OnDescribe(cseq: int, filename: string, library: Library) returns (ok: bool)
      requires Valid()
      modifies this`cap, this`audioClip, this`info, this`responses
      ensures Valid()
      ensures cap == Some(library(filename).capture)
      ensures ok <==> library(filename).sound.Some?
      ensures ok ==> audioClip == library(filename).sound && info == Some(InfoOf(library(filename)))
      ensures !ok ==> audioClip == old(audioClip) && info == old(info)
      ensures responses == old(responses) + if ok then [DescribeResponse(cseq, sessionid, InfoOf(library(filename)))] else []
      ensures DescribeOutcome(library(filename), old(videoRtp), old(audioRtp), ok)
    {
      ok := GetInfo(filename, library);
      if ok {
        Send(DescribeResponse(cseq, sessionid, info.value));
      }
    }

    /**
     * The SETUP branch: note the client's RTP port, set both senders up,
     * then answer. An unreadable port raises before anything is done.
     */
    method OnSetup(cseq: int, port: Option<int>) returns (ok: bool)
      requires Valid()
      modifies this`clientVideoRtpPort, this`videoRtp, this`audioRtp, this`responses
      ensures Valid()
      ensures port.None? ==> !ok && clientVideoRtpPort == old(clientVideoRtpPort) && videoRtp == old(videoRtp) && audioRtp == old(audioRtp)
      ensures port.Some? ==>
        && clientVideoRtpPort == port.value && videoRtp != null && fresh(videoRtp)
        && videoRtp.engine.client == Some((clientAddr, port.value))
      ensures ok <==> port.Some? && cap.Some? && cap.value.fps != 0.0 && info.Some? && info.value.framerate != 0
      ensures port.Some? && cap.Some? && cap.value.fps != 0.0 && info.Some? ==>
        audioRtp != null && fresh(audioRtp) && audioRtp.engine.client == Some((clientAddr, port.value + 2))
      ensures port.Some? && !(cap.Some? && cap.value.fps != 0.0 && info.Some?) ==> audioRtp == old(audioRtp)
      ensures responses == old(responses) + if ok then [Response(cseq, sessionid)] else []
      ensures SetupOutcome(port, old(videoRtp), old(audioRtp), ok)
    {
      if port.None? {
        return false;
      }
      clientVideoRtpPort := port.value;
      ok := Setup();
      if ok {
        Send(Response(cseq, sessionid));
      }
    }

    /**
     * The PLAY branch: answer first, then read the position (raising on
     * one `int` rejects) and play.
     */
    method OnPlay(cseq: int, position: Position) returns (ok: bool)
      requires Valid()
      modifies this`responses, Video()`currentFrame, Video()`capPos, Audio()`currentChunk, Engines()`resumed, Engines()`isStart
      ensures Valid()
      ensures responses == old(responses) + [Response(cseq, sessionid)]
      ensures ok <==> position != BadPosition && videoRtp != null && audioRtp != null
      ensures ok ==> videoRtp.engine.resumed && audioRtp.engine.resumed && videoRtp.engine.isStart
      ensures ok && position.At? ==>
        && videoRtp.currentFrame == PerMille(videoRtp.totalLength, position.pos)
        && audioRtp.currentChunk == PerMille(audioRtp.totalChunks, position.pos)
      ensures ok && position.NoPosition? ==>
        videoRtp.currentFrame == old(videoRtp.currentFrame) && audioRtp.currentChunk == old(audioRtp.currentChunk)
      ensures position == BadPosition ==> SendersKept(videoRtp, audioRtp)
      ensures PlayOutcome(position, old(videoRtp), old(audioRtp), ok)
    {
      Send(Response(cseq, sessionid));
      if position == BadPosition {
        return false;
      }
      ok := Play(if position.At? then Some(position.pos) else None);
    }

    /** The PAUSE branch: pause both senders, then answer. */
    method OnPause(cseq: int) returns (ok: bool)
      requires Valid()
      modifies this`responses, Engines()`resumed
      ensures Valid()
      ensures ok <==> videoRtp != null && audioRtp != null
      ensures videoRtp != null ==> !videoRtp.engine.resumed
      ensures ok ==> !audioRtp.engine.resumed
      ensures !ok && audioRtp != null ==> audioRtp.engine.resumed == old(audioRtp.engine.resumed)
      ensures responses == old(responses) + if ok then [Response(cseq, sessionid)] else []
      ensures PauseOutcome(old(videoRtp), old(audioRtp), ok)
    {
      ok := Pause();
      if ok {
        Send(Response(cseq, sessionid));
      }
    }

    /**
     * The TEARDOWN branch: pause both senders, answer, then release
     * everything. Without an audio sender `pause` raises after pausing the
     * video sender, which stays paused and in place.
     */
    method OnTeardown(cseq: int) returns (ok: bool)
      requires Valid()
      modifies this`responses, this`videoRtp, this`audioRtp, this`socketOpen, this`cap, Engines()`resumed, Engines()`alive
      ensures Valid()
      ensures ok <==> old(videoRtp) != null && old(audioRtp) != null
      ensures ok ==> TornDown() && !old(videoRtp).engine.alive && !old(audioRtp).engine.alive
      ensures !ok ==> videoRtp == old(videoRtp) && audioRtp == old(audioRtp) && socketOpen == old(socketOpen) && cap == old(cap)
      ensures !ok && videoRtp != null ==> !videoRtp.engine.resumed
      ensures !ok ==> LifeKept(videoRtp, audioRtp)
      ensures !ok && audioRtp != null ==> audioRtp.engine.resumed == old(audioRtp.engine.resumed)
      ensures responses == old(responses) + if ok then [Response(cseq, sessionid)] else []
      ensures TeardownOutcome(old(videoRtp), old(audioRtp), ok)
    {
      ok := Pause();
      if ok {
        Send(Response(cseq, sessionid));
        Teardown();
      }
    }

    /** The capture, the sound track and the description did not change. */
    twostate predicate StreamKept()
      reads this
    {
      cap == old(cap) && info == old(info) && audioClip == old(audioClip)
    }

    /** The client's port and the RTSP socket did not change. */
    twostate predicate LinkKept()
      reads this
    {
      clientVideoRtpPort == old(clientVideoRtpPort) && socketOpen == old(socketOpen)
    }

    /** The controller, the senders and their engines are as they were. */
    twostate predicate NothingChanged(v0: V.VideoServerRtp?, a0: A.AudioServerRtp?)
      reads this, Video(), Audio(), Engines(), v0, a0
      reads if v0 != null then {v0.engine} else {}, if a0 != null then {a0.engine} else {}
    {
      videoRtp == v0 && audioRtp == a0 && SendersKept(v0, a0) && StreamKept() && LinkKept()
    }

    /**
     * DESCRIBE of a file the libraries open as `m`: the capture is always
     * replaced; the sound track and the description change only when the
     * sound track opened; the senders and the client's port stay.
     */
    twostate predicate DescribeOutcome(m: Media, v0: V.VideoServerRtp?, a0: A.AudioServerRtp?, ok: bool)
      reads this, Video(), Audio(), Engines(), v0, a0
      reads if v0 != null then {v0.engine} else {}, if a0 != null then {a0.engine} else {}
    {
      && cap == Some(m.capture)
      && (ok <==> m.sound.Some?)
      && (ok ==> audioClip == m.sound && info == Some(InfoOf(m)))
      && (!ok ==> audioClip == old(audioClip) && info == old(info))
      && videoRtp == v0 && audioRtp == a0 && SendersKept(v0, a0) && LinkKept()
    }

    /**
     * SETUP with the client's port, if readable: new senders aimed at the
     * port and port + 2 as far as `setup` gets; the senders replaced are
     * left as they were, and so are the capture and the description.
     */
    twostate predicate SetupOutcome(port: Option<int>, v0: V.VideoServerRtp?, a0: A.AudioServerRtp?, ok: bool)
      reads this, Video(), Audio(), Engines(), v0, a0
      reads if v0 != null then {v0.engine} else {}, if a0 != null then {a0.engine} else {}
    {
      && (ok <==> port.Some? && cap.Some? && cap.value.fps != 0.0 && info.Some? && info.value.framerate != 0)
      && (port.None? ==> clientVideoRtpPort == old(clientVideoRtpPort) && videoRtp == v0 && audioRtp == a0)
      && (port.Some? ==>
            && clientVideoRtpPort == port.value && videoRtp != null && fresh(videoRtp)
            && videoRtp.engine.client == Some((clientAddr, port.value)))
      && (port.Some? && cap.Some? && cap.value.fps != 0.0 && info.Some? ==>
            audioRtp != null && fresh(audioRtp) && audioRtp.engine.client == Some((clientAddr, port.value + 2)))
      && (port.Some? && !(cap.Some? && cap.value.fps != 0.0 && info.Some?) ==> audioRtp == a0)
      && StreamKept() && socketOpen == old(socketOpen) && SendersKept(v0, a0)
    }

    /**
     * PLAY at a position: both senders moved there (or kept where they
     * are), resumed and started; a bad position changes no sender; the
     * quality, the speed, the stream and the port stay.
     */
    twostate predicate PlayOutcome(position: Position, v0: V.VideoServerRtp?, a0: A.AudioServerRtp?, ok: bool)
      reads this, Video(), Audio(), Engines(), v0, a0
      reads if v0 != null then {v0.engine} else {}, if a0 != null then {a0.engine} else {}
    {
      && videoRtp == v0 && audioRtp == a0
      && (ok <==> position != BadPosition && videoRtp != null && audioRtp != null)
      && (ok ==> videoRtp.engine.resumed && audioRtp.engine.resumed && videoRtp.engine.isStart)
      && (ok && position.At? ==>
            && videoRtp.currentFrame == PerMille(videoRtp.totalLength, position.pos)
            && audioRtp.currentChunk == PerMille(audioRtp.totalChunks, position.pos))
      && (ok && position.NoPosition? ==>
            videoRtp.currentFrame == old(v0.currentFrame) && audioRtp.currentChunk == old(a0.currentChunk))
      && (v0 != null && position.At? ==>
            v0.currentFrame == PerMille(v0.totalLength, position.pos) && v0.capPos == v0.currentFrame)
      && (v0 != null && position.NoPosition? ==> v0.currentFrame == old(v0.currentFrame) && v0.capPos == old(v0.capPos))
      && (position == BadPosition ==> SendersKept(v0, a0))
      && StreamKept() && LinkKept() && QualityKept(v0) && SpeedKept(v0, a0)
    }

    /**
     * PAUSE: both senders paused, or, without both, only a video sender
     * that is there; nothing else changes.
     */
    twostate predicate PauseOutcome(v0: V.VideoServerRtp?, a0: A.AudioServerRtp?, ok: bool)
      reads this, Video(), Audio(), Engines(), v0, a0
      reads if v0 != null then {v0.engine} else {}, if a0 != null then {a0.engine} else {}
    {
      && videoRtp == v0 && audioRtp == a0
      && (ok <==> videoRtp != null && audioRtp != null)
      && (videoRtp != null ==> !videoRtp.engine.resumed)
      && (ok ==> !audioRtp.engine.resumed)
      && (!ok && a0 != null ==> a0.engine.resumed == old(a0.engine.resumed))
      && StreamKept() && LinkKept() && CursorsKept(v0, a0) && QualityKept(v0) && SpeedKept(v0, a0) && LifeKept(v0, a0)
    }

    /**
     * TEARDOWN: with both senders everything is released and both are
     * stopped; without, only a video sender that is there is paused. The
     * sound track, the description and the port stay either way.
     */
    twostate predicate TeardownOutcome(v0: V.VideoServerRtp?, a0: A.AudioServerRtp?, ok: bool)
      reads this, Video(), Audio(), Engines(), v0, a0
      reads if v0 != null then {v0.engine} else {}, if a0 != null then {a0.engine} else {}
    {
      && (ok <==> v0 != null && a0 != null)
      && (ok ==> TornDown() && !v0.engine.alive && !a0.engine.alive)
      && (!ok ==> videoRtp == v0 && audioRtp == a0 && socketOpen == old(socketOpen) && cap == old(cap))
      && (!ok && v0 != null ==> !v0.engine.resumed)
      && (!ok && a0 != null ==> a0.engine.resumed == old(a0.engine.resumed))
      && (!ok ==> LifeKept(v0, a0))
      && info == old(info) && audioClip == old(audioClip) && clientVideoRtpPort == old(clientVideoRtpPort)
      && CursorsKept(v0, a0) && QualityKept(v0) && SpeedKept(v0, a0)
    }

    /**
     * SET_PARAMETER with its `key:value` pair, if readable: `align` moves
     * the audio cursor, `level` sets the quality, `speed` sets the speeds,
     * and each leaves what the others set; no key touches the stream, the
     * port, the video cursor or the engines' other flags.
     */
    twostate predicate ParameterOutcome(param: Option<(string, string)>, alignChunks: string -> Option<int>,
                                        v0: V.VideoServerRtp?, a0: A.AudioServerRtp?, ok: bool)
      reads this, Video(), Audio(), Engines(), v0, a0
      reads if v0 != null then {v0.engine} else {}, if a0 != null then {a0.engine} else {}
    {
      && videoRtp == v0 && audioRtp == a0
      && (param.None? ==> !ok && SendersKept(v0, a0))
      && (param.Some? && param.value.0 == "align" ==>
            && (ok <==> alignChunks(param.value.1).Some? && audioRtp != null)
            && (ok ==> audioRtp.currentChunk == old(a0.currentChunk) + alignChunks(param.value.1).value))
      && (param.Some? && param.value.0 == "level" ==>
            && (ok <==> ParseInt(param.value.1).Some? && videoRtp != null)
            && (ok ==> videoRtp.quality == (if ParseInt(param.value.1).value == V.Hd then (480, 270)
                                            else if ParseInt(param.value.1).value == V.Blur then (320, 180)
                                            else old(v0.quality))))
      && (param.Some? && param.value.0 == "speed" ==>
            && (ok <==> ParseInt(param.value.1).Some? && videoRtp != null && audioRtp != null)
            && (ParseInt(param.value.1).Some? && videoRtp != null ==>
                  videoRtp.engine.doubleSpeed == SpeedAfter(ParseInt(param.value.1).value, old(v0.engine.doubleSpeed)))
            && (ok ==> audioRtp.engine.doubleSpeed == SpeedAfter(ParseInt(param.value.1).value, old(a0.engine.doubleSpeed))))
      && (param.Some? && param.value.0 !in {"align", "level", "speed"} ==> ok)
      && (!(param.Some? && param.value.0 == "align" && ok) ==> CursorsKept(null, a0))
      && (!(param.Some? && param.value.0 == "level" && ok) ==> QualityKept(v0))
      && (!(param.Some? && param.value.0 == "speed") ==> SpeedKept(v0, a0))
      && (param.Some? && param.value.0 == "speed" && !ok ==> SpeedKept(null, a0))
      && StreamKept() && LinkKept() && CursorsKept(v0, null) && LifeKept(v0, a0) && RunFlagsKept(v0, a0)
    }

    /**
     * What the branch of `handleRequest` for a command does, between the
     * state before it (`old`, with `v0` and `a0` the senders then) and the
     * state after it, given whether it went through (`ok`): when each
     * command goes through or raises, what it changes in the senders, the
     * capture, the description and the client's port, and what it leaves.
     */
    twostate predicate Outcome(command: Command, library: Library, alignChunks: string -> Option<int>,
                               v0: V.VideoServerRtp?, a0: A.AudioServerRtp?, ok: bool)
      reads this, Video(), Audio(), Engines(), v0, a0
      reads if v0 != null then {v0.engine} else {}, if a0 != null then {a0.engine} else {}
    {
      match command
      case NoRequest => ok && NothingChanged(v0, a0)
      case UnknownCmd => ok && NothingChanged(v0, a0)
      case Malformed => !ok && NothingChanged(v0, a0)
      case DescribeCmd(_, f) => DescribeOutcome(library(f), v0, a0, ok)
      case SetupCmd(_, port) => SetupOutcome(port, v0, a0, ok)
      case PlayCmd(_, position) => PlayOutcome(position, v0, a0, ok)
      case PauseCmd(_) => PauseOutcome(v0, a0, ok)
      case TeardownCmd(_) => TeardownOutcome(v0, a0, ok)
      case SetParameterCmd(_, param) => ParameterOutcome(param, alignChunks, v0, a0, ok)
    }

    /**
     * `handleRequest`: read the request, then run the branch of its command.
     * An empty request or an unknown command does nothing; a request whose
     * CSeq or request line cannot be read raises (`ok` false) before
     * anything is done. Which responses go out is `ResponsesTo`.
     */
    method HandleRequest(request: string, library: Library, alignChunks: string -> Option<int>) returns (ok: bool)
      requires Valid()
      modifies this`responses, this`cap, this`audioClip, this`info, this`clientVideoRtpPort, this`videoRtp, this`audioRtp,
               this`socketOpen, Video()`currentFrame, Video()`capPos, Video()`quality, Audio()`currentChunk,
               Engines()`resumed, Engines()`isStart, Engines()`alive, Engines()`doubleSpeed
      ensures Valid()
      ensures Parse(request) in {NoRequest, UnknownCmd} ==> ok && unchanged(this)
      ensures Parse(request) == Malformed ==> !ok && unchanged(this)
      ensures responses == old(responses) + ResponsesTo(Parse(request), ok, sessionid, library)
      ensures Outcome(Parse(request), library, alignChunks, old(videoRtp), old(audioRtp), ok)
    {
      ok := Dispatch(Parse(request), library, alignChunks);
    }

    /**
     * The `if command == ...` chain of `handleRequest`, on a request already
     * read: each command runs its branch; SET_PARAMETER raises (`ok` false)
     * when its fourth line is missing or is not one `key:value` pair.
     */
    method Dispatch(command: Command, library: Library, alignChunks: string -> Option<int>) returns (ok: bool)
      requires Valid()
      modifies this`responses, this`cap, this`audioClip, this`info, this`clientVideoRtpPort, this`videoRtp, this`audioRtp,
               this`socketOpen, Video()`currentFrame, Video()`capPos, Video()`quality, Audio()`currentChunk,
               Engines()`resumed, Engines()`isStart, Engines()`alive, Engines()`doubleSpeed
      ensures Valid()
      ensures command in {NoRequest, UnknownCmd} ==> ok && unchanged(this)
      ensures command == Malformed ==> !ok && unchanged(this)
      ensures responses == old(responses) + ResponsesTo(command, ok, sessionid, library)
      ensures Outcome(command, library, alignChunks, old(videoRtp), old(audioRtp), ok)
    {
      match command
      case NoRequest =>
        ok := true;
      case UnknownCmd =>
        ok := true;
      case Malformed =>
        ok := false;
      case DescribeCmd(cseq, filename) =>
        ok := OnDescribe(cseq, filename, library);
      case SetupCmd(cseq, port) =>
        ok := OnSetup(cseq, port);
      case PlayCmd(cseq, position) =>
        ok := OnPlay(cseq, position);
      case PauseCmd(cseq) =>
        ok := OnPause(cseq);
      case TeardownCmd(cseq) =>
        ok := OnTeardown(cseq);
      case SetParameterCmd(cseq, param) =>
        if param.None? {
          return false;
        }
        ok := SetParameter(cseq, param.value.0, param.value.1, alignChunks);
    }
  }

  /**
   * The responses `handleRequest` writes for a command, given whether it
   * went through: PLAY is always answered, DESCRIBE, SETUP, PAUSE and
   * TEARDOWN only when they went through, SET_PARAMETER only for `align`
   * and `level` that went through, and nothing else ever.
   */
  function ResponsesTo(command: Command, ok: bool, session: int, library: Library): seq<string>
  {
    match command
    case DescribeCmd(c, f) =>
      if ok && library(f).sound.Some? then [DescribeResponse(c, session, InfoOf(library(f)))] else []
    case SetupCmd(c, _) => if ok then [Response(c, session)] else []
    case PlayCmd(c, _) => [Response(c, session)]
    case PauseCmd(c) => if ok then [Response(c, session)] else []
    case TeardownCmd(c) => if ok then [Response(c, session)] else []
    case SetParameterCmd(c, param) =>
      if ok && param.Some? && param.value.0 in {"align", "level"} then [Response(c, session)] else []
    case _ => []
  }

  /** `speed(s)` on a flag: 1 clears it, 2 sets it, anything else keeps it. */
  function SpeedAfter(speed: int, double: bool): bool
  {
    if speed == 1 then false else if speed == 2 then true else double
  }
}
