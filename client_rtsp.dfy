/**
 * The client's side of the control session: the state machine that decides
 * which request may go out, the text of each request, and the handling of
 * the server's replies. Replies are handed in as strings; reading them off
 * the TCP socket is not part of the model.
 */
module ClientRtspController {
  import opened Common
  import opened Text

  /** The session states INIT, PREPARE, READY and PLAYING. */
  datatype State = Init | Prepare | Ready | Playing

  /** The request codes DESCRIBE, SETUP, PLAY, PAUSE and TEARDOWN. */
  datatype Request = Describe | Setup | Play | Pause | Teardown

  /**
   * The video receiver as the controller holds it: absent (None), or bound
   * to its port, with its thread started or not.
   */
  datatype Receiver = NoReceiver | Bound(started: bool)

  /** The method word of a request. */
  function Method(req: Request): string
  {
    match req
    case Describe => "DESCRIBE"
    case Setup => "SETUP"
    case Play => "PLAY"
    case Pause => "PAUSE"
    case Teardown => "TEARDOWN"
  }

  /**
   * `sendRtspRequest` only sends DESCRIBE in INIT, SETUP in PREPARE, PLAY
   * in READY, PAUSE in PLAYING, and TEARDOWN in any state but INIT.
   */
  predicate Allowed(req: Request, state: State)
  {
    match req
    case Describe => state == Init
    case Setup => state == Prepare
    case Play => state == Ready
    case Pause => state == Playing
    case Teardown => state != Init
  }

  /**
   * The request text: the request line and the CSeq header, then the
   * Transport header for SETUP, or the Session header for PLAY, PAUSE and
   * TEARDOWN; DESCRIBE has neither.
   */
  function RequestText(req: Request, filename: string, cseq: int, port: int, session: int): string
  {
    var head := Method(req) + " " + filename + " RTSP/1.0\nCSeq: " + IntToString(cseq);
    match req
    case Describe => head
    case Setup => head + "\nTransport: RTP/UDP; client_port= " + IntToString(port)
    case _ => head + "\nSession: " + IntToString(session)
  }

  /**
   * A reply that gets past `parseRtspReply`'s session test: its CSeq is the
   * last one sent and its session is the bound one (or none is bound yet).
   */
  predicate SessionMatches(data: string, rtspSeq: int, sessionid: int)
  {
    && LineWordNumber(data, 1, 1) == Some(rtspSeq)
    && LineWordNumber(data, 2, 1).Some?
    && (sessionid == 0 || sessionid == LineWordNumber(data, 2, 1).value)
  }

  /** A reply `parseRtspReply` acts on: the session matches and the status is 200. */
  predicate Accepted(data: string, rtspSeq: int, sessionid: int)
  {
    SessionMatches(data, rtspSeq, sessionid) && LineWordNumber(data, 0, 1) == Some(200)
  }

  /** The state a successful reply to each request leads to. */
  function Target(req: Request): State
  {
    match req
    case Describe => Prepare
    case Setup => Ready
    case Play => Playing
    case Pause => Ready
    case Teardown => Init
  }

  /**
   * Every accepted reply moves the session forward along the request's
   * gate: the state it leads to allows exactly the requests the protocol
   * expects next, and TEARDOWN is allowed everywhere but where it leads.
   */
  lemma TargetGates(req: Request)
    ensures Allowed(Teardown, Target(req)) <==> req != Teardown
    ensures req == Describe ==> Allowed(Setup, Target(req)) && !Allowed(Describe, Target(req))
    ensures req == Setup || req == Pause ==> Allowed(Play, Target(req)) && !Allowed(Pause, Target(req))
    ensures req == Play ==> Allowed(Pause, Target(req)) && !Allowed(Play, Target(req))
    ensures req == Teardown ==> Allowed(Describe, Target(req))
  {
  }

  /**
   * The `group` parameter of `threading.Thread.__init__`, which takes the
   * first positional argument a subclass passes on.
   */
  function ThreadGroup(positional: seq<int>): Option<int>
  {
    if |positional| == 0 then None else Some(positional[0])
  }

  /** `threading.Thread.__init__` asserts that no group was given. */
  predicate ThreadInitAccepts(group: Option<int>)
  {
    group.None?
  }

  /**
   * `VideoClientRtp('', port)` as written: it hands the address and the
   * port to `ClientRtp.__init__`, which keeps the address and hands the
   * port on to `threading.Thread.__init__` positionally. None where the
   * constructor raises.
   */
  function NewVideoReceiverAsWritten(port: int): Option<Receiver>
  {
    if ThreadInitAccepts(ThreadGroup([port])) then Some(Bound(false)) else None
  }

  /**
   * As written, the receiver is never built: whatever the port, it lands
   * in `group` and the thread's constructor raises.
   */
  lemma ReceiverNeverBuilt(port: int)
    ensures NewVideoReceiverAsWritten(port) == None
  {
  }

  class ClientRtspController {
    const filename: string
    /** The client's RTP port, announced in SETUP. */
    const videoRtpPort: int
    var state: State
    var rtspSeq: int
    var sessionid: int
    /** The last request sent, None before the first one (-1 in the source). */
    var requestSent: Option<Request>
    var teardownAcked: bool
    var videoRtp: Receiver
    var videoLength: int
    var videoFrameRate: int
    /** The request texts written to the RTSP socket, in order. */
    var requests: seq<string>

    /** `__init__`: INIT, no request yet, no session bound, no receiver. */
    constructor (filename: string, rtpPort: int)
      ensures this.filename == filename && videoRtpPort == rtpPort
      ensures state == Init && rtspSeq == 0 && sessionid == 0 && requestSent == None
      ensures !teardownAcked && videoRtp == NoReceiver && videoLength == 0 && videoFrameRate == 0
      ensures requests == []
    {
      this.filename, videoRtpPort := filename, rtpPort;
      state, rtspSeq, sessionid, requestSent := Init, 0, 0, None;
      teardownAcked, videoRtp, videoLength, videoFrameRate := false, NoReceiver, 0, 0;
      requests := [];
    }

    /**
     * `sendRtspRequest`: when the state allows the request, count it,
     * remember it and write its text; otherwise do nothing at all.
     */
    method SendRtspRequest(req: Request) returns (sent: bool)
      modifies this`rtspSeq, this`requestSent, this`requests
      ensures sent <==> Allowed(req, state)
      ensures sent ==> rtspSeq == old(rtspSeq) + 1 && requestSent == Some(req)
      ensures sent ==> requests == old(requests) + [RequestText(req, filename, rtspSeq, videoRtpPort, sessionid)]
      ensures !sent ==> rtspSeq == old(rtspSeq) && requestSent == old(requestSent) && requests == old(requests)
    {
      sent := Allowed(req, state);
      if !sent {
        return;
      }
      rtspSeq := rtspSeq + 1;
      requestSent := Some(req);
      requests := requests + [RequestText(req, filename, rtspSeq, videoRtpPort, sessionid)];
    }

    /** `describe`: DESCRIBE, only from INIT. */
    method Describe() returns (sent: bool)
      modifies this`rtspSeq, this`requestSent, this`requests
      ensures sent <==> state == Init
      ensures sent ==> rtspSeq == old(rtspSeq) + 1 && requestSent == Some(Request.Describe)
      ensures sent ==> requests == old(requests) + [RequestText(Request.Describe, filename, rtspSeq, videoRtpPort, sessionid)]
      ensures !sent ==> rtspSeq == old(rtspSeq) && requestSent == old(requestSent) && requests == old(requests)
    {
      sent := false;
      if state == Init {
        sent := SendRtspRequest(Request.Describe);
      }
    }

    /** `setup`: SETUP, only from PREPARE. */
    method Setup() returns (sent: bool)
      modifies this`rtspSeq, this`requestSent, this`requests
      ensures sent <==> state == Prepare
      ensures sent ==> rtspSeq == old(rtspSeq) + 1 && requestSent == Some(Request.Setup)
      ensures sent ==> requests == old(requests) + [RequestText(Request.Setup, filename, rtspSeq, videoRtpPort, sessionid)]
      ensures !sent ==> rtspSeq == old(rtspSeq) && requestSent == old(requestSent) && requests == old(requests)
    {
      sent := false;
      if state == Prepare {
        sent := SendRtspRequest(Request.Setup);
      }
    }

    /**
     * `openRtpPort` as intended: a new receiver bound to the RTP port; when
     * binding fails (`bindOk` false) the warning is shown and the old value
     * stays.
     */
    method OpenRtpPort(bindOk: bool)
      modifies this`videoRtp
      ensures videoRtp == if bindOk then Bound(false) else old(videoRtp)
    {
      if bindOk {
        videoRtp := Bound(false);
      }
    }

    /**
     * `openRtpPort` as written: the receiver's constructor raises for every
     * port (see `NewVideoReceiverAsWritten`), and the `except OSError`
     * around it does not catch that, so `raised` is always true and the
     * receiver is left as it was.
     */
    method OpenRtpPortAsWritten() returns (raised: bool)
      modifies this`videoRtp
      ensures raised && videoRtp == old(videoRtp)
    {
      var receiver := NewVideoReceiverAsWritten(videoRtpPort);
      raised := receiver.None?;
      videoRtp := match receiver case Some(r) => r case None => videoRtp;
    }

    /**
     * `play`, from READY only: make sure there is a receiver, start its
     * thread, then send PLAY. Each step can raise (`ok` false), leaving
     * what the steps before it did: no receiver after a failed bind, a
     * frame rate of 0 in the interval division, or a thread started twice
     * when PLAY went unanswered. Outside READY nothing happens.
     */
    method Play(bindOk: bool) returns (ok: bool)
      modifies this`videoRtp, this`rtspSeq, this`requestSent, this`requests
      ensures old(state) != Ready ==>
        ok && videoRtp == old(videoRtp) && rtspSeq == old(rtspSeq) && requestSent == old(requestSent) && requests == old(requests)
      ensures old(state) == Ready ==>
        var rtp := if old(videoRtp) == NoReceiver && bindOk then Bound(false) else old(videoRtp);
        && (ok <==> rtp.Bound? && !rtp.started && videoFrameRate != 0)
        && (ok ==> videoRtp == Bound(true) && rtspSeq == old(rtspSeq) + 1 && requestSent == Some(Request.Play))
        && (ok ==> requests == old(requests) + [RequestText(Request.Play, filename, rtspSeq, videoRtpPort, sessionid)])
        && (!ok ==> videoRtp == rtp && rtspSeq == old(rtspSeq) && requestSent == old(requestSent) && requests == old(requests))
    {
      if state != Ready {
        return true;
      }
      if videoRtp == NoReceiver {
        OpenRtpPort(bindOk);
      }
      if videoRtp == NoReceiver || videoFrameRate == 0 || videoRtp.started {
        return false;
      }
      videoRtp := Bound(true);
      var sent := SendRtspRequest(Request.Play);
      ok := true;
    }

    /** `pause`: PAUSE, only from PLAYING. */
    method Pause() returns (sent: bool)
      modifies this`rtspSeq, this`requestSent, this`requests
      ensures sent <==> state == Playing
      ensures sent ==> rtspSeq == old(rtspSeq) + 1 && requestSent == Some(Request.Pause)
      ensures sent ==> requests == old(requests) + [RequestText(Request.Pause, filename, rtspSeq, videoRtpPort, sessionid)]
      ensures !sent ==> rtspSeq == old(rtspSeq) && requestSent == old(requestSent) && requests == old(requests)
    {
      sent := false;
      if state == Playing {
        sent := SendRtspRequest(Request.Pause);
      }
    }

    /** `teardown`: TEARDOWN, left to the gate of `sendRtspRequest` (any state but INIT). */
    method Teardown() returns (sent: bool)
      modifies this`rtspSeq, this`requestSent, this`requests
      ensures sent <==> state != Init
      ensures sent ==> rtspSeq == old(rtspSeq) + 1 && requestSent == Some(Request.Teardown)
      ensures sent ==> requests == old(requests) + [RequestText(Request.Teardown, filename, rtspSeq, videoRtpPort, sessionid)]
      ensures !sent ==> rtspSeq == old(rtspSeq) && requestSent == old(requestSent) && requests == old(requests)
    {
      sent := SendRtspRequest(Request.Teardown);
    }

    /**
     * `parseRtspReply`. A reply whose CSeq is not the last one sent is
     * ignored; the first matching reply binds the session when none is
     * bound; a reply for another session or with a status other than 200
     * is ignored; an accepted reply moves the state to where the last
     * request leads, reading the video's length and frame rate off lines
     * 6 and 7 of a DESCRIBE reply, opening the receiver after SETUP,
     * dropping it after PAUSE, and noting the acknowledged TEARDOWN.
     * `ok` is false where Python raises (a missing line or word, a word
     * that is no number, PAUSE without a receiver), after the effects the
     * statements before it had.
     */
    method ParseRtspReply(data: string, bindOk: bool) returns (ok: bool)
      modifies this`state, this`sessionid, this`videoLength, this`videoFrameRate, this`videoRtp, this`teardownAcked
      ensures LineWordNumber(data, 1, 1) != Some(old(rtspSeq)) ==>
        && (ok <==> LineWordNumber(data, 1, 1).Some?)
        && sessionid == old(sessionid) && state == old(state)
      ensures sessionid != old(sessionid) ==>
        old(sessionid) == 0 && LineWordNumber(data, 1, 1) == Some(rtspSeq) && Some(sessionid) == LineWordNumber(data, 2, 1)
      ensures LineWordNumber(data, 1, 1) == Some(old(rtspSeq)) && old(sessionid) == 0 && LineWordNumber(data, 2, 1).Some? ==>
        sessionid == LineWordNumber(data, 2, 1).value
      ensures LineWordNumber(data, 1, 1) == Some(old(rtspSeq)) && LineWordNumber(data, 2, 1).None? ==> !ok
      ensures LineWordNumber(data, 1, 1) == Some(old(rtspSeq)) && LineWordNumber(data, 2, 1).Some? ==>
        !SessionMatches(data, old(rtspSeq), old(sessionid)) ==> ok
      ensures SessionMatches(data, old(rtspSeq), old(sessionid)) && LineWordNumber(data, 0, 1) != Some(200) ==>
        (ok <==> LineWordNumber(data, 0, 1).Some?)
      ensures Accepted(data, old(rtspSeq), old(sessionid)) ==>
        requestSent.None? || requestSent == Some(Request.Play) || requestSent == Some(Request.Teardown) ==> ok
      ensures !Accepted(data, old(rtspSeq), old(sessionid)) ==>
        && state == old(state) && videoRtp == old(videoRtp) && teardownAcked == old(teardownAcked)
        && videoLength == old(videoLength) && videoFrameRate == old(videoFrameRate)
      ensures Accepted(data, old(rtspSeq), old(sessionid)) ==>
        && sessionid == LineWordNumber(data, 2, 1).value
        && state == (if requestSent.Some? then Target(requestSent.value) else old(state))
        && teardownAcked == (old(teardownAcked) || requestSent == Some(Request.Teardown))
      ensures Accepted(data, old(rtspSeq), old(sessionid)) && requestSent == Some(Request.Describe) ==>
        && (ok <==> LineTailNumber(data, 5, ':').Some? && LineTailNumber(data, 6, ':').Some?)
        && (LineTailNumber(data, 5, ':').Some? ==> videoLength == LineTailNumber(data, 5, ':').value)
        && (ok ==> videoFrameRate == LineTailNumber(data, 6, ':').value)
        && (LineTailNumber(data, 5, ':').None? ==> videoLength == old(videoLength))
        && (!ok ==> videoFrameRate == old(videoFrameRate))
      ensures Accepted(data, old(rtspSeq), old(sessionid)) && requestSent != Some(Request.Describe) ==>
        videoLength == old(videoLength) && videoFrameRate == old(videoFrameRate)
      ensures Accepted(data, old(rtspSeq), old(sessionid)) ==>
        requestSent != Some(Request.Setup) && requestSent != Some(Request.Pause) ==> videoRtp == old(videoRtp)
      ensures Accepted(data, old(rtspSeq), old(sessionid)) && requestSent == Some(Request.Setup) ==>
        ok && videoRtp == if bindOk then Bound(false) else old(videoRtp)
      ensures Accepted(data, old(rtspSeq), old(sessionid)) && requestSent == Some(Request.Pause) ==>
        videoRtp == NoReceiver && (ok <==> old(videoRtp) != NoReceiver)
    {
      var cseq := LineWordNumber(data, 1, 1);
      if cseq.None? {
        return false;
      }
      if cseq.value != rtspSeq {
        return true;
      }
      var session := LineWordNumber(data, 2, 1);
      if session.None? {
        return false;
      }
      if sessionid == 0 {
        sessionid := session.value;
      }
      if sessionid != session.value {
        return true;
      }
      var status := LineWordNumber(data, 0, 1);
      if status.None? {
        return false;
      }
      ok := true;
      if status.value != 200 || requestSent.None? {
        return;
      }
      match requestSent.value
      case Describe =>
        state := Prepare;
        var length := LineTailNumber(data, 5, ':');
        if length.None? {
          return false;
        }
        videoLength := length.value;
        var rate := LineTailNumber(data, 6, ':');
        if rate.None? {
          return false;
        }
        videoFrameRate := rate.value;
      case Setup =>
        state := Ready;
        OpenRtpPort(bindOk);
      case Play =>
        state := Playing;
      case Pause =>
        state := Ready;
        ok := videoRtp != NoReceiver;
        videoRtp := NoReceiver;
      case Teardown =>
        state := Init;
        teardownAcked := true;
    }
  }
}
