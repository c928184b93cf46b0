/**
 * The control session from both ends: what the server's parser makes of
 * each request the client writes, and what the client reads off each
 * response the server writes.
 */
module RtspLink {
  import opened Common
  import opened Text
  import opened Lines
  import C = ClientRtspController
  import S = ServerRtspController

  /** A header line `<name>: <number>` splits into the name and the number. */
  lemma HeaderWords(name: string, n: int)
    requires ' ' !in name
    ensures Split(name + " " + IntToString(n), ' ') == [name, IntToString(n)]
  {
    IntToStringPlain(n);
    assert name + " " + IntToString(n) == name + [' '] + IntToString(n);
    Split2(name, IntToString(n), ' ');
  }

  /** The request line and the CSeq line, separated, with what follows. */
  lemma RequestLayout(m: string, filename: string, cseq: string, rest: string)
    ensures m + " " + filename + " RTSP/1.0\nCSeq: " + cseq + rest
      == (m + [' '] + filename + [' '] + "RTSP/1.0") + ['\n'] + ("CSeq:" + [' '] + cseq) + rest
  {
    assert " RTSP/1.0\nCSeq: " == [' '] + "RTSP/1.0" + ['\n'] + "CSeq:" + [' '];
  }

  /**
   * The first two lines of a request: the server reads the method and the
   * file name off the request line and the CSeq off the second line, and
   * the lines after those are the lines of what follows the CSeq.
   */
  lemma RequestHead(m: string, filename: string, cseq: int, rest: string)
    requires ' ' !in m && '\n' !in m && ' ' !in filename && '\n' !in filename
    requires rest == [] || rest[0] == '\n'
    ensures var request := m + " " + filename + " RTSP/1.0\nCSeq: " + IntToString(cseq) + rest;
      var lines := Split(request, '\n');
      && Split(lines[0], ' ') == [m, filename, "RTSP/1.0"]
      && LineWordNumber(request, 1, 1) == Some(cseq)
      && lines[2..] == if rest == [] then [] else Split(rest[1..], '\n')
  {
    var line0 := m + [' '] + filename + [' '] + "RTSP/1.0";
    var line1 := "CSeq:" + [' '] + IntToString(cseq);
    RequestLayout(m, filename, IntToString(cseq), rest);
    IntToStringPlain(cseq);
    assert ' ' !in "RTSP/1.0" && '\n' !in "RTSP/1.0" && '\n' !in "CSeq:";
    HeaderNames();
    TwoLines(line0, line1, rest);
    Split3(m, filename, "RTSP/1.0", ' ');
    NumberWord("CSeq:", cseq);
  }

  /** What the server's parser makes of each request the client sends. */
  function Expected(req: C.Request, filename: string, cseq: int, port: int): S.Command
  {
    match req
    case Describe => S.DescribeCmd(cseq, filename)
    case Setup => S.SetupCmd(cseq, Some(port))
    case Play => S.PlayCmd(cseq, S.NoPosition)
    case Pause => S.PauseCmd(cseq)
    case Teardown => S.TeardownCmd(cseq)
  }

  /**
   * Every request the client writes is read by the server as the same
   * command with the same CSeq, file name and client port, as long as the
   * file name holds no space or line break. The client's PLAY carries no
   * position line, so the server plays on from where it is.
   */
  lemma RequestRoundTrip(req: C.Request, filename: string, cseq: int, port: int, session: int)
    requires ' ' !in filename && '\n' !in filename
    ensures S.Parse(C.RequestText(req, filename, cseq, port, session)) == Expected(req, filename, cseq, port)
  {
    match req {
      case Describe => DescribeParsed(filename, cseq);
      case Setup => SetupParsed(filename, cseq, port);
      case _ => SessionRequestParsed(req, filename, cseq, session);
    }
  }

  /** DESCRIBE: the request line and the CSeq line alone. */
  lemma DescribeParsed(filename: string, cseq: int)
    requires ' ' !in filename && '\n' !in filename
    ensures forall port, session :: S.Parse(C.RequestText(C.Describe, filename, cseq, port, session)) == S.DescribeCmd(cseq, filename)
  {
    var request := "DESCRIBE" + " " + filename + " RTSP/1.0\nCSeq: " + IntToString(cseq) + "";
    assert forall port, session :: C.RequestText(C.Describe, filename, cseq, port, session) == request;
    RequestHead("DESCRIBE", filename, cseq, "");
  }

  /** SETUP: a third line carries the client port after its `=`. */
  lemma SetupParsed(filename: string, cseq: int, port: int)
    requires ' ' !in filename && '\n' !in filename
    ensures forall session :: S.Parse(C.RequestText(C.Setup, filename, cseq, port, session)) == S.SetupCmd(cseq, Some(port))
  {
    var line2 := "Transport: RTP/UDP; client_port= " + IntToString(port);
    var rest := ['\n'] + line2;
    var head := "SETUP" + " " + filename + " RTSP/1.0\nCSeq: " + IntToString(cseq);
    var request := head + rest;
    TransportLiteral();
    Regroup(head, "Transport: RTP/UDP; client_port= ", IntToString(port));
    RequestHead("SETUP", filename, cseq, rest);
    SetupPort(port);
    assert rest[1..] == line2;
    SplitNone(line2, '\n');
    assert Split(request, '\n')[2] == line2;
  }

  /**
   * PLAY, PAUSE and TEARDOWN: the request line and the CSeq line, then a
   * third line with the session and no fourth line.
   */
  lemma SessionRequestLines(req: C.Request, filename: string, cseq: int, session: int)
    requires req == C.Play || req == C.Pause || req == C.Teardown
    requires ' ' !in filename && '\n' !in filename
    ensures forall port :: var request := C.RequestText(req, filename, cseq, port, session);
      && |request| > 0
      && |Split(request, '\n')| == 3
      && Split(Split(request, '\n')[0], ' ') == [C.Method(req), filename, "RTSP/1.0"]
      && LineWordNumber(request, 1, 1) == Some(cseq)
  {
    var line2 := "Session: " + IntToString(session);
    var rest := ['\n'] + line2;
    var head := C.Method(req) + " " + filename + " RTSP/1.0\nCSeq: " + IntToString(cseq);
    var request := head + rest;
    assert "\nSession: " == ['\n'] + "Session: ";
    Regroup(head, "Session: ", IntToString(session));
    MethodPlain(req);
    RequestHead(C.Method(req), filename, cseq, rest);
    SessionLine(session);
    assert rest[1..] == line2;
    SplitNone(line2, '\n');
  }

  /**
   * A method word holds no space or line break. Like the literal lemmas
   * below, it is kept apart so the literals are taken apart outside the
   * parsing proofs that use them.
   */
  lemma MethodPlain(req: C.Request)
    ensures ' ' !in C.Method(req) && '\n' !in C.Method(req)
  {
  }

  /** The Session line is one line. */
  lemma SessionLine(session: int)
    ensures '\n' !in "Session: " + IntToString(session)
  {
    IntToStringPlain(session);
  }

  /** PLAY, PAUSE and TEARDOWN are read as themselves with their CSeq. */
  lemma SessionRequestParsed(req: C.Request, filename: string, cseq: int, session: int)
    requires req == C.Play || req == C.Pause || req == C.Teardown
    requires ' ' !in filename && '\n' !in filename
    ensures forall port :: S.Parse(C.RequestText(req, filename, cseq, port, session)) == Expected(req, filename, cseq, port)
  {
    SessionRequestLines(req, filename, cseq, session);
  }

  /**
   * The SETUP request's third line, after its line break. It is a lemma of
   * its own so that the literal is taken apart outside `SetupParsed`.
   */
  lemma TransportLiteral()
    ensures "\nTransport: RTP/UDP; client_port= " == ['\n'] + "Transport: RTP/UDP; client_port= "
  {
  }

  /** A labelled value after a line break, regrouped as one line. */
  lemma Regroup(head: string, name: string, value: string)
    ensures head + (['\n'] + name) + value == head + (['\n'] + (name + value))
  {
  }

  /** The Transport line gives the server the client's port back. */
  lemma SetupPort(port: int)
    ensures var line := "Transport: RTP/UDP; client_port= " + IntToString(port);
      '\n' !in line && ParseInt(LastPiece(line, '=')) == Some(port)
  {
    var prefix := "Transport: RTP/UDP; client_port";
    var tail := " " + IntToString(port);
    IntToStringPlain(port);
    assert "Transport: RTP/UDP; client_port= " + IntToString(port) == prefix + ['='] + tail;
    LastPieceAfter(prefix, tail, '=');
    ParseIntLeadingSpace(port);
  }

  /** The status line of every response is one line. */
  lemma StatusOneLine()
    ensures '\n' !in "RTSP/1.0 200 OK"
  {
  }

  /** The status line of every response, split into words; its code reads as 200. */
  lemma StatusLine()
    ensures Piece("RTSP/1.0 200 OK", ' ', 1) == Some("200")
    ensures ParseInt("200") == Some(200)
  {
    assert "RTSP/1.0 200 OK" == "RTSP/1.0" + [' '] + "200" + [' '] + "OK" by {
      var s, t := "RTSP/1.0 200 OK", "RTSP/1.0" + [' '] + "200" + [' '] + "OK";
      forall i | 0 <= i < |s| ensures s[i] == t[i] {
      }
    }
    Split3("RTSP/1.0", "200", "OK", ' ');
    StatusCode();
  }

  /** `int("200")` */
  lemma StatusCode()
    ensures ParseInt("200") == Some(200)
  {
    assert AllDigits("200");
    assert Strip("200") == "200";
    assert DigitsValue("20") == 20 by {
      assert "20"[..1] == "2";
    }
    assert "200"[..2] == "20";
  }

  /** The common part of every response, cut at its line breaks. */
  lemma ResponseLayout(cseq: string, session: string, more: string)
    ensures "RTSP/1.0 200 OK\nCSeq: " + cseq + "\nSession: " + session + more
      == "RTSP/1.0 200 OK" + ['\n'] + ("CSeq:" + [' '] + cseq) + (['\n'] + ("Session:" + [' '] + session) + more)
  {
    assert "RTSP/1.0 200 OK\nCSeq: " == "RTSP/1.0 200 OK" + ['\n'] + "CSeq:" + [' '] by {
      var s, t := "RTSP/1.0 200 OK\nCSeq: ", "RTSP/1.0 200 OK" + ['\n'] + "CSeq:" + [' '];
      forall i | 0 <= i < |s| ensures s[i] == t[i] {
      }
    }
    assert "\nSession: " == ['\n'] + "Session:" + [' '] by {
      var s, t := "\nSession: ", ['\n'] + "Session:" + [' '];
      forall i | 0 <= i < |s| ensures s[i] == t[i] {
      }
    }
  }

  /** The lines of a response: the status, the CSeq, the session, then those of what follows. */
  lemma ResponseLines(cseq: int, session: int, more: string)
    requires more == [] || more[0] == '\n'
    ensures var lines := Split(S.Response(cseq, session) + more, '\n');
      && |lines| >= 3
      && lines[0] == "RTSP/1.0 200 OK"
      && lines[1] == "CSeq:" + [' '] + IntToString(cseq)
      && lines[2] == "Session:" + [' '] + IntToString(session)
      && lines[3..] == if more == [] then [] else Split(more[1..], '\n')
  {
    IntToStringPlain(cseq);
    IntToStringPlain(session);
    ResponseShape(IntToString(cseq), IntToString(session), more);
  }

  /** `ResponseLines` for any CSeq and session text free of line breaks. */
  lemma ResponseShape(c: string, s: string, more: string)
    requires '\n' !in c && '\n' !in s
    requires more == [] || more[0] == '\n'
    ensures var lines := Split("RTSP/1.0 200 OK\nCSeq: " + c + "\nSession: " + s + more, '\n');
      && |lines| >= 3
      && lines[0] == "RTSP/1.0 200 OK"
      && lines[1] == "CSeq:" + [' '] + c
      && lines[2] == "Session:" + [' '] + s
      && lines[3..] == if more == [] then [] else Split(more[1..], '\n')
  {
    ResponseLayout(c, s, more);
    StatusOneLine();
    ThreeLines("RTSP/1.0 200 OK", "CSeq:" + [' '] + c, "Session:" + [' '] + s, more);
  }

  /**
   * A response, with whatever follows its Session line, is accepted by
   * the client exactly when its CSeq is the one the client last sent and
   * its session is the bound one or none is bound yet.
   */
  lemma ResponseAccepted(cseq: int, session: int, more: string, rtspSeq: int, sessionid: int)
    requires more == [] || more[0] == '\n'
    ensures C.Accepted(S.Response(cseq, session) + more, rtspSeq, sessionid)
      <==> cseq == rtspSeq && (sessionid == 0 || sessionid == session)
  {
    ResponseNumbers(cseq, session, more);
  }

  /** The numbers the client reads off a response: the status code, the CSeq and the session. */
  lemma ResponseNumbers(cseq: int, session: int, more: string)
    requires more == [] || more[0] == '\n'
    ensures var d := S.Response(cseq, session) + more;
      && LineWordNumber(d, 0, 1) == Some(200)
      && LineWordNumber(d, 1, 1) == Some(cseq)
      && LineWordNumber(d, 2, 1) == Some(session)
  {
    ResponseLines(cseq, session, more);
    HeaderNumbers(S.Response(cseq, session) + more, cseq, session);
  }

  /** What the client reads off any text whose first three lines are those of a response. */
  lemma HeaderNumbers(d: string, cseq: int, session: int)
    requires var lines := Split(d, '\n');
      && |lines| >= 3
      && lines[0] == "RTSP/1.0 200 OK"
      && lines[1] == "CSeq:" + [' '] + IntToString(cseq)
      && lines[2] == "Session:" + [' '] + IntToString(session)
    ensures LineWordNumber(d, 0, 1) == Some(200)
    ensures LineWordNumber(d, 1, 1) == Some(cseq)
    ensures LineWordNumber(d, 2, 1) == Some(session)
  {
    StatusLine();
    HeaderNames();
    NumberWord("CSeq:", cseq);
    NumberWord("Session:", session);
  }

  /** The header names hold no space. */
  lemma HeaderNames()
    ensures ' ' !in "CSeq:" && ' ' !in "Session:"
  {
  }

  /** The second word of `<name> <number>` reads as the number. */
  lemma NumberWord(name: string, n: int)
    requires ' ' !in name
    ensures Piece(name + [' '] + IntToString(n), ' ', 1) == Some(IntToString(n))
    ensures ParseInt(IntToString(n)) == Some(n)
  {
    IntToStringPlain(n);
    Split2(name, IntToString(n), ' ');
    ParseIntRoundTrip(n);
  }

  /** The reply to SETUP, PLAY, PAUSE and TEARDOWN is accepted as the client expects. */
  lemma ReplyAccepted(cseq: int, session: int, rtspSeq: int, sessionid: int)
    ensures C.Accepted(S.Response(cseq, session), rtspSeq, sessionid)
      <==> cseq == rtspSeq && (sessionid == 0 || sessionid == session)
  {
    ResponseAccepted(cseq, session, [], rtspSeq, sessionid);
    assert S.Response(cseq, session) + [] == S.Response(cseq, session);
  }

  /** The video description up to the length's value, cut at its line breaks and its colon. */
  lemma VideoLiteral()
    ensures "\nm=video 0\na=control:streamid=0\na=length:"
      == ['\n'] + "m=video 0" + ['\n'] + "a=control:streamid=0" + ['\n'] + "a=length" + [':']
  {
    VideoParts();
    VideoPieces();
  }

  /** The video description literal, cut at its line breaks. */
  lemma VideoParts()
    ensures "\nm=video 0\na=control:streamid=0\na=length:"
      == "\nm=video 0" + "\na=control:streamid=0" + "\na=length:"
  {
  }

  /** Each video description line, after its line break. */
  lemma VideoPieces()
    ensures "\nm=video 0" == ['\n'] + "m=video 0"
    ensures "\na=control:streamid=0" == ['\n'] + "a=control:streamid=0"
    ensures "\na=length:" == ['\n'] + "a=length" + [':']
  {
  }

  /** The video description's line texts are single lines. */
  lemma VideoLines()
    ensures '\n' !in "m=video 0" && '\n' !in "a=control:streamid=0" && '\n' !in "a=length"
  {
  }

  /** The frame rate line up to its value. */
  lemma FramerateLiteral()
    ensures "\na=framerate:" == ['\n'] + "a=framerate" + [':']
    ensures '\n' !in "a=framerate"
  {
    var s, t := "\na=framerate:", ['\n'] + "a=framerate" + [':'];
    forall i | 0 <= i < |s| ensures s[i] == t[i] {
    }
  }

  /** The description after the common lines, regrouped line by line. */
  lemma DescriptionLayout(t1: string, t2: string, t3: string, l: string, t4: string, f: string, audio: string, a: string)
    ensures (['\n'] + t1 + ['\n'] + t2 + ['\n'] + t3 + [':']) + l + (['\n'] + t4 + [':']) + f + audio + a
      == ['\n'] + (t1 + ['\n'] + t2 + (['\n'] + (t3 + [':'] + l) + ['\n'] + (t4 + [':'] + f) + (audio + a)))
  {
  }

  /**
   * The lines of the description after the session line: the video's
   * third and fourth lines are `a=length:<length>` and
   * `a=framerate:<frame rate>`.
   */
  lemma DescriptionLines(l: string, f: string, a: string)
    requires '\n' !in l && '\n' !in f
    ensures var more := "\nm=video 0\na=control:streamid=0\na=length:" + l + "\na=framerate:" + f
        + "\nm=audio 0\na=control:streamid=1\na=framerate:" + a;
      && more[0] == '\n'
      && |Split(more[1..], '\n')| >= 4
      && Split(more[1..], '\n')[2] == "a=length" + [':'] + l
      && Split(more[1..], '\n')[3] == "a=framerate" + [':'] + f
  {
    VideoLiteral();
    VideoLines();
    FramerateLiteral();
    assert "\nm=audio 0\na=control:streamid=1\na=framerate:"[0] == '\n';
    DescriptionSplit("m=video 0", "a=control:streamid=0", "a=length", l, "a=framerate", f,
      "\nm=audio 0\na=control:streamid=1\na=framerate:", a);
  }

  /** `DescriptionLines` for any separator-free line texts. */
  lemma DescriptionSplit(t1: string, t2: string, t3: string, l: string, t4: string, f: string, audio: string, a: string)
    requires '\n' !in t1 && '\n' !in t2 && '\n' !in t3 && '\n' !in l && '\n' !in t4 && '\n' !in f
    requires |audio| > 0 && audio[0] == '\n'
    ensures var more := (['\n'] + t1 + ['\n'] + t2 + ['\n'] + t3 + [':']) + l + (['\n'] + t4 + [':']) + f + audio + a;
      && more[0] == '\n'
      && |Split(more[1..], '\n')| >= 4
      && Split(more[1..], '\n')[2] == t3 + [':'] + l
      && Split(more[1..], '\n')[3] == t4 + [':'] + f
  {
    DescriptionLayout(t1, t2, t3, l, t4, f, audio, a);
    var line3, line4 := t3 + [':'] + l, t4 + [':'] + f;
    var rest := ['\n'] + line3 + ['\n'] + line4 + (audio + a);
    TwoLines(line3, line4, audio + a);
    TwoLines(t1, t2, rest);
    assert rest[1..] == line3 + ['\n'] + line4 + (audio + a);
  }

  /** A line `<name>:<number>` at index `k` gives the client the number. */
  lemma TailNumber(d: string, k: nat, name: string, n: int)
    requires k < |Split(d, '\n')| && Split(d, '\n')[k] == name + [':'] + IntToString(n)
    ensures LineTailNumber(d, k, ':') == Some(n)
  {
    IntToStringPlain(n);
    LastPieceAfter(name, IntToString(n), ':');
    ParseIntRoundTrip(n);
  }

  /**
   * The DESCRIBE response is accepted like any other, and the client
   * reads the video's length and frame rate off its sixth and seventh
   * lines.
   */
  lemma DescribeReplyRead(cseq: int, session: int, info: S.Info, rtspSeq: int, sessionid: int)
    ensures var d := S.DescribeResponse(cseq, session, info);
      && (C.Accepted(d, rtspSeq, sessionid) <==> cseq == rtspSeq && (sessionid == 0 || sessionid == session))
      && LineTailNumber(d, 5, ':') == Some(info.length)
      && LineTailNumber(d, 6, ':') == Some(info.framerate)
  {
    var l, f, a := IntToString(info.length), IntToString(info.framerate), IntToString(info.audioFramerate);
    var video, rate, audio := "\nm=video 0\na=control:streamid=0\na=length:", "\na=framerate:",
      "\nm=audio 0\na=control:streamid=1\na=framerate:";
    var more := video + l + rate + f + audio + a;
    var d := S.DescribeResponse(cseq, session, info);
    assert S.Response(cseq, session) + video + l + rate + f + audio + a == S.Response(cseq, session) + more;
    assert d == S.Response(cseq, session) + more;
    IntToStringPlain(info.length);
    IntToStringPlain(info.framerate);
    DescriptionLines(l, f, a);
    ResponseAccepted(cseq, session, more, rtspSeq, sessionid);
    ResponseLines(cseq, session, more);
    TailNumber(d, 5, "a=length", info.length);
    TailNumber(d, 6, "a=framerate", info.framerate);
  }
}
