/**
 * The part of a media sender that the video and the audio sender share:
 * the run, stop, start and speed flags, the client address, the SSRC, and
 * the mapping of a per-mille position onto a frame or chunk index.
 */
module ServerRtp {
  import opened Common

  /**
   * `int(total * pos / 1000)`: the exact quotient truncated toward zero.
   * The result is the floor for a non-negative product and the ceiling for
   * a negative one.
   */
  function PerMille(total: int, pos: int): (r: int)
    ensures total * pos >= 0 ==> r * 1000 <= total * pos < r * 1000 + 1000
    ensures total * pos < 0 ==> r * 1000 - 1000 < total * pos <= r * 1000
  {
    var p := total * pos;
    if p >= 0 then p / 1000 else -((-p) / 1000)
  }

  /**
   * A position between 0 and 1000 per mille lands inside the medium: 0
   * gives the first index and 1000 gives `total`.
   */
  lemma PerMilleRange(total: nat, pos: int)
    requires 0 <= pos <= 1000
    ensures 0 <= PerMille(total, pos) <= total
    ensures pos == 0 ==> PerMille(total, pos) == 0
    ensures pos == 1000 ==> PerMille(total, pos) == total
  {
    MulNonNegative(total, pos);
    MulBounded(total, pos, 1000);
  }

  /** Moving the position forward never moves the index back. */
  lemma PerMilleMonotone(total: nat, pos: int, pos': int)
    requires 0 <= pos <= pos'
    ensures PerMille(total, pos) <= PerMille(total, pos')
  {
    MulNonNegative(total, pos);
    MulBounded(total, pos, pos');
  }

  lemma MulNonNegative(a: nat, b: nat)
    ensures a * b >= 0
  {
  }

  lemma MulBounded(a: nat, b: int, c: int)
    ensures b <= c ==> a * b <= a * c
  {
    if b <= c {
      assert a * c == a * b + a * (c - b);
      MulNonNegative(a, c - b);
    }
  }

  /** How far one encode moves the cursor: two frames or chunks at double speed, one otherwise. */
  function Stride(doubleSpeed: bool): (k: nat)
    ensures 1 <= k <= 2 && (k == 2 <==> doubleSpeed)
  {
    if doubleSpeed then 2 else 1
  }

  /**
   * The state every sender thread keeps. `resumed` is the `_pause` event
   * (set: the loop may go on), `alive` the `_stopper` event (set: no stop
   * was asked for), `socketOpen` whether the UDP socket is still there.
   */
  class Engine {
    var resumed: bool
    var alive: bool
    var isStart: bool
    var doubleSpeed: bool
    var ssrc: int
    var socketOpen: bool
    var client: Option<(string, int)>

    /** `__init__`: unpaused, not stopped, not started, normal speed. */
    constructor ()
      ensures resumed && alive && !isStart && !doubleSpeed
      ensures ssrc == 0 && socketOpen && client == None
    {
      resumed, alive, isStart, doubleSpeed := true, true, false, false;
      ssrc, socketOpen, client := 0, true, None;
    }

    /** `setClientInfo` */
    method SetClientInfo(addr: string, port: int)
      modifies this`client
      ensures client == Some((addr, port))
    {
      client := Some((addr, port));
    }

    /** `setSsrc` */
    method SetSsrc(s: int)
      modifies this`ssrc
      ensures ssrc == s
    {
      ssrc := s;
    }

    /** `pause`: clears the run flag only. */
    method Pause()
      modifies this`resumed
      ensures !resumed
    {
      resumed := false;
    }

    /** `resume`: sets the run flag only. */
    method Resume()
      modifies this`resumed
      ensures resumed
    {
      resumed := true;
    }

    /**
     * `stop`: sets the run flag, so that a paused loop is released, and
     * clears the stop flag. Both end values are fixed, so a second call
     * changes nothing.
     */
    method Stop()
      modifies this`resumed, this`alive
      ensures resumed && !alive
    {
      resumed := true;
      alive := false;
    }

    /** `speed`: 1 means normal speed, 2 double speed, anything else is ignored. */
    method Speed(speed: int)
      modifies this`doubleSpeed
      ensures speed == 1 ==> !doubleSpeed
      ensures speed == 2 ==> doubleSpeed
      ensures speed != 1 && speed != 2 ==> doubleSpeed == old(doubleSpeed)
    {
      if speed == 1 {
        doubleSpeed := false;
      } else if speed == 2 {
        doubleSpeed := true;
      }
    }

    /** The first statement of `run`: the thread now counts as started. */
    method Launch()
      modifies this`isStart
      ensures isStart
    {
      isStart := true;
    }

    /** `closeSocket` */
    method CloseSocket()
      modifies this`socketOpen
      ensures !socketOpen
    {
      socketOpen := false;
    }
  }
}
