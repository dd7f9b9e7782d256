/**
 * What `process_line` promises, stated over whole lines and over sequences of them.
 */
module GcodeProperties {
  import opened Wrappers
  import opened GcodeText
  import opened GcodeParser

  /** The tracker after the lines are handed to `process_line` one after another. */
  function RunLines(s: Tracker, lines: seq<string>): Tracker
    decreases |lines|
  {
    if lines == [] then s else RunLines(Step(s, lines[0]).0, lines[1..])
  }

  /**
   * Only distances and zeros are ever added, so no cumulative counter goes down over any
   * sequence of lines, and counters that start non-negative stay so.
   */
  lemma {:induction false} RunCountersGrow(s: Tracker, lines: seq<string>)
    ensures CountersGrow(s, RunLines(s, lines))
    ensures s.Valid() ==> RunLines(s, lines).Valid()
    decreases |lines|
  {
    if lines != [] {
      RunCountersGrow(Step(s, lines[0]).0, lines[1..]);
    }
  }

  /** A `G0`/`G1` line that does not name an axis leaves its position and its counter alone. */
  lemma UnnamedAxisKept(s: Tracker, line: string, m: MoveArgs, ax: Axis)
    requires ParseMoveArgs(line) == Ok(m) && !Present(line, ax.Letter(), true)
    ensures Step(s, line).0.pos.At(ax) == s.pos.At(ax)
    ensures Step(s, line).0.Travel(ax) == s.Travel(ax)
  {
    MoveTargetPresent(line, ax);
    AxisLawAt(s, m, ax);
  }

  /** The law of a move for any one axis. */
  lemma AxisLawAt(s: Tracker, m: MoveArgs, ax: Axis)
    ensures AxisLaw(s, ApplyMove(s, m), ax, m.Target(ax))
    ensures ApplyMove(s, m).Absolute(ax) == s.Absolute(ax)
  {
    ApplyMoveLaw(s, m);
  }

  /**
   * A named axis in absolute mode takes the target as its position; its counter grows by
   * the distance from a known position, and by nothing from an unknown one.
   */
  lemma AbsoluteAxisMove(s: Tracker, line: string, m: MoveArgs, ax: Axis, t: real)
    requires ParseMoveArgs(line) == Ok(m) && m.Target(ax) == Some(t) && s.Absolute(ax)
    ensures Step(s, line).0.pos.At(ax) == Some(t)
    ensures Step(s, line).0.Travel(ax) == s.Travel(ax) + (if s.pos.At(ax).Some? then Abs(s.pos.At(ax).value - t) else 0.0)
  {
    AbsoluteIntegration(s, m, ax, t);
  }

  /** The absolute-mode law for one axis of a parsed move. */
  lemma AbsoluteIntegration(s: Tracker, m: MoveArgs, ax: Axis, t: real)
    requires m.Target(ax) == Some(t) && s.Absolute(ax)
    ensures ApplyMove(s, m).pos.At(ax) == Some(t)
    ensures ApplyMove(s, m).Travel(ax) == s.Travel(ax) + (if s.pos.At(ax).Some? then Abs(s.pos.At(ax).value - t) else 0.0)
  {
    AxisLawAt(s, m, ax);
  }

  /**
   * A named axis in relative mode adds the size of the offset to its counter even when
   * its position is unknown, and shifts a known position by the offset.
   */
  lemma RelativeAxisMove(s: Tracker, line: string, m: MoveArgs, ax: Axis, t: real)
    requires ParseMoveArgs(line) == Ok(m) && m.Target(ax) == Some(t) && !s.Absolute(ax)
    ensures Step(s, line).0.pos.At(ax) == (if s.pos.At(ax).Some? then Some(s.pos.At(ax).value + t) else None)
    ensures Step(s, line).0.Travel(ax) == s.Travel(ax) + Abs(t)
  {
    RelativeIntegration(s, m, ax, t);
  }

  /** The relative-mode law for one axis of a parsed move. */
  lemma RelativeIntegration(s: Tracker, m: MoveArgs, ax: Axis, t: real)
    requires m.Target(ax) == Some(t) && !s.Absolute(ax)
    ensures ApplyMove(s, m).pos.At(ax) == (if s.pos.At(ax).Some? then Some(s.pos.At(ax).value + t) else None)
    ensures ApplyMove(s, m).Travel(ax) == s.Travel(ax) + Abs(t)
  {
    AxisLawAt(s, m, ax);
  }

  /** The feed rate changes only on a move that gives `F`, and then it is that value. */
  lemma SpeedOnlyFromFeed(s: Tracker, line: string)
    ensures Step(s, line).0.speed != s.speed ==> ParseMoveArgs(line).Ok? && Present(line, 'F', false)
    ensures ParseMoveArgs(line).Ok? && Present(line, 'F', false) ==> Step(s, line).0.speed == Some(Feed(line).value)
  {
    if ParseMoveArgs(line).Ok? {
      ApplyMoveLaw(s, ParseMoveArgs(line).value);
      MoveSpeedPresent(line);
    }
  }

  /** A line starting with `M` or with a `G` command other than `G0`/`G1` is not a move. */
  lemma NotMove(line: string)
    requires |line| >= 2 && (line[0] == 'M' || (line[0] == 'G' && line[1] != '0' && line[1] != '1'))
    ensures ParseMoveArgs(line).Unmatched?
  {
    assert line[..2][0] == line[0] && line[..2][1] == line[1];
  }

  /** A line starting with `G` or with an `M` command other than `M10x` is not a fan command. */
  lemma NotFan(line: string)
    requires |line| >= 3 && (line[0] == 'G' || (line[0] == 'M' && line[1..3] != "10"))
    ensures ParseFanSpeed(line).Unmatched?
  {
    if |line| >= 4 {
      assert line[..4][0] == line[0] && line[..4][1..3] == line[1..3];
    }
  }

  /** `M82`/`M83` set only the extruder mode: absolute for `M82`, relative for `M83`. */
  lemma ExtruderModeLine(s: Tracker, line: string)
    requires IsModeSwitch(line) && line[0] == 'M'
    ensures Step(s, line) == (s.(absoluteE := line[..3] == "M82"), CoordinateModeswitch)
  {
    assert line[1..3] == line[..3][1..3];
    NotMove(line);
    NotFan(line);
    ModeswitchLaw(line);
  }

  /** `G90`/`G91` set both the motion and the extruder mode: absolute for `G90`, relative for `G91`. */
  lemma MotionModeLine(s: Tracker, line: string)
    requires IsModeSwitch(line) && line[0] == 'G'
    ensures var abs := line[..3] == "G90";
      Step(s, line) == (s.(absoluteE := abs, absoluteMoves := abs), CoordinateModeswitch)
  {
    assert line[1] == line[..3][1];
    NotMove(line);
    NotFan(line);
    ModeswitchLaw(line);
  }

  /** Setting a mode twice is setting it once. */
  lemma ModeLineIdempotent(s: Tracker, line: string)
    requires IsModeSwitch(line)
    ensures Step(Step(s, line).0, line) == Step(s, line)
  {
    if line[0] == 'M' {
      ExtruderModeLine(s, line);
      ExtruderModeLine(Step(s, line).0, line);
    } else {
      assert line[0] == line[..3][0];
      MotionModeLine(s, line);
      MotionModeLine(Step(s, line).0, line);
    }
  }

  /** The look-ahead `(?![0-9.])` rejects `G900` and `G90.1`: neither line matches anything. */
  lemma LookaheadRejects(s: Tracker)
    ensures Step(s, "G900") == (s, Unrecognized)
    ensures Step(s, "G90.1") == (s, Unrecognized)
  {
    NotMove("G900");
    NotFan("G900");
    NotMove("G90.1");
    NotFan("G90.1");
    assert !StartsWithToken("G900", "G92") by {
      assert "G900"[..3] != "G92" by { assert "G900"[..3][2] == '0'; }
    }
    assert !StartsWithToken("G90.1", "G92") by {
      assert "G90.1"[..3] != "G92" by { assert "G90.1"[..3][2] == '0'; }
    }
    ResetLaw("G900", s.pos);
    ResetLaw("G90.1", s.pos);
  }

  /**
   * A well-formed `G92` line sets the named axes' positions, keeps the others', and
   * changes no counter, mode, feed rate or fan speed.
   */
  lemma ResetLine(s: Tracker, line: string)
    requires IsReset(line) && ParseCoordinateReset(line, s.pos).Ok?
    ensures Step(s, line) == (s.(pos := ParseCoordinateReset(line, s.pos).value), CoordinateReset)
  {
    assert line[..3] == "G92";
    assert line[1] == line[..3][1] && line[0] == line[..3][0];
    NotMove(line);
    NotFan(line);
    ModeswitchLaw(line);
  }

  /** A line that matches none of the five patterns is reported as unrecognized and changes nothing. */
  lemma NoPattern(s: Tracker, line: string)
    requires !IsMove(line) && !StartsWithToken(line, "M106") && !StartsWith(line, "M107")
    requires !IsModeSwitch(line) && !IsReset(line)
    ensures Step(s, line) == (s, Unrecognized)
  {
    MoveArgsLaw(line);
    FanSpeedLaw(line);
    ModeswitchLaw(line);
    ResetLaw(line, s.pos);
  }

  /**
   * `process_line` raises `ValueError` exactly when the first pattern that matches has an
   * argument `float()` rejects: the move, else the fan command, else (when no mode switch
   * matches) the reset.
   */
  lemma StepRaises(s: Tracker, line: string)
    ensures Step(s, line).1 == ValueError <==>
      || ParseMoveArgs(line).Malformed?
      || (ParseMoveArgs(line).Unmatched? && ParseFanSpeed(line).Malformed?)
      || (ParseMoveArgs(line).Unmatched? && !ParseFanSpeed(line).Malformed? && !IsModeSwitch(line) && ParseCoordinateReset(line, s.pos).Malformed?)
  {
    if ParseMoveArgs(line).Unmatched? {
      CommandRaises(s, line);
    }
  }

  /** A line that is not a move raises exactly when its fan speed does, or else its reset does while no mode switch matches. */
  lemma CommandRaises(s: Tracker, line: string)
    ensures Command(s, line).1 == ValueError <==>
      || ParseFanSpeed(line).Malformed?
      || (!ParseFanSpeed(line).Malformed? && !IsModeSwitch(line) && ParseCoordinateReset(line, s.pos).Malformed?)
  {
    var fan := ParseFanSpeed(line);
    if fan.Ok? && fan.value != 0.0 {
      // only `M106` gives a non-zero speed, and such a line is no `G92` reset
      FanSpeedLaw(line);
      assert StartsWithToken(line, "M106");
      assert !IsReset(line) by {
        assert line[..3][0] == line[0] == line[..4][0];
      }
      ResetLaw(line, s.pos);
      assert Command(s, line).1 == PrintFanSpeed;
    } else if !fan.Malformed? {
      CoordinateRaises(s, line);
    }
  }

  /** The mode switch and reset part raises exactly when no mode switch matches and the reset raises. */
  lemma CoordinateRaises(s: Tracker, line: string)
    ensures CoordinateCommand(s, line).1 == ValueError <==> !IsModeSwitch(line) && ParseCoordinateReset(line, s.pos).Malformed?
  {
    ModeswitchLaw(line);
  }

  /** A line starting `M10` is neither a mode switch nor a reset. */
  lemma NotCoordinateCommand(s: Tracker, line: string)
    requires |line| >= 3 && line[..3] == "M10"
    ensures CoordinateCommand(s, line) == (s, Unrecognized)
  {
    assert line[0] == line[..3][0];
  }

  /** `M107`, with or without arguments, switches nothing: the fan speed 0 is falsy. */
  lemma FanOffIgnored(s: Tracker, line: string)
    requires StartsWith(line, "M107")
    ensures Step(s, line) == (s, Unrecognized)
  {
    assert line[..4][..3] == line[..3] && line[..4][0] == line[0];
    assert !StartsWithToken(line, "M106") by {
      assert line[..4][3] == '7';
    }
    NotMove(line);
    assert ParseFanSpeed(line) == Ok(0.0);
    NotCoordinateCommand(s, line);
  }

  /** `M106 S0` likewise: the fan speed parses as 0, which is falsy, and nothing changes. */
  lemma FanZeroIgnored(s: Tracker, line: string)
    requires StartsWithToken(line, "M106") && FanArg(line) == Ok(0.0)
    ensures Step(s, line) == (s, Unrecognized)
  {
    assert line[..4][..3] == line[..3] && line[..4][0] == line[0];
    NotMove(line);
    assert ParseFanSpeed(line) == Ok(0.0);
    NotCoordinateCommand(s, line);
  }

  /** `M106` and whitespace without `S` runs the fan at 255; with `S` above 0, at that value. */
  lemma FanOnLine(s: Tracker, line: string)
    requires StartsWithToken(line, "M106") && !FanArg(line).Malformed?
    ensures var v := if FanArg(line).Ok? then FanArg(line).value else 255.0;
      v != 0.0 ==> Step(s, line) == (s.(printFanSpeed := Some(v)), PrintFanSpeed)
  {
    assert line[..4][0] == line[0];
    FanSpeedLaw(line);
    NotMove(line);
  }

  /** A bare `M106` lacks the whitespace the pattern needs, and matches nothing. */
  lemma BareFanCommand(s: Tracker)
    ensures Step(s, "M106") == (s, Unrecognized)
  {
    NotMove("M106");
    assert !StartsWithToken("M106", "M106");
    assert !StartsWith("M106", "M107") by { assert "M106"[..4][3] == '6'; }
    assert "M106"[..3] == "M10";
    NotCoordinateCommand(s, "M106");
  }

  /** The tracker after a sequence of parsed moves. */
  function ApplyMoves(s: Tracker, ms: seq<MoveArgs>): Tracker
    decreases |ms|
  {
    if ms == [] then s else ApplyMoves(ApplyMove(s, ms[0]), ms[1..])
  }

  /** Every move of the sequence gives the axis a target. */
  predicate AllTargeted(ms: seq<MoveArgs>, ax: Axis) {
    forall i :: 0 <= i < |ms| ==> ms[i].Target(ax).Some?
  }

  /** The length of the path from `from` through the targets in turn. */
  function PathLength(from: real, ms: seq<MoveArgs>, ax: Axis): real
    requires AllTargeted(ms, ax)
    decreases |ms|
  {
    if ms == [] then 0.0 else Abs(ms[0].Target(ax).value - from) + PathLength(ms[0].Target(ax).value, ms[1..], ax)
  }

  /** The sum of the sizes of the offsets. */
  function OffsetSum(ms: seq<MoveArgs>, ax: Axis): real
    requires AllTargeted(ms, ax)
    decreases |ms|
  {
    if ms == [] then 0.0 else Abs(ms[0].Target(ax).value) + OffsetSum(ms[1..], ax)
  }

  /**
   * In absolute mode, from a known position, the counter grows by exactly the length of
   * the path through the targets, and the position ends at the last target.
   */
  lemma {:induction false} AbsolutePath(s: Tracker, ms: seq<MoveArgs>, ax: Axis)
    requires s.Absolute(ax) && s.pos.At(ax).Some? && AllTargeted(ms, ax)
    ensures ApplyMoves(s, ms).Travel(ax) == s.Travel(ax) + PathLength(s.pos.At(ax).value, ms, ax)
    ensures ApplyMoves(s, ms).pos.At(ax) == if ms == [] then s.pos.At(ax) else ms[|ms| - 1].Target(ax)
    decreases |ms|
  {
    if ms != [] {
      var s1 := ApplyMove(s, ms[0]);
      AxisLawAt(s, ms[0], ax);
      assert AllTargeted(ms[1..], ax) by {
        forall i | 0 <= i < |ms[1..]| ensures ms[1..][i].Target(ax).Some? {
          assert ms[1..][i] == ms[i + 1];
        }
      }
      AbsolutePath(s1, ms[1..], ax);
      if |ms| > 1 {
        assert ms[1..][|ms[1..]| - 1] == ms[|ms| - 1];
      }
    }
  }

  /**
   * In relative mode the counter grows by exactly the sum of the sizes of the offsets,
   * whether or not the position is known.
   */
  lemma {:induction false} RelativePath(s: Tracker, ms: seq<MoveArgs>, ax: Axis)
    requires !s.Absolute(ax) && AllTargeted(ms, ax)
    ensures ApplyMoves(s, ms).Travel(ax) == s.Travel(ax) + OffsetSum(ms, ax)
    decreases |ms|
  {
    if ms != [] {
      AxisLawAt(s, ms[0], ax);
      assert AllTargeted(ms[1..], ax) by {
        forall i | 0 <= i < |ms[1..]| ensures ms[1..][i].Target(ax).Some? {
          assert ms[1..][i] == ms[i + 1];
        }
      }
      RelativePath(ApplyMove(s, ms[0]), ms[1..], ax);
    }
  }
}
