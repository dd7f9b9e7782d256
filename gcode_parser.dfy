/**
 * The G-code motion and extrusion tracker: it reads the command lines sent to the
 * printer one at a time and keeps the tool position, the distance travelled on each
 * axis, the filament extruded, the coordinate modes, the feed rate and the fan speed.
 *
 * Coordinates are `real`: only sums and absolute differences are taken.
 */
module GcodeParser {
  import opened Wrappers
  import opened GcodeText

  function Abs(v: real): (r: real)
    ensures r >= 0.0 && (r == v || r == -v)
  {
    if v < 0.0 then -v else v
  }

  /** The three motion axes and the extruder. */
  datatype Axis = X | Y | Z | E {
    /** The argument letter that names the axis on a move or reset line. */
    function Letter(): char {
      match this
      case X => 'X'
      case Y => 'Y'
      case Z => 'Z'
      case E => 'E'
    }
  }

  /** A tool position; each coordinate is `None` until it becomes known. */
  datatype Position = Position(x: Option<real>, y: Option<real>, z: Option<real>, e: Option<real>) {
    function At(ax: Axis): Option<real> {
      match ax
      case X => x
      case Y => y
      case Z => z
      case E => e
    }
  }

  /** The targets and the feed rate (`F`) of a `G0`/`G1` line, each `None` when not given. */
  datatype MoveArgs = MoveArgs(x: Option<real>, y: Option<real>, z: Option<real>, e: Option<real>, speed: Option<real>) {
    function Target(ax: Axis): Option<real> {
      match ax
      case X => x
      case Y => y
      case Z => z
      case E => e
    }
  }

  /** What a mode switch line sets: the extruder mode, and for `G90`/`G91` the motion mode. */
  datatype ModeSwitch = ModeSwitch(absoluteE: bool, absoluteMoves: Option<bool>)

  /** What `process_line` reports; `ValueError` stands for the exception `float()` raises. */
  datatype Outcome = Movement | PrintFanSpeed | CoordinateModeswitch | CoordinateReset | Unrecognized | ValueError

  /** The tracker's fields, as a value. */
  datatype Tracker = Tracker(
    pos: Position,
    xTravel: real,
    yTravel: real,
    zTravel: real,
    extrusionCounter: real,
    absoluteE: bool,
    absoluteMoves: bool,
    speed: Option<real>,
    printFanSpeed: Option<real>)
  {
    /** The cumulative counter an axis adds to. */
    function Travel(ax: Axis): real {
      match ax
      case X => xTravel
      case Y => yTravel
      case Z => zTravel
      case E => extrusionCounter
    }

    /** Whether targets on the axis are absolute: the extruder has a mode of its own. */
    function Absolute(ax: Axis): bool {
      if ax == E then absoluteE else absoluteMoves
    }

    /** No counter is negative: they start at zero and only grow. */
    predicate Valid() {
      xTravel >= 0.0 && yTravel >= 0.0 && zTravel >= 0.0 && extrusionCounter >= 0.0
    }
  }

  /** No cumulative counter went down from `s` to `t`. */
  predicate CountersGrow(s: Tracker, t: Tracker) {
    t.xTravel >= s.xTravel && t.yTravel >= s.yTravel && t.zTravel >= s.zTravel && t.extrusionCounter >= s.extrusionCounter
  }

  /** Every cumulative counter is the same in `s` and `t`. */
  predicate SameCounters(s: Tracker, t: Tracker) {
    t.xTravel == s.xTravel && t.yTravel == s.yTravel && t.zTravel == s.zTravel && t.extrusionCounter == s.extrusionCounter
  }

  /** The state `reset` leaves: counters at zero, position unknown, both modes absolute. */
  function Initial(): (s: Tracker)
    ensures s.Valid()
    ensures forall ax: Axis :: s.Travel(ax) == 0.0 && s.pos.At(ax).None? && s.Absolute(ax)
    ensures s.speed.None? && s.printFanSpeed.None?
  {
    Tracker(Position(None, None, None, None), 0.0, 0.0, 0.0, 0.0, true, true, None, None)
  }

  /** `^G0\s+|^G1\s+`. */
  predicate IsMove(line: string) {
    StartsWithToken(line, "G0") || StartsWithToken(line, "G1")
  }

  /** The signed target the line gives an axis: `.*\s+X([-]*\d+\.*\d*)` and its siblings. */
  function Coord(line: string, ax: Axis): Parsed<real>
  {
    Arg(line, ax.Letter(), true)
  }

  /** The unsigned feed rate the line gives: `.*\s+F(\d+\.*\d*)`. */
  function Feed(line: string): Parsed<real>
  {
    Arg(line, 'F', false)
  }

  /**
   * `parse_move_args`: for a `G0`/`G1` line, the signed `X`, `Y`, `Z`, `E` targets and the
   * unsigned `F` feed rate; `Malformed` when one of them makes `float()` raise.
   */
  function ParseMoveArgs(line: string): Parsed<MoveArgs>
  {
    if !IsMove(line) then Unmatched
    else
      var x, y, z, e, f := Coord(line, X), Coord(line, Y), Coord(line, Z), Coord(line, E), Feed(line);
      if x.Malformed? || y.Malformed? || z.Malformed? || e.Malformed? || f.Malformed? then Malformed
      else Ok(MoveArgs(Field(x), Field(y), Field(z), Field(e), Field(f)))
  }

  /**
   * A line is a move exactly when it starts with `G0` or `G1` and whitespace; a move is
   * malformed exactly when one of its five arguments is.
   */
  lemma MoveArgsLaw(line: string)
    ensures ParseMoveArgs(line).Unmatched? <==> !IsMove(line)
    ensures ParseMoveArgs(line).Malformed? <==> IsMove(line) && (Coord(line, X).Malformed? || Coord(line, Y).Malformed? || Coord(line, Z).Malformed? || Coord(line, E).Malformed? || Feed(line).Malformed?)
  {
  }

  /**
   * On a well-formed move line, an axis has a target exactly when the line names it,
   * and that target is the value the line gives the axis.
   */
  lemma MoveTargetPresent(line: string, ax: Axis)
    requires ParseMoveArgs(line).Ok?
    ensures ParseMoveArgs(line).value.Target(ax).Some? <==> Present(line, ax.Letter(), true)
    ensures Present(line, ax.Letter(), true) ==> Coord(line, ax).Ok? && ParseMoveArgs(line).value.Target(ax) == Some(Coord(line, ax).value)
  {
  }

  /** On a well-formed move line, the feed rate is given exactly when the line names it, and is not negative. */
  lemma MoveSpeedPresent(line: string)
    requires ParseMoveArgs(line).Ok?
    ensures ParseMoveArgs(line).value.speed.Some? <==> Present(line, 'F', false)
    ensures ParseMoveArgs(line).value.speed.Some? ==> ParseMoveArgs(line).value.speed.value >= 0.0
  {
  }
  /**
   * `parse_fan_speed`: `M106` followed by whitespace sets the `S` value, or full speed
   * 255 without one; a line starting with `M107` switches the fan off (0).
   */
  function ParseFanSpeed(line: string): Parsed<real>
  {
    if StartsWithToken(line, "M106") then
      match FanArg(line)
      case Unmatched => Ok(255.0)
      case Ok(v) => Ok(v)
      case Malformed => Malformed
    else if StartsWith(line, "M107") then Ok(0.0)
    else Unmatched
  }

  /**
   * `M106` and whitespace sets the `S` value, or 255 without one, and raises exactly when
   * the `S` value does; a line starting `M107` gives 0; anything else, bare `M106`
   * included, does not match. A fan speed is never negative.
   */
  lemma FanSpeedLaw(line: string)
    ensures ParseFanSpeed(line).Unmatched? <==> !StartsWithToken(line, "M106") && !StartsWith(line, "M107")
    ensures ParseFanSpeed(line).Ok? ==> ParseFanSpeed(line).value >= 0.0
    ensures StartsWithToken(line, "M106") && !Present(line, 'S', false) ==> ParseFanSpeed(line) == Ok(255.0)
    ensures StartsWithToken(line, "M106") && FanArg(line).Ok? ==> ParseFanSpeed(line) == FanArg(line)
    ensures StartsWithToken(line, "M106") ==> (ParseFanSpeed(line).Malformed? <==> FanArg(line).Malformed?)
    ensures !StartsWithToken(line, "M106") && StartsWith(line, "M107") ==> ParseFanSpeed(line) == Ok(0.0)
  {
  }

  /** The unsigned fan speed the line gives: `.*\s+S(\d+\.*\d*)`. */
  function FanArg(line: string): Parsed<real>
  {
    Arg(line, 'S', false)
  }

  /** The four mode switch commands. */
  predicate IsModeCommand(cmd: string) {
    cmd == "M82" || cmd == "M83" || cmd == "G90" || cmd == "G91"
  }

  /** `^(M82|M83|G90|G91)(?![0-9.])`: the command is not followed by a digit or a dot. */
  predicate IsModeSwitch(line: string) {
    && |line| >= 3
    && IsModeCommand(line[..3])
    && (|line| == 3 || !(IsDigit(line[3]) || line[3] == '.'))
  }

  /**
   * `parse_coordinate_modeswitch`: `M82`/`G90` select absolute extrusion and
   * `M83`/`G91` relative; only the `G` commands also set the motion mode, to the same value.
   */
  function ParseCoordinateModeswitch(line: string): Option<ModeSwitch>
  {
    if !IsModeSwitch(line) then None
    else
      var cmd := line[..3];
      var absoluteE := cmd == "M82" || cmd == "G90";
      Some(ModeSwitch(absoluteE, if cmd[0] == 'G' then Some(cmd == "G90") else None))
  }

  /**
   * `M82`/`G90` select absolute extrusion and `M83`/`G91` relative; only the `G`
   * commands set the motion mode, and to the same value.
   */
  lemma ModeswitchLaw(line: string)
    ensures ParseCoordinateModeswitch(line).Some? <==> IsModeSwitch(line)
    ensures var r := ParseCoordinateModeswitch(line);
      r.Some? ==> (r.value.absoluteE <==> line[..3] == "M82" || line[..3] == "G90")
    ensures var r := ParseCoordinateModeswitch(line);
      r.Some? ==> (r.value.absoluteMoves.Some? <==> line[0] == 'G')
    ensures var r := ParseCoordinateModeswitch(line);
      r.Some? && r.value.absoluteMoves.Some? ==> r.value.absoluteMoves.value == r.value.absoluteE
  {
  }

  /** `^G92\s+`. */
  predicate IsReset(line: string) {
    StartsWithToken(line, "G92")
  }

  /** An axis named on the line takes the argument's value; the others keep `current`. */
  function Override(a: Parsed<real>, current: Option<real>): Option<real> {
    if a.Ok? then Some(a.value) else current
  }

  /**
   * `parse_coordinate_reset`: for a `G92` line, the position with every axis the line
   * names set to the given value and the others kept from `cur`.
   */
  function ParseCoordinateReset(line: string, cur: Position): Parsed<Position>
  {
    if !IsReset(line) then Unmatched
    else
      var x, y, z, e := Coord(line, X), Coord(line, Y), Coord(line, Z), Coord(line, E);
      if x.Malformed? || y.Malformed? || z.Malformed? || e.Malformed? then Malformed
      else Ok(Position(Override(x, cur.x), Override(y, cur.y), Override(z, cur.z), Override(e, cur.e)))
  }

  /** A line is a reset exactly when it starts with `G92` and whitespace, and is malformed exactly when one of its four coordinates is. */
  lemma ResetLaw(line: string, cur: Position)
    ensures ParseCoordinateReset(line, cur).Unmatched? <==> !IsReset(line)
    ensures ParseCoordinateReset(line, cur).Malformed? <==> IsReset(line) && (Coord(line, X).Malformed? || Coord(line, Y).Malformed? || Coord(line, Z).Malformed? || Coord(line, E).Malformed?)
  {
  }

  /** On a well-formed reset line, an axis takes a new value exactly when the line names it. */
  lemma ResetAxis(line: string, cur: Position, ax: Axis)
    requires ParseCoordinateReset(line, cur).Ok?
    ensures !Present(line, ax.Letter(), true) ==> ParseCoordinateReset(line, cur).value.At(ax) == cur.At(ax)
    ensures Present(line, ax.Letter(), true) ==> ParseCoordinateReset(line, cur).value.At(ax) == Some(Coord(line, ax).value)
  {
  }

  /**
   * `process_axis_movement`: the distance moved on one axis (`None` when it cannot be
   * known) and the new position. The distance is the gap between the old and the new
   * position whenever both are known.
   */
  function AxisMovement(target: Option<real>, current: Option<real>, absolute: bool): (r: (Option<real>, Option<real>))
    ensures target.None? ==> r == (Some(0.0), current)
    ensures r.0.Some? ==> r.0.value >= 0.0
    ensures target.Some? && absolute ==> r.1 == target && (r.0.Some? <==> current.Some?)
    ensures target.Some? && !absolute ==> r.0 == Some(Abs(target.value)) && (r.1.Some? <==> current.Some?)
    ensures target.Some? && current.Some? ==> r.1.Some? && r.0 == Some(Abs(r.1.value - current.value))
  {
    match target
    case None => (Some(0.0), current)
    case Some(t) =>
      if absolute then
        (if current.Some? then Some(Abs(current.value - t)) else None, target)
      else
        (Some(Abs(t)), if current.Some? then Some(current.value + t) else None)
  }

  /**
   * How one axis's position `p` and counter `travel` change on a move, case by case: an
   * axis without a target keeps both; an absolute target becomes the position and adds
   * the distance from a known position (nothing from an unknown one); a relative target
   * adds its size even when the position is unknown, and shifts a known position.
   */
  predicate Integrated(p: Option<real>, travel: real, target: Option<real>, absolute: bool, p2: Option<real>, travel2: real) {
    match target
    case None =>
      p2 == p && travel2 == travel
    case Some(t) =>
      if absolute then
        p2 == Some(t) && travel2 == travel + (if p.Some? then Abs(p.value - t) else 0.0)
      else
        p2 == (if p.Some? then Some(p.value + t) else None) && travel2 == travel + Abs(t)
  }

  /** The law above for axis `ax` of two tracker states. */
  predicate AxisLaw(before: Tracker, after: Tracker, ax: Axis, target: Option<real>) {
    Integrated(before.pos.At(ax), before.Travel(ax), target, before.Absolute(ax), after.pos.At(ax), after.Travel(ax))
  }

  /**
   * One axis of the movement branch of `process_line`: `process_axis_movement`, then the
   * counter grows by the distance, or by 0 when the distance is unknown (`rel or 0`).
   */
  function Integrate(p: Option<real>, travel: real, target: Option<real>, absolute: bool): (r: (Option<real>, real))
    ensures Integrated(p, travel, target, absolute, r.0, r.1)
  {
    var (rel, p2) := AxisMovement(target, p, absolute);
    (p2, travel + rel.GetOr(0.0))
  }

  /**
   * The movement branch of `process_line`: every axis is integrated with its own mode,
   * and the feed rate changes only when `F` is given.
   */
  function ApplyMove(s: Tracker, m: MoveArgs): Tracker {
    var (x, xTravel) := Integrate(s.pos.x, s.xTravel, m.x, s.absoluteMoves);
    var (y, yTravel) := Integrate(s.pos.y, s.yTravel, m.y, s.absoluteMoves);
    var (z, zTravel) := Integrate(s.pos.z, s.zTravel, m.z, s.absoluteMoves);
    var (e, extrusion) := Integrate(s.pos.e, s.extrusionCounter, m.e, s.absoluteE);
    Tracker(
      Position(x, y, z, e), xTravel, yTravel, zTravel, extrusion,
      s.absoluteE, s.absoluteMoves,
      if m.speed.Some? then m.speed else s.speed,
      s.printFanSpeed)
  }

  /**
   * A move integrates every axis by the law above with the axis's own mode, changes the
   * feed rate only when `F` is given, and leaves the modes and the fan speed alone.
   */
  lemma ApplyMoveLaw(s: Tracker, m: MoveArgs)
    ensures var r := ApplyMove(s, m);
      && AxisLaw(s, r, X, m.x) && AxisLaw(s, r, Y, m.y) && AxisLaw(s, r, Z, m.z) && AxisLaw(s, r, E, m.e)
      && r.speed == (if m.speed.Some? then m.speed else s.speed)
      && r.absoluteE == s.absoluteE && r.absoluteMoves == s.absoluteMoves && r.printFanSpeed == s.printFanSpeed
  {
  }

  /** `ApplyMove` spelled out as `process_axis_movement` calls, as the method performs them. */
  lemma ApplyMoveSteps(s: Tracker, m: MoveArgs)
    ensures ApplyMove(s, m) == Tracker(
      Position(AxisMovement(m.x, s.pos.x, s.absoluteMoves).1, AxisMovement(m.y, s.pos.y, s.absoluteMoves).1,
               AxisMovement(m.z, s.pos.z, s.absoluteMoves).1, AxisMovement(m.e, s.pos.e, s.absoluteE).1),
      s.xTravel + AxisMovement(m.x, s.pos.x, s.absoluteMoves).0.GetOr(0.0),
      s.yTravel + AxisMovement(m.y, s.pos.y, s.absoluteMoves).0.GetOr(0.0),
      s.zTravel + AxisMovement(m.z, s.pos.z, s.absoluteMoves).0.GetOr(0.0),
      s.extrusionCounter + AxisMovement(m.e, s.pos.e, s.absoluteE).0.GetOr(0.0),
      s.absoluteE, s.absoluteMoves, if m.speed.Some? then m.speed else s.speed, s.printFanSpeed)
  {
  }

  /** The mode switch branch: the extruder mode always, the motion mode for `G90`/`G91`. */
  function ApplyModes(s: Tracker, ms: ModeSwitch): (r: Tracker)
    ensures r.absoluteE == ms.absoluteE
    ensures r.absoluteMoves == (if ms.absoluteMoves.Some? then ms.absoluteMoves.value else s.absoluteMoves)
    ensures r.(absoluteE := s.absoluteE, absoluteMoves := s.absoluteMoves) == s
  {
    s.(absoluteE := ms.absoluteE, absoluteMoves := ms.absoluteMoves.GetOr(s.absoluteMoves))
  }

  /**
   * `process_line` on a state value: the first of move, fan, mode switch and reset that
   * matches decides. `ValueError` leaves the state as it was, since the parse functions
   * raise before anything is assigned.
   */
  function Step(s: Tracker, line: string): (r: (Tracker, Outcome))
    ensures r.1 == Unrecognized || r.1 == ValueError ==> r.0 == s
    ensures r.1 == Movement <==> ParseMoveArgs(line).Ok?
    ensures r.1 == Movement ==> r.0 == ApplyMove(s, ParseMoveArgs(line).value)
    ensures r.1 != Movement ==> SameCounters(s, r.0)
    ensures CountersGrow(s, r.0)
  {
    match ParseMoveArgs(line)
    case Malformed => (s, ValueError)
    case Ok(m) =>
      ApplyMoveLaw(s, m);
      (ApplyMove(s, m), Movement)
    case Unmatched => Command(s, line)
  }

  /**
   * The lines that are not moves: a fan speed of 0 is falsy, so it changes nothing and
   * the line falls through to the mode switch and reset patterns.
   */
  function Command(s: Tracker, line: string): (r: (Tracker, Outcome))
    ensures r.1 != Movement && SameCounters(s, r.0)
    ensures r.1 == Unrecognized || r.1 == ValueError ==> r.0 == s
  {
    var fan := ParseFanSpeed(line);
    if fan.Malformed? then (s, ValueError)
    else if fan.Ok? && fan.value != 0.0 then (s.(printFanSpeed := Some(fan.value)), PrintFanSpeed)
    else CoordinateCommand(s, line)
  }

  /** The mode switch and reset patterns, tried in that order. */
  function CoordinateCommand(s: Tracker, line: string): (r: (Tracker, Outcome))
    ensures r.1 != Movement && r.1 != PrintFanSpeed && SameCounters(s, r.0)
    ensures r.1 == Unrecognized || r.1 == ValueError ==> r.0 == s
  {
    match ParseCoordinateModeswitch(line)
    case Some(ms) => (ApplyModes(s, ms), CoordinateModeswitch)
    case None =>
      match ParseCoordinateReset(line, s.pos)
      case Malformed => (s, ValueError)
      case Ok(p) => (s.(pos := p), CoordinateReset)
      case Unmatched => (s, Unrecognized)
  }

  /** `Gcode_parser`: the tracker's fields, updated in place line by line. */
  class Parser {
    var x: Option<real>
    var y: Option<real>
    var z: Option<real>
    var e: Option<real>
    var xTravel: real
    var yTravel: real
    var zTravel: real
    var extrusionCounter: real
    var absoluteE: bool
    var absoluteMoves: bool
    var speed: Option<real>
    var printFanSpeed: Option<real>

    /** The fields as a tracker value. */
    function State(): Tracker
      reads this
    {
      Tracker(Position(x, y, z, e), xTravel, yTravel, zTravel, extrusionCounter, absoluteE, absoluteMoves, speed, printFanSpeed)
    }

    /** `__init__` calls `reset`. */
    constructor()
      ensures State() == Initial()
    {
      x, y, z, e := None, None, None, None;
      xTravel, yTravel, zTravel, extrusionCounter := 0.0, 0.0, 0.0, 0.0;
      absoluteE, absoluteMoves := true, true;
      speed, printFanSpeed := None, None;
    }

    /** `reset`: back to the initial state. */
    method Reset()
      modifies this
      ensures State() == Initial()
    {
      extrusionCounter := 0.0;
      xTravel := 0.0;
      x := None;
      yTravel := 0.0;
      y := None;
      zTravel := 0.0;
      z := None;
      e := None;
      absoluteE := true;
      absoluteMoves := true;
      speed := None;
      printFanSpeed := None;
    }

    /**
     * The movement branch of `process_line`: `process_axis_movement` on every axis, each
     * counter grown by the distance (`rel or 0`), the positions assigned together, and the
     * feed rate kept unless `F` was given.
     */
    method Move(m: MoveArgs)
      modifies this
      ensures State() == ApplyMove(old(State()), m)
    {
      ApplyMoveSteps(State(), m);
      var (relE, newE) := AxisMovement(m.e, e, absoluteE);
      var (relX, newX) := AxisMovement(m.x, x, absoluteMoves);
      var (relY, newY) := AxisMovement(m.y, y, absoluteMoves);
      var (relZ, newZ) := AxisMovement(m.z, z, absoluteMoves);
      var newSpeed := if m.speed.Some? then m.speed else speed;
      extrusionCounter, xTravel, yTravel, zTravel, x, y, z, e, speed :=
        extrusionCounter + relE.GetOr(0.0), xTravel + relX.GetOr(0.0), yTravel + relY.GetOr(0.0), zTravel + relZ.GetOr(0.0),
        newX, newY, newZ, newE, newSpeed;
    }

    /** The mode switch branch of `process_line`. */
    method SwitchModes(ms: ModeSwitch)
      modifies this
      ensures State() == ApplyModes(old(State()), ms)
    {
      absoluteE := ms.absoluteE;
      if ms.absoluteMoves.Some? {
        absoluteMoves := ms.absoluteMoves.value;
      }
    }

    /**
     * `process_line`: classify the line and update the fields in place; `ValueError`
     * stands for the exception, raised before any field is assigned.
     */
    method ProcessLine(line: string) returns (r: Outcome)
      modifies this
      ensures (State(), r) == Step(old(State()), line)
    {
      var movement := ParseMoveArgs(line);
      if movement.Malformed? {
        return ValueError;
      }
      if movement.Ok? {
        Move(movement.value);
        return Movement;
      }
      var fanSpeed := ParseFanSpeed(line);
      if fanSpeed.Malformed? {
        return ValueError;
      }
      if fanSpeed.Ok? && fanSpeed.value != 0.0 {
        printFanSpeed := Some(fanSpeed.value);
        return PrintFanSpeed;
      }
      r := ProcessCoordinateCommand(line);
    }

    /** The rest of `process_line`: the mode switch and reset branches. */
    method ProcessCoordinateCommand(line: string) returns (r: Outcome)
      modifies this
      ensures (State(), r) == CoordinateCommand(old(State()), line)
    {
      var modes := ParseCoordinateModeswitch(line);
      if modes.Some? {
        SwitchModes(modes.value);
        return CoordinateModeswitch;
      }
      var reset := ParseCoordinateReset(line, Position(x, y, z, e));
      if reset.Malformed? {
        return ValueError;
      }
      if reset.Ok? {
        x, y, z, e := reset.value.x, reset.value.y, reset.value.z, reset.value.e;
        return CoordinateReset;
      }
      return Unrecognized;
    }
  }
}
