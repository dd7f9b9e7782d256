# OctoPrint Prometheus Exporter, modelled in Dafny

The exporter is an OctoPrint plugin that turns printer telemetry into Prometheus metrics.
Two parts of it are modelled here.

- **The G-code tracker** (`Gcode_parser`). It reads each command line sent to the printer.
  It keeps the tool position, the distance travelled on X, Y and Z, the filament extruded,
  the absolute/relative coordinate modes, the feed rate and the fan speed.
  - Its regular expressions become string predicates (`GcodeText`).
  - Its parse functions become pure functions (`GcodeParser`).
  - The class itself becomes `GcodeParser.Parser`. Its `ProcessLine` method is proved
    against the function `Step`.
  - `GcodeProperties` states what a line, or a sequence of lines, does to the tracker.
- **The plugin** (`PrometheusExporterPlugin`). Its callbacks turn the tracker's per-job
  cumulative values into increments of process-lifetime counters and per-job gauges. They
  also map print lifecycle events to metrics.
  - `MetricsStore` holds the metrics abstractly:
    - counters, which only ever grow by non-negative amounts;
    - gauges;
    - labelled gauges, where a removed label is absent, which is not the same as 0.
  - `Exporter.Plugin` is the plugin object. Every callback is proved against a function
    on a `PluginState` value, and lemmas state what those functions promise.

The main results:

- The tracker's counters never decrease over any sequence of lines (`RunCountersGrow`).
- Over a path of absolute moves, the counter grows by exactly the path length. Over
  relative moves, it grows by the sum of the offset sizes (`AbsolutePath`, `RelativePath`).
- Each lifetime counter grows by exactly what the tracker's value grew (`GcodeSentLaw`).
- Whatever callbacks arrive, the lifetime counters never go down and the plugin's
  invariant holds (`LifetimeCountersNeverDecrease`).

Python semantics that matter here, stated explicitly:

- `re.match` anchors only at the start of the line.
- `\s` is the set for which `str.isspace()` holds. `\d` is taken as ASCII digits. `.`
  does not match a line feed.
- The greedy `.*\s+X(...)` settles on the last position where the argument can match.
- The number group `-*\d+\.*\d*` admits `--5` and `1..2`. On those, `float()` raises
  `ValueError`. That exception propagates out of `process_line` and `on_gcode_sent`, and
  it leaves the state unchanged.
- `if fanspeed:` treats 0.0 as false.
- `Counter.inc` raises `ValueError` on a negative amount.
- The wall clock is a parameter `now`. The completion timer is a flag that says whether
  one is pending.

Two behaviours of the code are easy to misread, and the model keeps what the code does:

- `M107` and `M106 S0` look like fan-off commands, but they change nothing and report
  no match. `parse_fan_speed` does return 0.0 for them, and `if fanspeed:`
  (`gcodeparser.py:167`) treats 0.0 as false.
- The comment at `__init__.py:76-78` says the progress values go back to 0 thirty
  seconds after a print ends. The timer's callback calls `metrics.job_complete`, which
  does not exist, so that never happens.
  - `on_print_started` resets only the tracker and the high-water marks.
  - The travel gauges are rewritten by the next move.
  - The job extrusion gauge is never reset. It only ever moves together with the lifetime
    extrusion counter, so from `initialize` on the two always read the same
    (`ExtrusionGaugeIsLifetimeTotal`).

## Model

| member | source | states |
|---|---|---|
| GcodeText.ScanNumber | octoprint_prometheus_exporter/gcodeparser.py:13 | the group `-*\d+\.*\d*` (or `\d+\.*\d*` unsigned) matches at a position exactly when a digit follows the greedy dashes, and what it captures is well formed |
| GcodeText.ScanNumberIsTokenAt | octoprint_prometheus_exporter/gcodeparser.py:13 | the greedy scan returns a token exactly when that token is well formed and lies at the position with the group stopping right after it, in both directions |
| GcodeText.ToFloat | octoprint_prometheus_exporter/gcodeparser.py:52 | `float()` on the captured text fails exactly when there is more than one dash or more than one dot; otherwise it is the decimal the digits write (`Decimal`: all the digits as one integer over ten to the number of fraction digits), negative for one dash, and within 1 of the whole part |
| GcodeText.Captured | octoprint_prometheus_exporter/gcodeparser.py:13 | the captured group is the longest one the greedy scan finds at the position; it is the line's own characters from there on, has at least one whole digit, and has a dash only in the signed group |
| GcodeText.BlankBeforeIsRegex | octoprint_prometheus_exporter/gcodeparser.py:13 | the computed test for `.*\s+` matching a prefix holds exactly when some split point exists with no line feed before it and only whitespace after it |
| GcodeText.LastArgAt | octoprint_prometheus_exporter/gcodeparser.py:13 | the greedy `.*` settles on the last position where the argument pattern can match, and finds none exactly when there is none |
| GcodeText.Arg | octoprint_prometheus_exporter/gcodeparser.py:13-19 | an argument pattern fails to match exactly when no position supplies the letter; an unsigned argument is never negative; `ArgLaw` gives its value |
| GcodeText.ArgLaw | octoprint_prometheus_exporter/gcodeparser.py:13-19 | a matched argument is the conversion of the group at the last position where the pattern matches |
| GcodeText.Convert | octoprint_prometheus_exporter/gcodeparser.py:52 | converting a matched group never reports "no match", and an unsigned value is not negative; `ConvertLaw` says when it raises and what value it gives |
| GcodeText.ConvertLaw | octoprint_prometheus_exporter/gcodeparser.py:52 | `float()` on the captured group raises `ValueError` exactly when the group has more than one dash or more than one dot, and otherwise gives the decimal the group writes |
| GcodeText.Field | octoprint_prometheus_exporter/gcodeparser.py:52 | an argument contributes a value exactly when it matched and converted, and then that value |
| GcodeParser.Abs | octoprint_prometheus_exporter/gcodeparser.py:134 | `abs` is non-negative and equals the argument or its negation |
| GcodeParser.Initial | octoprint_prometheus_exporter/gcodeparser.py:28-41 | after `reset` all four counters are 0, every position is unknown, both modes are absolute, and there is no feed rate and no fan speed |
| GcodeParser.MoveArgsLaw | octoprint_prometheus_exporter/gcodeparser.py:43-66 | a line is a move exactly when it starts with `G0`/`G1` and whitespace; a move raises exactly when one of its five arguments does |
| GcodeParser.ParseMoveArgs | octoprint_prometheus_exporter/gcodeparser.py:43-66 | `parse_move_args`; `MoveArgsLaw`, `MoveTargetPresent` and `MoveSpeedPresent` state what it gives |
| GcodeParser.MoveTargetPresent | octoprint_prometheus_exporter/gcodeparser.py:51-61 | on a move, an axis has a target exactly when the line names it, and the target is the value the line gives that axis |
| GcodeParser.MoveSpeedPresent | octoprint_prometheus_exporter/gcodeparser.py:63-64 | on a move, the feed rate is given exactly when the line has `F`, and it is not negative |
| GcodeParser.FanSpeedLaw | octoprint_prometheus_exporter/gcodeparser.py:68-83 | `M106` and whitespace gives the `S` value, or 255 without one, and raises exactly when `S` does; `M107` gives 0; anything else, bare `M106` included, matches nothing; a speed is never negative |
| GcodeParser.ParseFanSpeed | octoprint_prometheus_exporter/gcodeparser.py:68-83 | `parse_fan_speed`; `FanSpeedLaw` states what it gives |
| GcodeParser.ModeswitchLaw | octoprint_prometheus_exporter/gcodeparser.py:85-99 | the mode pattern matches exactly the four commands not followed by a digit or a dot; `M82`/`G90` mean absolute extrusion; only the `G` commands set the motion mode, to the same value |
| GcodeParser.ParseCoordinateModeswitch | octoprint_prometheus_exporter/gcodeparser.py:85-99 | `parse_coordinate_modeswitch`; `ModeswitchLaw` states what it gives |
| GcodeParser.ResetLaw | octoprint_prometheus_exporter/gcodeparser.py:101-126 | a line is a reset exactly when it starts with `G92` and whitespace, and raises exactly when one of its four coordinates does |
| GcodeParser.ResetAxis | octoprint_prometheus_exporter/gcodeparser.py:108-126 | on a reset, a named axis takes the given value and every other axis keeps its position |
| GcodeParser.ParseCoordinateReset | octoprint_prometheus_exporter/gcodeparser.py:101-126 | `parse_coordinate_reset`; `ResetLaw` and `ResetAxis` state what it gives |
| GcodeParser.AxisMovement | octoprint_prometheus_exporter/gcodeparser.py:128-141 | no target means no distance and the same position; an absolute target becomes the position; a relative one moves by its size; the distance is the gap between two known positions |
| GcodeParser.Integrate | octoprint_prometheus_exporter/gcodeparser.py:149-157 | one axis of a move obeys the integration law: the position and the counter change as the mode and the known position decide, with an unknown distance counted as 0 |
| GcodeParser.ApplyMoveLaw | octoprint_prometheus_exporter/gcodeparser.py:145-164 | a move integrates X, Y, Z with the motion mode and E with the extruder mode, changes the feed rate only when `F` is given, and keeps the modes and the fan speed |
| GcodeParser.ApplyMove | octoprint_prometheus_exporter/gcodeparser.py:145-164 | the movement branch of `process_line` on a value; `ApplyMoveLaw` and `ApplyMoveSteps` state its effect |
| GcodeParser.ApplyMoveSteps | octoprint_prometheus_exporter/gcodeparser.py:149-162 | a proof step for `Parser.Move`: the move is the four `process_axis_movement` results, with each unknown distance counted as 0 |
| GcodeParser.ApplyModes | octoprint_prometheus_exporter/gcodeparser.py:171-179 | a mode switch sets the extruder mode, sets the motion mode only when given, and changes nothing else |
| GcodeParser.Step | octoprint_prometheus_exporter/gcodeparser.py:143-186 | `process_line` reports a move exactly when the move arguments parse; no match or `ValueError` changes nothing; only a move changes a counter, and no counter goes down; `NoPattern` and `StepRaises` say when it reports no match and when it raises |
| GcodeParser.Command | octoprint_prometheus_exporter/gcodeparser.py:166-186 | a line that is not a move changes no counter, and changes nothing when it matches nothing or raises |
| GcodeParser.CoordinateCommand | octoprint_prometheus_exporter/gcodeparser.py:171-186 | the mode switch and reset branches change no counter, and change nothing when they match nothing or raise |
| GcodeParser.Parser.constructor | octoprint_prometheus_exporter/gcodeparser.py:25-41 | a new tracker is in the reset state |
| GcodeParser.Parser.Reset | octoprint_prometheus_exporter/gcodeparser.py:28-41 | `reset` puts every field in the reset state |
| GcodeParser.Parser.Move | octoprint_prometheus_exporter/gcodeparser.py:147-162 | the movement branch's assignments leave the fields as `ApplyMove` says |
| GcodeParser.Parser.SwitchModes | octoprint_prometheus_exporter/gcodeparser.py:173-178 | the mode switch branch's assignments leave the fields as `ApplyModes` says |
| GcodeParser.Parser.ProcessLine | octoprint_prometheus_exporter/gcodeparser.py:143-186 | `process_line` updates the fields and reports exactly as `Step` says |
| GcodeParser.Parser.ProcessCoordinateCommand | octoprint_prometheus_exporter/gcodeparser.py:171-186 | the mode switch and reset part of `process_line` updates the fields as `CoordinateCommand` says |
| GcodeProperties.RunCountersGrow | octoprint_prometheus_exporter/gcodeparser.py:154-157 | over any sequence of lines no counter goes down, and counters that start non-negative stay so |
| GcodeProperties.UnnamedAxisKept | octoprint_prometheus_exporter/gcodeparser.py:130-131 | an axis a move does not name keeps its position and its counter |
| GcodeProperties.AxisLawAt | octoprint_prometheus_exporter/gcodeparser.py:149-159 | any one axis of a move obeys the integration law with its own mode, and no mode changes |
| GcodeProperties.AbsoluteAxisMove | octoprint_prometheus_exporter/gcodeparser.py:133-135 | in absolute mode a named axis takes the target; its counter grows by the distance from a known position, and by 0 from an unknown one |
| GcodeProperties.AbsoluteIntegration | octoprint_prometheus_exporter/gcodeparser.py:133-135 | the same law for a parsed move |
| GcodeProperties.RelativeAxisMove | octoprint_prometheus_exporter/gcodeparser.py:137-139 | in relative mode a named axis adds the offset's size even from an unknown position, and shifts a known position by the offset |
| GcodeProperties.RelativeIntegration | octoprint_prometheus_exporter/gcodeparser.py:137-139 | the same law for a parsed move |
| GcodeProperties.SpeedOnlyFromFeed | octoprint_prometheus_exporter/gcodeparser.py:161-162 | the feed rate changes only on a move that gives `F`, and then becomes that value |
| GcodeProperties.NotMove | octoprint_prometheus_exporter/gcodeparser.py:12 | a line starting with `M`, or with a `G` command other than `G0`/`G1`, is not a move |
| GcodeProperties.NotFan | octoprint_prometheus_exporter/gcodeparser.py:18-20 | a line starting with `G`, or with an `M` command other than `M10x`, is not a fan command |
| GcodeProperties.ExtruderModeLine | octoprint_prometheus_exporter/gcodeparser.py:93-99 | `M82`/`M83` set only the extruder mode, absolute for `M82` |
| GcodeProperties.MotionModeLine | octoprint_prometheus_exporter/gcodeparser.py:93-99 | `G90`/`G91` set both the motion and the extruder mode, absolute for `G90` |
| GcodeProperties.ModeLineIdempotent | octoprint_prometheus_exporter/gcodeparser.py:171-179 | sending a mode switch twice is sending it once |
| GcodeProperties.LookaheadRejects | octoprint_prometheus_exporter/gcodeparser.py:22 | `G900` and `G90.1` match nothing and change nothing |
| GcodeProperties.ResetLine | octoprint_prometheus_exporter/gcodeparser.py:181-184 | a well-formed `G92` line sets the position as parsed and changes no counter, mode, feed rate or fan speed |
| GcodeProperties.NotCoordinateCommand | octoprint_prometheus_exporter/gcodeparser.py:22-23 | a line starting with `M10` is neither a mode switch nor a reset |
| GcodeProperties.NoPattern | octoprint_prometheus_exporter/gcodeparser.py:143-186 | a line that is not a move, not `M106` with whitespace, not `M107`, not a mode switch and not a `G92` reset returns `None` and changes nothing |
| GcodeProperties.StepRaises | octoprint_prometheus_exporter/gcodeparser.py:143-186 | `process_line` raises `ValueError` exactly when the move arguments do, or else the fan speed does, or else no mode switch matches and the reset does |
| GcodeProperties.CommandRaises | octoprint_prometheus_exporter/gcodeparser.py:166-186 | a line that is not a move raises exactly when its fan speed does, or else no mode switch matches and its reset does |
| GcodeProperties.CoordinateRaises | octoprint_prometheus_exporter/gcodeparser.py:171-186 | the mode switch and reset part raises exactly when no mode switch matches and the reset does |
| GcodeProperties.FanOffIgnored | octoprint_prometheus_exporter/gcodeparser.py:166-169 | `M107` changes nothing and matches nothing, because 0.0 is falsy |
| GcodeProperties.FanZeroIgnored | octoprint_prometheus_exporter/gcodeparser.py:166-169 | `M106 S0` likewise changes nothing |
| GcodeProperties.FanOnLine | octoprint_prometheus_exporter/gcodeparser.py:70-77 | `M106` and whitespace runs the fan at the `S` value, or at 255 without `S`, whenever that value is not 0 |
| GcodeProperties.BareFanCommand | octoprint_prometheus_exporter/gcodeparser.py:18 | a bare `M106` matches nothing |
| GcodeProperties.AbsolutePath | octoprint_prometheus_exporter/gcodeparser.py:133-135 | over absolute moves from a known position, the counter grows by exactly the path length and the position ends at the last target |
| GcodeProperties.RelativePath | octoprint_prometheus_exporter/gcodeparser.py:137-139 | over relative moves, the counter grows by exactly the sum of the offset sizes |
| MetricsStore.Empty | octoprint_prometheus_exporter/__init__.py:25 | fresh metrics read 0 for every counter and every gauge and have no label in any labelled gauge |
| MetricsStore.CounterInc | octoprint_prometheus_exporter/__init__.py:147 | an increment moves its own counter by the amount and nothing else |
| MetricsStore.GaugeSet | octoprint_prometheus_exporter/__init__.py:145 | a set gauge reads the value, and nothing else moves |
| MetricsStore.GaugeAdd | octoprint_prometheus_exporter/__init__.py:124-126 | a gauge increment or decrement moves that gauge by the amount, and nothing else |
| MetricsStore.LabelSet | octoprint_prometheus_exporter/__init__.py:40-42 | setting a label makes it present with the value, and nothing else moves |
| MetricsStore.LabelRemove | octoprint_prometheus_exporter/__init__.py:62-65 | removing a label makes it absent, and nothing else moves |
| MetricsStore.LabelRemoveIdempotent | octoprint_prometheus_exporter/__init__.py:62-65 | removing a label twice is removing it once |
| MetricsStore.LabelRemoveAbsent | octoprint_prometheus_exporter/__init__.py:62-65 | removing an absent label changes no family, counter or gauge, whether or not the family was ever written, and leaves a written family's store exactly as it was |
| MetricsStore.OnlyIncrementsMoveCounters | octoprint_prometheus_exporter/__init__.py:145-168 | an increment lowers no counter and keeps them non-negative; no other operation touches a counter |
| MetricsStore.Metrics.constructor | octoprint_prometheus_exporter/__init__.py:25 | new metrics are empty |
| MetricsStore.Metrics.Inc | octoprint_prometheus_exporter/__init__.py:74 | an increment raises exactly on a negative amount and then changes nothing |
| MetricsStore.Metrics.Set | octoprint_prometheus_exporter/__init__.py:145 | the registry after a set is `GaugeSet` |
| MetricsStore.Metrics.GaugeInc | octoprint_prometheus_exporter/__init__.py:124 | the registry after a gauge increment is `GaugeAdd` |
| MetricsStore.Metrics.GaugeDec | octoprint_prometheus_exporter/__init__.py:126 | the registry after a gauge decrement is `GaugeAdd` of the negated amount |
| MetricsStore.Metrics.LabelsSet | octoprint_prometheus_exporter/__init__.py:40-42 | the registry after a labelled set is `LabelSet` |
| MetricsStore.Metrics.Remove | octoprint_prometheus_exporter/__init__.py:62-65 | the registry after a removal is `LabelRemove` |
| Exporter.TravelLaw | octoprint_prometheus_exporter/__init__.py:143-162 | a travel call sets its job gauge to the value; only a higher value raises its mark and adds exactly the rise to its lifetime counter; nothing else moves |
| Exporter.TravelMarksLaw | octoprint_prometheus_exporter/__init__.py:146-148 | the marks half of the travel law |
| Exporter.TravelMetricsLaw | octoprint_prometheus_exporter/__init__.py:145-147 | the metrics half of the travel law |
| Exporter.InitialState | octoprint_prometheus_exporter/__init__.py:23-33 | the state `initialize` builds satisfies the plugin invariant, has every counter at 0, and has the job extrusion gauge equal to the lifetime extrusion counter |
| Exporter.Travel | octoprint_prometheus_exporter/__init__.py:143-162 | `process_travel_x`/`_y`/`_z` on a value; `TravelLaw` states its effect |
| Exporter.Extrusion | octoprint_prometheus_exporter/__init__.py:164-169 | `process_extrusion` on a value; `ExtrusionLaw` states its effect |
| Exporter.ExtrusionLaw | octoprint_prometheus_exporter/__init__.py:164-169 | the extrusion call adds the same rise to the job gauge and to the lifetime counter, raises the mark, and moves nothing else; no rise means no change |
| Exporter.ForwardChainMarks | octoprint_prometheus_exporter/__init__.py:175-179 | after the four forwarding calls, every mark equals the tracker's value |
| Exporter.ForwardChainCounters | octoprint_prometheus_exporter/__init__.py:175-179 | after the four forwarding calls, each lifetime counter has grown by exactly the growth of its tracker value, and no other counter has moved |
| Exporter.ForwardChainGauges | octoprint_prometheus_exporter/__init__.py:175-179 | after the four forwarding calls, the travel gauges show the tracker's values, the job extrusion gauge has grown with the extrusion, and no other gauge has moved |
| Exporter.ForwardLaw | octoprint_prometheus_exporter/__init__.py:175-179 | forwarding grown tracker values against synced marks has the effect of the three laws above |
| Exporter.Forward | octoprint_prometheus_exporter/__init__.py:175-179 | the movement branch of `on_gcode_sent`; `ForwardLaw` and `MovementForwarded` state its effect |
| Exporter.MovementForwarded | octoprint_prometheus_exporter/__init__.py:175-179 | the movement branch keeps the plugin invariant, accounts every bit of new travel and extrusion, sets the travel gauges, and keeps the client and fan gauges, the timer and the start time |
| Exporter.GcodeSentLaw | octoprint_prometheus_exporter/__init__.py:171-183 | only a `sent` line acts; it raises exactly when the tracker does, and then nothing changes; each lifetime counter grows by exactly its tracker value's growth; after a move the travel gauges show the tracker and the fan gauge stays; after a fan line the fan gauge shows the speed and no other gauge moves; any other line changes no metric; the client gauge, the timer and the start time never change; the invariant holds |
| Exporter.GcodeSent | octoprint_prometheus_exporter/__init__.py:171-183 | `on_gcode_sent` on a value; `GcodeSentLaw` and `GcodeSentKeeps` state its effect |
| Exporter.PrintStartedLaw | octoprint_prometheus_exporter/__init__.py:98-111 | starting a print counts exactly one started job and moves no other metric; the tracker is reset; every mark is 0; no timer is pending; the start time is the clock |
| Exporter.StartEventLaw | octoprint_prometheus_exporter/__init__.py:129-130 | the `PrintStarted` event runs `on_print_started` and does not raise |
| Exporter.PrintStarted | octoprint_prometheus_exporter/__init__.py:98-111 | `on_print_started` on a value; `PrintStartedLaw` states its effect |
| Exporter.EndOfPrintLaw | octoprint_prometheus_exporter/__init__.py:72-84 | an end-of-print event counts itself once; it raises exactly when the clock is behind the start; otherwise it adds the duration to the total printing time and starts the timer |
| Exporter.JobComplete | octoprint_prometheus_exporter/__init__.py:72-84 | `on_job_complete` on a value; `EndOfPrintLaw` states its effect |
| Exporter.OtherEventLaw | octoprint_prometheus_exporter/__init__.py:113-141 | client events move the client gauge by one; `CaptureDone` counts a timelapse; `PrinterStateChanged` raises and changes nothing; an unknown event changes nothing |
| Exporter.Event | octoprint_prometheus_exporter/__init__.py:118-141 | `on_event` on a value; `StartEventLaw`, `EndOfPrintLaw`, `OtherEventLaw` and `EventKeeps` state its effect |
| Exporter.DeregisterLaw | octoprint_prometheus_exporter/__init__.py:59-66 | a non-empty label is absent from the four job gauges afterwards; the temperature gauges, counters and gauges stay; the label is cleared |
| Exporter.DeregisterIdempotent | octoprint_prometheus_exporter/__init__.py:59-66 | deregistering twice is deregistering once |
| Exporter.Deregister | octoprint_prometheus_exporter/__init__.py:59-66 | `print_deregister_callback` on a value; `DeregisterLaw` and `DeregisterIdempotent` state its effect |
| Exporter.RecordTempLaw | octoprint_prometheus_exporter/__init__.py:37-42 | one report entry sets each component it carries for its tool, and nothing else |
| Exporter.TempsReceivedKeeps | octoprint_prometheus_exporter/__init__.py:35-43 | a temperature report touches only the two temperature gauges |
| Exporter.TempsReceivedLaw | octoprint_prometheus_exporter/__init__.py:35-43 | after a report every component it carries is its tool's value, and a tool it carries nothing for keeps its value or its absence |
| Exporter.TempsReceived | octoprint_prometheus_exporter/__init__.py:35-43 | `on_temp_received` on a value; `TempsReceivedKeeps` and `TempsReceivedLaw` state its effect |
| Exporter.GcodeSentKeeps | octoprint_prometheus_exporter/__init__.py:171-183 | `on_gcode_sent` keeps the invariant, lowers no lifetime counter, and keeps the job extrusion gauge in step with the lifetime extrusion counter |
| Exporter.EventKeeps | octoprint_prometheus_exporter/__init__.py:118-141 | `on_event` keeps the same three things |
| Exporter.TempsKeeps | octoprint_prometheus_exporter/__init__.py:35-43 | `on_temp_received` keeps the same three things |
| Exporter.HandleLaw | octoprint_prometheus_exporter/__init__.py:35-183 | every callback keeps the same three things |
| Exporter.LifetimeCountersNeverDecrease | octoprint_prometheus_exporter/__init__.py:143-169 | over any sequence of callbacks no lifetime counter goes down, the invariant holds, and the job extrusion gauge stays as far from the lifetime counter as it started |
| Exporter.ExtrusionGaugeIsLifetimeTotal | octoprint_prometheus_exporter/__init__.py:164-169 | from `initialize` on, over any sequence of callbacks, the job extrusion gauge reads exactly the lifetime extrusion counter |
| Exporter.Plugin.constructor | octoprint_prometheus_exporter/__init__.py:23-33 | `initialize` gives empty metrics, a reset tracker, zero marks, no label, no timer and start time 0 |
| Exporter.Plugin.ProcessTravelX | octoprint_prometheus_exporter/__init__.py:143-148 | `process_travel_x` changes the state as `Travel` for X says |
| Exporter.Plugin.ProcessTravelY | octoprint_prometheus_exporter/__init__.py:150-155 | `process_travel_y` changes the state as `Travel` for Y says |
| Exporter.Plugin.ProcessTravelZ | octoprint_prometheus_exporter/__init__.py:157-162 | `process_travel_z` changes the state as `Travel` for Z says |
| Exporter.Plugin.ProcessExtrusion | octoprint_prometheus_exporter/__init__.py:164-169 | `process_extrusion` changes the state as `Extrusion` says |
| Exporter.Plugin.OnPrintStarted | octoprint_prometheus_exporter/__init__.py:98-111 | `on_print_started` changes the state as `PrintStarted` says |
| Exporter.Plugin.OnJobComplete | octoprint_prometheus_exporter/__init__.py:72-84 | `on_job_complete` changes the state and raises as `JobComplete` says |
| Exporter.Plugin.OnEvent | octoprint_prometheus_exporter/__init__.py:118-141 | `on_event` changes the state and raises as `Event` says, and keeps the invariant |
| Exporter.Plugin.PrintDeregisterCallback | octoprint_prometheus_exporter/__init__.py:59-66 | `print_deregister_callback` changes the state as `Deregister` says, and keeps the invariant |
| Exporter.Plugin.OnTempReceived | octoprint_prometheus_exporter/__init__.py:35-43 | `on_temp_received` hands back its input and writes the entries in order, as `TempsReceived` says, keeping the invariant |
| Exporter.Plugin.OnGcodeSent | octoprint_prometheus_exporter/__init__.py:171-183 | `on_gcode_sent` changes the state and raises as `GcodeSent` says, and keeps the invariant |

## Left out

- `octoprint_prometheus_exporter/metrics.py` is a list of `prometheus_client` declarations.
  - Its attribute names differ from the ones `__init__.py` uses.
  - `Metrics` takes no `logger` argument.
  - The store is therefore modelled abstractly, under the names `__init__.py` uses.
- Timers and threads are not modelled.
  - The completion timer is a flag: `on_job_complete` sets it and `on_print_started` clears it.
  - Timer firing is not modelled. Its callback calls `metrics.job_complete`, which does not exist, so it would raise.
  - The delayed deregistration is not modelled. `print_deregister_callback` is modelled as a direct call.
  - `on_slicing_progress` and `slice_deregister_callback` are left out.
  - Locking is left out.
- `time.time()` is not modelled. The clock value is the parameter `now`.
- `on_printer_offline`, `on_after_startup`, the metrics endpoint, the update and permission hooks and `__plugin_load__` are OctoPrint plumbing or library internals, so they are left out.
- `on_state_changed` uses an undefined `payload`. `PrinterStateChanged` is modelled as raising with nothing changed.
- `on_print_progress` is left out.
  - It writes the label to the metrics object rather than to the plugin, so the plugin's label stays empty.
  - The invariant `Healthy` records that the label is empty.
  - The host query in `on_gcode_sent` (`__init__.py:184-192`) runs only when the label is non-empty, so it is never reached and is not modelled.
- Exporter.Plugin.OnGcodeSent: the return value `None` is not modelled. The method returns only whether the tracker raised.
- Exporter.Plugin.OnTempReceived: the report is a sequence of (tool, value) entries in dictionary order, not a Python `dict`.
  - A value that is not a 2-tuple is `NotPair`.
  - `TempsReceivedLaw` asks for distinct keys, as a dictionary has.
- Numbers are real numbers.
  - IEEE rounding is not modelled.
  - Overflow to infinity in `float()` is not modelled.
  - Unicode digits, which Python's `\d` accepts and `float()` reads, are not modelled. `\d` is taken as the ASCII digits.
- MetricsStore.LabelRemove: removing an absent label changes nothing. Some `prometheus_client` versions raise `KeyError` instead.
- The metrics registry is shared by every `Metrics` instance in the process. The model gives each plugin its own.
