/**
 * The exporter plugin: it feeds every G-code line sent to the printer through the
 * tracker and turns the tracker's cumulative per-job values into increments of
 * process-lifetime counters, and it maps print lifecycle events to counters and gauges.
 *
 * The wall clock is a parameter (`now`); the completion timer is a flag that says
 * whether one is pending.
 */
module Exporter {
  import opened Wrappers
  import opened GcodeParser
  import opened MetricsStore

  /** The plugin's own fields. */
  datatype Job = Job(
    lastExtrusionCounter: real,
    lastXTravel: real,
    lastYTravel: real,
    lastZTravel: real,
    printProgressLabel: string,
    printCompletionTimer: bool,
    printTimeStart: real)
  {
    /** The high-water mark kept for an axis. */
    function Last(ax: Axis): real {
      match ax
      case X => lastXTravel
      case Y => lastYTravel
      case Z => lastZTravel
      case E => lastExtrusionCounter
    }
  }

  /** Everything the plugin's callbacks read and write: the metrics, the tracker, the fields. */
  datatype PluginState = PluginState(store: Store, tracker: Tracker, job: Job)

  /** A temperature report for one tool: a pair of actual and target, or some other value. */
  datatype TempValue = Pair(actual: Option<real>, target: Option<real>) | NotPair

  /** The lifetime counter an axis's travel, or the extrusion, is added to. */
  function LifetimeCounter(ax: Axis): CounterName {
    match ax
    case X => PrinterTravelX
    case Y => PrinterTravelY
    case Z => PrinterTravelZ
    case E => PrinterExtrusion
  }

  /** The per-job gauge of an axis's travel, or of the extrusion. */
  function JobGauge(ax: Axis): GaugeName {
    match ax
    case X => JobTravelX
    case Y => JobTravelY
    case Z => JobTravelZ
    case E => JobExtrusion
  }

  /** The counters the forwarded tracker values are added to. */
  predicate IsMotionCounter(n: CounterName) {
    n == PrinterTravelX || n == PrinterTravelY || n == PrinterTravelZ || n == PrinterExtrusion
  }

  /** `initialize`: fresh metrics, a reset tracker, zero marks, no label, no timer, start time 0. */
  function InitialState(): (p: PluginState)
    ensures Healthy(p)
    ensures forall n :: p.store.Counter(n) == 0.0
    ensures ExtrusionGap(p.store) == 0.0
  {
    PluginState(Empty(), Initial(), Job(0.0, 0.0, 0.0, 0.0, "", false, 0.0))
  }

  /** Every high-water mark equals the tracker's cumulative value it follows. */
  predicate Synced(p: PluginState) {
    && p.job.lastXTravel == p.tracker.xTravel
    && p.job.lastYTravel == p.tracker.yTravel
    && p.job.lastZTravel == p.tracker.zTravel
    && p.job.lastExtrusionCounter == p.tracker.extrusionCounter
  }

  /**
   * What holds between callbacks: counters and tracker values are not negative, the
   * marks follow the tracker, and the progress label is empty (nothing in the plugin
   * ever sets it to anything else).
   */
  predicate Healthy(p: PluginState) {
    p.store.Valid() && p.tracker.Valid() && Synced(p) && p.job.printProgressLabel == ""
  }

  /** `process_travel_x`/`_y`/`_z`: set the job gauge; on new travel, add the increase to the lifetime counter. */
  function Travel(p: PluginState, ax: Axis, travel: real): (r: PluginState)
    requires ax != E
  {
    var st := GaugeSet(p.store, JobGauge(ax), travel);
    if travel > p.job.Last(ax) then
      var job := match ax
        case X => p.job.(lastXTravel := travel)
        case Y => p.job.(lastYTravel := travel)
        case _ => p.job.(lastZTravel := travel);
      p.(store := CounterInc(st, LifetimeCounter(ax), travel - p.job.Last(ax)), job := job)
    else
      p.(store := st)
  }

  /** `process_extrusion`: on new extrusion, add the increase to both the job gauge and the lifetime counter. */
  function Extrusion(p: PluginState, extrusion: real): (r: PluginState) {
    if extrusion > p.job.lastExtrusionCounter then
      var delta := extrusion - p.job.lastExtrusionCounter;
      p.(store := CounterInc(GaugeAdd(p.store, JobExtrusion, delta), PrinterExtrusion, delta),
         job := p.job.(lastExtrusionCounter := extrusion))
    else
      p
  }

  /** The mark kept after a value `v` is forwarded against the mark `last`. */
  function Raised(last: real, v: real): real {
    if v > last then v else last
  }

  /** What a forwarded value `v` adds to a lifetime counter whose mark is `last`. */
  function Gain(last: real, v: real): real {
    if v > last then v - last else 0.0
  }

  /**
   * How a travel call takes `p` to `r`: it sets its gauge to the value, raises its own
   * mark to the value when the value is higher, and adds exactly the rise to its own
   * lifetime counter; the other marks, counters and gauges, the labelled gauges and the
   * tracker stay as they were.
   */
  predicate TravelStep(p: PluginState, r: PluginState, ax: Axis, travel: real) {
    TravelMarks(p, r, ax, travel) && TravelMetrics(p, r, ax, travel)
  }

  /** The marks and the other fields of a travel step. */
  predicate TravelMarks(p: PluginState, r: PluginState, ax: Axis, travel: real) {
    && r.job.lastXTravel == (if ax == X then Raised(p.job.lastXTravel, travel) else p.job.lastXTravel)
    && r.job.lastYTravel == (if ax == Y then Raised(p.job.lastYTravel, travel) else p.job.lastYTravel)
    && r.job.lastZTravel == (if ax == Z then Raised(p.job.lastZTravel, travel) else p.job.lastZTravel)
    && r.job.lastExtrusionCounter == p.job.lastExtrusionCounter
    && r.tracker == p.tracker
    && r.job.printProgressLabel == p.job.printProgressLabel
    && r.job.printCompletionTimer == p.job.printCompletionTimer
    && r.job.printTimeStart == p.job.printTimeStart
  }

  /** The metrics of a travel step. */
  predicate TravelMetrics(p: PluginState, r: PluginState, ax: Axis, travel: real) {
    && r.store.Gauge(JobGauge(ax)) == travel
    && (forall g :: g != JobGauge(ax) ==> r.store.Gauge(g) == p.store.Gauge(g))
    && r.store.Counter(PrinterTravelX) == p.store.Counter(PrinterTravelX) + (if ax == X then Gain(p.job.lastXTravel, travel) else 0.0)
    && r.store.Counter(PrinterTravelY) == p.store.Counter(PrinterTravelY) + (if ax == Y then Gain(p.job.lastYTravel, travel) else 0.0)
    && r.store.Counter(PrinterTravelZ) == p.store.Counter(PrinterTravelZ) + (if ax == Z then Gain(p.job.lastZTravel, travel) else 0.0)
    && r.store.Counter(PrinterExtrusion) == p.store.Counter(PrinterExtrusion)
    && (forall n :: !IsMotionCounter(n) ==> r.store.Counter(n) == p.store.Counter(n))
    && r.store.families == p.store.families
  }

  /**
   * How the extrusion call takes `p` to `r`: the job gauge and the lifetime counter both
   * grow by the rise of the extrusion over its mark, the mark is raised, and nothing else
   * moves.
   */
  predicate ExtrusionStep(p: PluginState, r: PluginState, extrusion: real) {
    && r.store.Gauge(JobExtrusion) == p.store.Gauge(JobExtrusion) + Gain(p.job.lastExtrusionCounter, extrusion)
    && (forall g :: g != JobExtrusion ==> r.store.Gauge(g) == p.store.Gauge(g))
    && r.store.Counter(PrinterExtrusion) == p.store.Counter(PrinterExtrusion) + Gain(p.job.lastExtrusionCounter, extrusion)
    && (forall n :: n != PrinterExtrusion ==> r.store.Counter(n) == p.store.Counter(n))
    && r.job == p.job.(lastExtrusionCounter := Raised(p.job.lastExtrusionCounter, extrusion))
    && r.store.families == p.store.families
    && r.tracker == p.tracker
  }

  lemma TravelLaw(p: PluginState, ax: Axis, travel: real)
    requires ax != E
    ensures TravelStep(p, Travel(p, ax, travel), ax, travel)
  {
    TravelMarksLaw(p, ax, travel);
    TravelMetricsLaw(p, ax, travel);
  }

  lemma TravelMarksLaw(p: PluginState, ax: Axis, travel: real)
    requires ax != E
    ensures TravelMarks(p, Travel(p, ax, travel), ax, travel)
  {
  }

  lemma TravelMetricsLaw(p: PluginState, ax: Axis, travel: real)
    requires ax != E
    ensures TravelMetrics(p, Travel(p, ax, travel), ax, travel)
  {
  }

  lemma ExtrusionLaw(p: PluginState, extrusion: real)
    ensures ExtrusionStep(p, Extrusion(p, extrusion), extrusion)
  {
  }

  /**
   * Forwarding the tracker's values when they grew from `before` and the marks had
   * followed `before`: the marks catch up with the tracker and the rest of the plugin's
   * fields stay.
   */
  predicate ForwardedMarks(q: PluginState, r: PluginState) {
    && Synced(r)
    && r.tracker == q.tracker
    && r.job.printProgressLabel == q.job.printProgressLabel
    && r.job.printCompletionTimer == q.job.printCompletionTimer
    && r.job.printTimeStart == q.job.printTimeStart
  }

  /** ... each lifetime counter grows by exactly the growth of its value, and no other counter moves. */
  predicate ForwardedCounters(q: PluginState, before: Tracker, r: PluginState) {
    && r.store.Counter(PrinterTravelX) == q.store.Counter(PrinterTravelX) + (q.tracker.xTravel - before.xTravel)
    && r.store.Counter(PrinterTravelY) == q.store.Counter(PrinterTravelY) + (q.tracker.yTravel - before.yTravel)
    && r.store.Counter(PrinterTravelZ) == q.store.Counter(PrinterTravelZ) + (q.tracker.zTravel - before.zTravel)
    && r.store.Counter(PrinterExtrusion) == q.store.Counter(PrinterExtrusion) + (q.tracker.extrusionCounter - before.extrusionCounter)
    && (forall n :: !IsMotionCounter(n) ==> r.store.Counter(n) == q.store.Counter(n))
  }

  /**
   * ... the travel gauges show the values, the job extrusion gauge grows with the
   * extrusion, and no other gauge and no labelled gauge moves.
   */
  predicate ForwardedGauges(q: PluginState, before: Tracker, r: PluginState) {
    && r.store.Gauge(JobTravelX) == q.tracker.xTravel
    && r.store.Gauge(JobTravelY) == q.tracker.yTravel
    && r.store.Gauge(JobTravelZ) == q.tracker.zTravel
    && r.store.Gauge(JobExtrusion) == q.store.Gauge(JobExtrusion) + (q.tracker.extrusionCounter - before.extrusionCounter)
    && r.store.Gauge(ServerClients) == q.store.Gauge(ServerClients)
    && r.store.Gauge(PrinterFanSpeed) == q.store.Gauge(PrinterFanSpeed)
    && r.store.families == q.store.families
  }

  /** Three travel steps and an extrusion step, in the order `on_gcode_sent` makes them. */
  predicate ForwardSteps(q: PluginState, q1: PluginState, q2: PluginState, q3: PluginState, r: PluginState) {
    && TravelStep(q, q1, X, q.tracker.xTravel)
    && TravelStep(q1, q2, Y, q.tracker.yTravel)
    && TravelStep(q2, q3, Z, q.tracker.zTravel)
    && ExtrusionStep(q3, r, q.tracker.extrusionCounter)
  }

  lemma ForwardChainMarks(q: PluginState, q1: PluginState, q2: PluginState, q3: PluginState, r: PluginState, before: Tracker)
    requires Synced(q.(tracker := before)) && CountersGrow(before, q.tracker)
    requires ForwardSteps(q, q1, q2, q3, r)
    ensures ForwardedMarks(q, r)
  {
  }

  lemma ForwardChainCounters(q: PluginState, q1: PluginState, q2: PluginState, q3: PluginState, r: PluginState, before: Tracker)
    requires Synced(q.(tracker := before)) && CountersGrow(before, q.tracker)
    requires ForwardSteps(q, q1, q2, q3, r)
    ensures ForwardedCounters(q, before, r)
  {
  }

  lemma ForwardChainGauges(q: PluginState, q1: PluginState, q2: PluginState, q3: PluginState, r: PluginState, before: Tracker)
    requires Synced(q.(tracker := before)) && CountersGrow(before, q.tracker)
    requires ForwardSteps(q, q1, q2, q3, r)
    ensures ForwardedGauges(q, before, r)
  {
  }

  /** Forwarding values that grew from the marks has the effect the three predicates above describe. */
  lemma ForwardLaw(q: PluginState, before: Tracker)
    requires Synced(q.(tracker := before)) && CountersGrow(before, q.tracker)
    ensures ForwardedMarks(q, Forward(q))
    ensures ForwardedCounters(q, before, Forward(q))
    ensures ForwardedGauges(q, before, Forward(q))
  {
    var t := q.tracker;
    var q1 := Travel(q, X, t.xTravel);
    TravelLaw(q, X, t.xTravel);
    var q2 := Travel(q1, Y, t.yTravel);
    TravelLaw(q1, Y, t.yTravel);
    var q3 := Travel(q2, Z, t.zTravel);
    TravelLaw(q2, Z, t.zTravel);
    ExtrusionLaw(q3, t.extrusionCounter);
    ForwardChainMarks(q, q1, q2, q3, Forward(q), before);
    ForwardChainCounters(q, q1, q2, q3, Forward(q), before);
    ForwardChainGauges(q, q1, q2, q3, Forward(q), before);
  }

  /**
   * `on_print_started` at time `now`: record the start, count the job, drop a pending
   * completion timer, reset the tracker and every mark.
   */
  function PrintStarted(p: PluginState, now: real): PluginState {
    PluginState(
      CounterInc(p.store, JobsStarted, 1.0),
      Initial(),
      p.job.(printTimeStart := now, printCompletionTimer := false,
             lastExtrusionCounter := 0.0, lastXTravel := 0.0, lastYTravel := 0.0, lastZTravel := 0.0))
  }

  /**
   * `on_job_complete` at time `now`: add the print's duration to the total printing time
   * and start the completion timer. A negative duration makes the counter raise before
   * the timer is started; the second value says whether it raised.
   */
  function JobComplete(p: PluginState, now: real): (PluginState, bool) {
    var duration := now - p.job.printTimeStart;
    if duration < 0.0 then (p, true)
    else (p.(store := CounterInc(p.store, JobsTimeTotal, duration), job := p.job.(printCompletionTimer := true)), false)
  }

  /**
   * `on_event`: each event name acts on its own metric. `PrinterStateChanged` calls a
   * handler that reads an undefined name, so it raises `NameError` having changed nothing;
   * an end-of-print event has counted itself by the time the duration can raise.
   */
  function Event(p: PluginState, event: string, now: real): (PluginState, bool) {
    if event == "ClientOpened" then (p.(store := GaugeAdd(p.store, ServerClients, 1.0)), false)
    else if event == "ClientClosed" then (p.(store := GaugeAdd(p.store, ServerClients, -1.0)), false)
    else if event == "PrinterStateChanged" then (p, true)
    else if event == "PrintStarted" then (PrintStarted(p, now), false)
    else if event == "PrintFailed" then JobComplete(p.(store := CounterInc(p.store, JobsFailed, 1.0)), now)
    else if event == "PrintDone" then JobComplete(p.(store := CounterInc(p.store, JobsDone, 1.0)), now)
    else if event == "PrintCancelled" then JobComplete(p.(store := CounterInc(p.store, JobsCancelled, 1.0)), now)
    else if event == "CaptureDone" then (p.(store := CounterInc(p.store, ServerTimelapses, 1.0)), false)
    else (p, false)
  }

  /** `print_deregister_callback`: drop a non-empty label from the four job gauges; the label is cleared. */
  function Deregister(p: PluginState, labelValue: string): PluginState {
    var st :=
      if labelValue != "" then
        LabelRemove(LabelRemove(LabelRemove(LabelRemove(p.store, JobProgress, labelValue), JobTimeElapsed, labelValue), JobTimeEst, labelValue), JobTimeLeftEst, labelValue)
      else p.store;
    p.(store := st, job := p.job.(printProgressLabel := ""))
  }

  /** One entry of a temperature report: a pair sets each of its known components. */
  function RecordTemp(st: Store, tool: string, v: TempValue): Store {
    match v
    case NotPair => st
    case Pair(actual, target) =>
      var st1 := if actual.Some? then LabelSet(st, PrinterTempsActual, tool, actual.value) else st;
      if target.Some? then LabelSet(st1, PrinterTempsTarget, tool, target.value) else st1
  }

  /** `on_temp_received`: the entries in the order the report lists them. */
  function TempsReceived(st: Store, items: seq<(string, TempValue)>): Store
    decreases |items|
  {
    if items == [] then st
    else RecordTemp(TempsReceived(st, items[..|items| - 1]), items[|items| - 1].0, items[|items| - 1].1)
  }

  /** The movement branch of `on_gcode_sent`: the tracker's four cumulative values are forwarded. */
  function Forward(p: PluginState): PluginState {
    var t := p.tracker;
    Extrusion(Travel(Travel(Travel(p, X, t.xTravel), Y, t.yTravel), Z, t.zTravel), t.extrusionCounter)
  }

  /**
   * `on_gcode_sent`: only lines in the `sent` phase are tracked. A move forwards the
   * cumulative values, a fan line sets the fan gauge. The second value says whether the
   * tracker raised `ValueError`, which propagates.
   */
  function GcodeSent(p: PluginState, phase: string, cmd: string): (PluginState, bool) {
    if phase != "sent" then (p, false)
    else
      var (t, outcome) := Step(p.tracker, cmd);
      var q := p.(tracker := t);
      if outcome == ValueError then (q, true)
      else if outcome == Movement then (Forward(q), false)
      else if outcome == PrintFanSpeed && t.printFanSpeed.Some? then (q.(store := GaugeSet(q.store, PrinterFanSpeed, t.printFanSpeed.value)), false)
      else (q, false)
  }

  /** Each lifetime motion counter of `r` exceeds that of `p` by what the tracker's value grew. */
  predicate MotionAccounted(p: PluginState, r: PluginState) {
    && r.store.Counter(PrinterTravelX) == p.store.Counter(PrinterTravelX) + (r.tracker.xTravel - p.tracker.xTravel)
    && r.store.Counter(PrinterTravelY) == p.store.Counter(PrinterTravelY) + (r.tracker.yTravel - p.tracker.yTravel)
    && r.store.Counter(PrinterTravelZ) == p.store.Counter(PrinterTravelZ) + (r.tracker.zTravel - p.tracker.zTravel)
    && r.store.Counter(PrinterExtrusion) == p.store.Counter(PrinterExtrusion) + (r.tracker.extrusionCounter - p.tracker.extrusionCounter)
  }

  /** The movement branch: a healthy plugin whose tracker grew from `before` forwards into a healthy one. */
  lemma MovementForwarded(q: PluginState, before: Tracker)
    requires Healthy(q.(tracker := before)) && CountersGrow(before, q.tracker)
    ensures var r := Forward(q);
      && Healthy(r)
      && r.tracker == q.tracker
      && MotionAccounted(q.(tracker := before), r)
      && (forall n :: !IsMotionCounter(n) ==> r.store.Counter(n) == q.store.Counter(n))
      && r.store.families == q.store.families
      && r.store.Gauge(JobTravelX) == q.tracker.xTravel
      && r.store.Gauge(JobTravelY) == q.tracker.yTravel
      && r.store.Gauge(JobTravelZ) == q.tracker.zTravel
      && r.store.Gauge(JobExtrusion) == q.store.Gauge(JobExtrusion) + (q.tracker.extrusionCounter - before.extrusionCounter)
      && r.store.Gauge(ServerClients) == q.store.Gauge(ServerClients)
      && r.store.Gauge(PrinterFanSpeed) == q.store.Gauge(PrinterFanSpeed)
      && r.job.printCompletionTimer == q.job.printCompletionTimer
      && r.job.printTimeStart == q.job.printTimeStart
  {
    ForwardLaw(q, before);
    var r := Forward(q);
    forall n
      ensures r.store.Counter(n) >= 0.0
    {
      assert q.store.Counter(n) >= 0.0;
    }
  }

  /**
   * `on_gcode_sent` keeps the plugin healthy. Only a `sent` line does anything; it raises
   * exactly when the tracker raises, and then nothing changes. Whatever the line, every
   * lifetime motion counter grows by exactly what the tracker's value grew and no other
   * counter moves; after a move the travel gauges show the tracker's values, and after a
   * fan line the fan gauge shows the fan speed. A move touches no gauge but the four job
   * gauges, a fan line no gauge but the fan gauge, and any other line no metric at all;
   * the completion timer and the start time are never touched.
   */
  lemma GcodeSentLaw(p: PluginState, phase: string, cmd: string)
    requires Healthy(p)
    ensures var (r, raised) := GcodeSent(p, phase, cmd);
      && Healthy(r)
      && (phase != "sent" ==> r == p && !raised)
      && (raised <==> phase == "sent" && Step(p.tracker, cmd).1 == ValueError)
      && (raised ==> r == p)
      && r.tracker == (if phase == "sent" then Step(p.tracker, cmd).0 else p.tracker)
      && MotionAccounted(p, r)
      && (forall n :: !IsMotionCounter(n) ==> r.store.Counter(n) == p.store.Counter(n))
      && r.store.families == p.store.families
      && r.store.Gauge(JobExtrusion) - r.store.Counter(PrinterExtrusion) == p.store.Gauge(JobExtrusion) - p.store.Counter(PrinterExtrusion)
      && (phase == "sent" && Step(p.tracker, cmd).1 == Movement ==>
            && r.store.Gauge(JobTravelX) == r.tracker.xTravel
            && r.store.Gauge(JobTravelY) == r.tracker.yTravel
            && r.store.Gauge(JobTravelZ) == r.tracker.zTravel)
      && (phase == "sent" && Step(p.tracker, cmd).1 == PrintFanSpeed && r.tracker.printFanSpeed.Some? ==>
            r.store.Gauge(PrinterFanSpeed) == r.tracker.printFanSpeed.value)
      && r.job.printCompletionTimer == p.job.printCompletionTimer
      && r.job.printTimeStart == p.job.printTimeStart
      && r.store.Gauge(ServerClients) == p.store.Gauge(ServerClients)
      && (phase == "sent" && Step(p.tracker, cmd).1 == Movement ==> r.store.Gauge(PrinterFanSpeed) == p.store.Gauge(PrinterFanSpeed))
      && (phase != "sent" || Step(p.tracker, cmd).1 != Movement ==>
            forall g :: g != PrinterFanSpeed ==> r.store.Gauge(g) == p.store.Gauge(g))
      && (phase != "sent" || (Step(p.tracker, cmd).1 != Movement && Step(p.tracker, cmd).1 != PrintFanSpeed) ==> r.store == p.store)
  {
    if phase == "sent" {
      var (t, outcome) := Step(p.tracker, cmd);
      if outcome == Movement {
        MovementForwarded(p.(tracker := t), p.tracker);
      } else if outcome == PrintFanSpeed && t.printFanSpeed.Some? {
        var st := GaugeSet(p.store, PrinterFanSpeed, t.printFanSpeed.value);
        assert forall n :: st.Counter(n) == p.store.Counter(n);
      }
    }
  }

  /** The other counters, the gauges and the labelled gauges of `r` are those of `p`. */
  predicate OnlyCounterMoved(p: Store, r: Store, n: CounterName) {
    && (forall m :: m != n ==> r.Counter(m) == p.Counter(m))
    && r.gauges == p.gauges
    && r.families == p.families
  }

  /**
   * `on_print_started` keeps the plugin healthy: it counts one more started job and
   * touches no other metric, and it begins the job from a reset tracker with every mark
   * at 0, no pending timer and the start time `now`.
   */
  lemma PrintStartedLaw(p: PluginState, now: real)
    requires Healthy(p)
    ensures var r := PrintStarted(p, now);
      && Healthy(r)
      && r.store.Counter(JobsStarted) == p.store.Counter(JobsStarted) + 1.0
      && OnlyCounterMoved(p.store, r.store, JobsStarted)
      && r.tracker == Initial()
      && (forall ax :: r.job.Last(ax) == 0.0)
      && !r.job.printCompletionTimer
      && r.job.printTimeStart == now
  {
    var r := PrintStarted(p, now);
    forall n
      ensures r.store.Counter(n) >= 0.0
    {
      assert p.store.Counter(n) >= 0.0;
    }
  }

  /** The events that end a print. */
  predicate EndsPrint(event: string) {
    event == "PrintFailed" || event == "PrintDone" || event == "PrintCancelled"
  }

  /** The counter an end-of-print event counts itself in. */
  function EndCounter(event: string): CounterName
    requires EndsPrint(event)
  {
    if event == "PrintFailed" then JobsFailed
    else if event == "PrintDone" then JobsDone
    else JobsCancelled
  }

  /** The event names `on_event` acts on. */
  predicate Handled(event: string) {
    event in {"ClientOpened", "ClientClosed", "PrinterStateChanged", "PrintStarted", "CaptureDone"} || EndsPrint(event)
  }

  /**
   * An end-of-print event counts itself, then adds the time since the print started to
   * the total printing time and starts the completion timer; a clock behind the start
   * makes the counter raise, after the event has counted itself and before the timer.
   */
  lemma EndOfPrintLaw(p: PluginState, event: string, now: real)
    requires Healthy(p) && EndsPrint(event)
    ensures var (r, raised) := Event(p, event, now);
      && Healthy(r)
      && (raised <==> now < p.job.printTimeStart)
      && r.store.Counter(EndCounter(event)) == p.store.Counter(EndCounter(event)) + 1.0
      && r.store.Counter(JobsTimeTotal) == p.store.Counter(JobsTimeTotal) + (if raised then 0.0 else now - p.job.printTimeStart)
      && (forall n :: n != EndCounter(event) && n != JobsTimeTotal ==> r.store.Counter(n) == p.store.Counter(n))
      && r.store.gauges == p.store.gauges && r.store.families == p.store.families
      && r.tracker == p.tracker
      && r.job == (if raised then p.job else p.job.(printCompletionTimer := true))
  {
    var r := Event(p, event, now).0;
    forall n
      ensures r.store.Counter(n) >= 0.0
    {
      assert p.store.Counter(n) >= 0.0;
    }
  }

  /** `PrintStarted` is handed to `on_print_started` and never raises. */
  lemma StartEventLaw(p: PluginState, now: real)
    ensures Event(p, "PrintStarted", now) == (PrintStarted(p, now), false)
  {
  }

  /**
   * The other events: a client opening or closing moves the client gauge by one, a
   * finished timelapse is counted, a printer state change raises having changed nothing,
   * and an event name the plugin does not handle changes nothing. None of them leaves the
   * plugin unhealthy.
   */
  lemma OtherEventLaw(p: PluginState, event: string, now: real)
    requires Healthy(p) && !EndsPrint(event) && event != "PrintStarted"
    ensures var (r, raised) := Event(p, event, now);
      && Healthy(r)
      && (raised <==> event == "PrinterStateChanged")
      && r.tracker == p.tracker && r.job == p.job
      && r.store.counters == (if event == "CaptureDone" then p.store.counters[ServerTimelapses := p.store.Counter(ServerTimelapses) + 1.0] else p.store.counters)
      && r.store.Gauge(ServerClients) == p.store.Gauge(ServerClients) + (if event == "ClientOpened" then 1.0 else if event == "ClientClosed" then -1.0 else 0.0)
      && (forall g :: g != ServerClients ==> r.store.Gauge(g) == p.store.Gauge(g))
      && r.store.families == p.store.families
      && (!Handled(event) ==> r == p)
  {
    var r := Event(p, event, now).0;
    forall n
      ensures r.store.Counter(n) >= 0.0
    {
      assert p.store.Counter(n) >= 0.0;
    }
  }

  /**
   * `print_deregister_callback` keeps the plugin healthy: a non-empty label is absent
   * from the four job gauges afterwards, the temperature gauges and every counter and
   * unlabelled gauge stay, and the progress label is cleared.
   */
  lemma DeregisterLaw(p: PluginState, labelValue: string)
    requires Healthy(p)
    ensures var r := Deregister(p, labelValue);
      && Healthy(r)
      && (forall f :: r.store.Family(f) == if IsJobFamily(f) && labelValue != "" then p.store.Family(f) - {labelValue} else p.store.Family(f))
      && r.store.counters == p.store.counters && r.store.gauges == p.store.gauges
      && r.tracker == p.tracker
      && r.job == p.job.(printProgressLabel := "")
  {
    var r := Deregister(p, labelValue);
    forall n
      ensures r.store.Counter(n) >= 0.0
    {
      assert p.store.Counter(n) >= 0.0;
    }
  }

  /** The labelled gauges a finished print's label is dropped from. */
  predicate IsJobFamily(f: FamilyName) {
    f == JobProgress || f == JobTimeElapsed || f == JobTimeEst || f == JobTimeLeftEst
  }

  /** Deregistering twice is deregistering once. */
  lemma DeregisterIdempotent(p: PluginState, labelValue: string)
    ensures Deregister(Deregister(p, labelValue), labelValue) == Deregister(p, labelValue)
  {
    var st := Deregister(p, labelValue).store;
    if labelValue != "" {
      LabelRemoveAbsent(st, JobProgress, labelValue);
      LabelRemoveAbsent(st, JobTimeElapsed, labelValue);
      LabelRemoveAbsent(st, JobTimeEst, labelValue);
      LabelRemoveAbsent(st, JobTimeLeftEst, labelValue);
    }
  }

  /** The two labelled gauges a temperature report writes. */
  predicate IsTempFamily(f: FamilyName) {
    f == PrinterTempsActual || f == PrinterTempsTarget
  }

  /** The component of a reported value that goes to family `f`, if any. */
  function Component(v: TempValue, f: FamilyName): Option<real> {
    match v
    case NotPair => None
    case Pair(actual, target) =>
      if f == PrinterTempsActual then actual else if f == PrinterTempsTarget then target else None
  }

  /** The value a labelled gauge holds for `labelValue`, if the label is present. */
  function Lookup(m: map<string, real>, labelValue: string): Option<real> {
    if labelValue in m then Some(m[labelValue]) else None
  }

  /** The keys of a report are those of a dictionary: no tool is listed twice. */
  predicate DistinctKeys(items: seq<(string, TempValue)>) {
    forall i, j :: 0 <= i < j < |items| ==> items[i].0 != items[j].0
  }

  /** No entry for `tool` in the report carries a component for family `f`. */
  predicate Unreported(items: seq<(string, TempValue)>, tool: string, f: FamilyName) {
    forall i :: 0 <= i < |items| && items[i].0 == tool ==> Component(items[i].1, f).None?
  }

  /**
   * One entry of a report: each component the entry carries is the tool's value in its
   * family afterwards; every other label, family, counter and gauge stays.
   */
  lemma RecordTempLaw(st: Store, tool: string, v: TempValue)
    ensures var r := RecordTemp(st, tool, v);
      && r.counters == st.counters && r.gauges == st.gauges
      && (forall f, k :: Lookup(r.Family(f), k) == if k == tool && Component(v, f).Some? then Component(v, f) else Lookup(st.Family(f), k))
  {
  }

  /** A temperature report writes only the two temperature gauges. */
  lemma {:induction false} TempsReceivedKeeps(st: Store, items: seq<(string, TempValue)>)
    ensures var r := TempsReceived(st, items);
      && r.counters == st.counters && r.gauges == st.gauges
      && (forall f :: !IsTempFamily(f) ==> r.Family(f) == st.Family(f))
    decreases |items|
  {
    if items != [] {
      TempsReceivedKeeps(st, items[..|items| - 1]);
    }
  }

  /**
   * `on_temp_received`: after a report, every component it carries is its tool's value in
   * the matching gauge, and a tool the report carries nothing for keeps its value, or its
   * absence.
   */
  lemma {:induction false} TempsReceivedLaw(st: Store, items: seq<(string, TempValue)>)
    requires DistinctKeys(items)
    ensures var r := TempsReceived(st, items);
      && (forall f, i :: 0 <= i < |items| && Component(items[i].1, f).Some? ==> Lookup(r.Family(f), items[i].0) == Component(items[i].1, f))
      && (forall f, tool :: Unreported(items, tool, f) ==> Lookup(r.Family(f), tool) == Lookup(st.Family(f), tool))
    decreases |items|
  {
    if items != [] {
      var init, last := items[..|items| - 1], items[|items| - 1];
      assert DistinctKeys(init);
      TempsReceivedLaw(st, init);
      var mid := TempsReceived(st, init);
      assert forall f, i :: 0 <= i < |init| && Component(init[i].1, f).Some? ==> Lookup(mid.Family(f), init[i].0) == Component(init[i].1, f);
      assert TempsReceived(st, items) == RecordTemp(mid, last.0, last.1);
      RecordTempLaw(mid, last.0, last.1);
      forall f, i | 0 <= i < |init| && Component(init[i].1, f).Some?
        ensures Lookup(TempsReceived(st, items).Family(f), init[i].0) == Component(init[i].1, f)
      {
        assert items[i] == init[i];
        assert init[i].0 != last.0;
        assert Lookup(mid.Family(f), init[i].0) == Component(init[i].1, f);
      }
      forall f, tool | Unreported(items, tool, f)
        ensures Unreported(init, tool, f)
      {
        forall i | 0 <= i < |init| && init[i].0 == tool
          ensures Component(init[i].1, f).None?
        {
          assert items[i] == init[i];
        }
      }
    }
  }

  /** A callback the host application makes into the plugin. */
  datatype Callback =
    | GcodeSentCall(phase: string, cmd: string)
    | EventCall(event: string, now: real)
    | TempsCall(items: seq<(string, TempValue)>)
    | DeregisterCall(labelValue: string)

  /** The plugin after one callback, whether or not the callback raised. */
  function Handle(p: PluginState, c: Callback): PluginState {
    match c
    case GcodeSentCall(phase, cmd) => GcodeSent(p, phase, cmd).0
    case EventCall(event, now) => Event(p, event, now).0
    case TempsCall(items) => p.(store := TempsReceived(p.store, items))
    case DeregisterCall(labelValue) => Deregister(p, labelValue)
  }

  /** The plugin after a sequence of callbacks, in order. */
  function HandleAll(p: PluginState, cs: seq<Callback>): PluginState
    decreases |cs|
  {
    if cs == [] then p else HandleAll(Handle(p, cs[0]), cs[1..])
  }

  /** The job extrusion gauge minus the lifetime extrusion counter. */
  function ExtrusionGap(st: Store): real {
    st.Gauge(JobExtrusion) - st.Counter(PrinterExtrusion)
  }

  /**
   * What every callback keeps: the plugin stays healthy, no lifetime counter goes down,
   * and the job extrusion gauge moves exactly as much as the lifetime extrusion counter.
   */
  predicate Keeps(p: PluginState, r: PluginState) {
    Healthy(r) && StoreCountersGrow(p.store, r.store) && ExtrusionGap(r.store) == ExtrusionGap(p.store)
  }

  lemma GcodeSentKeeps(p: PluginState, phase: string, cmd: string)
    requires Healthy(p)
    ensures Keeps(p, GcodeSent(p, phase, cmd).0)
  {
    GcodeSentLaw(p, phase, cmd);
    assert CountersGrow(p.tracker, GcodeSent(p, phase, cmd).0.tracker);
  }

  lemma EventKeeps(p: PluginState, event: string, now: real)
    requires Healthy(p)
    ensures Keeps(p, Event(p, event, now).0)
  {
    if EndsPrint(event) {
      EndOfPrintLaw(p, event, now);
    } else if event == "PrintStarted" {
      PrintStartedLaw(p, now);
    } else {
      OtherEventLaw(p, event, now);
    }
  }

  lemma TempsKeeps(p: PluginState, items: seq<(string, TempValue)>)
    requires Healthy(p)
    ensures Keeps(p, p.(store := TempsReceived(p.store, items)))
  {
    var r := TempsReceived(p.store, items);
    TempsReceivedKeeps(p.store, items);
    forall n
      ensures r.Counter(n) == p.store.Counter(n)
    {
    }
  }

  /** Every callback keeps what `Keeps` says. */
  lemma HandleLaw(p: PluginState, c: Callback)
    requires Healthy(p)
    ensures Keeps(p, Handle(p, c))
  {
    match c
    case GcodeSentCall(phase, cmd) => GcodeSentKeeps(p, phase, cmd);
    case EventCall(event, now) => EventKeeps(p, event, now);
    case TempsCall(items) => TempsKeeps(p, items);
    case DeregisterCall(labelValue) => DeregisterLaw(p, labelValue);
  }

  /**
   * Whatever callbacks arrive, in whatever order, the lifetime counters never go down,
   * the plugin stays healthy, and the job extrusion gauge, never reset, stays exactly
   * as far from the lifetime extrusion counter as it started.
   */
  lemma {:induction false} LifetimeCountersNeverDecrease(p: PluginState, cs: seq<Callback>)
    requires Healthy(p)
    ensures Healthy(HandleAll(p, cs))
    ensures StoreCountersGrow(p.store, HandleAll(p, cs).store)
    ensures ExtrusionGap(HandleAll(p, cs).store) == ExtrusionGap(p.store)
    decreases |cs|
  {
    if cs != [] {
      var q := Handle(p, cs[0]);
      HandleLaw(p, cs[0]);
      LifetimeCountersNeverDecrease(q, cs[1..]);
    }
  }

  /**
   * From `initialize` on, whatever callbacks arrive, the job extrusion gauge reads the
   * lifetime extrusion counter: neither is ever reset, and they always grow together.
   */
  lemma ExtrusionGaugeIsLifetimeTotal(cs: seq<Callback>)
    ensures var r := HandleAll(InitialState(), cs);
      r.store.Gauge(JobExtrusion) == r.store.Counter(PrinterExtrusion)
  {
    LifetimeCountersNeverDecrease(InitialState(), cs);
  }

  /** The plugin object: its metrics and tracker objects and its own fields, updated in place. */
  class Plugin {
    const metrics: Metrics
    const parser: Parser
    var lastExtrusionCounter: real
    var lastXTravel: real
    var lastYTravel: real
    var lastZTravel: real
    var printProgressLabel: string
    var printCompletionTimer: bool
    var printTimeStart: real

    /** The plugin's fields as a value. */
    function Fields(): Job
      reads this
    {
      Job(lastExtrusionCounter, lastXTravel, lastYTravel, lastZTravel, printProgressLabel, printCompletionTimer, printTimeStart)
    }

    /** Everything the callbacks read and write, as a value. */
    function State(): PluginState
      reads this, metrics, parser
    {
      PluginState(metrics.Snapshot(), parser.State(), Fields())
    }

    /** `initialize`. */
    constructor()
      ensures State() == InitialState()
      ensures fresh(metrics) && fresh(parser)
    {
      metrics := new Metrics();
      parser := new Parser();
      lastExtrusionCounter, lastXTravel, lastYTravel, lastZTravel := 0.0, 0.0, 0.0, 0.0;
      printProgressLabel := "";
      printCompletionTimer := false;
      printTimeStart := 0.0;
    }

    /** `process_travel_x`. */
    method ProcessTravelX(travel: real)
      modifies this, metrics
      ensures State() == Travel(old(State()), X, travel)
    {
      metrics.Set(JobTravelX, travel);
      if travel > lastXTravel {
        var _ := metrics.Inc(PrinterTravelX, travel - lastXTravel);
        lastXTravel := travel;
      }
    }

    /** `process_travel_y`. */
    method ProcessTravelY(travel: real)
      modifies this, metrics
      ensures State() == Travel(old(State()), Y, travel)
    {
      metrics.Set(JobTravelY, travel);
      if travel > lastYTravel {
        var _ := metrics.Inc(PrinterTravelY, travel - lastYTravel);
        lastYTravel := travel;
      }
    }

    /** `process_travel_z`. */
    method ProcessTravelZ(travel: real)
      modifies this, metrics
      ensures State() == Travel(old(State()), Z, travel)
    {
      metrics.Set(JobTravelZ, travel);
      if travel > lastZTravel {
        var _ := metrics.Inc(PrinterTravelZ, travel - lastZTravel);
        lastZTravel := travel;
      }
    }

    /** `process_extrusion`. */
    method ProcessExtrusion(extrusion: real)
      modifies this, metrics
      ensures State() == Extrusion(old(State()), extrusion)
    {
      if extrusion > lastExtrusionCounter {
        metrics.GaugeInc(JobExtrusion, extrusion - lastExtrusionCounter);
        var _ := metrics.Inc(PrinterExtrusion, extrusion - lastExtrusionCounter);
        lastExtrusionCounter := extrusion;
      }
    }

    /** `on_print_started` at time `now`. */
    method OnPrintStarted(now: real)
      modifies this, metrics, parser
      ensures State() == PrintStarted(old(State()), now)
    {
      printTimeStart := now;
      var _ := metrics.Inc(JobsStarted, 1.0);
      printCompletionTimer := false;
      parser.Reset();
      lastExtrusionCounter := 0.0;
      lastXTravel := 0.0;
      lastYTravel := 0.0;
      lastZTravel := 0.0;
    }

    /** `on_job_complete` at time `now`; `raised` says whether the counter raised. */
    method OnJobComplete(now: real) returns (raised: bool)
      modifies this, metrics
      ensures (State(), raised) == JobComplete(old(State()), now)
    {
      raised := metrics.Inc(JobsTimeTotal, now - printTimeStart);
      if !raised {
        printCompletionTimer := true;
      }
    }

    /** `on_event` at time `now`; `raised` says whether the handler raised. */
    method OnEvent(event: string, now: real) returns (raised: bool)
      modifies this, metrics, parser
      ensures (State(), raised) == Event(old(State()), event, now)
      ensures old(Healthy(State())) ==> Healthy(State())
    {
      ghost var before := State();
      if Healthy(before) {
        EventKeeps(before, event, now);
      }
      raised := false;
      if event == "ClientOpened" {
        metrics.GaugeInc(ServerClients, 1.0);
      } else if event == "ClientClosed" {
        metrics.GaugeDec(ServerClients, 1.0);
      } else if event == "PrinterStateChanged" {
        raised := true;
      } else if event == "PrintStarted" {
        OnPrintStarted(now);
      } else if event == "PrintFailed" || event == "PrintDone" || event == "PrintCancelled" {
        var _ := metrics.Inc(EndCounter(event), 1.0);
        raised := OnJobComplete(now);
      } else if event == "CaptureDone" {
        var _ := metrics.Inc(ServerTimelapses, 1.0);
      }
    }

    /** `print_deregister_callback`. */
    method PrintDeregisterCallback(labelValue: string)
      modifies this, metrics
      ensures State() == Deregister(old(State()), labelValue)
      ensures old(Healthy(State())) ==> Healthy(State())
    {
      ghost var before := State();
      if Healthy(before) {
        DeregisterLaw(before, labelValue);
      }
      if labelValue != "" {
        metrics.Remove(JobProgress, labelValue);
        metrics.Remove(JobTimeElapsed, labelValue);
        metrics.Remove(JobTimeEst, labelValue);
        metrics.Remove(JobTimeLeftEst, labelValue);
      }
      printProgressLabel := "";
    }

    /** `on_temp_received`: the report's entries in order; the report is handed back. */
    method OnTempReceived(items: seq<(string, TempValue)>) returns (r: seq<(string, TempValue)>)
      modifies metrics
      ensures r == items
      ensures State() == old(State()).(store := TempsReceived(old(metrics.Snapshot()), items))
      ensures old(Healthy(State())) ==> Healthy(State())
    {
      ghost var before := State();
      if Healthy(before) {
        TempsKeeps(before, items);
      }
      var i := 0;
      while i < |items|
        invariant 0 <= i <= |items|
        invariant metrics.Snapshot() == TempsReceived(old(metrics.Snapshot()), items[..i])
      {
        var (tool, v) := items[i];
        if v.Pair? {
          if v.actual.Some? {
            metrics.LabelsSet(PrinterTempsActual, tool, v.actual.value);
          }
          if v.target.Some? {
            metrics.LabelsSet(PrinterTempsTarget, tool, v.target.value);
          }
        }
        assert items[..i + 1][..i] == items[..i];
        i := i + 1;
      }
      assert items[..i] == items;
      r := items;
    }

    /** `on_gcode_sent`; `raised` says whether the tracker raised `ValueError`. */
    method OnGcodeSent(phase: string, cmd: string) returns (raised: bool)
      modifies this, metrics, parser
      ensures (State(), raised) == GcodeSent(old(State()), phase, cmd)
      ensures old(Healthy(State())) ==> Healthy(State())
    {
      ghost var before := State();
      if Healthy(before) {
        GcodeSentLaw(before, phase, cmd);
      }
      raised := false;
      if phase == "sent" {
        var outcome := parser.ProcessLine(cmd);
        if outcome == ValueError {
          return true;
        }
        if outcome == Movement {
          ProcessTravelX(parser.xTravel);
          ProcessTravelY(parser.yTravel);
          ProcessTravelZ(parser.zTravel);
          ProcessExtrusion(parser.extrusionCounter);
        } else if outcome == PrintFanSpeed {
          var v := parser.printFanSpeed;
          if v.Some? {
            metrics.Set(PrinterFanSpeed, v.value);
          }
        }
      }
    }
  }
}
