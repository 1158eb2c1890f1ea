/** The publish-decision engine of the Home Assistant "sampler" sensor.
    A Sampler watches one upstream entity and decides, on every value change
    and on every timer tick, whether to publish its recorded state, according
    to one of three modes: regulate, boost or throttle.

    The module has two layers: a value-level specification (the Engine
    snapshot and the step functions over it, plus properties of event traces)
    and the class Sampler, whose handlers update its fields in place and are
    proved to follow the specification. */
module SamplerSensor {

  datatype Option<T> = None | Some(value: T)

  /** The three shaping policies. */
  datatype Mode = Regulate | Boost | Throttle

  // Configuration strings accepted for the mode.
  const ConfBoost := "boost"
  const ConfRegulate := "regulate"
  const ConfThrottle := "throttle"

  /** Icon used when the first observation carries no icon attribute. */
  const DefaultIcon := "mdi:chart-line-variant"

  // Home Assistant's sentinel states and attribute keys.
  const StateUnknown := "unknown"
  const StateUnavailable := "unavailable"
  const AttrIcon := "icon"
  const AttrUnit := "unit_of_measurement"

  /** State attributes of an observed entity; an attribute may be present
      with the value None. */
  type Attributes = map<string, Option<string>>

  /** The mode a configured mode string selects: the handler compares with
      "regulate", then "boost", and treats everything else as throttle. */
  function ModeOf(conf: string): (m: Mode)
    ensures m == Regulate <==> conf == ConfRegulate
    ensures m == Boost <==> conf == ConfBoost
    ensures conf == ConfThrottle ==> m == Throttle
  {
    if conf == ConfRegulate then Regulate
    else if conf == ConfBoost then Boost
    else Throttle
  }

  /** Observed states that are dropped before they reach the engine. */
  predicate IsIgnored(value: string)
  {
    value == StateUnknown || value == StateUnavailable
  }

  /** `attrs.get(key)`: the attribute's value, None when absent. */
  function Attr(attrs: Attributes, key: string): (r: Option<string>)
  {
    if key in attrs then attrs[key] else None
  }

  /** `attrs.get(ATTR_ICON, ICON)`: the icon attribute, the default icon when absent. */
  function IconAttr(attrs: Attributes): (r: Option<string>)
  {
    if AttrIcon in attrs then attrs[AttrIcon] else Some(DefaultIcon)
  }

  /** Every field of a Sampler, as a value. Timestamps are integers in one unit. */
  datatype Engine = Engine(
    mode: Mode,
    interval: int,
    state: Option<string>,
    icon: Option<string>,
    unit: Option<string>,
    lastPublished: int,
    lastValue: Option<string>)

  /** What one handled event produces: the new engine and whether the
      sensor publishes (schedules a state update). */
  datatype Step = Step(next: Engine, publish: bool)

  /** The two kinds of input event. */
  datatype Event =
    | ValueObserved(value: string, attrs: Attributes, now: int)
    | TimerFired(now: int)

  /** Whether an event is handled at all, i.e. is not a dropped sentinel observation. */
  predicate IsHandled(ev: Event)
  {
    ev.TimerFired? || !IsIgnored(ev.value)
  }

  /** The invariant every reachable engine keeps: a non-negative interval, no
      sentinel ever recorded or published, and nothing latched or published
      as a value before the first valid observation. */
  ghost predicate WellFormed(e: Engine)
  {
    && e.interval >= 0
    && (e.state.Some? ==> !IsIgnored(e.state.value))
    && (e.lastValue.Some? ==> !IsIgnored(e.lastValue.value))
    && (e.state.None? ==> e.icon.None? && e.unit.None? && e.lastValue.None?)
  }

  /** A freshly constructed sensor, created at time `now`. */
  function Initial(mode: Mode, interval: int, now: int): (e: Engine)
    requires interval >= 0
    ensures WellFormed(e)
    ensures e.mode == mode && e.interval == interval && e.lastPublished == now
    ensures e.state.None? && e.lastValue.None? && e.icon.None? && e.unit.None?
  {
    Engine(mode, interval, None, None, None, now, None)
  }

  /** The publish rule of each mode. */
  predicate Decide(e: Engine, fromTimer: bool, now: int)
  {
    match e.mode
    case Regulate => fromTimer
    case Boost => true
    case Throttle => now >= e.lastPublished + e.interval && e.state != e.lastValue
  }

  /** The decision step: decide, and on publish record the time and the published value. */
  function HandleStep(e: Engine, fromTimer: bool, now: int): (s: Step)
    ensures s.publish ==> s.next.lastPublished == now && s.next.lastValue == e.state
    ensures !s.publish ==> s.next == e
    ensures s.next.(lastPublished := e.lastPublished, lastValue := e.lastValue) == e
  {
    if Decide(e, fromTimer, now) then Step(e.(lastPublished := now, lastValue := e.state), true)
    else Step(e, false)
  }

  /** The value-observation handler. */
  function ObserveStep(e: Engine, value: string, attrs: Attributes, now: int): (s: Step)
    ensures IsIgnored(value) ==> s == Step(e, false)
    ensures !IsIgnored(value) ==> s.next.state == Some(value)
    ensures s.next.mode == e.mode && s.next.interval == e.interval
    ensures e.icon.Some? ==> s.next.icon == e.icon
    ensures e.unit.Some? ==> s.next.unit == e.unit
    ensures !IsIgnored(value) && e.icon.None? ==> s.next.icon == IconAttr(attrs)
    ensures !IsIgnored(value) && e.unit.None? ==> s.next.unit == Attr(attrs, AttrUnit)
    ensures WellFormed(e) ==> WellFormed(s.next)
  {
    if IsIgnored(value) then Step(e, false)
    else
      var recorded := e.(
        state := Some(value),
        icon := if e.icon.None? then IconAttr(attrs) else e.icon,
        unit := if e.unit.None? then Attr(attrs, AttrUnit) else e.unit);
      HandleStep(recorded, false, now)
  }

  /** The timer handler. */
  function TimerStep(e: Engine, now: int): (s: Step)
    ensures s.next.(lastPublished := e.lastPublished, lastValue := e.lastValue) == e
    ensures WellFormed(e) ==> WellFormed(s.next)
  {
    HandleStep(e, true, now)
  }

  /** Dispatch of one event to its handler. */
  function Apply(e: Engine, ev: Event): (s: Step)
    ensures s.next.mode == e.mode && s.next.interval == e.interval
    ensures !IsHandled(ev) ==> s == Step(e, false)
    ensures s.publish ==> s.next.lastPublished == ev.now && s.next.lastValue == s.next.state
    ensures !s.publish ==> s.next.lastPublished == e.lastPublished && s.next.lastValue == e.lastValue
    ensures WellFormed(e) ==> WellFormed(s.next)
  {
    match ev
    case ValueObserved(value, attrs, now) => ObserveStep(e, value, attrs, now)
    case TimerFired(now) => TimerStep(e, now)
  }

  /** The step of every event of a trace, in order, each applied to the engine
      the previous one left. */
  function Run(e: Engine, evs: seq<Event>): (steps: seq<Step>)
    ensures |steps| == |evs|
    ensures forall k :: 0 <= k < |steps| ==> steps[k].next.mode == e.mode && steps[k].next.interval == e.interval
    ensures forall k :: 0 <= k < |steps| && steps[k].publish ==> steps[k].next.lastValue == steps[k].next.state
    ensures WellFormed(e) ==> forall k :: 0 <= k < |steps| ==> WellFormed(steps[k].next)
    decreases |evs|
  {
    if evs == [] then []
    else
      var s := Apply(e, evs[0]);
      [s] + Run(s.next, evs[1..])
  }

  function CountPublishes(steps: seq<Step>): (n: nat)
  {
    if steps == [] then 0
    else (if steps[0].publish then 1 else 0) + CountPublishes(steps[1..])
  }

  function CountTicks(evs: seq<Event>): (n: nat)
  {
    if evs == [] then 0
    else (if evs[0].TimerFired? then 1 else 0) + CountTicks(evs[1..])
  }

  function CountValidObservations(evs: seq<Event>): (n: nat)
  {
    if evs == [] then 0
    else (if evs[0].ValueObserved? && !IsIgnored(evs[0].value) then 1 else 0) + CountValidObservations(evs[1..])
  }

  // ---------------------------------------------------------------------------
  // Properties of single steps

  /** In regulate mode an event publishes exactly when it is a timer tick. */
  lemma RegulateStep(e: Engine, ev: Event)
    requires e.mode == Regulate
    ensures Apply(e, ev).publish <==> ev.TimerFired?
  {
  }

  /** In boost mode every handled event publishes, and nothing else does. */
  lemma BoostStep(e: Engine, ev: Event)
    requires e.mode == Boost
    ensures Apply(e, ev).publish <==> IsHandled(ev)
  {
  }

  /** In throttle mode an event publishes exactly when it is handled, the
      interval has elapsed since the last publish and the value now recorded
      differs from the last published one, whatever kind of event it is. */
  lemma ThrottleStep(e: Engine, ev: Event)
    requires e.mode == Throttle
    ensures Apply(e, ev).publish <==>
      && IsHandled(ev)
      && ev.now >= e.lastPublished + e.interval
      && (if ev.TimerFired? then e.state else Some(ev.value)) != e.lastValue
  {
  }

  /** A throttle publish always carries an observed value. */
  lemma ThrottlePublishesObservedValue(e: Engine, ev: Event)
    requires WellFormed(e) && e.mode == Throttle
    requires Apply(e, ev).publish
    ensures Apply(e, ev).next.lastValue.Some?
  {
  }

  /** Regulate and boost publish on a tick even before any value was observed. */
  lemma TickPublishesBeforeFirstObservation(mode: Mode, interval: int, created: int, now: int)
    requires interval >= 0 && mode != Throttle
    ensures TimerStep(Initial(mode, interval, created), now).publish
    ensures TimerStep(Initial(mode, interval, created), now).next.lastValue.None?
  {
  }

  /** Two consecutive throttle decisions with no value change between them never both publish. */
  lemma ThrottleNoDoublePublish(e: Engine, ev1: Event, ev2: Event)
    requires e.mode == Throttle
    requires Apply(Apply(e, ev1).next, ev2).next.state == Apply(e, ev1).next.state
    ensures !(Apply(e, ev1).publish && Apply(Apply(e, ev1).next, ev2).publish)
  {
  }

  // ---------------------------------------------------------------------------
  // Properties of traces

  /** The steps after index k of a trace are the run of the rest of the trace
      from the engine step k left. */
  lemma {:induction false} RunSuffix(e: Engine, evs: seq<Event>, k: nat)
    requires k < |evs|
    ensures Run(e, evs)[k + 1..] == Run(Run(e, evs)[k].next, evs[k + 1..])
    decreases |evs|
  {
    var s := Apply(e, evs[0]);
    assert Run(e, evs) == [s] + Run(s.next, evs[1..]);
    if k > 0 {
      RunSuffix(s.next, evs[1..], k - 1);
      assert evs[1..][k..] == evs[k + 1..];
    }
  }

  /** Regulate: the number of publishes equals the number of timer ticks,
      however many value changes are interleaved. */
  lemma {:induction false} RegulatePublishCount(e: Engine, evs: seq<Event>)
    requires e.mode == Regulate
    ensures CountPublishes(Run(e, evs)) == CountTicks(evs)
    decreases |evs|
  {
    if evs != [] {
      var s := Apply(e, evs[0]);
      var rest := Run(s.next, evs[1..]);
      assert ([s] + rest)[1..] == rest;
      RegulateStep(e, evs[0]);
      RegulatePublishCount(s.next, evs[1..]);
    }
  }

  /** Boost: M valid observations and N ticks give exactly M + N publishes. */
  lemma {:induction false} BoostPublishCount(e: Engine, evs: seq<Event>)
    requires e.mode == Boost
    ensures CountPublishes(Run(e, evs)) == CountValidObservations(evs) + CountTicks(evs)
    decreases |evs|
  {
    if evs != [] {
      var s := Apply(e, evs[0]);
      var rest := Run(s.next, evs[1..]);
      assert ([s] + rest)[1..] == rest;
      BoostStep(e, evs[0]);
      BoostPublishCount(s.next, evs[1..]);
    }
  }

  /** Throttle: every publish of a trace happens at least one interval after
      the engine's last publish time at the start of the trace. */
  lemma {:induction false} ThrottleGate(e: Engine, evs: seq<Event>, j: nat)
    requires e.mode == Throttle && e.interval >= 0
    requires j < |evs| && Run(e, evs)[j].publish
    ensures evs[j].now >= e.lastPublished + e.interval
    decreases |evs|
  {
    var s := Apply(e, evs[0]);
    assert Run(e, evs) == [s] + Run(s.next, evs[1..]);
    ThrottleStep(e, evs[0]);
    if j > 0 {
      ThrottleGate(s.next, evs[1..], j - 1);
    }
  }

  /** Throttle rate cap: any two publishes of a trace are at least one
      interval apart, without any assumption on the clock. */
  lemma {:induction false} ThrottleRateCap(e: Engine, evs: seq<Event>, i: nat, j: nat)
    requires e.mode == Throttle && e.interval >= 0
    requires i < j < |evs|
    requires Run(e, evs)[i].publish && Run(e, evs)[j].publish
    ensures evs[j].now >= evs[i].now + e.interval
    decreases |evs|
  {
    var s := Apply(e, evs[0]);
    assert Run(e, evs) == [s] + Run(s.next, evs[1..]);
    if i == 0 {
      ThrottleGate(s.next, evs[1..], j - 1);
    } else {
      ThrottleRateCap(s.next, evs[1..], i - 1, j - 1);
    }
  }

  /** Throttle: the last publish time never decreases, whatever the clock does. */
  lemma {:induction false} ThrottleLastPublishedNonDecreasing(e: Engine, evs: seq<Event>)
    requires e.mode == Throttle && e.interval >= 0
    ensures forall k :: 0 <= k < |evs| ==> e.lastPublished <= Run(e, evs)[k].next.lastPublished
    ensures forall k :: 0 < k < |evs| ==> Run(e, evs)[k - 1].next.lastPublished <= Run(e, evs)[k].next.lastPublished
    decreases |evs|
  {
    if evs != [] {
      var s := Apply(e, evs[0]);
      var rest := Run(s.next, evs[1..]);
      assert Run(e, evs) == [s] + rest;
      ThrottleStep(e, evs[0]);
      ThrottleLastPublishedNonDecreasing(s.next, evs[1..]);
      assert forall k :: 0 < k < |evs| ==> Run(e, evs)[k] == rest[k - 1];
    }
  }

  /** The clock readings of a trace never go backwards, starting from `start`. */
  predicate ClockFrom(start: int, evs: seq<Event>)
  {
    && (|evs| > 0 ==> start <= evs[0].now)
    && forall k :: 0 < k < |evs| ==> evs[k - 1].now <= evs[k].now
  }

  /** Any mode: with a clock that never goes backwards (from the last publish
      time on), the last publish time never decreases and never passes the clock. */
  lemma {:induction false} LastPublishedNonDecreasing(e: Engine, evs: seq<Event>)
    requires ClockFrom(e.lastPublished, evs)
    ensures forall k :: 0 <= k < |evs| ==> Run(e, evs)[k].next.lastPublished <= evs[k].now
    ensures forall k :: 0 <= k < |evs| ==> e.lastPublished <= Run(e, evs)[k].next.lastPublished
    ensures forall k :: 0 < k < |evs| ==> Run(e, evs)[k - 1].next.lastPublished <= Run(e, evs)[k].next.lastPublished
    decreases |evs|
  {
    if evs != [] {
      var s := Apply(e, evs[0]);
      var rest := Run(s.next, evs[1..]);
      assert Run(e, evs) == [s] + rest;
      assert ClockFrom(s.next.lastPublished, evs[1..]);
      LastPublishedNonDecreasing(s.next, evs[1..]);
      assert forall k :: 0 < k < |evs| ==> Run(e, evs)[k] == rest[k - 1] && evs[k] == evs[1..][k - 1];
    }
  }

  /** An observation that changes nothing: dropped, or carrying the recorded value. */
  predicate KeepsValue(state: Option<string>, ev: Event)
  {
    ev.TimerFired? || IsIgnored(ev.value) || Some(ev.value) == state
  }

  /** Throttle: once the recorded value is the published one, no event that
      keeps the value publishes. */
  lemma {:induction false} ThrottleQuietWhileUnchanged(e: Engine, evs: seq<Event>)
    requires e.mode == Throttle && e.state == e.lastValue
    requires forall k :: 0 <= k < |evs| ==> KeepsValue(e.state, evs[k])
    ensures forall k :: 0 <= k < |evs| ==> !Run(e, evs)[k].publish
    decreases |evs|
  {
    if evs != [] {
      var s := Apply(e, evs[0]);
      var rest := Run(s.next, evs[1..]);
      assert Run(e, evs) == [s] + rest;
      ThrottleStep(e, evs[0]);
      assert s.next.state == e.state && s.next.lastValue == e.lastValue;
      assert forall k :: 0 <= k < |evs| - 1 ==> evs[1..][k] == evs[k + 1];
      ThrottleQuietWhileUnchanged(s.next, evs[1..]);
    }
  }

  /** Throttle: after a publish, no later event publishes until one brings a
      different value. */
  lemma {:induction false} ThrottleNoRepeatAfterPublish(e: Engine, evs: seq<Event>, i: nat)
    requires e.mode == Throttle
    requires i < |evs| && Run(e, evs)[i].publish
    requires forall k :: i < k < |evs| ==> KeepsValue(Run(e, evs)[i].next.state, evs[k])
    ensures forall k :: i < k < |evs| ==> !Run(e, evs)[k].publish
  {
    var after := Run(e, evs)[i].next;
    var tail := evs[i + 1..];
    RunSuffix(e, evs, i);
    forall k | 0 <= k < |tail|
      ensures KeepsValue(after.state, tail[k])
    {
      assert tail[k] == evs[i + 1 + k];
    }
    ThrottleQuietWhileUnchanged(after, tail);
    forall k | i < k < |evs|
      ensures !Run(e, evs)[k].publish
    {
      assert Run(e, evs)[k] == Run(after, tail)[k - (i + 1)];
    }
  }

  // ---------------------------------------------------------------------------
  // The sensor object

  class Sampler {
    const mode: Mode
    const interval: int
    var state: Option<string>
    var icon: Option<string>
    var unit: Option<string>
    var lastPublished: int
    var lastValue: Option<string>

    /** The fields as an Engine value. */
    function Snapshot(): (e: Engine)
      reads this
    {
      Engine(mode, interval, state, icon, unit, lastPublished, lastValue)
    }

    ghost predicate Valid()
      reads this
    {
      WellFormed(Snapshot())
    }

    /** A new sensor for the configured mode string, created at time `now`;
        nothing observed or published yet. The mode string never changes, so
        resolving it once here selects the branch every later decision takes. */
    constructor (modeConf: string, interval: int, now: int)
      requires interval >= 0
      ensures Valid()
      ensures Snapshot() == Initial(ModeOf(modeConf), interval, now)
    {
      mode := ModeOf(modeConf);
      this.interval := interval;
      unit := None;
      state := None;
      icon := None;
      lastPublished := now;
      lastValue := None;
    }

    /** The sensor's state: never a sentinel. */
    function State(): (r: Option<string>)
      reads this
      requires Valid()
      ensures r.Some? ==> !IsIgnored(r.value)
      ensures r == Snapshot().state
    {
      state
    }

    /** The icon: latched only once a value has been observed. */
    function Icon(): (r: Option<string>)
      reads this
      requires Valid()
      ensures r.Some? ==> State().Some?
      ensures r == Snapshot().icon
    {
      icon
    }

    /** The unit of measurement: latched only once a value has been observed. */
    function UnitOfMeasurement(): (r: Option<string>)
      reads this
      requires Valid()
      ensures r.Some? ==> State().Some?
      ensures r == Snapshot().unit
    {
      unit
    }

    /** Handle a callback from the timer or from a value change. */
    method HandleCallbacks(fromTimer: bool, now: int) returns (publish: bool)
      requires Valid()
      modifies this
      ensures Valid()
      ensures Snapshot() == HandleStep(old(Snapshot()), fromTimer, now).next
      ensures publish == HandleStep(old(Snapshot()), fromTimer, now).publish
      ensures state == old(state) && icon == old(icon) && unit == old(unit)
      ensures publish ==> lastPublished == now && lastValue == state
      ensures !publish ==> lastPublished == old(lastPublished) && lastValue == old(lastValue)
    {
      publish := false;
      if mode == Regulate {
        publish := fromTimer;
      } else if mode == Boost {
        publish := true;
      } else {
        if now >= lastPublished + interval && state != lastValue {
          publish := true;
        }
      }
      if publish {
        lastPublished := now;
        lastValue := state;
      }
    }

    /** A new state of the watched entity arrives at time `now`. */
    method OnValueObserved(value: string, attrs: Attributes, now: int) returns (publish: bool)
      requires Valid()
      modifies this
      ensures Valid()
      ensures Snapshot() == ObserveStep(old(Snapshot()), value, attrs, now).next
      ensures publish == ObserveStep(old(Snapshot()), value, attrs, now).publish
    {
      if value == StateUnknown || value == StateUnavailable {
        return false;
      }
      state := Some(value);
      if icon.None? {
        icon := IconAttr(attrs);
      }
      if unit.None? {
        unit := Attr(attrs, AttrUnit);
      }
      publish := HandleCallbacks(false, now);
    }

    /** The periodic timer fires at time `now`. */
    method OnTimer(now: int) returns (publish: bool)
      requires Valid()
      modifies this
      ensures Valid()
      ensures Snapshot() == TimerStep(old(Snapshot()), now).next
      ensures publish == TimerStep(old(Snapshot()), now).publish
    {
      publish := HandleCallbacks(true, now);
    }
  }

  // ---------------------------------------------------------------------------
  // Worked scenarios

  /** Regulate, interval 30, created at 0: observe "10" at 5, tick at 30,
      observe "12" at 40, tick at 60 publishes [no, "10", no, "12"]. */
  method RegulateScenario()
  {
    var sensor := new Sampler(ConfRegulate, 30, 0);
    var p1 := sensor.OnValueObserved("10", map[], 5);
    assert !p1;
    var p2 := sensor.OnTimer(30);
    assert p2 && sensor.lastValue == Some("10");
    var p3 := sensor.OnValueObserved("12", map[], 40);
    assert !p3;
    var p4 := sensor.OnTimer(60);
    assert p4 && sensor.lastValue == Some("12");
  }

  /** Throttle, interval 60: after publishing "A" at 0, a change to "B" and a
      tick at 10 do not publish; a tick at 61 does. Units latch first-wins. */
  method ThrottleScenario()
  {
    var sensor := new Sampler(ConfThrottle, 60, -60);
    var p0 := sensor.OnValueObserved("A", map[AttrUnit := Some("W")], 0);
    assert p0 && sensor.lastPublished == 0;
    var p1 := sensor.OnValueObserved("B", map[AttrUnit := Some("kW")], 10);
    assert !p1 && sensor.unit == Some("W");
    var p2 := sensor.OnTimer(10);
    assert !p2;
    var p3 := sensor.OnTimer(61);
    assert p3 && sensor.lastValue == Some("B");
    var p4 := sensor.OnValueObserved("unavailable", map[], 200);
    assert !p4 && sensor.state == Some("B");
  }
}
