# Sampler publish-decision engine, in Dafny

This project models the core of the Home Assistant custom component `sampler`
(`custom_components/sampler/sensor.py`). A `Sampler` sensor watches one upstream
entity and republishes that entity's state. It receives two kinds of event: a
state change of the watched entity, and a tick of a fixed-period timer. On each
event it decides whether to publish. The decision depends on its mode:

- **regulate** publishes on timer ticks only;
- **boost** publishes on every tick and on every valid observation, even one
  that repeats the recorded value;
- **throttle** publishes only if the interval has elapsed since the last publish
  and the recorded value differs from the last published one.

States `unknown` and `unavailable` are dropped. The icon is latched on the
first valid observation: it takes the observation's icon attribute, or the
default icon `mdi:chart-line-variant` when that attribute is missing. It stays
unset only if the attribute is present with the value `None`. The unit of
measurement is latched from the first valid observation that supplies a value
for it.

`sampler.dfy` holds one module, `SamplerSensor`, with two layers:

- **Specification.** `Engine` holds every field of a sensor as a value.
  `ObserveStep`, `TimerStep` and `HandleStep` are the two handlers and the shared
  decision step as functions on that value. `Apply` dispatches one `Event`, and
  `Run` gives the step of every event in a trace. The lemmas state the
  per-mode rules, publish counts, the throttle rate cap, the no-repeat property
  and the monotonicity of the last publish time.
- **Object.** The class `Sampler` has `mode` and `interval` as constants and the
  five mutable fields of the Python object. Its methods `OnValueObserved`,
  `OnTimer` and `HandleCallbacks` update those fields step by step, the same way
  the Python does. Each of them is proved to leave the object in the state that
  the matching specification function computes, and to return the same publish
  flag. The flag stands for the call to `async_schedule_update_ha_state()`.

Other modelling choices:

- Clock readings are integer `now` parameters in one unit, and the interval is
  an integer in that unit. Construction requires `interval >= 0`, which is what
  the configuration schema's `cv.positive_int` (a range with minimum 0) lets
  through. An interval of 0 is modelled: throttle's time gate is then open
  whenever `now` is at least the last publish time.
- The constructor takes the configured mode string. The Python keeps `_mode` as
  that string and compares it with "regulate" and "boost" on every decision
  (sensor.py:102-108). The string never changes, so the model resolves it once
  with `ModeOf` and stores the resulting `Mode`.
- Entity attributes are a `map<string, Option<string>>`. An attribute can be
  present with the value `None`, and `dict.get` then returns `None`. In that case
  the icon or unit latch stays open, as it does in Python.
- Python equality on `None` and strings is `Option<string>` equality.
- `RegulateScenario` and `ThrottleScenario` are client methods. They drive one
  object through two event sequences and assert each publish decision:
  - regulate with interval 30, created at 0: observe "10" at 5, tick at 30,
    observe "12" at 40, tick at 60; the decisions are no, publish "10", no,
    publish "12";
  - throttle with interval 60: publish "A" at 0; observe "B" and tick at 10,
    neither publishes; tick at 61 publishes "B"; the unit latched from "A"
    survives a later different unit; "unavailable" at 200 changes nothing.

Two behaviours of the code are worth stating outright:

- **Before the first observation.** Regulate and boost publish on a timer tick
  while `_state` is still `None` (sensor.py:102-107,
  `TickPublishesBeforeFirstObservation`). Throttle does not, because
  `None != None` is false (sensor.py:110, `ThrottlePublishesObservedValue`).
- **Unrecognised mode strings.** Any mode string other than "regulate" or
  "boost" takes the throttle branch (sensor.py:108, `ModeOf`).

## Model

| member | source | states |
|---|---|---|
| `SamplerSensor.ModeOf` | custom_components/sampler/sensor.py:102-108 | a mode string selects regulate exactly when it is "regulate", boost exactly when it is "boost", and throttle otherwise, "throttle" included |
| `SamplerSensor.IsIgnored` | custom_components/sampler/sensor.py:75 | the observed states that are dropped: exactly "unknown" and "unavailable" |
| `SamplerSensor.IconAttr` | custom_components/sampler/sensor.py:81 | the icon an observation offers: its icon attribute when present (possibly `None`), the default icon when absent |
| `SamplerSensor.Attr` | custom_components/sampler/sensor.py:84-86 | an attribute's value when present (possibly `None`), `None` when absent |
| `SamplerSensor.Decide` | custom_components/sampler/sensor.py:102-111 | the mode branch: regulate publishes iff the call came from the timer, boost always, throttle iff the interval has elapsed since the last publish and the state differs from the last published value |
| `SamplerSensor.Initial` | custom_components/sampler/sensor.py:55-66 | a new sensor has the given mode and interval, the creation time as last publish time, no state, icon, unit or last value, and satisfies the engine invariant |
| `SamplerSensor.HandleStep` | custom_components/sampler/sensor.py:98-117 | a publish sets the last publish time to now and the last value to the current state; no publish changes nothing; only those two fields ever change |
| `SamplerSensor.ObserveStep` | custom_components/sampler/sensor.py:72-88 | a sentinel observation changes nothing and does not publish; a valid one records the value; icon and unit are filled independently, only while unset; icon falls back to the default; mode and interval are kept; the invariant is preserved |
| `SamplerSensor.TimerStep` | custom_components/sampler/sensor.py:90-92 | a tick changes only the publish bookkeeping and preserves the invariant |
| `SamplerSensor.Apply` | custom_components/sampler/sensor.py:72-92 | any event keeps mode and interval; a dropped observation is a no-op; a publish stamps the event's time and makes the last value equal to the state; no publish keeps the last publish time and the last value |
| `SamplerSensor.Run` | custom_components/sampler/sensor.py:72-117 | one step per event; mode and interval are constant along a trace; every publish leaves the last value equal to the state; every engine along the trace keeps the invariant |
| `SamplerSensor.RegulateStep` | custom_components/sampler/sensor.py:102-104 | in regulate mode an event publishes if and only if it is a timer tick |
| `SamplerSensor.BoostStep` | custom_components/sampler/sensor.py:105-107 | in boost mode an event publishes if and only if it is a tick or a valid observation |
| `SamplerSensor.ThrottleStep` | custom_components/sampler/sensor.py:108-111 | in throttle mode an event publishes if and only if it is handled, now is at least the last publish time plus the interval, and the recorded value differs from the last published value, for observations and ticks alike |
| `SamplerSensor.ThrottlePublishesObservedValue` | custom_components/sampler/sensor.py:110 | a throttle publish always carries an observed value, never the initial `None` |
| `SamplerSensor.TickPublishesBeforeFirstObservation` | custom_components/sampler/sensor.py:102-107 | in regulate and boost mode, a tick on a fresh sensor publishes the absent value |
| `SamplerSensor.ThrottleNoDoublePublish` | custom_components/sampler/sensor.py:108-116 | two consecutive throttle decisions with no value change between them never both publish |
| `SamplerSensor.RunSuffix` | custom_components/sampler/sensor.py:72-117 | the steps after event k are the run of the remaining events from the state event k left |
| `SamplerSensor.RegulatePublishCount` | custom_components/sampler/sensor.py:102-104 | in regulate mode a trace publishes exactly as many times as it has timer ticks |
| `SamplerSensor.BoostPublishCount` | custom_components/sampler/sensor.py:105-107 | in boost mode a trace with M valid observations and N ticks publishes exactly M + N times |
| `SamplerSensor.ThrottleGate` | custom_components/sampler/sensor.py:110 | every throttle publish in a trace is at least one interval after the starting last publish time |
| `SamplerSensor.ThrottleRateCap` | custom_components/sampler/sensor.py:110-116 | any two throttle publishes in a trace are at least one interval apart, for any clock |
| `SamplerSensor.ThrottleLastPublishedNonDecreasing` | custom_components/sampler/sensor.py:110-116 | in throttle mode the last publish time never decreases along a trace, for any clock |
| `SamplerSensor.LastPublishedNonDecreasing` | custom_components/sampler/sensor.py:113-116 | in any mode, if the clock never goes backwards, the last publish time never decreases and never passes the clock |
| `SamplerSensor.ThrottleQuietWhileUnchanged` | custom_components/sampler/sensor.py:110 | in throttle mode, once the recorded value is the published value, events that do not change the value never publish |
| `SamplerSensor.ThrottleNoRepeatAfterPublish` | custom_components/sampler/sensor.py:110-116 | after a throttle publish, no later event publishes until an observation brings a different value |
| `SamplerSensor.Sampler.constructor` | custom_components/sampler/sensor.py:55-66 | the new object is the initial engine for the mode the configured string selects, created at the given time, and is valid |
| `SamplerSensor.Sampler.State` | custom_components/sampler/sensor.py:124-127 | the reported state is never `unknown` or `unavailable` |
| `SamplerSensor.Sampler.Icon` | custom_components/sampler/sensor.py:129-132 | an icon is reported only once a value has been observed |
| `SamplerSensor.Sampler.UnitOfMeasurement` | custom_components/sampler/sensor.py:134-137 | a unit is reported only once a value has been observed |
| `SamplerSensor.Sampler.HandleCallbacks` | custom_components/sampler/sensor.py:98-117 | the new fields and the publish flag are those of `HandleStep`; state, icon and unit are untouched; on publish the time and value are recorded, otherwise both are kept |
| `SamplerSensor.Sampler.OnValueObserved` | custom_components/sampler/sensor.py:72-88 | the new fields and the publish flag are those of `ObserveStep`, and validity is kept |
| `SamplerSensor.Sampler.OnTimer` | custom_components/sampler/sensor.py:90-92 | the new fields and the publish flag are those of `TimerStep`, and validity is kept |

## Left out

- Home Assistant plumbing is not modelled: `async_setup_platform`, `async_added_to_hass`, the `async_track_state_change` and `async_track_time_interval` subscriptions, and `@callback`. A trace of `Event`s stands for what they deliver. `async_schedule_update_ha_state()` becomes the returned publish flag.
- The voluptuous `PLATFORM_SCHEMA` and the `cv` validators are a foreign library. Only their outcome is kept: a mode string, dispatched by `ModeOf`, and `interval >= 0` as a requirement of the constructor.
- `dt_util.utcnow()` and the `timedelta` arithmetic are replaced by integer `now` parameters and an integer interval.
- Logging (`_LOGGER.debug`) is left out.
- Removal of the watched entity is left out. Home Assistant then calls the listener with `new_state` set to `None`, and the read of `new_state.state` (sensor.py:74-75) raises `AttributeError` before any field changes. `ValueObserved` always carries a state, so the model has no such event; in the source that call fails with every field unchanged and no publish.
- The passive properties `name`, `should_poll`, `force_update` and `device_state_attributes` carry no logic and are left out. So are the `_name` and `_entity` fields they read.
- Attribute values are modelled as strings or `None`. Other Python values an attribute dictionary may hold are not modelled.
- Concurrency is left out. The value listener carries `@callback` (sensor.py:71) and runs on Home Assistant's event loop. `timer_callback` (sensor.py:90) is a plain function without `@callback`, so Home Assistant runs it in its executor thread pool. The model and every trace lemma treat each handler call as one atomic step, and the source does not enforce that for the timer. A timer call in a worker thread can pass the throttle test at sensor.py:110 and then write its earlier `now` at sensor.py:115 after the listener has published. `_last_published` then goes backwards, and two publishes can land less than one interval apart. `ThrottleRateCap` and `ThrottleLastPublishedNonDecreasing` hold only for serialized calls.
