/** The settings parser of ASCIIFileAdapter.cpp: SetSettings, which applies one
    key/value pair to a Settings object, and ParseSettings, which applies every line of
    a settings file and then checks that an integrator and a time line were given. */
module AsciiSettings {
  import opened Foreign
  import opened SolarisTypes
  import opened SettingsModel
  import opened AsciiLines

  /** The names integrator_name accepts, and the integrator type each selects. */
  const IntegratorNames: map<string, IntegratorType> := map[
    "rungekutta4" := RungeKutta4, "rk4" := RungeKutta4,
    "rungekutta56" := RungeKutta56, "rk56" := RungeKutta56,
    "rungekuttafehlberg78" := RungeKuttaFehlberg78, "rk78" := RungeKuttaFehlberg78,
    "rungekutta78" := RungeKuttaFehlberg78,
    "dormandprince" := DormandPrince, "rkn76" := DormandPrince]

  const OutputKeys: set<string> := {
    "output_phases", "output_constantproperties", "output_variableproperties",
    "output_compositionproperties", "output_twobodyaffair", "output_integrals", "output_log"}

  const TimeLineKeys: set<string> := {"timeline_start", "timeline_length", "timeline_output", "timeline_unit"}

  const StopKeys: set<string> := {"closeencounter_stop", "collision_stop", "weakcapture_stop"}

  const GeneralKeys: set<string> := OutputKeys + {"enabledistinctstarttimes", "barycentric"}

  const IntegratorKeys: set<string> := {"integrator_name", "integrator_accuracy_value"}

  const DistanceKeys: set<string> := {"ejection_value", "ejection_unit", "hitcentrum_value", "hitcentrum_unit"}

  const EventKeys: set<string> := StopKeys + {"closeencounter_factor", "collision_factor", "weakcapture_factor"}

  /** Every key SetSettings recognises. */
  const SettingsKeys: set<string> := GeneralKeys + IntegratorKeys + TimeLineKeys + DistanceKeys + EventKeys

  /** The fields of Settings, to say which of them a key may change. */
  datatype Field =
    | EnableDistinctStartTimesField | FrameCenterField | IntegratorField | IntegratorTypeField
    | OutputField | TimeLineField | EjectionField | HitCentrumField
    | CloseEncounterField | CollisionField | WeakCaptureField

  /** w agrees with v on every field outside fs. */
  predicate SameExcept(v: SettingsView, w: SettingsView, fs: set<Field>)
  {
    (EnableDistinctStartTimesField !in fs ==> w.enableDistinctStartTimes == v.enableDistinctStartTimes) &&
    (FrameCenterField !in fs ==> w.frameCenter == v.frameCenter) &&
    (IntegratorField !in fs ==> w.integrator == v.integrator) &&
    (IntegratorTypeField !in fs ==> w.intgrType == v.intgrType) &&
    (OutputField !in fs ==> w.output == v.output) &&
    (TimeLineField !in fs ==> w.timeLine == v.timeLine) &&
    (EjectionField !in fs ==> w.ejection == v.ejection) &&
    (HitCentrumField !in fs ==> w.hitCentrum == v.hitCentrum) &&
    (CloseEncounterField !in fs ==> w.closeEncounter == v.closeEncounter) &&
    (CollisionField !in fs ==> w.collision == v.collision) &&
    (WeakCaptureField !in fs ==> w.weakCapture == v.weakCapture)
  }

  /** The one field each key is about (the integrator name also selects the type). */
  function FieldsOf(key: string): set<Field>
  {
    if key in GeneralKeys then
      if key == "enabledistinctstarttimes" then {EnableDistinctStartTimesField}
      else if key == "barycentric" then {FrameCenterField}
      else {OutputField}
    else if key in IntegratorKeys then
      if key == "integrator_name" then {IntegratorField, IntegratorTypeField} else {IntegratorField}
    else if key in TimeLineKeys then {TimeLineField}
    else if key in DistanceKeys then
      if key == "ejection_value" || key == "ejection_unit" then {EjectionField} else {HitCentrumField}
    else if key == "closeencounter_factor" || key == "closeencounter_stop" then {CloseEncounterField}
    else if key == "collision_factor" || key == "collision_stop" then {CollisionField}
    else if key == "weakcapture_factor" || key == "weakcapture_stop" then {WeakCaptureField}
    else {}
  }

  /** Objects the parser has created are never dropped. */
  predicate Persists(v: SettingsView, w: SettingsView)
  {
    (v.integrator.Some? ==> w.integrator.Some?) &&
    (v.timeLine.Some? ==> w.timeLine.Some?) &&
    (v.closeEncounter.Some? ==> w.closeEncounter.Some?) &&
    (v.collision.Some? ==> w.collision.Some?) &&
    (v.weakCapture.Some? ==> w.weakCapture.Some?)
  }

  // ----- one key at a time -----

  /** integrator_name: the nine aliases select a type; every one but the Runge-Kutta 5/6
      aliases also installs a new integrator object, and any other name is refused. */
  function ApplyIntegratorName(v: SettingsView, value: string, c: Constructors): (r: (Status, SettingsView))
    ensures r.0 == Ok <==> value in IntegratorNames
    ensures r.0 == Ok ==> r.1.intgrType == IntegratorNames[value] && r.1.intgrType != IntegratorTypeUndefined
    ensures r.0 == Ok && r.1.intgrType == RungeKutta56 ==> r.1.integrator == v.integrator
    ensures r.0 == Ok && r.1.intgrType != RungeKutta56 ==> r.1.integrator == Some(c.integrator(r.1.intgrType))
    ensures r.0 != Ok ==> r == (Fail(UnknownIntegrator), v)
    ensures SameExcept(v, r.1, {IntegratorField, IntegratorTypeField}) && Persists(v, r.1)
  {
    if value in IntegratorNames then
      var t := IntegratorNames[value];
      (Ok, v.(intgrType := t, integrator := if t == RungeKutta56 then v.integrator else Some(c.integrator(t))))
    else (Fail(UnknownIntegrator), v)
  }

  /** integrator_accuracy_value: a number in [-16, 0] sets the accuracy to it and epsilon
      to ten to its power. Without an integrator object the source dereferences a null
      pointer; the model reports NoIntegrator instead. */
  function ApplyAccuracy(v: SettingsView, value: string, h: Helpers): (r: (Status, SettingsView))
    ensures r.0 == Ok <==> h.isNumber(value) && -16.0 <= h.atof(value) <= 0.0 && v.integrator.Some?
    ensures r.0 == Ok ==> r.1.integrator.Some? && r.1.integrator.value.accuracy == h.atof(value)
    ensures r.0 == Ok ==> r.1.integrator.value.epsilon == h.pow10(h.atof(value))
    ensures r.0 == Ok ==> r.1.integrator.value.kind == v.integrator.value.kind
    ensures r.0 != Ok ==> r.1 == v
    ensures !h.isNumber(value) ==> r.0 == Fail(InvalidNumber)
    ensures h.isNumber(value) && !(-16.0 <= h.atof(value) <= 0.0) ==> r.0 == Fail(OutOfRange)
    ensures SameExcept(v, r.1, {IntegratorField}) && Persists(v, r.1)
  {
    if !h.isNumber(value) then (Fail(InvalidNumber), v)
    else
      var x := h.atof(value);
      if !ElementOfAndContainsEndPoints(-16.0, 0.0, x) then (Fail(OutOfRange), v)
      else if v.integrator.None? then (Fail(NoIntegrator), v)
      else (Ok, v.(integrator := Some(v.integrator.value.(accuracy := x, epsilon := h.pow10(x)))))
  }

  /** The key/value pairs that create an Integrator object: an integrator name other
      than the Runge-Kutta 5/6 aliases. */
  predicate CreatesIntegrator(key: string, value: string)
  {
    key == "integrator_name" && value in IntegratorNames && IntegratorNames[value] != RungeKutta56
  }

  /** The keys that create a missing TimeLine object. */
  const CreatingTimeLineKeys: set<string> := {"timeline_start", "timeline_length", "timeline_output"}

  /** The time line a timeline_start/length/output key writes into: the existing one, or
      a new TimeLine() when there is none yet. */
  function TimeLineOrNew(v: SettingsView, c: Constructors): TimeLine
  {
    if v.timeLine.Some? then v.timeLine.value else c.timeLine
  }

  /** timeline_start, timeline_length, timeline_output and timeline_unit. The first three
      change only their own field of the (possibly new) time line; the length must be
      non-zero and the output interval positive; the unit rescales all three fields and
      needs an existing time line. */
  function ApplyTimeLine(v: SettingsView, key: string, value: string, h: Helpers, c: Constructors): (r: (Status, SettingsView))
    requires key in TimeLineKeys
    ensures r.0 == Ok ==> r.1.timeLine.Some?
    ensures r.0 != Ok ==> r.1 == v
    ensures key == "timeline_start" ==> (r.0 == Ok <==> h.isNumber(value))
    ensures key == "timeline_start" && r.0 == Ok ==>
      var t := r.1.timeLine.value;
      t.start == h.atof(value) && t.startTimeDefined &&
      t.length == TimeLineOrNew(v, c).length && t.output == TimeLineOrNew(v, c).output
    ensures key == "timeline_length" ==> (r.0 == Ok <==> h.isNumber(value) && h.atof(value) != 0.0)
    ensures key == "timeline_length" && r.0 == Ok ==>
      var t := r.1.timeLine.value;
      t.length == h.atof(value) && t.length != 0.0 &&
      t.start == TimeLineOrNew(v, c).start && t.output == TimeLineOrNew(v, c).output &&
      t.startTimeDefined == TimeLineOrNew(v, c).startTimeDefined
    ensures key == "timeline_output" ==> (r.0 == Ok <==> h.isNumber(value) && h.atof(value) > 0.0)
    ensures key == "timeline_output" && r.0 == Ok ==>
      var t := r.1.timeLine.value;
      t.output == h.atof(value) && t.output > 0.0 &&
      t.start == TimeLineOrNew(v, c).start && t.length == TimeLineOrNew(v, c).length &&
      t.startTimeDefined == TimeLineOrNew(v, c).startTimeDefined
    ensures key == "timeline_unit" ==> (r.0 == Ok <==> h.timeUnitKnown(value) && v.timeLine.Some?)
    ensures key == "timeline_unit" && h.timeUnitKnown(value) && v.timeLine.None? ==> r.0 == Fail(InvalidTimeline)
    ensures key == "timeline_unit" && r.0 == Ok ==>
      var t := r.1.timeLine.value;
      var o := v.timeLine.value;
      t == o.(start := h.timeToDay(value, o.start), length := h.timeToDay(value, o.length),
               output := h.timeToDay(value, o.output))
    ensures SameExcept(v, r.1, {TimeLineField}) && Persists(v, r.1)
    ensures v.timeLine.None? && r.1.timeLine.Some? ==> key in CreatingTimeLineKeys && r.0 == Ok
    ensures r.1.integrator == v.integrator
  {
    if key == "timeline_start" then
      if !h.isNumber(value) then (Fail(InvalidNumber), v)
      else (Ok, v.(timeLine := Some(TimeLineOrNew(v, c).(start := h.atof(value), startTimeDefined := true))))
    else if key == "timeline_length" then
      if !h.isNumber(value) then (Fail(InvalidNumber), v)
      else if h.atof(value) == 0.0 then (Fail(InvalidValue), v)
      else (Ok, v.(timeLine := Some(TimeLineOrNew(v, c).(length := h.atof(value)))))
    else if key == "timeline_output" then
      if !h.isNumber(value) then (Fail(InvalidNumber), v)
      else if !GreaterThan(0.0, h.atof(value)) then (Fail(OutOfRange), v)
      else (Ok, v.(timeLine := Some(TimeLineOrNew(v, c).(output := h.atof(value)))))
    else
      if !h.timeUnitKnown(value) then (Fail(UnrecognizedDimension), v)
      else if v.timeLine.None? then (Fail(InvalidTimeline), v)
      else
        var o := v.timeLine.value;
        (Ok, v.(timeLine := Some(o.(start := h.timeToDay(value, o.start),
                                   length := h.timeToDay(value, o.length),
                                   output := h.timeToDay(value, o.output)))))
  }

  /** ejection_value / hitcentrum_value: a number that is at least 0. */
  function ApplyDistance(old_: real, value: string, h: Helpers): (r: (Status, real))
    ensures r.0 == Ok <==> h.isNumber(value) && h.atof(value) >= 0.0
    ensures r.0 == Ok ==> r.1 == h.atof(value) && r.1 >= 0.0
    ensures r.0 != Ok ==> r.1 == old_
  {
    if !h.isNumber(value) then (Fail(InvalidNumber), old_)
    else if !GreaterThanOrEqualTo(0.0, h.atof(value)) then (Fail(OutOfRange), old_)
    else (Ok, h.atof(value))
  }

  /** ejection_unit / hitcentrum_unit: a known distance unit rescales the distance to AU. */
  function ApplyDistanceUnit(old_: real, value: string, h: Helpers): (r: (Status, real))
    ensures r.0 == Ok <==> h.distanceUnitKnown(value)
    ensures r.0 == Ok ==> r.1 == h.distanceToAu(value, old_)
    ensures r.0 != Ok ==> r == (Fail(UnrecognizedDimension), old_)
  {
    if !h.distanceUnitKnown(value) then (Fail(UnrecognizedDimension), old_)
    else (Ok, h.distanceToAu(value, old_))
  }

  /** The three event conditions that close-encounter, collision and weak-capture keys fill. */
  datatype EventKind = CloseEncounterEvent | CollisionEvent | WeakCaptureEvent

  function EventOf(v: SettingsView, k: EventKind): Option<EventCondition>
  {
    match k
    case CloseEncounterEvent => v.closeEncounter
    case CollisionEvent => v.collision
    case WeakCaptureEvent => v.weakCapture
  }

  function WithEvent(v: SettingsView, k: EventKind, e: EventCondition): (w: SettingsView)
    ensures EventOf(w, k) == Some(e)
    ensures forall j :: j != k ==> EventOf(w, j) == EventOf(v, j)
  {
    match k
    case CloseEncounterEvent => v.(closeEncounter := Some(e))
    case CollisionEvent => v.(collision := Some(e))
    case WeakCaptureEvent => v.(weakCapture := Some(e))
  }

  function EventField(k: EventKind): Field
  {
    match k
    case CloseEncounterEvent => CloseEncounterField
    case CollisionEvent => CollisionField
    case WeakCaptureEvent => WeakCaptureField
  }

  function EventOrNew(v: SettingsView, k: EventKind, c: Constructors): EventCondition
  {
    var e := EventOf(v, k);
    if e.Some? then e.value else c.eventCondition
  }

  /** The accepted range of a factor: [0, 1) for a collision, at least 0 otherwise. */
  predicate FactorInRange(k: EventKind, x: real)
  {
    if k == CollisionEvent then ElementOfAndContainsLower(0.0, 1.0, x)
    else GreaterThanOrEqualTo(0.0, x)
  }

  /** *_factor: a number in range becomes the factor of the (possibly new) condition;
      its stop flag is kept. */
  function ApplyFactor(v: SettingsView, k: EventKind, value: string, h: Helpers, c: Constructors): (r: (Status, SettingsView))
    ensures r.0 == Ok <==> h.isNumber(value) && FactorInRange(k, h.atof(value))
    ensures k == CollisionEvent && r.0 == Ok ==> EventOf(r.1, k).Some? && 0.0 <= EventOf(r.1, k).value.factor < 1.0
    ensures k != CollisionEvent && r.0 == Ok ==> EventOf(r.1, k).Some? && EventOf(r.1, k).value.factor >= 0.0
    ensures r.0 == Ok ==> EventOf(r.1, k) == Some(EventOrNew(v, k, c).(factor := h.atof(value)))
    ensures r.0 != Ok ==> r.1 == v
    ensures h.isNumber(value) && !FactorInRange(k, h.atof(value)) ==>
      r.0 == Fail(if k == CollisionEvent then InvalidValue else OutOfRange)
    ensures SameExcept(v, r.1, {EventField(k)}) && Persists(v, r.1)
  {
    if !h.isNumber(value) then (Fail(InvalidNumber), v)
    else if !FactorInRange(k, h.atof(value)) then
      (Fail(if k == CollisionEvent then InvalidValue else OutOfRange), v)
    else (Ok, WithEvent(v, k, EventOrNew(v, k, c).(factor := h.atof(value))))
  }

  /** *_stop: the condition is created first, whatever the value; a boolean value then
      becomes its stop flag and its factor is kept. */
  function ApplyStop(v: SettingsView, k: EventKind, value: string, h: Helpers, c: Constructors): (r: (Status, SettingsView))
    ensures EventOf(r.1, k).Some?
    ensures r.0 == Ok <==> h.stringToBool(value).Some?
    ensures r.0 == Ok ==> EventOf(r.1, k) == Some(EventOrNew(v, k, c).(stop := h.stringToBool(value).value))
    ensures r.0 != Ok ==> r == (Fail(InvalidValue), WithEvent(v, k, EventOrNew(v, k, c)))
    ensures SameExcept(v, r.1, {EventField(k)}) && Persists(v, r.1)
  {
    var e := EventOrNew(v, k, c);
    match h.stringToBool(value)
    case Some(b) => (Ok, WithEvent(v, k, e.(stop := b)))
    case None => (Fail(InvalidValue), WithEvent(v, k, e))
  }

  /** enabledistinctstarttimes, barycentric and the output file names. The frame must be
      "astro" or "bary"; an output file name is taken as it is. */
  function ApplyGeneral(v: SettingsView, key: string, value: string, h: Helpers): (r: (Status, SettingsView))
    requires key in GeneralKeys
    ensures r.0 != Fail(UnrecognizedKey)
    ensures r.0 != Ok ==> r == (Fail(InvalidValue), v)
    ensures key == "enabledistinctstarttimes" ==>
      (r.0 == Ok <==> h.stringToBool(value).Some?) &&
      (r.0 == Ok ==> r.1.enableDistinctStartTimes == h.stringToBool(value).value)
    ensures key == "barycentric" ==>
      (r.0 == Ok <==> value == "astro" || value == "bary") &&
      (r.0 == Ok ==> (r.1.frameCenter == FrameCenterBary <==> value == "bary"))
    ensures key in OutputKeys ==> r.0 == Ok
    ensures key == "output_phases" ==> r.1.output.phases == value
    ensures key == "output_constantproperties" ==> r.1.output.constantProperties == value
    ensures key == "output_variableproperties" ==> r.1.output.variableProperties == value
    ensures key == "output_compositionproperties" ==> r.1.output.compositionProperties == value
    ensures key == "output_twobodyaffair" ==> r.1.output.twoBodyAffair == value
    ensures key == "output_integrals" ==> r.1.output.integrals == value
    ensures key == "output_log" ==> r.1.output.log == value
    ensures SameExcept(v, r.1, FieldsOf(key)) && Persists(v, r.1)
    ensures r.1.integrator == v.integrator && r.1.timeLine == v.timeLine
  {
    if key == "enabledistinctstarttimes" then
      match h.stringToBool(value)
      case Some(b) => (Ok, v.(enableDistinctStartTimes := b))
      case None => (Fail(InvalidValue), v)
    else if key == "barycentric" then
      if value == "astro" then (Ok, v.(frameCenter := FrameCenterAstro))
      else if value == "bary" then (Ok, v.(frameCenter := FrameCenterBary))
      else (Fail(InvalidValue), v)
    else if key == "output_phases" then (Ok, v.(output := v.output.(phases := value)))
    else if key == "output_constantproperties" then (Ok, v.(output := v.output.(constantProperties := value)))
    else if key == "output_variableproperties" then (Ok, v.(output := v.output.(variableProperties := value)))
    else if key == "output_compositionproperties" then (Ok, v.(output := v.output.(compositionProperties := value)))
    else if key == "output_twobodyaffair" then (Ok, v.(output := v.output.(twoBodyAffair := value)))
    else if key == "output_integrals" then (Ok, v.(output := v.output.(integrals := value)))
    else (Ok, v.(output := v.output.(log := value)))
  }

  function ApplyIntegrator(v: SettingsView, key: string, value: string, h: Helpers, c: Constructors): (r: (Status, SettingsView))
    requires key in IntegratorKeys
    ensures r.0 != Fail(UnrecognizedKey)
    ensures r.0 != Ok ==> r.1 == v
    ensures SameExcept(v, r.1, FieldsOf(key)) && Persists(v, r.1)
    ensures v.integrator.None? && r.1.integrator.Some? ==> CreatesIntegrator(key, value)
    ensures r.1.timeLine == v.timeLine
  {
    FieldsOfIntegratorKey(key);
    if key == "integrator_name" then ApplyIntegratorName(v, value, c)
    else ApplyAccuracy(v, value, h)
  }

  /** The ejection and hit-centrum distances. */
  function ApplyDistanceKey(v: SettingsView, key: string, value: string, h: Helpers): (r: (Status, SettingsView))
    requires key in DistanceKeys
    ensures r.0 != Fail(UnrecognizedKey)
    ensures r.0 != Ok ==> r.1 == v
    ensures SameExcept(v, r.1, FieldsOf(key)) && Persists(v, r.1)
    ensures r.1.integrator == v.integrator && r.1.timeLine == v.timeLine
  {
    FieldsOfDistanceKey(key);
    if key == "ejection_value" then
      var d := ApplyDistance(v.ejection, value, h); (d.0, v.(ejection := d.1))
    else if key == "ejection_unit" then
      var d := ApplyDistanceUnit(v.ejection, value, h); (d.0, v.(ejection := d.1))
    else if key == "hitcentrum_value" then
      var d := ApplyDistance(v.hitCentrum, value, h); (d.0, v.(hitCentrum := d.1))
    else
      var d := ApplyDistanceUnit(v.hitCentrum, value, h); (d.0, v.(hitCentrum := d.1))
  }

  lemma FieldsOfIntegratorKey(key: string)
    requires key in IntegratorKeys
    ensures FieldsOf(key) == if key == "integrator_name" then {IntegratorField, IntegratorTypeField} else {IntegratorField}
  {
  }

  lemma FieldsOfDistanceKey(key: string)
    requires key in DistanceKeys
    ensures FieldsOf(key) == if key == "ejection_value" || key == "ejection_unit" then {EjectionField} else {HitCentrumField}
  {
  }

  lemma FieldsOfCloseEncounterKey(key: string)
    requires key == "closeencounter_factor" || key == "closeencounter_stop"
    ensures FieldsOf(key) == {CloseEncounterField}
  {
  }

  lemma FieldsOfCollisionKey(key: string)
    requires key == "collision_factor" || key == "collision_stop"
    ensures FieldsOf(key) == {CollisionField}
  {
  }

  lemma FieldsOfWeakCaptureKey(key: string)
    requires key == "weakcapture_factor" || key == "weakcapture_stop"
    ensures FieldsOf(key) == {WeakCaptureField}
  {
  }

  /** The close-encounter, collision and weak-capture factor and stop keys. */
  function ApplyEvent(v: SettingsView, key: string, value: string, h: Helpers, c: Constructors): (r: (Status, SettingsView))
    requires key in EventKeys
    ensures r.0 != Fail(UnrecognizedKey)
    ensures r.0 != Ok && key !in StopKeys ==> r.1 == v
    ensures SameExcept(v, r.1, FieldsOf(key)) && Persists(v, r.1)
    ensures r.1.integrator == v.integrator && r.1.timeLine == v.timeLine
  {
    if key == "closeencounter_factor" || key == "closeencounter_stop" then ApplyCloseEncounter(v, key, value, h, c)
    else if key == "collision_factor" || key == "collision_stop" then ApplyCollision(v, key, value, h, c)
    else ApplyWeakCapture(v, key, value, h, c)
  }

  function ApplyCloseEncounter(v: SettingsView, key: string, value: string, h: Helpers, c: Constructors): (r: (Status, SettingsView))
    requires key == "closeencounter_factor" || key == "closeencounter_stop"
    ensures r.0 != Fail(UnrecognizedKey)
    ensures r.0 != Ok && key !in StopKeys ==> r.1 == v
    ensures SameExcept(v, r.1, FieldsOf(key)) && Persists(v, r.1)
    ensures r.1.integrator == v.integrator && r.1.timeLine == v.timeLine
  {
    FieldsOfCloseEncounterKey(key);
    if key == "closeencounter_factor" then ApplyFactor(v, CloseEncounterEvent, value, h, c)
    else ApplyStop(v, CloseEncounterEvent, value, h, c)
  }

  function ApplyCollision(v: SettingsView, key: string, value: string, h: Helpers, c: Constructors): (r: (Status, SettingsView))
    requires key == "collision_factor" || key == "collision_stop"
    ensures r.0 != Fail(UnrecognizedKey)
    ensures r.0 != Ok && key !in StopKeys ==> r.1 == v
    ensures SameExcept(v, r.1, FieldsOf(key)) && Persists(v, r.1)
    ensures r.1.integrator == v.integrator && r.1.timeLine == v.timeLine
  {
    FieldsOfCollisionKey(key);
    if key == "collision_factor" then ApplyFactor(v, CollisionEvent, value, h, c)
    else ApplyStop(v, CollisionEvent, value, h, c)
  }

  function ApplyWeakCapture(v: SettingsView, key: string, value: string, h: Helpers, c: Constructors): (r: (Status, SettingsView))
    requires key == "weakcapture_factor" || key == "weakcapture_stop"
    ensures r.0 != Fail(UnrecognizedKey)
    ensures r.0 != Ok && key !in StopKeys ==> r.1 == v
    ensures SameExcept(v, r.1, FieldsOf(key)) && Persists(v, r.1)
    ensures r.1.integrator == v.integrator && r.1.timeLine == v.timeLine
  {
    FieldsOfWeakCaptureKey(key);
    if key == "weakcapture_factor" then ApplyFactor(v, WeakCaptureEvent, value, h, c)
    else ApplyStop(v, WeakCaptureEvent, value, h, c)
  }

  /** SetSettings on an already trimmed and lower-cased key and value: an unknown key is
      the only UnrecognizedKey failure, a key changes only the field it names, objects
      once created stay, and a failure leaves the settings as they were, except that a
      *_stop key has created its event condition before it checks the value. */
  function Apply(v: SettingsView, key: string, value: string, h: Helpers, c: Constructors): (r: (Status, SettingsView))
    ensures SameExcept(v, r.1, FieldsOf(key))
    ensures Persists(v, r.1)
    ensures r.0 != Ok && key !in StopKeys ==> r.1 == v
    ensures v.integrator.None? && r.1.integrator.Some? ==> CreatesIntegrator(key, value)
    ensures v.timeLine.None? && r.1.timeLine.Some? ==> key in CreatingTimeLineKeys && r.0 == Ok
  {
    if key in GeneralKeys then ApplyGeneral(v, key, value, h)
    else if key in IntegratorKeys then ApplyIntegrator(v, key, value, h, c)
    else if key in TimeLineKeys then ApplyTimeLine(v, key, value, h, c)
    else if key in DistanceKeys then ApplyDistanceKey(v, key, value, h)
    else if key in EventKeys then ApplyEvent(v, key, value, h, c)
    else (Fail(UnrecognizedKey), v)
  }

  /** An unknown key is the only UnrecognizedKey failure. */
  lemma ApplyRecognizes(v: SettingsView, key: string, value: string, h: Helpers, c: Constructors)
    ensures Apply(v, key, value, h, c).0 == Fail(UnrecognizedKey) <==> key !in SettingsKeys
  {
    if key in SettingsKeys {
      KnownKeyRecognized(v, key, value, h, c);
    } else {
      UnknownKeyRefused(v, key, value, h, c);
    }
  }

  /** A key outside every group is refused and changes nothing. */
  lemma UnknownKeyRefused(v: SettingsView, key: string, value: string, h: Helpers, c: Constructors)
    requires key !in SettingsKeys
    ensures Apply(v, key, value, h, c) == (Fail(UnrecognizedKey), v)
  {
  }

  lemma KnownKeyRecognized(v: SettingsView, key: string, value: string, h: Helpers, c: Constructors)
    requires key in SettingsKeys
    ensures Apply(v, key, value, h, c).0 != Fail(UnrecognizedKey)
  {
    if key in GeneralKeys {
      assert Apply(v, key, value, h, c) == ApplyGeneral(v, key, value, h);
    } else if key in IntegratorKeys {
      assert Apply(v, key, value, h, c) == ApplyIntegrator(v, key, value, h, c);
    } else if key in TimeLineKeys {
      assert Apply(v, key, value, h, c) == ApplyTimeLine(v, key, value, h, c);
    } else if key in DistanceKeys {
      assert Apply(v, key, value, h, c) == ApplyDistanceKey(v, key, value, h);
    } else {
      EventKeyRecognized(v, key, value, h, c);
    }
  }

  lemma EventKeyRecognized(v: SettingsView, key: string, value: string, h: Helpers, c: Constructors)
    requires key in SettingsKeys
    requires key !in GeneralKeys && key !in IntegratorKeys && key !in TimeLineKeys && key !in DistanceKeys
    ensures Apply(v, key, value, h, c) == ApplyEvent(v, key, value, h, c)
  {
  }

  /** SetSettings: trims and lower-cases the key and the value, then dispatches on the key
      and writes the field it names; an unknown key is reported. The verbose echo is not
      modelled. */
  method SetSettings(key: string, value: string, settings: Settings, h: Helpers, c: Constructors) returns (st: Status)
    modifies settings
    ensures (st, settings.View()) == Apply(old(settings.View()), Normalize(key, h), Normalize(value, h), h, c)
  {
    var k := Normalize(key, h);
    var v := Normalize(value, h);
    if k in GeneralKeys {
      st := SetGeneral(k, v, settings, h);
    } else if k in IntegratorKeys {
      st := SetIntegrator(k, v, settings, h, c);
    } else if k in TimeLineKeys {
      st := SetTimeLine(k, v, settings, h, c);
    } else if k in DistanceKeys {
      st := SetDistance(k, v, settings, h);
    } else if k in EventKeys {
      st := SetEvent(k, v, settings, h, c);
    } else {
      st := Fail(UnrecognizedKey);
    }
  }

  method SetEvent(k: string, v: string, settings: Settings, h: Helpers, c: Constructors) returns (st: Status)
    requires k in EventKeys
    modifies settings
    ensures (st, settings.View()) == ApplyEvent(old(settings.View()), k, v, h, c)
  {
    if k == "closeencounter_factor" || k == "closeencounter_stop" {
      st := SetCloseEncounter(k, v, settings, h, c);
    } else if k == "collision_factor" || k == "collision_stop" {
      st := SetCollision(k, v, settings, h, c);
    } else {
      st := SetWeakCapture(k, v, settings, h, c);
    }
  }

  method SetGeneral(k: string, v: string, settings: Settings, h: Helpers) returns (st: Status)
    requires k in GeneralKeys
    modifies settings
    ensures (st, settings.View()) == ApplyGeneral(old(settings.View()), k, v, h)
  {
    if k == "enabledistinctstarttimes" {
      var b := h.stringToBool(v);
      if b.None? {
        return Fail(InvalidValue);
      }
      settings.enableDistinctStartTimes := b.value;
    } else if k == "barycentric" {
      if v == "astro" {
        settings.frameCenter := FrameCenterAstro;
      } else if v == "bary" {
        settings.frameCenter := FrameCenterBary;
      } else {
        return Fail(InvalidValue);
      }
    } else if k == "output_phases" {
      settings.output := settings.output.(phases := v);
    } else if k == "output_constantproperties" {
      settings.output := settings.output.(constantProperties := v);
    } else if k == "output_variableproperties" {
      settings.output := settings.output.(variableProperties := v);
    } else if k == "output_compositionproperties" {
      settings.output := settings.output.(compositionProperties := v);
    } else if k == "output_twobodyaffair" {
      settings.output := settings.output.(twoBodyAffair := v);
    } else if k == "output_integrals" {
      settings.output := settings.output.(integrals := v);
    } else {
      settings.output := settings.output.(log := v);
    }
    return Ok;
  }

  method SetIntegrator(k: string, v: string, settings: Settings, h: Helpers, c: Constructors) returns (st: Status)
    requires k in IntegratorKeys
    modifies settings
    ensures (st, settings.View()) == ApplyIntegrator(old(settings.View()), k, v, h, c)
  {
    if k == "integrator_name" {
      st := SetIntegratorName(v, settings, c);
    } else {
      st := SetAccuracy(v, settings, h);
    }
  }

  method SetIntegratorName(v: string, settings: Settings, c: Constructors) returns (st: Status)
    modifies settings
    ensures (st, settings.View()) == ApplyIntegratorName(old(settings.View()), v, c)
  {
    if v == "rungekutta4" || v == "rk4" {
      settings.intgrType := RungeKutta4;
      settings.integrator := Some(c.integrator(RungeKutta4));
    } else if v == "rungekutta56" || v == "rk56" {
      settings.intgrType := RungeKutta56;
    } else if v == "rungekuttafehlberg78" || v == "rk78" || v == "rungekutta78" {
      settings.intgrType := RungeKuttaFehlberg78;
      settings.integrator := Some(c.integrator(RungeKuttaFehlberg78));
    } else if v == "dormandprince" || v == "rkn76" {
      settings.intgrType := DormandPrince;
      settings.integrator := Some(c.integrator(DormandPrince));
    } else {
      return Fail(UnknownIntegrator);
    }
    return Ok;
  }

  method SetAccuracy(v: string, settings: Settings, h: Helpers) returns (st: Status)
    modifies settings
    ensures (st, settings.View()) == ApplyAccuracy(old(settings.View()), v, h)
  {
    if !h.isNumber(v) {
      return Fail(InvalidNumber);
    }
    if !ElementOfAndContainsEndPoints(-16.0, 0.0, h.atof(v)) {
      return Fail(OutOfRange);
    }
    if settings.integrator.None? {
      return Fail(NoIntegrator);
    }
    settings.integrator := Some(settings.integrator.value.(accuracy := h.atof(v), epsilon := h.pow10(h.atof(v))));
    return Ok;
  }

  method SetTimeLine(k: string, v: string, settings: Settings, h: Helpers, c: Constructors) returns (st: Status)
    requires k in TimeLineKeys
    modifies settings
    ensures (st, settings.View()) == ApplyTimeLine(old(settings.View()), k, v, h, c)
  {
    if k == "timeline_start" {
      if !h.isNumber(v) {
        return Fail(InvalidNumber);
      } else if settings.timeLine.None? {
        settings.timeLine := Some(c.timeLine);
      }
      settings.timeLine := Some(settings.timeLine.value.(start := h.atof(v)));
      settings.timeLine := Some(settings.timeLine.value.(startTimeDefined := true));
    } else if k == "timeline_length" {
      if !h.isNumber(v) {
        return Fail(InvalidNumber);
      } else if h.atof(v) == 0.0 {
        return Fail(InvalidValue);
      } else if settings.timeLine.None? {
        settings.timeLine := Some(c.timeLine);
      }
      settings.timeLine := Some(settings.timeLine.value.(length := h.atof(v)));
    } else if k == "timeline_output" {
      if !h.isNumber(v) {
        return Fail(InvalidNumber);
      } else if !GreaterThan(0.0, h.atof(v)) {
        return Fail(OutOfRange);
      } else if settings.timeLine.None? {
        settings.timeLine := Some(c.timeLine);
      }
      settings.timeLine := Some(settings.timeLine.value.(output := h.atof(v)));
    } else {
      if !h.timeUnitKnown(v) {
        return Fail(UnrecognizedDimension);
      } else if settings.timeLine.None? {
        return Fail(InvalidTimeline);
      }
      var t := settings.timeLine.value;
      t := t.(start := h.timeToDay(v, t.start));
      t := t.(length := h.timeToDay(v, t.length));
      t := t.(output := h.timeToDay(v, t.output));
      settings.timeLine := Some(t);
    }
    return Ok;
  }

  method SetDistance(k: string, v: string, settings: Settings, h: Helpers) returns (st: Status)
    requires k in DistanceKeys
    modifies settings
    ensures (st, settings.View()) == ApplyDistanceKey(old(settings.View()), k, v, h)
  {
    if k == "ejection_value" {
      if !h.isNumber(v) {
        return Fail(InvalidNumber);
      }
      if !GreaterThanOrEqualTo(0.0, h.atof(v)) {
        return Fail(OutOfRange);
      }
      settings.ejection := h.atof(v);
    } else if k == "ejection_unit" {
      if !h.distanceUnitKnown(v) {
        return Fail(UnrecognizedDimension);
      }
      settings.ejection := h.distanceToAu(v, settings.ejection);
    } else if k == "hitcentrum_value" {
      if !h.isNumber(v) {
        return Fail(InvalidNumber);
      }
      if !GreaterThanOrEqualTo(0.0, h.atof(v)) {
        return Fail(OutOfRange);
      }
      settings.hitCentrum := h.atof(v);
    } else {
      if !h.distanceUnitKnown(v) {
        return Fail(UnrecognizedDimension);
      }
      settings.hitCentrum := h.distanceToAu(v, settings.hitCentrum);
    }
    return Ok;
  }

  method SetCloseEncounter(k: string, v: string, settings: Settings, h: Helpers, c: Constructors) returns (st: Status)
    requires k == "closeencounter_factor" || k == "closeencounter_stop"
    modifies settings
    ensures (st, settings.View()) == ApplyCloseEncounter(old(settings.View()), k, v, h, c)
  {
    if k == "closeencounter_factor" {
      if !h.isNumber(v) {
        return Fail(InvalidNumber);
      } else if !GreaterThanOrEqualTo(0.0, h.atof(v)) {
        return Fail(OutOfRange);
      } else if settings.closeEncounter.None? {
        settings.closeEncounter := Some(c.eventCondition);
      }
      settings.closeEncounter := Some(settings.closeEncounter.value.(factor := h.atof(v)));
    } else {
      if settings.closeEncounter.None? {
        settings.closeEncounter := Some(c.eventCondition);
      }
      var b := h.stringToBool(v);
      if b.None? {
        return Fail(InvalidValue);
      }
      settings.closeEncounter := Some(settings.closeEncounter.value.(stop := b.value));
    }
    return Ok;
  }

  method SetCollision(k: string, v: string, settings: Settings, h: Helpers, c: Constructors) returns (st: Status)
    requires k == "collision_factor" || k == "collision_stop"
    modifies settings
    ensures (st, settings.View()) == ApplyCollision(old(settings.View()), k, v, h, c)
  {
    if k == "collision_factor" {
      if !h.isNumber(v) {
        return Fail(InvalidNumber);
      } else if !ElementOfAndContainsLower(0.0, 1.0, h.atof(v)) {
        return Fail(InvalidValue);
      } else if settings.collision.None? {
        settings.collision := Some(c.eventCondition);
      }
      settings.collision := Some(settings.collision.value.(factor := h.atof(v)));
    } else {
      if settings.collision.None? {
        settings.collision := Some(c.eventCondition);
      }
      var b := h.stringToBool(v);
      if b.None? {
        return Fail(InvalidValue);
      }
      settings.collision := Some(settings.collision.value.(stop := b.value));
    }
    return Ok;
  }

  method SetWeakCapture(k: string, v: string, settings: Settings, h: Helpers, c: Constructors) returns (st: Status)
    requires k == "weakcapture_factor" || k == "weakcapture_stop"
    modifies settings
    ensures (st, settings.View()) == ApplyWeakCapture(old(settings.View()), k, v, h, c)
  {
    if k == "weakcapture_factor" {
      if !h.isNumber(v) {
        return Fail(InvalidNumber);
      } else if !GreaterThanOrEqualTo(0.0, h.atof(v)) {
        return Fail(OutOfRange);
      } else if settings.weakCapture.None? {
        settings.weakCapture := Some(c.eventCondition);
      }
      settings.weakCapture := Some(settings.weakCapture.value.(factor := h.atof(v)));
    } else {
      if settings.weakCapture.None? {
        settings.weakCapture := Some(c.eventCondition);
      }
      var b := h.stringToBool(v);
      if b.None? {
        return Fail(InvalidValue);
      }
      settings.weakCapture := Some(settings.weakCapture.value.(stop := b.value));
    }
    return Ok;
  }

  // ----- a whole settings file -----

  /** One line of a settings file: a line without a key and a value is refused, and a
      key/value pair goes through SetSettings. */
  function ApplyLine(v: SettingsView, line: string, h: Helpers, c: Constructors): (r: (Status, SettingsView))
    ensures Persists(v, r.1)
    ensures KeyValueOf(h.tokenize(line, " = ")).None? ==> r == (Fail(InvalidKeyValuePair), v)
    ensures v.integrator.None? && r.1.integrator.Some? ==> NamesIntegrator(line, h)
    ensures v.timeLine.None? && r.1.timeLine.Some? ==> StartsTimeLine(line, h)
  {
    match KeyValueOf(h.tokenize(line, " = "))
    case None => (Fail(InvalidKeyValuePair), v)
    case Some(kv) => Apply(v, Normalize(kv.key, h), Normalize(kv.value, h), h, c)
  }

  function SettingsStep(h: Helpers, c: Constructors): LineStep<SettingsView>
  {
    (w: SettingsView, line: string) => ApplyLine(w, line, h, c)
  }

  /** ParseSettings: all lines, then an integrator and a time line must exist. */
  function ParseSettingsSpec(v: SettingsView, str: string, h: Helpers, c: Constructors): (r: (Status, SettingsView))
    ensures r.0 == Ok ==> r.1.integrator.Some? && r.1.timeLine.Some?
  {
    var p := ParseLines(v, h.tokenize(str, "\n"), 0, SettingsStep(h, c));
    if p.0 != Ok then p
    else if p.1.integrator.None? then (Fail(MissingIntegrator), p.1)
    else if p.1.timeLine.None? then (Fail(MissingTimeline), p.1)
    else p
  }

  /** ParseSettings: splits the text into lines and applies them with SetSettings until
      the first empty line, then requires an integrator and a time line. */
  method ParseSettings(settings: Settings, str: string, h: Helpers, c: Constructors) returns (st: Status)
    modifies settings
    ensures (st, settings.View()) == ParseSettingsSpec(old(settings.View()), str, h, c)
  {
    var lines := h.tokenize(str, "\n");
    var i: nat := 0;
    while Token(lines, i) != ""
      invariant ParseLines(old(settings.View()), lines, 0, SettingsStep(h, c)) == ParseLines(settings.View(), lines, i, SettingsStep(h, c))
      decreases |lines| - i
    {
      var line := Token(lines, i);
      var kv := ReadKeyValue(line, " = ", h);
      if kv.None? {
        return Fail(InvalidKeyValuePair);
      }
      st := SetSettings(kv.value.key, kv.value.value, settings, h, c);
      if st != Ok {
        return st;
      }
      i := i + 1;
    }
    if settings.integrator.None? {
      return Fail(MissingIntegrator);
    }
    if settings.timeLine.None? {
      return Fail(MissingTimeline);
    }
    return Ok;
  }

  /** A settings line the parse reaches that is not a key/value pair makes the parse fail. */
  lemma MalformedLineFails(v: SettingsView, lines: seq<string>, j: nat, h: Helpers, c: Constructors)
    requires j < |lines|
    requires forall m :: 0 <= m <= j ==> lines[m] != ""
    requires KeyValueOf(h.tokenize(lines[j], " = ")).None?
    ensures ParseLines(v, lines, 0, SettingsStep(h, c)).0 != Ok
  {
    RefusedLineFails(v, lines, 0, j, SettingsStep(h, c));
  }

  /** A line that, as a key/value pair, creates an Integrator object. */
  predicate NamesIntegrator(line: string, h: Helpers)
  {
    var kv := KeyValueOf(h.tokenize(line, " = "));
    kv.Some? && CreatesIntegrator(Normalize(kv.value.key, h), Normalize(kv.value.value, h))
  }

  /** A line that, as a key/value pair, is a timeline_start, _length or _output line. */
  predicate StartsTimeLine(line: string, h: Helpers)
  {
    var kv := KeyValueOf(h.tokenize(line, " = "));
    kv.Some? && Normalize(kv.value.key, h) in CreatingTimeLineKeys
  }

  /** The step creates an integrator or a time line only on the lines that ask for one. */
  ghost predicate CreatesOnlyWhenAsked(step: LineStep<SettingsView>, h: Helpers)
  {
    forall w: SettingsView, line: string ::
      (w.integrator.None? && step(w, line).1.integrator.Some? ==> NamesIntegrator(line, h)) &&
      (w.timeLine.None? && step(w, line).1.timeLine.Some? ==> StartsTimeLine(line, h))
  }

  /** An integrator or a time line that exists after the parse but did not before was
      created by one of the lines read. */
  lemma {:induction false} CreatedByALine(v: SettingsView, lines: seq<string>, i: nat, step: LineStep<SettingsView>, h: Helpers)
    requires CreatesOnlyWhenAsked(step, h)
    ensures var r := ParseLines(v, lines, i, step);
      (v.integrator.None? && r.1.integrator.Some? ==> exists m :: i <= m < |lines| && NamesIntegrator(lines[m], h)) &&
      (v.timeLine.None? && r.1.timeLine.Some? ==> exists m :: i <= m < |lines| && StartsTimeLine(lines[m], h))
    decreases |lines| - i
  {
    var line := Token(lines, i);
    if line != "" {
      var a := step(v, line);
      if a.0 == Ok {
        CreatedByALine(a.1, lines, i + 1, step, h);
      }
    }
  }

  /** A settings file accepted from a fresh Settings object holds a line that names an
      integrator other than rk56 and a timeline_start, _length or _output line. */
  lemma ParseSettingsNeedsIntegratorAndTimeLine(str: string, h: Helpers, c: Constructors)
    ensures var lines := h.tokenize(str, "\n");
      ParseSettingsSpec(Defaults(c), str, h, c).0 == Ok ==>
        (exists m :: 0 <= m < |lines| && NamesIntegrator(lines[m], h)) &&
        (exists m :: 0 <= m < |lines| && StartsTimeLine(lines[m], h))
  {
    assert CreatesOnlyWhenAsked(SettingsStep(h, c), h) by {
      forall w: SettingsView, line: string
        ensures (w.integrator.None? && SettingsStep(h, c)(w, line).1.integrator.Some? ==> NamesIntegrator(line, h)) &&
                (w.timeLine.None? && SettingsStep(h, c)(w, line).1.timeLine.Some? ==> StartsTimeLine(line, h))
      {
        assert SettingsStep(h, c)(w, line) == ApplyLine(w, line, h, c);
      }
    }
    CreatedByALine(Defaults(c), h.tokenize(str, "\n"), 0, SettingsStep(h, c), h);
  }
}
