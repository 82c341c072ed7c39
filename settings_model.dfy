/** The Settings object the settings parser fills in (Settings.h, Settings.cpp) and the
    objects it owns. Settings is a class because the parser writes its fields in place;
    the TimeLine, EventCondition and Integrator objects it points to are never shared,
    so each is an optional value held in a field. */
module SettingsModel {
  import opened Foreign
  import opened SolarisTypes

  /** The part of an Integrator object the parser writes. */
  datatype Integrator = Integrator(kind: IntegratorType, accuracy: real, epsilon: real)

  datatype TimeLine = TimeLine(start: real, length: real, output: real, startTimeDefined: bool)

  datatype EventCondition = EventCondition(factor: real, stop: bool)

  /** The output file names (Output.h). */
  datatype Output = Output(
    phases: string,
    integrals: string,
    constantProperties: string,
    variableProperties: string,
    compositionProperties: string,
    twoBodyAffair: string,
    log: string)

  /** What the default constructors Output(), TimeLine(), EventCondition() and the
      integrator constructors produce; their code is not part of this model. */
  datatype Constructors = Constructors(
    output: Output,
    timeLine: TimeLine,
    eventCondition: EventCondition,
    integrator: IntegratorType -> Integrator)

  /** The state of a Settings object, one component per field of Settings.h. */
  datatype SettingsView = SettingsView(
    enableDistinctStartTimes: bool,
    frameCenter: FrameCenter,
    integrator: Option<Integrator>,
    intgrType: IntegratorType,
    output: Output,
    timeLine: Option<TimeLine>,
    ejection: real,
    hitCentrum: real,
    closeEncounter: Option<EventCondition>,
    collision: Option<EventCondition>,
    weakCapture: Option<EventCondition>)

  /** The state Settings::Settings() leaves: ASTRO frame, distinct start times off, no
      integrator and an undefined integrator type, no time line and no event conditions,
      zero ejection and hit-centrum distances. */
  function Defaults(c: Constructors): SettingsView
  {
    SettingsView(
      enableDistinctStartTimes := false,
      frameCenter := FrameCenterAstro,
      integrator := None,
      intgrType := IntegratorTypeUndefined,
      output := c.output,
      timeLine := None,
      ejection := 0.0,
      hitCentrum := 0.0,
      closeEncounter := None,
      collision := None,
      weakCapture := None)
  }

  class Settings {
    var enableDistinctStartTimes: bool
    var frameCenter: FrameCenter
    var integrator: Option<Integrator>
    var intgrType: IntegratorType
    var output: Output
    var timeLine: Option<TimeLine>
    var ejection: real
    var hitCentrum: real
    var closeEncounter: Option<EventCondition>
    var collision: Option<EventCondition>
    var weakCapture: Option<EventCondition>

    function View(): SettingsView
      reads this
    {
      SettingsView(enableDistinctStartTimes, frameCenter, integrator, intgrType, output,
                   timeLine, ejection, hitCentrum, closeEncounter, collision, weakCapture)
    }

    constructor (c: Constructors)
      ensures View() == Defaults(c)
      ensures frameCenter == FrameCenterAstro && !enableDistinctStartTimes
      ensures integrator.None? && intgrType == IntegratorTypeUndefined
      ensures timeLine.None? && collision.None? && closeEncounter.None? && weakCapture.None?
      ensures ejection == 0.0 && hitCentrum == 0.0
    {
      frameCenter := FrameCenterAstro;
      enableDistinctStartTimes := false;
      integrator := None;
      intgrType := IntegratorTypeUndefined;
      output := c.output;
      timeLine := None;
      collision := None;
      closeEncounter := None;
      weakCapture := None;
      ejection := 0.0;
      hitCentrum := 0.0;
    }
  }
}
