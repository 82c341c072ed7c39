/** The body description the input parser builds (Body.h and the classes it points
    to). A Body is a value: SetBodyGroupList fills a local Body and pushes a copy of it
    into the group. Its nullable pointers to Phase, OrbitalElement and Characteristics
    are options. */
module BodyModel {
  import opened Foreign
  import opened SolarisTypes

  datatype Vector = Vector(x: real, y: real, z: real)

  const Zero: Vector := Vector(0.0, 0.0, 0.0)

  /** Phase(id): the Cartesian state of the body with that id. */
  datatype Phase = Phase(bodyId: int, position: Vector, velocity: Vector)

  datatype OrbitalElement = OrbitalElement(
    semiMajorAxis: real, eccentricity: real, inclination: real,
    argumentOfPericenter: real, longitudeOfNode: real, meanAnomaly: real)

  datatype Component = Component(name: string, ratio: real)

  datatype Characteristics = Characteristics(
    mass: real, radius: real, density: real, absVisMag: real, stokes: real,
    componentList: seq<Component>)

  datatype Body = Body(
    id: int,
    name: string,
    designation: string,
    provisionalDesignation: string,
    reference: string,
    opposition: string,
    guid: string,
    bodyType: BodyType,
    mpcOrbitType: MpcOrbitType,
    ln: Ln,
    migrationType: MigrationType,
    migrationStopAt: real,
    phase: Option<Phase>,
    orbitalElement: Option<OrbitalElement>,
    characteristics: Option<Characteristics>)

  datatype BodyGroup = BodyGroup(
    description: string,
    epoch: string,
    offset: real,
    referenceFrame: string,
    guid: string,
    items: seq<Body>)

  /** What the default constructors Body(), BodyGroup() and Characteristics() produce;
      their code is not part of this model, so the values are parameters. */
  datatype Blanks = Blanks(body: Body, bodyGroup: BodyGroup, characteristics: Characteristics)
}
