/** The enumerations of the system and the integer codes the output writers emit
    for them (the values of solaris.type/SolarisType.h). */
module SolarisTypes {

  /** body_type_t. CentralBody is BODY_TYPE_STAR. */
  datatype BodyType =
    | UndefinedBodyType
    | CentralBody
    | GiantPlanet
    | RockyPlanet
    | ProtoPlanet
    | SuperPlanetesimal
    | Planetesimal
    | TestParticle

  /** BODY_TYPE_N: one past the last body type code. */
  const BodyTypeCount: int := 8

  function BodyTypeCode(t: BodyType): (c: int)
    ensures 0 <= c < BodyTypeCount
    ensures (c == 0) == (t == UndefinedBodyType)
  {
    match t
    case UndefinedBodyType => 0
    case CentralBody => 1
    case GiantPlanet => 2
    case RockyPlanet => 3
    case ProtoPlanet => 4
    case SuperPlanetesimal => 5
    case Planetesimal => 6
    case TestParticle => 7
  }

  function BodyTypeOfCode(c: int): (t: BodyType)
    requires 0 <= c < BodyTypeCount
    ensures BodyTypeCode(t) == c
  {
    if c == 1 then CentralBody
    else if c == 2 then GiantPlanet
    else if c == 3 then RockyPlanet
    else if c == 4 then ProtoPlanet
    else if c == 5 then SuperPlanetesimal
    else if c == 6 then Planetesimal
    else if c == 7 then TestParticle
    else UndefinedBodyType
  }

  /** mpcorbit_type_t. */
  datatype MpcOrbitType =
    | UndefinedMpcOrbitType
    | Aten | Apollo | Amor | ObjectWithqLt1_665 | Hungaria | Phocaea | Hilda
    | JupiterTrojan | Centaur | Plutino | OtherResonantTNO | Cubewano | ScatteredDisk
    | ObjectIsNEO | ObjectIs1kmOrLargerNEO | OneOppositionObjectSeenAtEarlierOpposition
    | CriticalListNumberedObject | ObjectIsPHA

  function MpcOrbitTypeCode(t: MpcOrbitType): int
  {
    match t
    case UndefinedMpcOrbitType => 0
    case Aten => 2
    case Apollo => 3
    case Amor => 4
    case ObjectWithqLt1_665 => 5
    case Hungaria => 6
    case Phocaea => 7
    case Hilda => 8
    case JupiterTrojan => 9
    case Centaur => 10
    case Plutino => 14
    case OtherResonantTNO => 15
    case Cubewano => 16
    case ScatteredDisk => 17
    case ObjectIsNEO => 2048
    case ObjectIs1kmOrLargerNEO => 4096
    case OneOppositionObjectSeenAtEarlierOpposition => 8192
    case CriticalListNumberedObject => 16384
    case ObjectIsPHA => 32768
  }

  /** migration_type_t. */
  datatype MigrationType = NoMigration | TypeI | TypeII

  function MigrationTypeCode(t: MigrationType): int
  {
    match t
    case NoMigration => 0
    case TypeI => 1
    case TypeII => 2
  }

  /** ln_t. */
  datatype Ln = UndefinedLn | L1 | L2 | L3 | L4 | L5

  function LnCode(l: Ln): int
  {
    match l
    case UndefinedLn => 0
    case L1 => 1
    case L2 => 2
    case L3 => 3
    case L4 => 4
    case L5 => 5
  }

  /** frame_center_t. */
  datatype FrameCenter = FrameCenterAstro | FrameCenterBary

  /** integrator_type_t. */
  datatype IntegratorType =
    | IntegratorTypeUndefined
    | DormandPrince
    | RungeKutta4
    | RungeKutta56
    | RungeKuttaFehlberg78

  /** Distinct enumerators get distinct codes, so a reader of the output can tell them apart. */
  lemma CodesAreInjective()
    ensures forall a: BodyType, b: BodyType :: BodyTypeCode(a) == BodyTypeCode(b) ==> a == b
    ensures forall a: MpcOrbitType, b: MpcOrbitType :: MpcOrbitTypeCode(a) == MpcOrbitTypeCode(b) ==> a == b
    ensures forall a: MigrationType, b: MigrationType :: MigrationTypeCode(a) == MigrationTypeCode(b) ==> a == b
    ensures forall a: Ln, b: Ln :: LnCode(a) == LnCode(b) ==> a == b
  {
  }
}
