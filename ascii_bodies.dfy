/** The body-group-list parser of ASCIIFileAdapter.cpp: SetBody, which reads one
    '|'-separated body record, SetBodyGroupList, which applies one key/value pair to the
    list of body groups, and ParseBodyGroupList, which applies every line and then checks
    the last body read. */
module AsciiBodies {
  import opened Foreign
  import opened SolarisTypes
  import opened BodyModel
  import opened AsciiLines

  // ----- keywords -----

  /** The keyword SetBody accepts for each body type (none for the undefined type). */
  function BodyTypeKeyword(t: BodyType): string
  {
    match t
    case UndefinedBodyType => ""
    case CentralBody => "centralbody"
    case GiantPlanet => "giantplanet"
    case RockyPlanet => "rockyplanet"
    case ProtoPlanet => "protoplanet"
    case SuperPlanetesimal => "superplanetesimal"
    case Planetesimal => "planetesimal"
    case TestParticle => "testparticle"
  }

  /** The body type a keyword names: exactly the seven keywords are accepted. */
  function BodyTypeOfKeyword(s: string): (r: Option<BodyType>)
    ensures r.Some? ==> r.value != UndefinedBodyType && BodyTypeKeyword(r.value) == s
    ensures r.None? ==> forall t: BodyType :: t != UndefinedBodyType ==> BodyTypeKeyword(t) != s
  {
    if s == "centralbody" then Some(CentralBody)
    else if s == "giantplanet" then Some(GiantPlanet)
    else if s == "rockyplanet" then Some(RockyPlanet)
    else if s == "protoplanet" then Some(ProtoPlanet)
    else if s == "superplanetesimal" then Some(SuperPlanetesimal)
    else if s == "planetesimal" then Some(Planetesimal)
    else if s == "testparticle" then Some(TestParticle)
    else None
  }

  function MpcOrbitTypeKeyword(t: MpcOrbitType): string
  {
    match t
    case UndefinedMpcOrbitType => ""
    case Aten => "aten"
    case Apollo => "apollo"
    case Amor => "amor"
    case ObjectWithqLt1_665 => "objectwithqlt1_665"
    case Hungaria => "hungaria"
    case Phocaea => "phocaea"
    case Hilda => "hilda"
    case JupiterTrojan => "jupitertrojan"
    case Centaur => "centaur"
    case Plutino => "plutino"
    case OtherResonantTNO => "otherresonanttno"
    case Cubewano => "cubewano"
    case ScatteredDisk => "scattereddisk"
    case ObjectIsNEO => "objectisneo"
    case ObjectIs1kmOrLargerNEO => "objectis1kmorlargerneo"
    case OneOppositionObjectSeenAtEarlierOpposition => "oneoppositionobjectseenatearlieropposition"
    case CriticalListNumberedObject => "criticallistnumberedobject"
    case ObjectIsPHA => "objectispha"
  }

  /** The MPC orbit type a keyword names: exactly the eighteen keywords are accepted. */
  function MpcOrbitTypeOfKeyword(s: string): (r: Option<MpcOrbitType>)
    ensures r.Some? ==> r.value != UndefinedMpcOrbitType && MpcOrbitTypeKeyword(r.value) == s
    ensures r.None? ==> forall t: MpcOrbitType :: t != UndefinedMpcOrbitType ==> MpcOrbitTypeKeyword(t) != s
  {
    if s == "aten" then Some(Aten)
    else if s == "apollo" then Some(Apollo)
    else if s == "amor" then Some(Amor)
    else if s == "objectwithqlt1_665" then Some(ObjectWithqLt1_665)
    else if s == "hungaria" then Some(Hungaria)
    else if s == "phocaea" then Some(Phocaea)
    else if s == "hilda" then Some(Hilda)
    else if s == "jupitertrojan" then Some(JupiterTrojan)
    else if s == "centaur" then Some(Centaur)
    else if s == "plutino" then Some(Plutino)
    else if s == "otherresonanttno" then Some(OtherResonantTNO)
    else if s == "cubewano" then Some(Cubewano)
    else if s == "scattereddisk" then Some(ScatteredDisk)
    else if s == "objectisneo" then Some(ObjectIsNEO)
    else if s == "objectis1kmorlargerneo" then Some(ObjectIs1kmOrLargerNEO)
    else if s == "oneoppositionobjectseenatearlieropposition" then Some(OneOppositionObjectSeenAtEarlierOpposition)
    else if s == "criticallistnumberedobject" then Some(CriticalListNumberedObject)
    else if s == "objectispha" then Some(ObjectIsPHA)
    else None
  }

  function MigrationTypeKeyword(t: MigrationType): string
  {
    match t
    case NoMigration => ""
    case TypeI => "i"
    case TypeII => "ii"
  }

  /** The migration type a keyword names: "i" and "ii" only. */
  function MigrationTypeOfKeyword(s: string): (r: Option<MigrationType>)
    ensures r.Some? ==> r.value != NoMigration && MigrationTypeKeyword(r.value) == s
    ensures r.None? ==> forall t: MigrationType :: t != NoMigration ==> MigrationTypeKeyword(t) != s
  {
    if s == "i" then Some(TypeI) else if s == "ii" then Some(TypeII) else None
  }

  function LnKeyword(l: Ln): string
  {
    match l
    case UndefinedLn => ""
    case L1 => "l1"
    case L2 => "l2"
    case L3 => "l3"
    case L4 => "l4"
    case L5 => "l5"
  }

  /** The Lagrange point a keyword names: "l1" to "l5" only. */
  function LnOfKeyword(s: string): (r: Option<Ln>)
    ensures r.Some? ==> r.value != UndefinedLn && LnKeyword(r.value) == s
    ensures r.None? ==> forall l: Ln :: l != UndefinedLn ==> LnKeyword(l) != s
  {
    if s == "l1" then Some(L1)
    else if s == "l2" then Some(L2)
    else if s == "l3" then Some(L3)
    else if s == "l4" then Some(L4)
    else if s == "l5" then Some(L5)
    else None
  }

  /** Every keyword names back the enumerator it was written for. */
  lemma KeywordsRoundTrip()
    ensures forall t: BodyType :: t != UndefinedBodyType ==> BodyTypeOfKeyword(BodyTypeKeyword(t)) == Some(t)
    ensures forall t: MpcOrbitType :: t != UndefinedMpcOrbitType ==> MpcOrbitTypeOfKeyword(MpcOrbitTypeKeyword(t)) == Some(t)
    ensures forall t: MigrationType :: t != NoMigration ==> MigrationTypeOfKeyword(MigrationTypeKeyword(t)) == Some(t)
    ensures forall l: Ln :: l != UndefinedLn ==> LnOfKeyword(LnKeyword(l)) == Some(l)
  {
    BodyTypeKeywordsRoundTrip();
    MpcOrbitTypeKeywordsRoundTrip();
  }

  lemma BodyTypeKeywordsRoundTrip()
    ensures forall t: BodyType :: t != UndefinedBodyType ==> BodyTypeOfKeyword(BodyTypeKeyword(t)) == Some(t)
  {
  }

  lemma MpcOrbitTypeKeywordsRoundTrip()
    ensures forall t: MpcOrbitType :: t != UndefinedMpcOrbitType ==> MpcOrbitTypeOfKeyword(MpcOrbitTypeKeyword(t)) == Some(t)
  {
  }

  // ----- SetBody, field by field -----

  /** A field written as a single blank keeps the value the body already has. */
  function GivenOr(tok: string, current: string): string
  {
    if tok != " " then tok else current
  }

  /** Tokens 0 to 10: id, name, designation, provisional designation, type, MPC orbit
      type, migration type, migration stop, reference, opposition and Lagrange point. */
  function ReadHeader(toks: seq<string>, h: Helpers, b: Body): (r: Result<Body>)
    ensures !h.isNumber(Token(toks, 0)) ==> r == Failure(InvalidNumber)
    ensures r.Success? ==> r.value.id == h.atoi(Token(toks, 0))
    ensures r.Success? ==>
      r.value.name == GivenOr(Token(toks, 1), b.name) &&
      r.value.designation == GivenOr(Token(toks, 2), b.designation) &&
      r.value.provisionalDesignation == GivenOr(Token(toks, 3), b.provisionalDesignation) &&
      r.value.reference == GivenOr(Token(toks, 8), b.reference) &&
      r.value.opposition == GivenOr(Token(toks, 9), b.opposition)
    ensures r.Success? ==>
      (if Token(toks, 4) == " " then r.value.bodyType == b.bodyType
       else BodyTypeOfKeyword(Token(toks, 4)) == Some(r.value.bodyType)) &&
      (if Token(toks, 5) == " " then r.value.mpcOrbitType == b.mpcOrbitType
       else MpcOrbitTypeOfKeyword(Token(toks, 5)) == Some(r.value.mpcOrbitType)) &&
      (if Token(toks, 6) == " " then r.value.migrationType == b.migrationType
       else MigrationTypeOfKeyword(Token(toks, 6)) == Some(r.value.migrationType)) &&
      (if Token(toks, 10) == " " then r.value.ln == b.ln
       else LnOfKeyword(Token(toks, 10)) == Some(r.value.ln))
    ensures r.Success? ==>
      if Token(toks, 7) == " " then r.value.migrationStopAt == b.migrationStopAt
      else h.isNumber(Token(toks, 7)) && r.value.migrationStopAt == h.atof(Token(toks, 7)) > 0.0
    ensures r.Success? ==>
      r.value.guid == b.guid && r.value.phase == b.phase &&
      r.value.orbitalElement == b.orbitalElement && r.value.characteristics == b.characteristics
    ensures h.isNumber(Token(toks, 0)) && Token(toks, 4) != " " && BodyTypeOfKeyword(Token(toks, 4)).None? ==>
      r == Failure(UnknownBodyType)
  {
    var id := Token(toks, 0);
    if !h.isNumber(id) then Failure(InvalidNumber)
    else
      var b1 := b.(id := h.atoi(id),
                   name := GivenOr(Token(toks, 1), b.name),
                   designation := GivenOr(Token(toks, 2), b.designation),
                   provisionalDesignation := GivenOr(Token(toks, 3), b.provisionalDesignation));
      match ReadKinds(toks, b1)
      case Failure(e) => Failure(e)
      case Success(b4) => ReadStopAndTail(toks, h, b4)
  }

  /** Tokens 4 to 6: the body type, the MPC orbit type and the migration type, each a
      keyword or a blank that keeps the current value. */
  function ReadKinds(toks: seq<string>, b: Body): (r: Result<Body>)
    ensures r.Success? ==>
      r.value == b.(bodyType := r.value.bodyType, mpcOrbitType := r.value.mpcOrbitType,
                    migrationType := r.value.migrationType)
    ensures r.Success? ==>
      (if Token(toks, 4) == " " then r.value.bodyType == b.bodyType
       else BodyTypeOfKeyword(Token(toks, 4)) == Some(r.value.bodyType)) &&
      (if Token(toks, 5) == " " then r.value.mpcOrbitType == b.mpcOrbitType
       else MpcOrbitTypeOfKeyword(Token(toks, 5)) == Some(r.value.mpcOrbitType)) &&
      (if Token(toks, 6) == " " then r.value.migrationType == b.migrationType
       else MigrationTypeOfKeyword(Token(toks, 6)) == Some(r.value.migrationType))
    ensures Token(toks, 4) != " " && BodyTypeOfKeyword(Token(toks, 4)).None? ==> r == Failure(UnknownBodyType)
  {
    var ty := Token(toks, 4);
    if ty != " " && BodyTypeOfKeyword(ty).None? then Failure(UnknownBodyType)
    else
      var b2 := if ty == " " then b else b.(bodyType := BodyTypeOfKeyword(ty).value);
      var mpc := Token(toks, 5);
      if mpc != " " && MpcOrbitTypeOfKeyword(mpc).None? then Failure(UnknownMpcOrbitType)
      else
        var b3 := if mpc == " " then b2 else b2.(mpcOrbitType := MpcOrbitTypeOfKeyword(mpc).value);
        var mig := Token(toks, 6);
        if mig != " " && MigrationTypeOfKeyword(mig).None? then Failure(UnknownMigrationType)
        else Success(if mig == " " then b3 else b3.(migrationType := MigrationTypeOfKeyword(mig).value))
  }

  /** Tokens 7 to 10: the migration stop (a positive number), the reference, the
      opposition and the Lagrange point. */
  function ReadStopAndTail(toks: seq<string>, h: Helpers, b: Body): (r: Result<Body>)
    ensures r.Success? ==>
      r.value == b.(migrationStopAt := r.value.migrationStopAt, reference := r.value.reference,
                    opposition := r.value.opposition, ln := r.value.ln)
    ensures r.Success? ==>
      r.value.reference == GivenOr(Token(toks, 8), b.reference) &&
      r.value.opposition == GivenOr(Token(toks, 9), b.opposition) &&
      (if Token(toks, 10) == " " then r.value.ln == b.ln
       else LnOfKeyword(Token(toks, 10)) == Some(r.value.ln))
    ensures r.Success? ==>
      if Token(toks, 7) == " " then r.value.migrationStopAt == b.migrationStopAt
      else h.isNumber(Token(toks, 7)) && r.value.migrationStopAt == h.atof(Token(toks, 7)) > 0.0
  {
    var stop := Token(toks, 7);
    if stop != " " && !h.isNumber(stop) then Failure(InvalidNumber)
    else if stop != " " && !GreaterThan(0.0, h.atof(stop)) then Failure(OutOfRange)
    else
      var b5 := if stop == " " then b else b.(migrationStopAt := h.atof(stop));
      var b6 := b5.(reference := GivenOr(Token(toks, 8), b5.reference),
                    opposition := GivenOr(Token(toks, 9), b5.opposition));
      var ln := Token(toks, 10);
      if ln != " " && LnOfKeyword(ln).None? then Failure(UnknownLn)
      else Success(if ln == " " then b6 else b6.(ln := LnOfKeyword(ln).value))
  }

  /** Tokens 11 to 16 are all numbers. */
  predicate PhaseTokensAreNumbers(toks: seq<string>, h: Helpers)
  {
    forall j :: 11 <= j < 17 ==> h.isNumber(Token(toks, j))
  }

  /** Tokens 11 to 16: the position and the velocity, all six obligatory; they become a
      new Phase that carries the body's id. */
  function ReadPhase(toks: seq<string>, h: Helpers, b: Body): (r: Result<Body>)
    ensures r.Success? <==> PhaseTokensAreNumbers(toks, h)
    ensures r.Failure? ==> r.error == InvalidNumber
    ensures r.Success? ==> r.value == b.(phase := r.value.phase)
    ensures r.Success? ==> r.value.phase == Some(Phase(b.id,
      Vector(h.atof(Token(toks, 11)), h.atof(Token(toks, 12)), h.atof(Token(toks, 13))),
      Vector(h.atof(Token(toks, 14)), h.atof(Token(toks, 15)), h.atof(Token(toks, 16)))))
  {
    if !PhaseTokensAreNumbers(toks, h) then Failure(InvalidNumber)
    else
      var n := (j: nat) => h.atof(Token(toks, j));
      Success(b.(phase := Some(Phase(b.id, Vector(n(11), n(12), n(13)), Vector(n(14), n(15), n(16))))))
  }

  /** The characteristics a field is written into: the body's own, or a new
      Characteristics() when it has none yet. */
  function CharsOf(b: Body, blank: Characteristics): Characteristics
  {
    if b.characteristics.Some? then b.characteristics.value else blank
  }

  datatype CharField = StokesField | MassField | RadiusField

  function SetChar(c: Characteristics, f: CharField, x: real): Characteristics
  {
    match f
    case StokesField => c.(stokes := x)
    case MassField => c.(mass := x)
    case RadiusField => c.(radius := x)
  }

  function GetChar(c: Characteristics, f: CharField): real
  {
    match f
    case StokesField => c.stokes
    case MassField => c.mass
    case RadiusField => c.radius
  }

  /** Token 17: the absolute visual magnitude, any number. */
  function ReadAbsVisMag(tok: string, h: Helpers, b: Body, blank: Characteristics): (r: Result<Body>)
    ensures tok == " " ==> r == Success(b)
    ensures tok != " " ==> (r.Success? <==> h.isNumber(tok))
    ensures tok != " " && r.Success? ==>
      r.value == b.(characteristics := Some(CharsOf(b, blank).(absVisMag := h.atof(tok))))
    ensures r.Failure? ==> r.error == InvalidNumber
  {
    if tok == " " then Success(b)
    else if !h.isNumber(tok) then Failure(InvalidNumber)
    else Success(b.(characteristics := Some(CharsOf(b, blank).(absVisMag := h.atof(tok)))))
  }

  /** Tokens 18 to 20: the drag coefficient, the mass and the radius, each at least 0. */
  function ReadNonNegative(tok: string, f: CharField, h: Helpers, b: Body, blank: Characteristics): (r: Result<Body>)
    ensures tok == " " ==> r == Success(b)
    ensures tok != " " ==> (r.Success? <==> h.isNumber(tok) && h.atof(tok) >= 0.0)
    ensures tok != " " && r.Success? ==>
      r.value.characteristics.Some? && GetChar(r.value.characteristics.value, f) == h.atof(tok) >= 0.0 &&
      r.value == b.(characteristics := Some(SetChar(CharsOf(b, blank), f, h.atof(tok))))
    ensures tok != " " && !h.isNumber(tok) ==> r == Failure(InvalidNumber)
    ensures tok != " " && h.isNumber(tok) && h.atof(tok) < 0.0 ==> r == Failure(OutOfRange)
  {
    if tok == " " then Success(b)
    else if !h.isNumber(tok) then Failure(InvalidNumber)
    else if !GreaterThanOrEqualTo(0.0, h.atof(tok)) then Failure(OutOfRange)
    else Success(b.(characteristics := Some(SetChar(CharsOf(b, blank), f, h.atof(tok)))))
  }

  /** Whether the density rule reads the radius: a non-zero density of a body that is not
      a super-planetesimal. */
  predicate DensityRuleApplies(t: BodyType, density: real)
  {
    t != SuperPlanetesimal && density != 0.0
  }

  /** Token 21: the density, at least 0, and not together with a positive radius unless
      the body is a super-planetesimal or the density is 0. The source reads the radius
      through the characteristics pointer even when it is null; the model reports
      NullCharacteristics there. */
  function ReadDensity(tok: string, h: Helpers, b: Body, blank: Characteristics): (r: Result<Body>)
    ensures tok == " " ==> r == Success(b)
    ensures tok != " " && r.Success? ==>
      h.isNumber(tok) && h.atof(tok) >= 0.0 &&
      r.value == b.(characteristics := Some(CharsOf(b, blank).(density := h.atof(tok))))
    ensures tok != " " && r.Success? && DensityRuleApplies(b.bodyType, h.atof(tok)) ==>
      b.characteristics.Some? && b.characteristics.value.radius <= 0.0
    ensures tok != " " && h.isNumber(tok) && h.atof(tok) >= 0.0 && DensityRuleApplies(b.bodyType, h.atof(tok)) &&
            b.characteristics.Some? && b.characteristics.value.radius > 0.0 ==>
              r == Failure(RadiusAndDensity)
    ensures tok != " " && h.isNumber(tok) && h.atof(tok) >= 0.0 && !DensityRuleApplies(b.bodyType, h.atof(tok)) ==> r.Success?
  {
    if tok == " " then Success(b)
    else if !h.isNumber(tok) then Failure(InvalidNumber)
    else if !GreaterThanOrEqualTo(0.0, h.atof(tok)) then Failure(OutOfRange)
    else if DensityRuleApplies(b.bodyType, h.atof(tok)) && b.characteristics.None? then Failure(NullCharacteristics)
    else if DensityRuleApplies(b.bodyType, h.atof(tok)) && b.characteristics.value.radius > 0.0 then Failure(RadiusAndDensity)
    else Success(b.(characteristics := Some(CharsOf(b, blank).(density := h.atof(tok)))))
  }

  /** Tokens 17 to 21, in the order SetBody reads them. */
  function ReadCharacteristics(toks: seq<string>, h: Helpers, b: Body, blank: Characteristics): (r: Result<Body>)
    ensures r.Success? ==> r.value.phase == b.phase && r.value.id == b.id && r.value.bodyType == b.bodyType
    ensures r.Success? ==> r.value.orbitalElement == b.orbitalElement
    ensures r.Success? && r.value.characteristics.None? ==> r.value == b
  {
    match ReadAbsVisMag(Token(toks, 17), h, b, blank)
    case Failure(e) => Failure(e)
    case Success(b1) =>
      match ReadNonNegative(Token(toks, 18), StokesField, h, b1, blank)
      case Failure(e) => Failure(e)
      case Success(b2) =>
        match ReadNonNegative(Token(toks, 19), MassField, h, b2, blank)
        case Failure(e) => Failure(e)
        case Success(b3) =>
          match ReadNonNegative(Token(toks, 20), RadiusField, h, b3, blank)
          case Failure(e) => Failure(e)
          case Success(b4) => ReadDensity(Token(toks, 21), h, b4, blank)
  }

  /** Everything SetBody reads before the component list. */
  function ReadFields(toks: seq<string>, h: Helpers, blanks: Blanks): (r: Result<Body>)
    ensures r.Success? ==> r.value.phase.Some? && r.value.phase.value.bodyId == r.value.id
    ensures r.Success? ==> r.value.orbitalElement == blanks.body.orbitalElement
  {
    match ReadHeader(toks, h, blanks.body)
    case Failure(e) => Failure(e)
    case Success(b1) =>
      match ReadPhase(toks, h, b1)
      case Failure(e) => Failure(e)
      case Success(b2) => ReadCharacteristics(toks, h, b2, blanks.characteristics)
  }

  // ----- the component list -----

  /** The name and the ratio token of the i-th component of a list starting at token k. */
  function NameToken(toks: seq<string>, k: nat, i: nat): string
  {
    Token(toks, k + 2 * i)
  }

  function RatioToken(toks: seq<string>, k: nat, i: nat): string
  {
    Token(toks, k + 2 * i + 1)
  }

  /** A ratio SetBody accepts: a number in [0, 100]. */
  predicate RatioOk(tok: string, h: Helpers)
  {
    h.isNumber(tok) && ElementOfAndContainsEndPoints(0.0, 100.0, h.atof(tok))
  }

  /** n name/ratio pairs from token k on. */
  function ReadComponents(toks: seq<string>, k: nat, n: int, h: Helpers): (r: Result<seq<Component>>)
    ensures r.Success? <==> forall i :: 0 <= i < n ==> RatioOk(RatioToken(toks, k, i), h)
    ensures r.Success? ==> |r.value| == if n > 0 then n else 0
    decreases if n > 0 then n else 0
  {
    if n <= 0 then Success([])
    else
      var name := Token(toks, k);
      var ratio := Token(toks, k + 1);
      assert RatioToken(toks, k, 0) == ratio;
      if !h.isNumber(ratio) then Failure(InvalidNumber)
      else if !ElementOfAndContainsEndPoints(0.0, 100.0, h.atof(ratio)) then Failure(OutOfRange)
      else
        match ReadComponents(toks, k + 2, n - 1, h)
        case Failure(e) =>
          assert !RatioOk(RatioToken(toks, k, 0), h) || exists i :: 1 <= i < n && !RatioOk(RatioToken(toks, k, i), h) by {
            var i :| 0 <= i < n - 1 && !RatioOk(RatioToken(toks, k + 2, i), h);
            assert RatioToken(toks, k + 2, i) == RatioToken(toks, k, i + 1);
          }
          Failure(e)
        case Success(rest) =>
          assert forall i :: 0 <= i < n ==> RatioOk(RatioToken(toks, k, i), h) by {
            forall i | 1 <= i < n
              ensures RatioOk(RatioToken(toks, k, i), h)
            {
              assert RatioToken(toks, k, i) == RatioToken(toks, k + 2, i - 1);
            }
          }
          Success([Component(name, h.atof(ratio))] + rest)
  }

  /** The i-th pair read is the i-th name with the i-th ratio, and every ratio lies in [0, 100]. */
  lemma {:induction false} ComponentsRead(toks: seq<string>, k: nat, n: int, h: Helpers)
    requires ReadComponents(toks, k, n, h).Success?
    ensures var cs := ReadComponents(toks, k, n, h).value;
      forall i :: 0 <= i < |cs| ==>
        cs[i] == Component(NameToken(toks, k, i), h.atof(RatioToken(toks, k, i))) && 0.0 <= cs[i].ratio <= 100.0
    decreases if n > 0 then n else 0
  {
    if n > 0 {
      ComponentsRead(toks, k + 2, n - 1, h);
      var cs := ReadComponents(toks, k, n, h).value;
      var rest := ReadComponents(toks, k + 2, n - 1, h).value;
      assert cs == [Component(Token(toks, k), h.atof(Token(toks, k + 1)))] + rest;
      assert NameToken(toks, k, 0) == Token(toks, k) && RatioToken(toks, k, 0) == Token(toks, k + 1);
      forall i | 1 <= i < |cs|
        ensures cs[i] == Component(NameToken(toks, k, i), h.atof(RatioToken(toks, k, i)))
      {
        assert cs[i] == rest[i - 1];
        assert NameToken(toks, k + 2, i - 1) == NameToken(toks, k, i);
        assert RatioToken(toks, k + 2, i - 1) == RatioToken(toks, k, i);
      }
    }
  }

  /** The ratios of a component list, added from the first to the last. */
  function SumRatios(cs: seq<Component>): real
  {
    if cs == [] then 0.0 else SumRatios(cs[..|cs| - 1]) + cs[|cs| - 1].ratio
  }

  /** The largest difference from 100 that the ratio check lets pass. */
  const RatioTolerance: real := 0.0001

  /** The body with the given components appended to its component list. */
  function WithComponents(b: Body, cs: seq<Component>): Body
    requires cs != [] ==> b.characteristics.Some?
  {
    if cs == [] then b
    else b.(characteristics := Some(b.characteristics.value.(componentList := b.characteristics.value.componentList + cs)))
  }

  /** Token 22 and after: a component count, then that many name/ratio pairs, then the
      end of the record. A count of "0" needs nothing; any other count must be positive,
      its ratios must each lie in [0, 100] and add up to 100 within RatioTolerance. The
      source pushes the first component through the characteristics pointer even when
      it is null; the model reports NullCharacteristics there. */
  function ReadComponentList(toks: seq<string>, h: Helpers, b: Body): (r: Result<Body>)
    ensures r.Success? ==> r.value == b.(characteristics := r.value.characteristics)
  {
    var count := Token(toks, 22);
    if count != "0" then
      var n := h.atoi(count);
      if n > 0 && b.characteristics.None? then Failure(NullCharacteristics)
      else
        match ReadComponents(toks, 23, n, h)
        case Failure(e) => Failure(e)
        case Success(cs) =>
          if Token(toks, 23 + 2 * |cs|) != "" then Failure(InvalidComponentCount)
          else if Abs(100.0 - SumRatios(cs)) > RatioTolerance then Failure(RatioSumNot100)
          else
            Success(WithComponents(b, cs))
    else if Token(toks, 23) != "" then Failure(InvalidComponentCount)
    else Success(b)
  }

  /** What a component list SetBody accepts looks like: "0" with nothing after it, or a
      positive count of pairs, appended to the body's list, whose ratios lie in [0, 100]
      and add up to 100 within RatioTolerance, followed by the end of the record. Nothing
      else about the body changes. */
  lemma ComponentListAccepted(toks: seq<string>, h: Helpers, b: Body)
    ensures var r := ReadComponentList(toks, h, b);
      Token(toks, 22) == "0" ==> r == (if Token(toks, 23) != "" then Failure(InvalidComponentCount) else Success(b))
    ensures var r := ReadComponentList(toks, h, b);
      Token(toks, 22) != "0" && h.atoi(Token(toks, 22)) <= 0 ==> r.Failure?
    ensures var r := ReadComponentList(toks, h, b);
      r.Success? ==> r.value == b.(characteristics := r.value.characteristics)
    ensures var r := ReadComponentList(toks, h, b);
      Token(toks, 22) != "0" && r.Success? ==>
        var n := h.atoi(Token(toks, 22));
        n > 0 && b.characteristics.Some? && r.value.characteristics.Some? &&
        Token(toks, 23 + 2 * n) == "" &&
        var L0 := b.characteristics.value.componentList;
        var L := r.value.characteristics.value.componentList;
        |L| == |L0| + n && L[..|L0|] == L0 &&
        (forall i :: |L0| <= i < |L| ==> 0.0 <= L[i].ratio <= 100.0) &&
        Abs(100.0 - SumRatios(L[|L0|..])) <= RatioTolerance
  {
    var r := ReadComponentList(toks, h, b);
    var n := h.atoi(Token(toks, 22));
    if Token(toks, 22) != "0" && !(n > 0 && b.characteristics.None?) {
      var pairs := ReadComponents(toks, 23, n, h);
      if pairs.Success? {
        var cs := pairs.value;
        if Token(toks, 23 + 2 * |cs|) == "" && Abs(100.0 - SumRatios(cs)) <= RatioTolerance {
          assert r == Success(WithComponents(b, cs));
          AppendedComponents(b, cs);
          ComponentsRead(toks, 23, n, h);
        }
      }
    }
  }

  /** The components WithComponents appends follow the ones the body had. */
  lemma AppendedComponents(b: Body, cs: seq<Component>)
    requires cs != [] && b.characteristics.Some?
    ensures var w := WithComponents(b, cs);
      var L0 := b.characteristics.value.componentList;
      w == b.(characteristics := w.characteristics) && w.characteristics.Some? &&
      var L := w.characteristics.value.componentList;
      |L| == |L0| + |cs| && L[..|L0|] == L0 && L[|L0|..] == cs
  {
  }

  /** SetBody as a function of the tokens of the record. */
  function BodySpec(toks: seq<string>, h: Helpers, blanks: Blanks): (r: Result<Body>)
    ensures r.Success? ==> r.value.phase.Some? && r.value.phase.value.bodyId == r.value.id
    ensures r.Success? ==> r.value.orbitalElement == blanks.body.orbitalElement
  {
    match ReadFields(toks, h, blanks)
    case Failure(e) => Failure(e)
    case Success(b) => ReadComponentList(toks, h, b)
  }

  /** Prepending the components already read to the rest of the list. */
  function Prepend(acc: seq<Component>, r: Result<seq<Component>>): Result<seq<Component>>
  {
    match r
    case Failure(e) => Failure(e)
    case Success(cs) => Success(acc + cs)
  }

  /** ReadComponentList once the pairs have been read. */
  lemma ComponentListOfPairs(toks: seq<string>, h: Helpers, b: Body, pairs: Result<seq<Component>>)
    requires Token(toks, 22) != "0"
    requires h.atoi(Token(toks, 22)) > 0 ==> b.characteristics.Some?
    requires pairs == ReadComponents(toks, 23, h.atoi(Token(toks, 22)), h)
    ensures ReadComponentList(toks, h, b) ==
      match pairs
      case Failure(e) => Failure(e)
      case Success(cs) =>
        if Token(toks, 23 + 2 * |cs|) != "" then Failure(InvalidComponentCount)
        else if Abs(100.0 - SumRatios(cs)) > RatioTolerance then Failure(RatioSumNot100)
        else Success(WithComponents(b, cs))
  {
  }

  lemma PrependNothing(r: Result<seq<Component>>)
    ensures Prepend([], r) == r
  {
    if r.Success? {
      assert [] + r.value == r.value;
    }
  }

  /** One pass of the component loop: the pair at token k moves from the list still to
      read to the list already read. */
  lemma ComponentsStep(toks: seq<string>, k: nat, n: int, h: Helpers, acc: seq<Component>)
    requires n > 0 && RatioOk(Token(toks, k + 1), h)
    ensures Prepend(acc, ReadComponents(toks, k, n, h)) ==
            Prepend(acc + [Component(Token(toks, k), h.atof(Token(toks, k + 1)))], ReadComponents(toks, k + 2, n - 1, h))
  {
    var rest := ReadComponents(toks, k + 2, n - 1, h);
    if rest.Success? {
      var c := Component(Token(toks, k), h.atof(Token(toks, k + 1)));
      assert acc + ([c] + rest.value) == (acc + [c]) + rest.value;
    }
  }

  /** The body with one more component at the end of its list. */
  function AddComponent(b: Body, c: Component): Body
    requires b.characteristics.Some?
  {
    b.(characteristics := Some(b.characteristics.value.(componentList := b.characteristics.value.componentList + [c])))
  }

  lemma WithComponentsSnoc(b: Body, acc: seq<Component>, c: Component)
    requires b.characteristics.Some?
    ensures WithComponents(b, acc).characteristics.Some?
    ensures WithComponents(b, acc + [c]) == AddComponent(WithComponents(b, acc), c)
  {
    var L := b.characteristics.value.componentList;
    assert |acc + [c]| > 0;
    if acc == [] {
      assert acc + [c] == [c];
    } else {
      assert L + (acc + [c]) == (L + acc) + [c];
    }
  }

  lemma SumRatiosSnoc(cs: seq<Component>, c: Component)
    ensures SumRatios(cs + [c]) == SumRatios(cs) + c.ratio
  {
    assert (cs + [c])[..|cs|] == cs;
  }

  /** SetBody: splits the record at '|' and reads its fields in order, then the
      component list. */
  method SetBody(bodystring: string, h: Helpers, blanks: Blanks) returns (r: Result<Body>)
    ensures r == BodySpec(h.tokenize(bodystring, "|"), h, blanks)
  {
    var toks := h.tokenize(bodystring, "|");
    var fields := ReadFields(toks, h, blanks);
    if fields.Failure? {
      return Failure(fields.error);
    }
    r := SetComponentList(toks, h, fields.value);
  }

  /** The component part of SetBody: the count, the pairs, then the two end checks. */
  method SetComponentList(toks: seq<string>, h: Helpers, b: Body) returns (r: Result<Body>)
    ensures r == ReadComponentList(toks, h, b)
  {
    var value := Token(toks, 22);
    if value != "0" {
      var compnum := h.atoi(value);
      var st, body, ratiosum, next := ReadPairs(toks, h, b, compnum);
      if !(compnum > 0 && b.characteristics.None?) {
        ComponentListOfPairs(toks, h, b, ReadComponents(toks, 23, compnum, h));
      }
      if st != Ok {
        return Failure(st.error);
      }
      if Token(toks, next) != "" {
        return Failure(InvalidComponentCount);
      } else if Abs(ratiosum) > RatioTolerance {
        return Failure(RatioSumNot100);
      }
      return Success(body);
    } else if Token(toks, 23) != "" {
      return Failure(InvalidComponentCount);
    }
    return Success(b);
  }

  /** The component loop of SetBody: compnum counts the pairs still to read, each pair
      is appended to the body's component list, and ratiosum keeps what is left of 100
      after the ratios read so far. */
  method ReadPairs(toks: seq<string>, h: Helpers, b: Body, n: int) returns (st: Status, body: Body, ratiosum: real, next: nat)
    ensures n > 0 && b.characteristics.None? ==> st == Fail(NullCharacteristics)
    ensures !(n > 0 && b.characteristics.None?) ==>
      match ReadComponents(toks, 23, n, h)
      case Failure(e) => st == Fail(e)
      case Success(cs) =>
        st == Ok && (cs != [] ==> b.characteristics.Some?) && body == WithComponents(b, cs) &&
        ratiosum == 100.0 - SumRatios(cs) && next == 23 + 2 * |cs|
  {
    body := b;
    ratiosum := 100.0;
    next := 23;
    var compnum := n;
    ghost var acc: seq<Component> := [];
    PrependNothing(ReadComponents(toks, next, compnum, h));
    while compnum > 0
      invariant compnum <= n && (compnum < n ==> 0 <= compnum)
      invariant next == 23 + 2 * (n - compnum) && |acc| == n - compnum
      invariant acc != [] ==> b.characteristics.Some?
      invariant body == WithComponents(b, acc)
      invariant ratiosum == 100.0 - SumRatios(acc)
      invariant ReadComponents(toks, 23, n, h) == Prepend(acc, ReadComponents(toks, next, compnum, h))
      decreases compnum
    {
      var at := next;
      var pairStatus, component;
      pairStatus, component, next := ReadPair(toks, h, body, at);
      if pairStatus != Ok {
        if pairStatus != Fail(NullCharacteristics) {
          PairFails(toks, h, n, acc, at, compnum, pairStatus.error);
        }
        return pairStatus, body, ratiosum, next;
      }
      PairsStep(toks, h, b, n, acc, at, compnum, body, ratiosum, component);
      body := AddComponent(body, component);
      ratiosum := ratiosum - component.ratio;
      acc := acc + [component];
      compnum := compnum - 1;
    }
    assert acc + [] == acc;
    st := Ok;
  }

  /** One pass of the component loop up to its checks: the name token, the characteristics
      the source dereferences, then the ratio token, which must be a number in [0, 100]. */
  method ReadPair(toks: seq<string>, h: Helpers, body: Body, next0: nat) returns (st: Status, c: Component, next: nat)
    ensures body.characteristics.None? ==> st == Fail(NullCharacteristics) && next == next0 + 1
    ensures body.characteristics.Some? ==>
      next == next0 + 2 &&
      (if !h.isNumber(Token(toks, next0 + 1)) then st == Fail(InvalidNumber)
       else if !RatioOk(Token(toks, next0 + 1), h) then st == Fail(OutOfRange)
       else st == Ok && c == Component(Token(toks, next0), h.atof(Token(toks, next0 + 1))))
  {
    next := next0;
    var value := Token(toks, next);
    next := next + 1;
    c := Component(value, 0.0);
    if body.characteristics.None? {
      return Fail(NullCharacteristics), c, next;
    }
    var name := value;
    value := Token(toks, next);
    next := next + 1;
    if !h.isNumber(value) {
      return Fail(InvalidNumber), c, next;
    } else if !ElementOfAndContainsEndPoints(0.0, 100.0, h.atof(value)) {
      return Fail(OutOfRange), c, next;
    }
    c := Component(name, h.atof(value));
    st := Ok;
  }

  /** A ratio the component loop refuses fails the whole list. */
  lemma PairFails(toks: seq<string>, h: Helpers, n: int, acc: seq<Component>, next: nat, compnum: int, e: ErrorKind)
    requires 0 < compnum
    requires ReadComponents(toks, 23, n, h) == Prepend(acc, ReadComponents(toks, next, compnum, h))
    requires e == (if !h.isNumber(Token(toks, next + 1)) then InvalidNumber else OutOfRange)
    requires !RatioOk(Token(toks, next + 1), h)
    ensures ReadComponents(toks, 23, n, h) == Failure(e)
  {
  }

  /** One pass of the component loop keeps its invariants. */
  lemma PairsStep(toks: seq<string>, h: Helpers, b: Body, n: int, acc: seq<Component>, next: nat, compnum: int,
                  body: Body, ratiosum: real, c: Component)
    requires 0 < compnum
    requires acc != [] ==> b.characteristics.Some?
    requires body == WithComponents(b, acc) && body.characteristics.Some?
    requires ratiosum == 100.0 - SumRatios(acc)
    requires ReadComponents(toks, 23, n, h) == Prepend(acc, ReadComponents(toks, next, compnum, h))
    requires RatioOk(Token(toks, next + 1), h) && c == Component(Token(toks, next), h.atof(Token(toks, next + 1)))
    ensures b.characteristics.Some?
    ensures AddComponent(body, c) == WithComponents(b, acc + [c])
    ensures ratiosum - c.ratio == 100.0 - SumRatios(acc + [c])
    ensures ReadComponents(toks, 23, n, h) == Prepend(acc + [c], ReadComponents(toks, next + 2, compnum - 1, h))
  {
    ComponentsStep(toks, next, compnum, h, acc);
    WithComponentsSnoc(b, acc, c);
    SumRatiosSnoc(acc, c);
  }

  // ----- the body group list -----

  /** The keys SetBodyGroupList recognises. */
  const GroupKeys: set<string> := {"description", "epoch", "offset", "referenceframe", "guid", "body"}

  function Last<T>(s: seq<T>): T
    requires s != []
  {
    s[|s| - 1]
  }

  /** The list with its last group replaced; the other groups stay as they are. */
  function WithLast(items: seq<BodyGroup>, g: BodyGroup): (r: seq<BodyGroup>)
    requires items != []
    ensures |r| == |items| && r[..|items| - 1] == items[..|items| - 1] && Last(r) == g
  {
    items[|items| - 1 := g]
  }

  /** SetBodyGroupList on an already trimmed and lower-cased key and value. A description
      opens a new group; every other key writes into the last group, which must exist
      (the source calls back() on the list without a check). A failure leaves the list
      as it was. */
  function GroupStep(items: seq<BodyGroup>, key: string, value: string, h: Helpers, blanks: Blanks): (r: (Status, seq<BodyGroup>))
    ensures r.0 != Ok ==> r.1 == items
    ensures key !in GroupKeys ==> r == (Fail(UnrecognizedKey), items)
    ensures key in GroupKeys && key != "body" ==> r.0 != Fail(UnrecognizedKey)
    ensures key == "description" ==> r == (Ok, items + [blanks.bodyGroup.(description := value)])
    ensures key in GroupKeys && key != "description" && items == [] ==> r.0 != Ok
    ensures r.0 == Ok && key != "description" ==>
      items != [] && |r.1| == |items| && r.1[..|items| - 1] == items[..|items| - 1]
    ensures r.0 == Ok && key != "description" && key != "body" ==> Last(r.1).items == Last(items).items
    ensures key == "epoch" ==>
      (r.0 == Ok <==> h.epochFormatKnown(value) && items != []) &&
      (r.0 == Ok ==> Last(r.1) == Last(items).(epoch := value))
    ensures key == "offset" ==>
      (r.0 == Ok <==> h.isNumber(value) && items != []) &&
      (r.0 == Ok ==> Last(r.1) == Last(items).(offset := h.atof(value)))
    ensures key == "referenceframe" ==>
      (r.0 == Ok <==> items != []) && (r.0 == Ok ==> Last(r.1) == Last(items).(referenceFrame := value))
    ensures key == "guid" ==>
      (r.0 == Ok <==> items != []) && (r.0 == Ok ==> Last(r.1) == Last(items).(guid := value))
    ensures key == "body" ==>
      var body := BodySpec(h.tokenize(value, "|"), h, blanks);
      (r.0 == Ok <==> body.Success? && items != []) &&
      (body.Failure? ==> r.0 == Fail(body.error)) &&
      (r.0 == Ok ==> Last(r.1) == Last(items).(items := Last(items).items + [body.value]))
  {
    if key == "description" then (Ok, items + [blanks.bodyGroup.(description := value)])
    else if key == "epoch" then
      if !h.epochFormatKnown(value) then (Fail(UndefinedEpochFormat), items)
      else if items == [] then (Fail(NoBodyGroup), items)
      else (Ok, WithLast(items, Last(items).(epoch := value)))
    else if key == "offset" then
      if !h.isNumber(value) then (Fail(InvalidNumber), items)
      else if items == [] then (Fail(NoBodyGroup), items)
      else (Ok, WithLast(items, Last(items).(offset := h.atof(value))))
    else if key == "referenceframe" then
      if items == [] then (Fail(NoBodyGroup), items)
      else (Ok, WithLast(items, Last(items).(referenceFrame := value)))
    else if key == "guid" then
      if items == [] then (Fail(NoBodyGroup), items)
      else (Ok, WithLast(items, Last(items).(guid := value)))
    else if key == "body" then
      match BodySpec(h.tokenize(value, "|"), h, blanks)
      case Failure(e) => (Fail(e), items)
      case Success(body) =>
        if items == [] then (Fail(NoBodyGroup), items)
        else (Ok, WithLast(items, Last(items).(items := Last(items).items + [body])))
    else (Fail(UnrecognizedKey), items)
  }

  /** The body groups the input file describes, in the order of their description lines. */
  class BodyGroupList {
    var items: seq<BodyGroup>

    constructor ()
      ensures items == []
    {
      items := [];
    }

    /** SetBodyGroupList: trims and lower-cases the key and the value, then opens a new
        group or writes into the last one. The verbose echo is not modelled. */
    method SetBodyGroupList(key: string, value: string, h: Helpers, blanks: Blanks) returns (st: Status)
      modifies this
      ensures (st, items) == GroupStep(old(items), Normalize(key, h), Normalize(value, h), h, blanks)
    {
      var k := Normalize(key, h);
      var v := Normalize(value, h);
      if k == "description" {
        ghost var before := items;
        items := items + [blanks.bodyGroup];
        items := items[|items| - 1 := items[|items| - 1].(description := v)];
        assert items == before + [blanks.bodyGroup.(description := v)];
      } else if k == "epoch" {
        if !h.epochFormatKnown(v) {
          return Fail(UndefinedEpochFormat);
        }
        if items == [] {
          return Fail(NoBodyGroup);
        }
        items := items[|items| - 1 := items[|items| - 1].(epoch := v)];
      } else if k == "offset" {
        if !h.isNumber(v) {
          return Fail(InvalidNumber);
        }
        if items == [] {
          return Fail(NoBodyGroup);
        }
        items := items[|items| - 1 := items[|items| - 1].(offset := h.atof(v))];
      } else if k == "referenceframe" {
        if items == [] {
          return Fail(NoBodyGroup);
        }
        items := items[|items| - 1 := items[|items| - 1].(referenceFrame := v)];
      } else if k == "guid" {
        if items == [] {
          return Fail(NoBodyGroup);
        }
        items := items[|items| - 1 := items[|items| - 1].(guid := v)];
      } else if k == "body" {
        var body := SetBody(v, h, blanks);
        if body.Failure? {
          return Fail(body.error);
        }
        if items == [] {
          return Fail(NoBodyGroup);
        }
        var g := items[|items| - 1];
        items := items[|items| - 1 := g.(items := g.items + [body.value])];
        assert body == BodySpec(h.tokenize(v, "|"), h, blanks);
      } else {
        return Fail(UnrecognizedKey);
      }
      return Ok;
    }
  }

  // ----- a whole body group list file -----

  /** One line of a body group list file: "key = value" split at '='. */
  function GroupLine(items: seq<BodyGroup>, line: string, h: Helpers, blanks: Blanks): (r: (Status, seq<BodyGroup>))
    ensures KeyValueOf(h.tokenize(line, "=")).None? ==> r == (Fail(InvalidKeyValuePair), items)
  {
    match KeyValueOf(h.tokenize(line, "="))
    case None => (Fail(InvalidKeyValuePair), items)
    case Some(kv) => GroupStep(items, Normalize(kv.key, h), Normalize(kv.value, h), h, blanks)
  }

  function GroupListStep(h: Helpers, blanks: Blanks): LineStep<seq<BodyGroup>>
  {
    (items: seq<BodyGroup>, line: string) => GroupLine(items, line, h, blanks)
  }

  /** The body ParseBodyGroupList accepts as the last one: exactly one of a phase and an
      orbital element, a defined type, and no test particle that has characteristics
      and migrates. */
  predicate AcceptedLastBody(b: Body)
  {
    (b.phase.Some? != b.orbitalElement.Some?) && b.bodyType != UndefinedBodyType &&
    !(b.bodyType == TestParticle && b.characteristics.Some? && b.migrationType != NoMigration)
  }

  /** The checks after the last line. They look only at the last body of the last group;
      the source reads that body with back().back() without checking that it exists. */
  function FinalCheck(items: seq<BodyGroup>): (st: Status)
    ensures st == Ok <==> items != [] && Last(items).items != [] && AcceptedLastBody(Last(Last(items).items))
    ensures items != [] && Last(items).items != [] ==>
      var b := Last(Last(items).items);
      (b.phase.Some? && b.orbitalElement.Some? <==> st == Fail(BothPhaseAndOrbitalElement)) &&
      (b.phase.None? && b.orbitalElement.None? <==> st == Fail(NeitherPhaseNorOrbitalElement))
  {
    if items == [] then Fail(NoBodyGroup)
    else if Last(items).items == [] then Fail(NoBody)
    else
      var b := Last(Last(items).items);
      if b.phase.Some? && b.orbitalElement.Some? then Fail(BothPhaseAndOrbitalElement)
      else if b.phase.None? && b.orbitalElement.None? then Fail(NeitherPhaseNorOrbitalElement)
      else if b.bodyType == UndefinedBodyType then Fail(MissingBodyType)
      else if b.bodyType == TestParticle && b.characteristics.Some? && b.migrationType != NoMigration then
        Fail(TestParticleWithCharacteristicsAndMigration)
      else Ok
  }

  /** ParseBodyGroupList as a function of the list before it and the text. */
  function ParseBodyGroupListSpec(items: seq<BodyGroup>, str: string, h: Helpers, blanks: Blanks): (Status, seq<BodyGroup>)
  {
    var p := ParseLines(items, h.tokenize(str, "\n"), 0, GroupListStep(h, blanks));
    if p.0 != Ok then p else (FinalCheck(p.1), p.1)
  }

  /** ParseBodyGroupList: splits the text into lines and applies them with
      SetBodyGroupList until the first empty line, then checks the last body. */
  method ParseBodyGroupList(list: BodyGroupList, str: string, h: Helpers, blanks: Blanks) returns (st: Status)
    modifies list
    ensures (st, list.items) == ParseBodyGroupListSpec(old(list.items), str, h, blanks)
  {
    var lines := h.tokenize(str, "\n");
    var i: nat := 0;
    while Token(lines, i) != ""
      invariant ParseLines(old(list.items), lines, 0, GroupListStep(h, blanks)) == ParseLines(list.items, lines, i, GroupListStep(h, blanks))
      decreases |lines| - i
    {
      var line := Token(lines, i);
      var kv := ReadKeyValue(line, "=", h);
      if kv.None? {
        return Fail(InvalidKeyValuePair);
      }
      st := list.SetBodyGroupList(kv.value.key, kv.value.value, h, blanks);
      if st != Ok {
        return st;
      }
      i := i + 1;
    }
    st := FinalCheck(list.items);
  }

  /** Every body of every group has a phase and the orbital element given. */
  predicate AllBodiesPhased(items: seq<BodyGroup>, oe: Option<OrbitalElement>)
  {
    forall i, j :: 0 <= i < |items| && 0 <= j < |items[i].items| ==>
      items[i].items[j].phase.Some? && items[i].items[j].orbitalElement == oe
  }

  /** Each line keeps every body phased: SetBody always creates a phase. */
  lemma GroupStepKeepsPhased(items: seq<BodyGroup>, key: string, value: string, h: Helpers, blanks: Blanks)
    requires AllBodiesPhased(items, blanks.body.orbitalElement)
    requires AllBodiesPhased([blanks.bodyGroup], blanks.body.orbitalElement)
    ensures AllBodiesPhased(GroupStep(items, key, value, h, blanks).1, blanks.body.orbitalElement)
  {
    var r := GroupStep(items, key, value, h, blanks);
    var oe := blanks.body.orbitalElement;
    var newGroup := blanks.bodyGroup.(description := value);
    assert [newGroup][0].items == [blanks.bodyGroup][0].items;
    PhasedAfterStep(items, r, key == "description", key == "body", newGroup, BodySpec(h.tokenize(value, "|"), h, blanks), oe);
  }

  /** The shape of a successful GroupStep, as its contract gives it, keeps every body phased. */
  lemma PhasedAfterStep(items: seq<BodyGroup>, r: (Status, seq<BodyGroup>), isDescription: bool, isBody: bool,
                        newGroup: BodyGroup, body: Result<Body>, oe: Option<OrbitalElement>)
    requires AllBodiesPhased(items, oe) && AllBodiesPhased([newGroup], oe)
    requires body.Success? ==> body.value.phase.Some? && body.value.orbitalElement == oe
    requires r.0 != Ok ==> r.1 == items
    requires isDescription ==> r == (Ok, items + [newGroup])
    requires r.0 == Ok && !isDescription ==> items != [] && |r.1| == |items| && r.1[..|items| - 1] == items[..|items| - 1]
    requires r.0 == Ok && !isDescription && !isBody ==> Last(r.1).items == Last(items).items
    requires r.0 == Ok && isBody && !isDescription ==>
      body.Success? && Last(r.1) == Last(items).(items := Last(items).items + [body.value])
    ensures AllBodiesPhased(r.1, oe)
  {
    if r.0 == Ok && isDescription {
      assert forall i :: 0 <= i < |items| ==> r.1[i] == items[i];
      assert r.1[|items|] == newGroup;
    } else if r.0 == Ok {
      var last := Last(items);
      assert last == items[|items| - 1];
      if isBody {
        AppendedBodyPhased(last, Last(r.1), body.value, oe);
      }
      ReplaceLastKeepsPhased(items, r.1, oe);
    }
  }

  lemma AppendedBodyPhased(g: BodyGroup, g': BodyGroup, b: Body, oe: Option<OrbitalElement>)
    requires forall j :: 0 <= j < |g.items| ==> g.items[j].phase.Some? && g.items[j].orbitalElement == oe
    requires b.phase.Some? && b.orbitalElement == oe
    requires g'.items == g.items + [b]
    ensures AllBodiesPhased([g'], oe)
  {
    assert [g'][0] == g';
  }

  /** Replacing the last group by a phased one keeps the whole list phased. */
  lemma ReplaceLastKeepsPhased(items: seq<BodyGroup>, items': seq<BodyGroup>, oe: Option<OrbitalElement>)
    requires AllBodiesPhased(items, oe) && items != []
    requires |items'| == |items| && items'[..|items| - 1] == items[..|items| - 1]
    requires forall j :: 0 <= j < |Last(items').items| ==>
      Last(items').items[j].phase.Some? && Last(items').items[j].orbitalElement == oe
    ensures AllBodiesPhased(items', oe)
  {
    var n := |items| - 1;
    forall i | 0 <= i < n
      ensures items'[i] == items[i]
    {
      assert items'[..n][i] == items[..n][i];
    }
    assert items'[n] == Last(items');
  }

  /** Text input never trips the phase and orbital element checks: every body SetBody
      builds has a phase, and none has an orbital element when the blank Body() has none.
      Only the type checks of the last body can reject a file whose lines all succeed. */
  lemma PhaseChecksNeverFail(items: seq<BodyGroup>, str: string, h: Helpers, blanks: Blanks)
    requires blanks.body.orbitalElement.None?
    requires AllBodiesPhased(items, None) && AllBodiesPhased([blanks.bodyGroup], None)
    ensures var p := ParseLines(items, h.tokenize(str, "\n"), 0, GroupListStep(h, blanks));
      ParseBodyGroupListSpec(items, str, h, blanks).1 == p.1 && AllBodiesPhased(p.1, None) &&
      FinalCheck(p.1) != Fail(BothPhaseAndOrbitalElement) && FinalCheck(p.1) != Fail(NeitherPhaseNorOrbitalElement)
  {
    var inv := (s: seq<BodyGroup>) => AllBodiesPhased(s, None);
    var step := GroupListStep(h, blanks);
    assert StepKeeps(step, inv) by {
      forall w: seq<BodyGroup>, line: string | inv(w)
        ensures inv(step(w, line).1)
      {
        GroupLineKeepsPhased(w, line, h, blanks);
      }
    }
    var lines := h.tokenize(str, "\n");
    ParseKeeps(items, lines, 0, step, inv);
    var p := ParseLines(items, lines, 0, step);
    if p.1 != [] && Last(p.1).items != [] {
      var i := |p.1| - 1;
      var j := |p.1[i].items| - 1;
      assert p.1[i].items[j].phase.Some? && p.1[i].items[j].orbitalElement.None?;
    }
  }

  lemma GroupLineKeepsPhased(w: seq<BodyGroup>, line: string, h: Helpers, blanks: Blanks)
    requires AllBodiesPhased(w, blanks.body.orbitalElement) && AllBodiesPhased([blanks.bodyGroup], blanks.body.orbitalElement)
    ensures AllBodiesPhased(GroupLine(w, line, h, blanks).1, blanks.body.orbitalElement)
  {
    var kv := KeyValueOf(h.tokenize(line, "="));
    if kv.Some? {
      GroupStepKeepsPhased(w, Normalize(kv.value.key, h), Normalize(kv.value.value, h), h, blanks);
    }
  }
}
