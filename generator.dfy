/** The deterministic part of the disk generator of Solaris.generator/generator.cpp:
    the distributions a disk draws from, their default, the body count, body names,
    the radius/density/mass relations, the case split of the physical-property draw,
    the id sequence of the generated bodies and the control flow of the Kepler solver.
    Random draws, the trigonometry of the phase calculation and the text output are
    parameters of the model. */
module Generator {
  import opened Foreign
  import opened SolarisTypes

  /** The density function a distribution draws with (pdf_const and its siblings). */
  datatype Pdf = PdfConst | PdfMassLognormal | PdfDistanceSquared | PdfDistanceExp

  /** distribution_t: the limits (x, y) of a draw and the density it draws with. */
  datatype Distribution = Distribution(lower: real, upper: real, pdf: Pdf)

  /** ORBELEM_NAME_N and PHYS_PROP_NAME_N: the sizes of oe_dist_t and phys_prop_dist_t. */
  const OrbitalElementCount: int := 6
  const PhysicalPropertyCount: int := 4

  /** The indices of phys_prop_dist_t.item. */
  const MassIndex: int := 0
  const RadiusIndex: int := 1
  const DensityIndex: int := 2
  const DragCoeffIndex: int := 3

  /** BODY_TYPE_STAR: the first body type the generator treats. */
  const StarCode: int := 1

  function Min(a: real, b: real): real { if a <= b then a else b }
  function Max(a: real, b: real): real { if a <= b then b else a }

  /** set(d, x, y, pdf): the limits become (x, y) and the density pdf, whatever d held. */
  function SetRange(d: Distribution, x: real, y: real, pdf: Pdf): (r: Distribution)
    ensures r.lower == x && r.upper == y && r.pdf == pdf
  {
    d.(lower := x, upper := y, pdf := pdf)
  }

  /** set(d, x, pdf): both limits become x. */
  function SetPoint(d: Distribution, x: real, pdf: Pdf): (r: Distribution)
    ensures r == SetRange(d, x, x, pdf)
  {
    d.(lower := x, upper := x, pdf := pdf)
  }

  /** A draw of generate_random: the given distribution's draw number k (its position
      in the sequence of draws the generator makes). */
  type Sampler = (Distribution, nat) -> real

  /** generate_random(xmin, xmax, p) returns xmin + u (xmax - xmin) for some u in [0, 1]. */
  ghost predicate DrawsWithinLimits(sample: Sampler)
  {
    forall d: Distribution, k: nat :: Min(d.lower, d.upper) <= sample(d, k) <= Max(d.lower, d.upper)
  }

  /** A distribution set to a single value always draws that value. */
  lemma PointDistributionDrawsItsValue(sample: Sampler, d: Distribution, x: real, pdf: Pdf, k: nat)
    requires DrawsWithinLimits(sample)
    ensures sample(SetPoint(d, x, pdf), k) == x
  {
    var p := SetPoint(d, x, pdf);
    assert Min(p.lower, p.upper) <= sample(p, k) <= Max(p.lower, p.upper);
  }

  /** The distribution set_default gives every item: [0, 0] with the constant density. */
  const Unset: Distribution := Distribution(0.0, 0.0, PdfConst)

  /** body_disk_t: the names of the bodies, the number of bodies of each type, the
      orbital-element and physical-property distributions of each type, and the
      migration type and stop distance of each body. An oe_dist_t or phys_prop_dist_t
      is a value (generate_oe and generate_pp receive copies), so each type's items are
      a sequence. */
  class BodyDisk {
    var names: seq<string>
    const nBody: array<int>
    const oeD: array<seq<Distribution>>
    const ppD: array<seq<Distribution>>
    var migType: array<MigrationType>
    var stopAt: array<real>

    /** The fixed sizes of the arrays of body_disk_t. */
    ghost predicate Valid()
      reads this, oeD, ppD
    {
      && nBody.Length == BodyTypeCount
      && oeD.Length == BodyTypeCount
      && ppD.Length == BodyTypeCount
      && oeD != ppD
      && (forall t :: 0 <= t < BodyTypeCount ==> |oeD[t]| == OrbitalElementCount)
      && (forall t :: 0 <= t < BodyTypeCount ==> |ppD[t]| == PhysicalPropertyCount)
    }

    /** A declared body_disk_t: the contents of its arrays are indeterminate until
        set_default runs, so only their sizes are promised; mig_type and stop_at are
        not allocated yet. */
    constructor ()
      ensures Valid()
      ensures names == [] && migType.Length == 0 && stopAt.Length == 0
    {
      names := [];
      nBody := new int[BodyTypeCount](_ => 0);
      oeD := new seq<Distribution>[BodyTypeCount](_ => seq(OrbitalElementCount, _ => Unset));
      ppD := new seq<Distribution>[BodyTypeCount](_ => seq(PhysicalPropertyCount, _ => Unset));
      migType := new MigrationType[0];
      stopAt := new real[0];
    }
  }

  /** set_default: for every type from BODY_TYPE_STAR on, no bodies and every orbital
      element and physical property drawn from [0, 0] with the constant density.
      BODY_TYPE_UNDEFINED (index 0) is left as it was. */
  method SetDefault(bd: BodyDisk)
    requires bd.Valid()
    modifies bd.nBody, bd.oeD, bd.ppD
    ensures bd.Valid()
    ensures bd.nBody[0] == old(bd.nBody[0]) && bd.oeD[0] == old(bd.oeD[0]) && bd.ppD[0] == old(bd.ppD[0])
    ensures forall t :: StarCode <= t < BodyTypeCount ==> bd.nBody[t] == 0
    ensures forall t :: StarCode <= t < BodyTypeCount ==> bd.oeD[t] == seq(OrbitalElementCount, _ => Unset)
    ensures forall t :: StarCode <= t < BodyTypeCount ==> bd.ppD[t] == seq(PhysicalPropertyCount, _ => Unset)
  {
    var bodyType := StarCode;
    while bodyType < BodyTypeCount
      invariant StarCode <= bodyType <= BodyTypeCount
      invariant bd.Valid()
      invariant bd.nBody[0] == old(bd.nBody[0]) && bd.oeD[0] == old(bd.oeD[0]) && bd.ppD[0] == old(bd.ppD[0])
      invariant forall t :: StarCode <= t < bodyType ==> bd.nBody[t] == 0
      invariant forall t :: StarCode <= t < bodyType ==> bd.oeD[t] == seq(OrbitalElementCount, _ => Unset)
      invariant forall t :: StarCode <= t < bodyType ==> bd.ppD[t] == seq(PhysicalPropertyCount, _ => Unset)
    {
      bd.nBody[bodyType] := 0;
      SetDefaultItems(bd.oeD, bodyType, OrbitalElementCount);
      SetDefaultItems(bd.ppD, bodyType, PhysicalPropertyCount);
      bodyType := bodyType + 1;
    }
  }

  /** The inner loops of set_default: set(items[i], 0.0, 0.0, pdf_const) for each of the
      n items of type t. */
  method SetDefaultItems(d: array<seq<Distribution>>, t: int, n: int)
    requires 0 <= t < d.Length && |d[t]| == n
    modifies d
    ensures d[t] == seq(n, _ => Unset)
    ensures forall u :: 0 <= u < d.Length && u != t ==> d[u] == old(d[u])
  {
    var i := 0;
    while i < n
      invariant 0 <= i <= n && |d[t]| == n
      invariant forall j :: 0 <= j < i ==> d[t][j] == Unset
      invariant forall u :: 0 <= u < d.Length && u != t ==> d[u] == old(d[u])
    {
      d[t] := d[t][i := SetRange(d[t][i], 0.0, 0.0, PdfConst)];
      i := i + 1;
    }
  }

  /** The sum of counts[t..]. */
  function SumFrom(counts: seq<int>, t: nat): int
    decreases |counts| - t
  {
    if t >= |counts| then 0 else counts[t] + SumFrom(counts, t + 1)
  }

  /** The bodies of a disk: the counts of every type from BODY_TYPE_STAR on. */
  function NumberOfBodies(counts: seq<int>): int
  {
    SumFrom(counts, StarCode)
  }

  /** calculate_number_of_bodies: the sum of nBody over the types from BODY_TYPE_STAR on.
      int_t is 32 bits wide; the sum is taken as an unbounded integer. */
  method CalculateNumberOfBodies(bd: BodyDisk) returns (result: int)
    requires bd.Valid()
    ensures result == NumberOfBodies(bd.nBody[..])
  {
    ghost var counts := bd.nBody[..];
    result := 0;
    var bodyType := StarCode;
    while bodyType < BodyTypeCount
      invariant StarCode <= bodyType <= BodyTypeCount
      invariant result + SumFrom(counts, bodyType) == NumberOfBodies(counts)
    {
      result := result + bd.nBody[bodyType];
      bodyType := bodyType + 1;
    }
  }

  /** The count of BODY_TYPE_UNDEFINED never enters the number of bodies. */
  lemma {:induction false} NumberOfBodiesIgnoresUndefined(counts: seq<int>, x: int)
    requires |counts| == BodyTypeCount
    ensures NumberOfBodies(counts[0 := x]) == NumberOfBodies(counts)
  {
    SumFromIgnoresBelow(counts, x, StarCode);
  }

  lemma {:induction false} SumFromIgnoresBelow(counts: seq<int>, x: int, t: nat)
    requires 1 <= t <= |counts|
    ensures SumFrom(counts[0 := x], t) == SumFrom(counts, t)
    decreases |counts| - t
  {
    if t < |counts| {
      SumFromIgnoresBelow(counts, x, t + 1);
    }
  }

  /** A disk after set_default holds no bodies. */
  lemma {:induction false} DefaultDiskIsEmpty(counts: seq<int>)
    requires |counts| == BodyTypeCount
    requires forall t :: StarCode <= t < BodyTypeCount ==> counts[t] == 0
    ensures NumberOfBodies(counts) == 0
    ensures DiskTypes(counts) == []
  {
    ZeroCountsSumToZero(counts, StarCode);
    NoTypesBelow(counts, BodyTypeCount);
  }

  lemma {:induction false} ZeroCountsSumToZero(counts: seq<int>, t: nat)
    requires t <= |counts|
    requires forall u :: t <= u < |counts| ==> counts[u] == 0
    ensures SumFrom(counts, t) == 0
    decreases |counts| - t
  {
    if t < |counts| {
      ZeroCountsSumToZero(counts, t + 1);
    }
  }

  lemma {:induction false} NoTypesBelow(counts: seq<int>, t: int)
    requires t <= BodyTypeCount && t <= |counts|
    requires forall u :: StarCode <= u < t ==> counts[u] == 0
    ensures TypesBelow(counts, t) == []
    decreases t
  {
    if t > StarCode {
      NoTypesBelow(counts, t - 1);
      assert Repeat(BodyTypeOfCode(t - 1), 0) == [];
    }
  }

  /** n copies of x; none when n is not positive (a for loop up to n runs n times). */
  function Repeat(x: BodyType, n: int): (r: seq<BodyType>)
    ensures |r| == if n < 0 then 0 else n
    ensures forall i :: 0 <= i < |r| ==> r[i] == x
  {
    if n <= 0 then [] else Repeat(x, n - 1) + [x]
  }

  /** The types of the bodies generate_pp_disk makes before type t, in the order it
      makes them: for each type from BODY_TYPE_STAR on, that type nBody[type] times. */
  function TypesBelow(counts: seq<int>, t: int): seq<BodyType>
    requires t <= BodyTypeCount && t <= |counts|
    decreases t
  {
    if t <= StarCode then [] else TypesBelow(counts, t - 1) + Repeat(BodyTypeOfCode(t - 1), counts[t - 1])
  }

  /** The type of every body generate_pp_disk makes, in id order. */
  function DiskTypes(counts: seq<int>): seq<BodyType>
    requires |counts| == BodyTypeCount
  {
    TypesBelow(counts, |counts|)
  }

  /** When no count is negative, generate_pp_disk makes as many bodies as
      calculate_number_of_bodies counts (the size main allocates mig_type and stop_at
      with). */
  lemma {:induction false} BodiesGeneratedAreCounted(counts: seq<int>)
    requires |counts| == BodyTypeCount
    requires forall t :: StarCode <= t < BodyTypeCount ==> counts[t] >= 0
    ensures |DiskTypes(counts)| == NumberOfBodies(counts)
  {
    TypesBelowCounted(counts, BodyTypeCount);
  }

  lemma {:induction false} TypesBelowCounted(counts: seq<int>, t: int)
    requires |counts| == BodyTypeCount && StarCode <= t <= BodyTypeCount
    requires forall u :: StarCode <= u < BodyTypeCount ==> counts[u] >= 0
    ensures |TypesBelow(counts, t)| + SumFrom(counts, t) == NumberOfBodies(counts)
    decreases t
  {
    if t > StarCode {
      TypesBelowCounted(counts, t - 1);
    }
  }

  /** TypesBelow(counts, u) is the start of TypesBelow(counts, v) for u <= v. */
  lemma {:induction false} TypesBelowPrefix(counts: seq<int>, u: int, v: int)
    requires u <= v <= BodyTypeCount && v <= |counts|
    ensures TypesBelow(counts, u) <= TypesBelow(counts, v)
    decreases v - u
  {
    if u < v {
      TypesBelowPrefix(counts, u, v - 1);
      if v > StarCode {
        assert TypesBelow(counts, v - 1) <= TypesBelow(counts, v);
      } else {
        assert TypesBelow(counts, u) == [] == TypesBelow(counts, v);
      }
    }
  }

  /** The i-th body of type t gets the id |TypesBelow(counts, t)| + i. */
  lemma TypeOfId(counts: seq<int>, t: int, i: int)
    requires |counts| == BodyTypeCount && StarCode <= t < BodyTypeCount
    requires 0 <= i < counts[t]
    ensures |TypesBelow(counts, t)| + i < |DiskTypes(counts)|
    ensures DiskTypes(counts)[|TypesBelow(counts, t)| + i] == BodyTypeOfCode(t)
  {
    TypesBelowPrefix(counts, t + 1, BodyTypeCount);
    assert TypesBelow(counts, t + 1) == TypesBelow(counts, t) + Repeat(BodyTypeOfCode(t), counts[t]);
  }

  // ---------------------------------------------------------------------------------
  // Names

  /** body_type_names, in the order of the source's table. */
  const BodyTypeNames: seq<string> := ["star", "giant", "rocky", "proto", "superpl", "pl", "testp"]

  predicate IsDigit(c: char) { '0' <= c <= '9' }

  /** A character that may start the decimal form of an int. */
  predicate IsNumberChar(c: char) { c == '-' || IsDigit(c) }

  function DigitChar(d: int): (c: char)
    requires 0 <= d < 10
    ensures IsDigit(c)
  {
    (('0' as int) + d) as char
  }

  function DigitValue(c: char): int
  {
    (c as int) - ('0' as int)
  }

  /** The decimal digits of n, most significant first, without leading zeros. */
  function Digits(n: nat): (s: string)
    ensures |s| > 0
    ensures forall j :: 0 <= j < |s| ==> IsDigit(s[j])
  {
    if n < 10 then [DigitChar(n)] else Digits(n / 10) + [DigitChar(n % 10)]
  }

  /** What `ostringstream << i` writes for an int i. */
  function Decimal(i: int): (s: string)
    ensures |s| > 0 && IsNumberChar(s[0])
  {
    if i < 0 then "-" + Digits(-i) else Digits(i)
  }

  /** The number a string of decimal digits denotes. */
  function Value(s: string): int
  {
    if s == [] then 0 else 10 * Value(s[..|s| - 1]) + DigitValue(s[|s| - 1])
  }

  predicate AllDigits(s: string)
  {
    forall j :: 0 <= j < |s| ==> IsDigit(s[j])
  }

  /** Reads back the decimal form of an int. */
  function ParseDecimal(s: string): Option<int>
  {
    if |s| > 1 && s[0] == '-' && AllDigits(s[1..]) then Some(-Value(s[1..]))
    else if |s| > 0 && AllDigits(s) then Some(Value(s))
    else None
  }

  lemma {:induction false} ValueOfDigits(n: nat)
    ensures Value(Digits(n)) == n
    decreases n
  {
    if n >= 10 {
      var s := Digits(n / 10);
      assert Digits(n) == s + [DigitChar(n % 10)];
      assert (s + [DigitChar(n % 10)])[..|s|] == s;
      ValueOfDigits(n / 10);
    }
  }

  /** The decimal form of an int reads back as that int. */
  lemma DecimalRoundTrip(i: int)
    ensures ParseDecimal(Decimal(i)) == Some(i)
  {
    if i < 0 {
      assert Decimal(i)[1..] == Digits(-i);
      ValueOfDigits(-i);
    } else {
      ValueOfDigits(i);
    }
  }

  /** The length of the longest start of s that holds no character of a number. */
  function NumberStart(s: string): (k: nat)
    ensures k <= |s|
  {
    if s == [] || IsNumberChar(s[0]) then 0 else 1 + NumberStart(s[1..])
  }

  lemma {:induction false} NumberStartAfter(a: string, b: string)
    requires NoNumberChar(a)
    requires |b| > 0 && IsNumberChar(b[0])
    ensures NumberStart(a + b) == |a|
    decreases |a|
  {
    if a != [] {
      assert (a + b)[1..] == a[1..] + b;
      NumberStartAfter(a[1..], b);
    } else {
      assert a + b == b;
    }
  }

  /** The body type whose name, under the intended indexing of body_type_names by
      body type, is the given one. */
  function TypeOfName(name: string): Option<BodyType>
  {
    if name == "star" then Some(CentralBody)
    else if name == "giant" then Some(GiantPlanet)
    else if name == "rocky" then Some(RockyPlanet)
    else if name == "proto" then Some(ProtoPlanet)
    else if name == "superpl" then Some(SuperPlanetesimal)
    else if name == "pl" then Some(Planetesimal)
    else if name == "testp" then Some(TestParticle)
    else None
  }

  /** A generated name split into the body type its letters name and its number. */
  function ParseName(s: string): Option<(BodyType, int)>
  {
    var k := NumberStart(s);
    match (TypeOfName(s[..k]), ParseDecimal(s[k..]))
    case (Some(t), Some(i)) => Some((t, i))
    case _ => None
  }

  /** create_name(i, type) as written: body_type_names[type] followed by the decimal
      form of i. The table starts at "star" while BODY_TYPE_STAR is 1, so the name is
      the one of the next type; a type of 7 or more reads past the table. */
  function CreateNameAsWritten(i: int, typeCode: int): string
    requires 0 <= typeCode < |BodyTypeNames|
  {
    BodyTypeNames[typeCode] + Decimal(i)
  }

  /** create_name as intended: the name of the body's own type, then i. */
  function CreateName(i: int, t: BodyType): string
    requires t != UndefinedBodyType
  {
    BodyTypeNames[BodyTypeCode(t) - 1] + Decimal(i)
  }

  /** As written, the i-th giant planet is named "rocky" followed by i, and every test
      particle's name is read from past the end of the table. */
  lemma CreateNameAsWrittenMislabels(i: int)
    ensures ParseName(CreateNameAsWritten(i, BodyTypeCode(GiantPlanet))) == Some((RockyPlanet, i))
    ensures BodyTypeCode(TestParticle) == |BodyTypeNames|
  {
    assert BodyTypeNames[BodyTypeCode(GiantPlanet)] == "rocky";
    assert NoNumberChar("rocky");
    NameRoundTrip("rocky", i);
  }

  /** A name made by CreateName gives back the body type and the number it was made
      from; in particular no two bodies get the same name. */
  lemma CreateNameRoundTrip(i: int, t: BodyType)
    requires t != UndefinedBodyType
    ensures ParseName(CreateName(i, t)) == Some((t, i))
  {
    var name := BodyTypeNames[BodyTypeCode(t) - 1];
    NameOfType(t);
    NameRoundTrip(name, i);
  }

  lemma NameOfType(t: BodyType)
    requires t != UndefinedBodyType
    ensures NoNumberChar(BodyTypeNames[BodyTypeCode(t) - 1])
    ensures TypeOfName(BodyTypeNames[BodyTypeCode(t) - 1]) == Some(t)
  {
    match t
    case CentralBody => assert BodyTypeNames[0] == "star";
    case GiantPlanet => assert BodyTypeNames[1] == "giant";
    case RockyPlanet => assert BodyTypeNames[2] == "rocky";
    case ProtoPlanet => assert BodyTypeNames[3] == "proto";
    case SuperPlanetesimal => assert BodyTypeNames[4] == "superpl";
    case Planetesimal => assert BodyTypeNames[5] == "pl";
    case TestParticle => assert BodyTypeNames[6] == "testp";
  }

  /** No letter of a name can start a number. */
  predicate NoNumberChar(name: string)
  {
    forall j :: 0 <= j < |name| ==> !IsNumberChar(name[j])
  }

  lemma NameRoundTrip(name: string, i: int)
    requires NoNumberChar(name) && TypeOfName(name).Some?
    ensures ParseName(name + Decimal(i)) == Some((TypeOfName(name).value, i))
  {
    var s := name + Decimal(i);
    NumberStartAfter(name, Decimal(i));
    assert s[..|name|] == name;
    assert s[|name|..] == Decimal(i);
    DecimalRoundTrip(i);
  }

  lemma CreateNameIsInjective(i: int, t: BodyType, j: int, u: BodyType)
    requires t != UndefinedBodyType && u != UndefinedBodyType
    requires CreateName(i, t) == CreateName(j, u)
    ensures i == j && t == u
  {
    CreateNameRoundTrip(i, t);
    CreateNameRoundTrip(j, u);
  }

  // ---------------------------------------------------------------------------------
  // Radius, density and mass

  /** Constants::FourPiOverThree, 4 pi / 3, as the double it is. */
  const FourPiOverThree: real := 4.1887902047863905

  function Cube(x: real): real { x * x * x }

  /** calculate_density: the density of a sphere of mass m and radius R, and 0 for a
      radius of 0. */
  function CalculateDensity(m: real, r: real): (density: real)
    ensures r == 0.0 ==> density == 0.0
  {
    if r == 0.0 then 0.0 else m / (FourPiOverThree * Cube(r))
  }

  /** caclulate_mass: the mass of a sphere of radius R and the given density. */
  function CalculateMass(r: real, density: real): (m: real)
    ensures r == 0.0 || density == 0.0 ==> m == 0.0
  {
    FourPiOverThree * Cube(r) * density
  }

  lemma CubeNonZero(r: real)
    requires r != 0.0
    ensures Cube(r) != 0.0
  {
    assert r * r > 0.0;
    if r > 0.0 {
      assert r * r * r > 0.0;
    } else {
      assert r * r * r < 0.0;
    }
  }

  /** For a radius other than 0, the mass of the derived density is the mass again. */
  lemma MassOfDensity(m: real, r: real)
    requires r != 0.0
    ensures CalculateMass(r, CalculateDensity(m, r)) == m
  {
    CubeNonZero(r);
  }

  /** For a radius other than 0, the density of the derived mass is the density again. */
  lemma DensityOfMass(r: real, density: real)
    requires r != 0.0
    ensures CalculateDensity(CalculateMass(r, density), r) == density
  {
    CubeNonZero(r);
  }

  // ---------------------------------------------------------------------------------
  // Physical properties and orbital elements

  /** The parameters of a body the generator fills in (the fields of param_t that
      generate_pp_disk and set_param write). */
  datatype Param = Param(
    id: int, bodyType: BodyType, epoch: real,
    mass: real, radius: real, density: real, cd: real,
    migType: MigrationType, migStopAt: real,
    absVisMag: real, compNum: int, ln: Ln, mpcOrbitType: MpcOrbitType)

  /** set_param: no magnitude, no components, no Lagrange point, no MPC orbit type. */
  function SetParam(p: Param): Param
  {
    p.(absVisMag := 0.0, compNum := 0, ln := UndefinedLn, mpcOrbitType := UndefinedMpcOrbitType)
  }

  predicate HasSetParamFields(p: Param)
  {
    p.absVisMag == 0.0 && p.compNum == 0 && p.ln == UndefinedLn && p.mpcOrbitType == UndefinedMpcOrbitType
  }

  predicate ZeroLimits(d: Distribution) { d.lower == 0.0 && d.upper == 0.0 }
  predicate PositiveLimits(d: Distribution) { d.lower > 0.0 && d.upper > 0.0 }

  /** The four ways generate_pp obtains radius and density. */
  datatype SizeCase = NoSize | RadiusDrawn | DensityDrawn | BothDrawn

  /** The case generate_pp takes, from whether the density and radius limits are both
      zero or both positive. */
  function SizeCaseOf(pp: seq<Distribution>): SizeCase
    requires |pp| == PhysicalPropertyCount
  {
    if ZeroLimits(pp[DensityIndex]) && ZeroLimits(pp[RadiusIndex]) then NoSize
    else if ZeroLimits(pp[DensityIndex]) && PositiveLimits(pp[RadiusIndex]) then RadiusDrawn
    else if PositiveLimits(pp[DensityIndex]) && ZeroLimits(pp[RadiusIndex]) then DensityDrawn
    else BothDrawn
  }

  /** The relation between mass, radius and density each case leaves behind. */
  predicate FollowsSizeCase(pp: seq<Distribution>, p: Param, radiusOf: (real, real) -> real)
    requires |pp| == PhysicalPropertyCount
  {
    match SizeCaseOf(pp)
    case NoSize => p.radius == 0.0 && p.density == 0.0
    case RadiusDrawn => p.density == CalculateDensity(p.mass, p.radius)
    case DensityDrawn => p.radius == radiusOf(p.mass, p.density)
    case BothDrawn => true
  }

  /** The items set_default leaves make generate_pp give a body no size. */
  lemma DefaultHasNoSize()
    ensures SizeCaseOf(seq(PhysicalPropertyCount, _ => Unset)) == NoSize
  {
    var pp := seq(PhysicalPropertyCount, _ => Unset);
    assert pp[DensityIndex] == Unset && pp[RadiusIndex] == Unset;
  }

  /** Only the radius given, with draws within their limits: the radius is positive and
      the derived density gives back the drawn mass. */
  lemma RadiusDrawnIsConsistent(pp: seq<Distribution>, sample: Sampler, k: nat, m: real)
    requires |pp| == PhysicalPropertyCount && SizeCaseOf(pp) == RadiusDrawn
    requires DrawsWithinLimits(sample)
    ensures sample(pp[RadiusIndex], k) > 0.0
    ensures CalculateMass(sample(pp[RadiusIndex], k), CalculateDensity(m, sample(pp[RadiusIndex], k))) == m
  {
    var d := pp[RadiusIndex];
    assert Min(d.lower, d.upper) <= sample(d, k);
    MassOfDensity(m, sample(d, k));
  }

  /** generate_pp: the mass is drawn first (draw k); then radius and density by the case
      the limits select; then the drag coefficient. calculate_radius, a cube root, is
      the parameter radiusOf. next is the number of the first draw after these. */
  method GeneratePp(pp: seq<Distribution>, param: Param, sample: Sampler, k: nat, radiusOf: (real, real) -> real)
    returns (p: Param, next: nat)
    requires |pp| == PhysicalPropertyCount
    ensures p == param.(mass := p.mass, radius := p.radius, density := p.density, cd := p.cd)
    ensures p.mass == sample(pp[MassIndex], k)
    ensures FollowsSizeCase(pp, p, radiusOf)
    ensures SizeCaseOf(pp) == NoSize ==> next == k + 2
    ensures SizeCaseOf(pp) == RadiusDrawn ==> p.radius == sample(pp[RadiusIndex], k + 1) && next == k + 3
    ensures SizeCaseOf(pp) == DensityDrawn ==> p.density == sample(pp[DensityIndex], k + 1) && next == k + 3
    ensures SizeCaseOf(pp) == BothDrawn ==>
              p.radius == sample(pp[RadiusIndex], k + 1) && p.density == sample(pp[DensityIndex], k + 2) && next == k + 4
    ensures 0 < next && p.cd == sample(pp[DragCoeffIndex], next - 1)
  {
    p := param.(mass := sample(pp[MassIndex], k));
    next := k + 1;
    var density := pp[DensityIndex];
    var radius := pp[RadiusIndex];
    if ZeroLimits(density) && ZeroLimits(radius) {
      p := p.(radius := 0.0, density := 0.0);
    } else if ZeroLimits(density) && PositiveLimits(radius) {
      p := p.(radius := sample(radius, next));
      p := p.(density := CalculateDensity(p.mass, p.radius));
      next := next + 1;
    } else if PositiveLimits(density) && ZeroLimits(radius) {
      p := p.(density := sample(density, next));
      p := p.(radius := radiusOf(p.mass, p.density));
      next := next + 1;
    } else {
      p := p.(radius := sample(radius, next));
      p := p.(density := sample(density, next + 1));
      next := next + 2;
    }
    p := p.(cd := sample(pp[DragCoeffIndex], next));
    next := next + 1;
  }

  /** orbelem_t: semi-major axis, eccentricity, inclination, argument of pericenter,
      longitude of node and mean anomaly. */
  datatype OrbElem = OrbElem(sma: real, ecc: real, inc: real, peri: real, node: real, mean: real)

  predicate Within(d: Distribution, x: real)
  {
    Min(d.lower, d.upper) <= x <= Max(d.lower, d.upper)
  }

  /** generate_oe: the six elements drawn in their order, draws k to k + 5. */
  function GenerateOe(oeD: seq<Distribution>, sample: Sampler, k: nat): (oe: OrbElem)
    requires |oeD| == OrbitalElementCount
    ensures DrawsWithinLimits(sample) ==>
              Within(oeD[0], oe.sma) && Within(oeD[1], oe.ecc) && Within(oeD[2], oe.inc)
              && Within(oeD[3], oe.peri) && Within(oeD[4], oe.node) && Within(oeD[5], oe.mean)
  {
    OrbElem(sample(oeD[0], k), sample(oeD[1], k + 1), sample(oeD[2], k + 2),
            sample(oeD[3], k + 3), sample(oeD[4], k + 4), sample(oeD[5], k + 5))
  }

  // ---------------------------------------------------------------------------------
  // The disk

  datatype Vec = Vec(x: real, y: real, z: real)

  const Origin: Vec := Vec(0.0, 0.0, 0.0)

  /** What print_body_record writes for one body: its name, parameters, position and
      velocity. */
  datatype BodyRecord = BodyRecord(name: string, param: Param, r: Vec, v: Vec)

  /** calculate_phase(mu, oe): the position and velocity of the orbit, given the total
      mass of the star and the body (mu is Constants::Gauss2 times it); None when it
      returns 1, which is when the Kepler solver gives up. */
  type PhaseSolver = (real, OrbElem) -> Option<(Vec, Vec)>

  /** The parts of a body_disk_t generate_pp_disk reads for its records. */
  datatype DiskView = DiskView(counts: seq<int>, names: seq<string>, ppD: seq<seq<Distribution>>,
                               migType: seq<MigrationType>, stopAt: seq<real>)

  ghost function ViewOf(bd: BodyDisk): DiskView
    reads bd, bd.nBody, bd.ppD, bd.migType, bd.stopAt
  {
    DiskView(bd.nBody[..], bd.names, bd.ppD[..], bd.migType[..], bd.stopAt[..])
  }

  ghost predicate ViewValid(v: DiskView)
  {
    && |v.counts| == BodyTypeCount && |v.ppD| == BodyTypeCount
    && (forall t :: 0 <= t < BodyTypeCount ==> |v.ppD[t]| == PhysicalPropertyCount)
  }

  /** What generate_pp_disk promises about the record of body j: its place in the id
      sequence and its type, and the data of RecordData. */
  ghost predicate RecordFits(v: DiskView, radiusOf: (real, real) -> real, j: int, rec: BodyRecord)
    requires ViewValid(v)
  {
    && 0 <= j < |DiskTypes(v.counts)|
    && rec.param.bodyType == DiskTypes(v.counts)[j]
    && RecordData(v, radiusOf, j, rec)
  }

  /** The record of body j carries the id j, the name and migration data of body j, the
      fields set_param fills and the sizes its type's case selects; a central body sits
      at the origin at rest. */
  ghost predicate RecordData(v: DiskView, radiusOf: (real, real) -> real, j: int, rec: BodyRecord)
    requires ViewValid(v)
  {
    && 0 <= j && j < |v.names| && j < |v.migType| && j < |v.stopAt|
    && rec.param.id == j
    && rec.param.bodyType != UndefinedBodyType
    && rec.name == v.names[j]
    && rec.param.epoch == 0.0
    && rec.param.migType == v.migType[j]
    && rec.param.migStopAt == v.stopAt[j]
    && HasSetParamFields(rec.param)
    && FollowsSizeCase(v.ppD[BodyTypeCode(rec.param.bodyType)], rec.param, radiusOf)
    && (rec.param.bodyType == CentralBody ==> rec.r == Origin && rec.v == Origin)
  }

  /** Every record fits the body its position gives it. */
  ghost predicate AllFit(v: DiskView, radiusOf: (real, real) -> real, records: seq<BodyRecord>)
    requires ViewValid(v)
  {
    forall j :: 0 <= j < |records| ==> RecordFits(v, radiusOf, j, records[j])
  }

  lemma AllFitSnoc(v: DiskView, radiusOf: (real, real) -> real, records: seq<BodyRecord>, rec: BodyRecord)
    requires ViewValid(v) && AllFit(v, radiusOf, records) && RecordFits(v, radiusOf, |records|, rec)
    ensures AllFit(v, radiusOf, records + [rec])
  {
    forall j | 0 <= j < |records| + 1
      ensures RecordFits(v, radiusOf, j, (records + [rec])[j])
    {
      if j < |records| {
        assert (records + [rec])[j] == records[j];
      }
    }
  }

  /** generate_pp_disk: for each type from BODY_TYPE_STAR on, nBody[type] bodies with the
      ids 0, 1, 2, ... in that order. A star gets its physical properties only and the
      zero phase; any other body gets orbital elements and physical properties and the
      phase calculate_phase derives, with the mass of the last star. The first body
      whose phase cannot be calculated ends the run with 1, the records written so far
      staying in the file. blank stands for the indeterminate contents of the two
      param_t locals before set_param. Opening the output file (and exit(0) when that
      fails) and the text format are outside the model. */
  method GeneratePpDisk(bd: BodyDisk, blank: Param, sample: Sampler, radiusOf: (real, real) -> real,
                        phase: PhaseSolver)
    returns (code: int, records: seq<BodyRecord>)
    requires bd.Valid()
    requires |bd.names| >= |DiskTypes(bd.nBody[..])|
    requires bd.migType.Length >= |DiskTypes(bd.nBody[..])|
    requires bd.stopAt.Length >= |DiskTypes(bd.nBody[..])|
    ensures code == 0 || code == 1
    ensures code == 0 ==> |records| == |DiskTypes(bd.nBody[..])|
    ensures code == 1 ==> |records| < |DiskTypes(bd.nBody[..])| && DiskTypes(bd.nBody[..])[|records|] != CentralBody
    ensures ViewValid(ViewOf(bd)) && AllFit(ViewOf(bd), radiusOf, records)
  {
    ghost var v := ViewOf(bd);
    records := [];
    var g := GeneratorState(SetParam(blank), SetParam(blank), Origin, Origin, 0);
    var bodyType := StarCode;
    while bodyType < BodyTypeCount
      invariant StarCode <= bodyType <= BodyTypeCount
      invariant |records| == |TypesBelow(v.counts, bodyType)|
      invariant StateFits(g) && (bodyType == StarCode ==> g.rVec == Origin && g.vVec == Origin)
      invariant AllFit(v, radiusOf, records)
    {
      var ok;
      ok, records, g := GenerateType(bd, bodyType, records, g, sample, radiusOf, phase);
      if !ok {
        code := 1;
        return;
      }
      bodyType := bodyType + 1;
    }
    code := 0;
  }

  /** The locals generate_pp_disk carries from one body to the next: the star's and the
      other bodies' parameters, the last phase and the number of the next draw. */
  datatype GeneratorState = GeneratorState(param0: Param, param: Param, rVec: Vec, vVec: Vec, k: nat)

  predicate StateFits(g: GeneratorState)
  {
    HasSetParamFields(g.param0) && HasSetParamFields(g.param)
  }

  /** The inner loop of generate_pp_disk: the nBody[bodyType] bodies of one type. */
  method GenerateType(bd: BodyDisk, bodyType: int, records0: seq<BodyRecord>, g0: GeneratorState, sample: Sampler,
                      radiusOf: (real, real) -> real, phase: PhaseSolver)
    returns (ok: bool, records: seq<BodyRecord>, g: GeneratorState)
    requires bd.Valid()
    requires StarCode <= bodyType < BodyTypeCount
    requires |bd.names| >= |DiskTypes(bd.nBody[..])|
    requires bd.migType.Length >= |DiskTypes(bd.nBody[..])|
    requires bd.stopAt.Length >= |DiskTypes(bd.nBody[..])|
    requires |records0| == |TypesBelow(bd.nBody[..], bodyType)|
    requires StateFits(g0) && (bodyType == StarCode ==> g0.rVec == Origin && g0.vVec == Origin)
    requires ViewValid(ViewOf(bd)) && AllFit(ViewOf(bd), radiusOf, records0)
    ensures StateFits(g) && AllFit(ViewOf(bd), radiusOf, records)
    ensures ok ==> |records| == |TypesBelow(bd.nBody[..], bodyType + 1)|
    ensures !ok ==> |records| < |DiskTypes(bd.nBody[..])| && DiskTypes(bd.nBody[..])[|records|] != CentralBody
  {
    ghost var v := ViewOf(bd);
    records, g := records0, g0;
    var i := 0;
    while i < bd.nBody[bodyType]
      invariant 0 <= i && (i <= bd.nBody[bodyType] || i == 0)
      invariant |records| == |TypesBelow(v.counts, bodyType)| + i
      invariant StateFits(g) && (bodyType == StarCode ==> g.rVec == Origin && g.vVec == Origin)
      invariant AllFit(v, radiusOf, records)
    {
      ok, records, g := NextRecord(bd, bodyType, i, records, g, sample, radiusOf, phase);
      if !ok {
        return;
      }
      i := i + 1;
    }
    assert TypesBelow(v.counts, bodyType + 1) == TypesBelow(v.counts, bodyType) + Repeat(BodyTypeOfCode(bodyType), v.counts[bodyType]);
    ok := true;
  }

  /** One pass of generate_pp_disk's inner loop: the record of the i-th body of its
      type appended, or false when its phase cannot be calculated. */
  method NextRecord(bd: BodyDisk, bodyType: int, i: int, records0: seq<BodyRecord>, g0: GeneratorState,
                    sample: Sampler, radiusOf: (real, real) -> real, phase: PhaseSolver)
    returns (ok: bool, records: seq<BodyRecord>, g: GeneratorState)
    requires bd.Valid()
    requires StarCode <= bodyType < BodyTypeCount
    requires 0 <= i < bd.nBody[bodyType] && |records0| == |TypesBelow(bd.nBody[..], bodyType)| + i
    requires |bd.names| >= |DiskTypes(bd.nBody[..])|
    requires bd.migType.Length >= |DiskTypes(bd.nBody[..])|
    requires bd.stopAt.Length >= |DiskTypes(bd.nBody[..])|
    requires StateFits(g0) && (bodyType == StarCode ==> g0.rVec == Origin && g0.vVec == Origin)
    requires ViewValid(ViewOf(bd)) && AllFit(ViewOf(bd), radiusOf, records0)
    ensures StateFits(g) && (bodyType == StarCode ==> g.rVec == Origin && g.vVec == Origin)
    ensures AllFit(ViewOf(bd), radiusOf, records)
    ensures ok ==> |records| == |records0| + 1
    ensures !ok ==> records == records0 && |records| < |DiskTypes(bd.nBody[..])| && DiskTypes(bd.nBody[..])[|records|] != CentralBody
  {
    TypeOfId(bd.nBody[..], bodyType, i);
    var bodyId := |records0|;
    var rec, param0, param, k;
    ok, rec, param0, param, k := MakeRecord(bd, bodyType, bodyId, g0.param0, g0.param, g0.rVec, g0.vVec, sample, g0.k, radiusOf, phase);
    if !ok {
      records, g := records0, g0.(param0 := param0, param := param, k := k);
      return;
    }
    AllFitSnoc(ViewOf(bd), radiusOf, records0, rec);
    records, g := records0 + [rec], GeneratorState(param0, param, rec.r, rec.v, k);
  }

  /** The record of body bodyId, the i-th of its type, or false when its phase cannot
      be calculated. */
  method MakeRecord(bd: BodyDisk, bodyType: int, bodyId: int, param0: Param, param: Param, rVec: Vec, vVec: Vec,
                    sample: Sampler, k: nat, radiusOf: (real, real) -> real, phase: PhaseSolver)
    returns (ok: bool, rec: BodyRecord, newParam0: Param, newParam: Param, next: nat)
    requires bd.Valid()
    requires StarCode <= bodyType < BodyTypeCount
    requires 0 <= bodyId < |bd.names| && bodyId < bd.migType.Length && bodyId < bd.stopAt.Length
    requires HasSetParamFields(param0) && HasSetParamFields(param)
    requires bodyType == StarCode ==> rVec == Origin && vVec == Origin
    ensures HasSetParamFields(newParam0) && HasSetParamFields(newParam)
    ensures ViewValid(ViewOf(bd))
    ensures ok ==> rec.param.bodyType == BodyTypeOfCode(bodyType) && RecordData(ViewOf(bd), radiusOf, bodyId, rec)
    ensures !ok ==> bodyType != StarCode
  {
    newParam0, newParam := param0, param;
    if bodyType == StarCode {
      newParam0, next := GenerateStar(bd, bodyId, param0, sample, k, radiusOf);
      rec := BodyRecord(bd.names[bodyId], newParam0, rVec, vVec);
      ok := true;
    } else {
      var oe := GenerateOe(bd.oeD[bodyType], sample, k);
      newParam, next := GenerateBody(bd, bodyId, bodyType, param, sample, k + OrbitalElementCount, radiusOf);
      var ph := phase(newParam0.mass + newParam.mass, oe);
      if ph.None? {
        rec := BodyRecord(bd.names[bodyId], newParam, rVec, vVec);
        ok := false;
      } else {
        rec := BodyRecord(bd.names[bodyId], newParam, ph.value.0, ph.value.1);
        ok := true;
      }
    }
  }

  /** The star branch of generate_pp_disk's loop: id, type, epoch, physical properties
      and migration data of param0. */
  method GenerateStar(bd: BodyDisk, bodyId: int, param0: Param, sample: Sampler, k: nat, radiusOf: (real, real) -> real)
    returns (p: Param, next: nat)
    requires bd.Valid()
    requires 0 <= bodyId < bd.migType.Length && bodyId < bd.stopAt.Length
    ensures p.id == bodyId && p.bodyType == CentralBody && p.epoch == 0.0
    ensures p.migType == bd.migType[bodyId] && p.migStopAt == bd.stopAt[bodyId]
    ensures HasSetParamFields(param0) ==> HasSetParamFields(p)
    ensures FollowsSizeCase(bd.ppD[StarCode], p, radiusOf)
  {
    p := param0.(id := bodyId, bodyType := CentralBody, epoch := 0.0);
    p, next := GeneratePp(bd.ppD[StarCode], p, sample, k, radiusOf);
    p := p.(migType := bd.migType[bodyId], migStopAt := bd.stopAt[bodyId]);
  }

  /** The branch of generate_pp_disk's loop for a body other than a star, up to its
      phase: id, type, epoch, physical properties and migration data of param. */
  method GenerateBody(bd: BodyDisk, bodyId: int, bodyType: int, param: Param, sample: Sampler, k: nat,
                      radiusOf: (real, real) -> real)
    returns (p: Param, next: nat)
    requires bd.Valid()
    requires StarCode <= bodyType < BodyTypeCount
    requires 0 <= bodyId < bd.migType.Length && bodyId < bd.stopAt.Length
    ensures p.id == bodyId && p.bodyType == BodyTypeOfCode(bodyType) && p.epoch == 0.0
    ensures p.migType == bd.migType[bodyId] && p.migStopAt == bd.stopAt[bodyId]
    ensures HasSetParamFields(param) ==> HasSetParamFields(p)
    ensures FollowsSizeCase(bd.ppD[bodyType], p, radiusOf)
  {
    p := param.(id := bodyId, bodyType := BodyTypeOfCode(bodyType), epoch := 0.0);
    p, next := GeneratePp(bd.ppD[bodyType], p, sample, k, radiusOf);
    p := p.(migType := bd.migType[bodyId], migStopAt := bd.stopAt[bodyId]);
  }

  // ---------------------------------------------------------------------------------
  // The Kepler solver

  /** Constants::Pi, as the double it is. */
  const Pi: real := 3.141592653589793

  /** The eccentric anomaly after n Newton steps from e0. The step,
      E - (E - ecc sin E - mean) / (1 - ecc cos E), is the parameter update. */
  function Iterate(update: real -> real, e0: real, n: nat): real
  {
    if n == 0 then e0 else update(Iterate(update, e0, n - 1))
  }

  /** The change the k-th Newton step makes (the solver's error). */
  function Change(update: real -> real, e0: real, k: nat): real
    requires k >= 1
  {
    Abs(Iterate(update, e0, k) - Iterate(update, e0, k - 1))
  }

  /** The most steps the solver's loop can take. */
  const MaxSteps: nat := 17

  /** The steps the loop takes from step k on: it stops at the first whose change is at
      most eps, and after step MaxSteps. */
  function StepsFrom(update: real -> real, e0: real, eps: real, k: nat): (m: nat)
    requires 1 <= k <= MaxSteps
    ensures k <= m <= MaxSteps
    decreases MaxSteps - k
  {
    if Change(update, e0, k) <= eps || k == MaxSteps then k else StepsFrom(update, e0, eps, k + 1)
  }

  function Steps(update: real -> real, e0: real, eps: real): nat
  {
    StepsFrom(update, e0, eps, 1)
  }

  /** Some step among the first n changes E by at most eps. */
  ghost predicate ConvergesWithin(update: real -> real, e0: real, eps: real, n: nat)
  {
    exists k: nat :: 1 <= k <= n && Change(update, e0, k) <= eps
  }

  /** The loop runs until the first step whose change is at most eps, or until MaxSteps
      steps ran; so it ended converged exactly when some step within MaxSteps converged,
      and it ran all MaxSteps steps exactly when none of the first MaxSteps - 1 did. */
  lemma {:induction false} StepsCharacterized(update: real -> real, e0: real, eps: real, n: nat)
    requires 1 <= n <= MaxSteps
    ensures Steps(update, e0, eps) <= n && Change(update, e0, Steps(update, e0, eps)) <= eps
            <==> ConvergesWithin(update, e0, eps, n)
  {
    var m := Steps(update, e0, eps);
    if m <= n && Change(update, e0, m) <= eps {
      assert 1 <= m;
    } else if ConvergesWithin(update, e0, eps, n) {
      var k: nat :| 1 <= k <= n && Change(update, e0, k) <= eps;
      StepsFromFirst(update, e0, eps, 1);
      assert false;
    }
  }

  lemma {:induction false} StepsFromFirst(update: real -> real, e0: real, eps: real, k: nat)
    requires 1 <= k <= MaxSteps
    ensures forall j :: k <= j < StepsFrom(update, e0, eps, k) ==> Change(update, e0, j) > eps
    ensures StepsFrom(update, e0, eps, k) < MaxSteps ==> Change(update, e0, StepsFrom(update, e0, eps, k)) <= eps
    decreases MaxSteps - k
  {
    if !(Change(update, e0, k) <= eps || k == MaxSteps) {
      StepsFromFirst(update, e0, eps, k + 1);
    }
  }

  /** The do-while loop of kepler_equation_solver from the starting guess e0: each pass
      takes a step and, when its change exceeds eps, tests and then increments step, so
      the loop ends after the first converged step or once step was 16 before the test.
      It returns the final E, step and the last change. */
  method NewtonLoop(update: real -> real, e0: real, eps: real) returns (e: real, step: int, error: real)
    ensures e == Iterate(update, e0, Steps(update, e0, eps))
    ensures error == Change(update, e0, Steps(update, e0, eps))
    ensures step == if error > eps then Steps(update, e0, eps) else Steps(update, e0, eps) - 1
  {
    e := e0;
    step := 0;
    error := 0.0;
    var going := true;
    ghost var n: nat := 0;
    while going
      invariant e == Iterate(update, e0, n)
      invariant going ==> n <= MaxSteps - 1 && step == n && Steps(update, e0, eps) == StepsFrom(update, e0, eps, n + 1)
      invariant !going ==> 1 <= n && n == Steps(update, e0, eps) && error == Change(update, e0, n)
      invariant !going ==> step == if error > eps then n else n - 1
      decreases MaxSteps - n
    {
      var e1 := update(e);
      error := Abs(e1 - e);
      e := e1;
      n := n + 1;
      StepsFromUnfold(update, e0, eps, n);
      if error > eps {
        going := step <= 15;
        step := step + 1;
      } else {
        going := false;
      }
    }
  }

  /** One unfolding of StepsFrom: step k either ends the loop or hands over to step k + 1. */
  lemma StepsFromUnfold(update: real -> real, e0: real, eps: real, k: nat)
    requires 1 <= k <= MaxSteps
    ensures Change(update, e0, k) <= eps || k == MaxSteps ==> StepsFrom(update, e0, eps, k) == k
    ensures Change(update, e0, k) > eps && k < MaxSteps ==> StepsFrom(update, e0, eps, k) == StepsFrom(update, e0, eps, k + 1)
  {
  }

  /** kepler_equation_solver as written: E is the mean anomaly, and 0 is returned, when
      the eccentricity is 0 or the mean anomaly is 0 or pi; otherwise the Newton loop
      runs from the starting guess e0 (its trigonometric form is not modelled) and 1 is
      returned when step ended above 15. That happens exactly when none of the first
      16 steps converged, even when the 17th did. */
  method KeplerEquationSolverAsWritten(ecc: real, mean: real, eps: real, e0: real, update: real -> real)
    returns (code: int, e: real)
    ensures ecc == 0.0 || mean == 0.0 || mean == Pi ==> code == 0 && e == mean
    ensures !(ecc == 0.0 || mean == 0.0 || mean == Pi) ==>
              e == Iterate(update, e0, Steps(update, e0, eps))
              && (code == 1 <==> !ConvergesWithin(update, e0, eps, MaxSteps - 1))
    ensures code == 0 || code == 1
  {
    if ecc == 0.0 || mean == 0.0 || mean == Pi {
      e := mean;
      return 0, e;
    }
    var step, error;
    e, step, error := NewtonLoop(update, e0, eps);
    StepsCharacterized(update, e0, eps, MaxSteps - 1);
    StepsFromFirst(update, e0, eps, 1);
    if step > 15 {
      code := 1;
    } else {
      code := 0;
    }
  }

  /** kepler_equation_solver as intended: 1 exactly when no step of the loop converged. */
  method KeplerEquationSolver(ecc: real, mean: real, eps: real, e0: real, update: real -> real)
    returns (code: int, e: real)
    ensures ecc == 0.0 || mean == 0.0 || mean == Pi ==> code == 0 && e == mean
    ensures !(ecc == 0.0 || mean == 0.0 || mean == Pi) ==>
              e == Iterate(update, e0, Steps(update, e0, eps))
              && (code == 1 <==> !ConvergesWithin(update, e0, eps, MaxSteps))
    ensures code == 0 || code == 1
  {
    if ecc == 0.0 || mean == 0.0 || mean == Pi {
      e := mean;
      return 0, e;
    }
    var step, error;
    e, step, error := NewtonLoop(update, e0, eps);
    StepsCharacterized(update, e0, eps, MaxSteps);
    if error > eps {
      code := 1;
    } else {
      code := 0;
    }
  }

  function Halve(x: real): real { x / 2.0 }

  function Pow2(n: nat): nat { if n == 0 then 1 else 2 * Pow2(n - 1) }

  lemma {:induction false} HalvingIterates(k: nat)
    requires k <= MaxSteps
    ensures Iterate(Halve, Pow2(MaxSteps) as real, k) == Pow2(MaxSteps - k) as real
  {
    if k > 0 {
      HalvingIterates(k - 1);
      assert Pow2(MaxSteps - (k - 1)) == 2 * Pow2(MaxSteps - k);
    }
  }

  /** Halving from 2^17 with eps = 1: the changes are 2^16, 2^15, ..., 1, so only the
      17th step converges. The solver as written reports that as a failure; the
      intended one does not. */
  lemma LateConvergenceReportedAsFailure()
    ensures ConvergesWithin(Halve, Pow2(MaxSteps) as real, 1.0, MaxSteps)
    ensures !ConvergesWithin(Halve, Pow2(MaxSteps) as real, 1.0, MaxSteps - 1)
  {
    var e0 := Pow2(MaxSteps) as real;
    forall k: nat | 1 <= k <= MaxSteps
      ensures Change(Halve, e0, k) == Pow2(MaxSteps - k) as real
    {
      HalvingIterates(k);
      HalvingIterates(k - 1);
      assert Pow2(MaxSteps - (k - 1)) == 2 * Pow2(MaxSteps - k);
    }
    forall k: nat | 1 <= k < MaxSteps
      ensures Change(Halve, e0, k) > 1.0
    {
      Pow2AtLeastTwo(MaxSteps - k);
    }
    assert Change(Halve, e0, MaxSteps) <= 1.0;
  }

  lemma {:induction false} Pow2AtLeastTwo(n: nat)
    requires n >= 1
    ensures Pow2(n) >= 2
  {
    if n > 1 {
      Pow2AtLeastTwo(n - 1);
    }
  }
}
