/** The record layouts BinaryFileAdapter.cpp writes. A writer is modelled as the sequence
    of values it receives, in order: an int is 4 bytes, a double 8 bytes (kept opaque, as a
    real), a byte one byte. In text mode the same values are written formatted; the
    widths and precisions are not modelled. Every encoder has a decoder beside it and a
    round-trip lemma connecting the two. */
module BinaryRecords {
  import opened Foreign
  import opened SolarisTypes
  import opened BodyModel

  newtype byte = x: int | 0 <= x < 256

  /** One value handed to a writer. Str and Newline occur only in text mode. */
  datatype Item =
    | Int(i: int)
    | Double(d: real)
    | Byte(b: byte)
    | Char(c: char)
    | Str(s: string)
    | Newline

  /** output_type_t. */
  datatype OutputType = BinaryOutput | TextOutput

  function Doubles(xs: seq<real>): (r: seq<Item>)
    ensures |r| == |xs|
  {
    seq(|xs|, k requires 0 <= k < |xs| => Double(xs[k]))
  }

  predicate AllDoubles(items: seq<Item>)
  {
    forall k :: 0 <= k < |items| ==> items[k].Double?
  }

  function Values(items: seq<Item>): (r: seq<real>)
    requires AllDoubles(items)
    ensures |r| == |items|
  {
    seq(|items|, k requires 0 <= k < |items| => items[k].d)
  }

  lemma ValuesOfDoubles(xs: seq<real>)
    ensures AllDoubles(Doubles(xs)) && Values(Doubles(xs)) == xs
  {
  }

  // ----- phases -----

  /** SavePhase in binary mode, and a live body in text mode: the id, then the six state
      values y[0..6]. */
  function PhaseEntry(id: int, y6: seq<real>): seq<Item>
  {
    [Int(id)] + Doubles(y6)
  }

  /** The entries of the bodies i..n-1: body k's state is y[6k..6k+6]. */
  function Entries(y: seq<real>, id: seq<int>, i: nat, n: nat): (r: seq<Item>)
    requires i <= n && n <= |id| && 6 * n <= |y|
    ensures |r| == 7 * (n - i)
    decreases n - i
  {
    if i == n then [] else PhaseEntry(id[i], y[6 * i..6 * i + 6]) + Entries(y, id, i + 1, n)
  }

  /** The entries grow one body at a time, as the loop of SavePhases writes them. */
  lemma {:induction false} EntriesSnoc(y: seq<real>, id: seq<int>, i: nat, n: nat)
    requires i <= n && n + 1 <= |id| && 6 * (n + 1) <= |y|
    ensures Entries(y, id, i, n + 1) == Entries(y, id, i, n) + PhaseEntry(id[n], y[6 * n..6 * n + 6])
    decreases n - i
  {
    var last := PhaseEntry(id[n], y[6 * n..6 * n + 6]);
    if i < n {
      EntriesSnoc(y, id, i + 1, n);
      var first := PhaseEntry(id[i], y[6 * i..6 * i + 6]);
      calc {
        Entries(y, id, i, n + 1);
        first + Entries(y, id, i + 1, n + 1);
        first + (Entries(y, id, i + 1, n) + last);
        (first + Entries(y, id, i + 1, n)) + last;
      }
    } else {
      assert Entries(y, id, n, n + 1) == last + Entries(y, id, n + 1, n + 1);
    }
  }

  /** The binary phases record: time, n, then the n entries. */
  function BinaryPhases(time: real, n: nat, y: seq<real>, id: seq<int>): seq<Item>
    requires n <= |id| && 6 * n <= |y|
  {
    [Double(time), Int(n)] + Entries(y, id, 0, n)
  }

  /** A removed-body placeholder in text mode: the negated id and six zeros. */
  function Placeholder(id: int): seq<Item>
  {
    [Int(-id), Int(0), Int(0), Int(0), Int(0), Int(0), Int(0)]
  }

  function Placeholders(ids: seq<int>): (r: seq<Item>)
    ensures |r| == 7 * |ids|
  {
    if ids == [] then [] else Placeholder(ids[0]) + Placeholders(ids[1..])
  }

  lemma {:induction false} PlaceholdersSnoc(ids: seq<int>, x: int)
    ensures Placeholders(ids + [x]) == Placeholders(ids) + Placeholder(x)
  {
    if ids == [] {
      assert [x][1..] == [];
    } else {
      assert (ids + [x])[1..] == ids[1..] + [x];
      PlaceholdersSnoc(ids[1..], x);
    }
  }

  /** The text phases record: time, n, the n live entries, a placeholder for each removed
      body, then the end of the line. */
  function TextPhases(time: real, n: nat, y: seq<real>, id: seq<int>, removedIds: seq<int>): seq<Item>
    requires n <= |id| && 6 * n <= |y|
  {
    [Double(time), Int(n)] + Entries(y, id, 0, n) + Placeholders(removedIds) + [Newline]
  }

  /** The removed bodies SavePhases marks in text mode AS WRITTEN: the loop writes the
      placeholders from slots 0..removed-1, which hold the first live bodies. */
  function RemovedAsWritten(id: seq<int>, removed: int): (r: seq<int>)
    requires removed <= |id|
    ensures removed > 0 ==> r == id[..removed]
  {
    if removed > 0 then id[..removed] else []
  }

  /** The removed bodies as intended: the removed bodies follow the n live ones, in the
      slots n..n+removed-1. */
  function RemovedIds(id: seq<int>, n: nat, removed: int): (r: seq<int>)
    requires n <= |id| && (removed > 0 ==> n + removed <= |id|)
    ensures removed > 0 ==> r == id[n..n + removed]
    ensures removed <= 0 ==> r == []
  {
    if removed > 0 then id[n..n + removed] else []
  }

  /** What a reader gets back from a phases record. */
  datatype Snapshot = Snapshot(time: real, ids: seq<int>, values: seq<real>, removed: seq<int>)

  /** Reads n entries; also returns what follows them. */
  function DecodeEntries(items: seq<Item>, n: nat): Option<(seq<int>, seq<real>, seq<Item>)>
    decreases n
  {
    if n == 0 then Some(([], [], items))
    else if |items| < 7 || !items[0].Int? || !AllDoubles(items[1..7]) then None
    else match DecodeEntries(items[7..], n - 1)
      case None => None
      case Some(t) => Some(([items[0].i] + t.0, Values(items[1..7]) + t.1, t.2))
  }

  lemma {:induction false} DecodeEntriesRoundTrip(y: seq<real>, id: seq<int>, i: nat, n: nat, rest: seq<Item>)
    requires i <= n && n <= |id| && 6 * n <= |y|
    ensures DecodeEntries(Entries(y, id, i, n) + rest, n - i) == Some((id[i..n], y[6 * i..6 * n], rest))
    decreases n - i
  {
    if i < n {
      var e := PhaseEntry(id[i], y[6 * i..6 * i + 6]);
      var items := Entries(y, id, i, n) + rest;
      assert items == e + (Entries(y, id, i + 1, n) + rest);
      assert items[0] == Int(id[i]);
      assert items[1..7] == Doubles(y[6 * i..6 * i + 6]);
      ValuesOfDoubles(y[6 * i..6 * i + 6]);
      assert items[7..] == Entries(y, id, i + 1, n) + rest;
      DecodeEntriesRoundTrip(y, id, i + 1, n, rest);
      assert id[i..n] == [id[i]] + id[i + 1..n];
      assert y[6 * i..6 * n] == y[6 * i..6 * i + 6] + y[6 * (i + 1)..6 * n];
    } else {
      assert Entries(y, id, i, n) + rest == rest;
      assert id[i..n] == [] && y[6 * i..6 * n] == [];
    }
  }

  function DecodeBinaryPhases(items: seq<Item>): Option<Snapshot>
  {
    if |items| < 2 || !items[0].Double? || !items[1].Int? || items[1].i < 0 then None
    else match DecodeEntries(items[2..], items[1].i)
      case Some(t) => if t.2 == [] then Some(Snapshot(items[0].d, t.0, t.1, [])) else None
      case None => None
  }

  /** A binary phases record gives back the time, the n ids and their 6n state values. */
  lemma BinaryPhasesRoundTrip(time: real, n: nat, y: seq<real>, id: seq<int>)
    requires n <= |id| && 6 * n <= |y|
    ensures DecodeBinaryPhases(BinaryPhases(time, n, y, id)) == Some(Snapshot(time, id[..n], y[..6 * n], []))
  {
    var items := BinaryPhases(time, n, y, id);
    assert items[2..] == Entries(y, id, 0, n) + [];
    DecodeEntriesRoundTrip(y, id, 0, n, []);
  }

  /** Reads placeholders up to the end of the line and returns the ids they mark. */
  function DecodeRemoved(items: seq<Item>): Option<seq<int>>
    decreases |items|
  {
    if items == [Newline] then Some([])
    else if |items| >= 7 && items[0].Int? && items[1..7] == [Int(0), Int(0), Int(0), Int(0), Int(0), Int(0)] then
      match DecodeRemoved(items[7..])
      case Some(ids) => Some([-items[0].i] + ids)
      case None => None
    else None
  }

  lemma {:induction false} DecodeRemovedRoundTrip(ids: seq<int>)
    ensures DecodeRemoved(Placeholders(ids) + [Newline]) == Some(ids)
  {
    if ids != [] {
      var items := Placeholders(ids) + [Newline];
      assert items == Placeholder(ids[0]) + (Placeholders(ids[1..]) + [Newline]);
      assert items[7..] == Placeholders(ids[1..]) + [Newline];
      DecodeRemovedRoundTrip(ids[1..]);
      assert ids == [ids[0]] + ids[1..];
    } else {
      assert Placeholders(ids) + [Newline] == [Newline];
    }
  }

  function DecodeTextPhases(items: seq<Item>): Option<Snapshot>
  {
    if |items| < 2 || !items[0].Double? || !items[1].Int? || items[1].i < 0 then None
    else match DecodeEntries(items[2..], items[1].i)
      case None => None
      case Some(t) =>
        match DecodeRemoved(t.2)
        case None => None
        case Some(r) => Some(Snapshot(items[0].d, t.0, t.1, r))
  }

  /** A text phases record gives back the live bodies and the ids of the removed ones. */
  lemma TextPhasesRoundTrip(time: real, n: nat, y: seq<real>, id: seq<int>, removedIds: seq<int>)
    requires n <= |id| && 6 * n <= |y|
    ensures DecodeTextPhases(TextPhases(time, n, y, id, removedIds)) == Some(Snapshot(time, id[..n], y[..6 * n], removedIds))
  {
    var items := TextPhases(time, n, y, id, removedIds);
    var tail := Placeholders(removedIds) + [Newline];
    assert items[2..] == Entries(y, id, 0, n) + tail;
    DecodeEntriesRoundTrip(y, id, 0, n, tail);
    DecodeRemovedRoundTrip(removedIds);
  }

  /** With the placeholders taken from the slots after the live bodies, a reader of a
      text phases file never sees a live body reported as removed (the ids are distinct,
      as body ids are). */
  lemma RemovedAreNotLive(time: real, n: nat, y: seq<real>, id: seq<int>, removed: int)
    requires 6 * n <= |y| && removed > 0 && n + removed <= |id|
    requires forall a, b :: 0 <= a < b < |id| ==> id[a] != id[b]
    ensures var s := DecodeTextPhases(TextPhases(time, n, y, id, RemovedIds(id, n, removed)));
      s.Some? && s.value.removed == id[n..n + removed] &&
      forall k :: 0 <= k < |s.value.removed| ==> s.value.removed[k] !in s.value.ids
  {
    TextPhasesRoundTrip(time, n, y, id, RemovedIds(id, n, removed));
    var live := id[..n];
    var gone := id[n..n + removed];
    forall k | 0 <= k < |gone|
      ensures gone[k] !in live
    {
      assert gone[k] == id[n + k];
      assert forall a :: 0 <= a < |live| ==> live[a] == id[a];
    }
  }

  /** The loop as written reports the first live body as removed: with one live body 5
      and one removed body 7, the text record marks 5 and not 7. */
  lemma RemovedAsWrittenMarksLiveBody()
    ensures var id := [5, 7];
      var y := [0.0, 0.0, 0.0, 0.0, 0.0, 0.0];
      var s := DecodeTextPhases(TextPhases(0.0, 1, y, id, RemovedAsWritten(id, 1)));
      s.Some? && s.value.ids == [5] && s.value.removed == [5] && 7 !in s.value.removed
  {
    var id := [5, 7];
    var y := [0.0, 0.0, 0.0, 0.0, 0.0, 0.0];
    TextPhasesRoundTrip(0.0, 1, y, id, RemovedAsWritten(id, 1));
    assert id[..1] == [5];
  }

  // ----- integrals -----

  /** The binary integrals record: the count n + 1, the time, then the n values. */
  function BinaryIntegrals(time: real, n: nat, integrals: seq<real>): seq<Item>
    requires n <= |integrals|
  {
    [Int(n + 1), Double(time)] + Doubles(integrals[..n])
  }

  /** The text integrals record: the time and always 16 values, then the end of the line. */
  function TextIntegrals(time: real, integrals: seq<real>): seq<Item>
    requires 16 <= |integrals|
  {
    [Double(time)] + Doubles(integrals[..16]) + [Newline]
  }

  /** The count of a binary integrals record covers the time and the values. */
  function DecodeIntegrals(items: seq<Item>): Option<(real, seq<real>)>
  {
    if |items| < 2 || !items[0].Int? || items[0].i != |items| - 1 || !AllDoubles(items[1..]) then None
    else Some((items[1].d, Values(items[2..])))
  }

  lemma IntegralsRoundTrip(time: real, n: nat, integrals: seq<real>)
    requires n <= |integrals|
    ensures DecodeIntegrals(BinaryIntegrals(time, n, integrals)) == Some((time, integrals[..n]))
  {
    var items := BinaryIntegrals(time, n, integrals);
    assert items[2..] == Doubles(integrals[..n]);
    ValuesOfDoubles(integrals[..n]);
  }

  // ----- two-body affairs -----

  /** Six state values: x, y, z, vx, vy, vz. */
  type State6 = s: seq<real> | |s| == 6 witness [0.0, 0.0, 0.0, 0.0, 0.0, 0.0]

  /** The fields of a TwoBodyAffair the writers emit; type is its enumeration code. */
  datatype TwoBodyAffair = TwoBodyAffair(
    id: int, affairType: int, body1Id: int, body2Id: int,
    body1Phase: State6, body2Phase: State6, time: real)

  /** Binary: id, type, the two body ids, the two phases, then the time. */
  function BinaryAffair(a: TwoBodyAffair): (r: seq<Item>)
    ensures |r| == 17
  {
    [Int(a.id), Int(a.affairType), Int(a.body1Id), Int(a.body2Id)] +
    Doubles(a.body1Phase) + Doubles(a.body2Phase) + [Double(a.time)]
  }

  /** Text: the time comes before the phases. */
  function TextAffair(a: TwoBodyAffair): (r: seq<Item>)
    ensures |r| == 18
  {
    [Int(a.id), Int(a.affairType), Int(a.body1Id), Int(a.body2Id), Double(a.time)] +
    Doubles(a.body1Phase) + Doubles(a.body2Phase) + [Newline]
  }

  function AffairRecord(a: TwoBodyAffair, t: OutputType): seq<Item>
  {
    if t == BinaryOutput then BinaryAffair(a) else TextAffair(a)
  }

  /** The records of a list of affairs, in list order. */
  function AffairRecords(list: seq<TwoBodyAffair>, t: OutputType): seq<Item>
  {
    if list == [] then [] else AffairRecords(list[..|list| - 1], t) + AffairRecord(list[|list| - 1], t)
  }

  function DecodeBinaryAffair(items: seq<Item>): Option<TwoBodyAffair>
  {
    if |items| == 17 && items[0].Int? && items[1].Int? && items[2].Int? && items[3].Int? && AllDoubles(items[4..]) then
      var v := Values(items[4..]);
      Some(TwoBodyAffair(items[0].i, items[1].i, items[2].i, items[3].i, v[..6], v[6..12], v[12]))
    else None
  }

  lemma AffairRoundTrip(a: TwoBodyAffair)
    ensures DecodeBinaryAffair(BinaryAffair(a)) == Some(a)
  {
    var items := BinaryAffair(a);
    var xs := a.body1Phase + a.body2Phase + [a.time];
    assert items[4..] == Doubles(xs);
    ValuesOfDoubles(xs);
    assert xs[..6] == a.body1Phase && xs[6..12] == a.body2Phase && xs[12] == a.time;
  }

  // ----- strings -----

  /** The position of the first NUL character, or |s|: what strlen counts. */
  function NulIndex(s: string): (i: nat)
    ensures i <= |s|
  {
    if s == [] || s[0] == '\0' then 0 else 1 + NulIndex(s[1..])
  }

  /** The characters c_str() and strlen see: everything before the first NUL. */
  function CStr(s: string): (r: string)
  {
    s[..NulIndex(s)]
  }

  predicate NoNul(s: string)
  {
    forall k :: 0 <= k < |s| ==> s[k] != '\0'
  }

  /** strlen stops at the first NUL, and only there. */
  lemma {:induction false} CStrStopsAtNul(s: string)
    ensures NoNul(CStr(s))
    ensures NulIndex(s) < |s| ==> s[NulIndex(s)] == '\0'
    ensures NoNul(s) ==> CStr(s) == s
  {
    if s != [] && s[0] != '\0' {
      CStrStopsAtNul(s[1..]);
      assert CStr(s) == [s[0]] + CStr(s[1..]);
      if NoNul(s) {
        assert NoNul(s[1..]) by {
          forall k | 0 <= k < |s[1..]|
            ensures s[1..][k] != '\0'
          {
            assert s[1..][k] == s[k + 1];
          }
        }
        assert s == [s[0]] + s[1..];
      }
    } else {
      assert CStr(s) == [];
    }
  }

  /** The characters of a string, one item each. */
  function Chars(s: string): (r: seq<Item>)
    ensures |r| == |s|
  {
    if s == [] then [] else [Char(s[0])] + Chars(s[1..])
  }

  /** A binary string: one length byte, then the characters strlen counts. The length is
      cast to a char, so it is right only up to 127 characters, the limit the source sets
      for its strings; the round-trip lemmas assume it. */
  function EncodeString(s: string): (r: seq<Item>)
    ensures |r| == 1 + |CStr(s)|
  {
    [Byte((|CStr(s)| % 256) as byte)] + Chars(CStr(s))
  }

  /** Reads len characters; also returns what follows them. */
  function DecodeChars(items: seq<Item>, len: nat): (r: Option<(string, seq<Item>)>)
    ensures r.Some? ==> |r.value.1| + len <= |items|
    decreases len
  {
    if len == 0 then Some(([], items))
    else if items == [] || !items[0].Char? then None
    else match DecodeChars(items[1..], len - 1)
      case None => None
      case Some(t) => Some(([items[0].c] + t.0, t.1))
  }

  /** Reads a length byte and that many characters; also returns what follows them. */
  function DecodeString(items: seq<Item>): (r: Option<(string, seq<Item>)>)
    ensures r.Some? ==> |r.value.1| < |items|
  {
    if items == [] || !items[0].Byte? then None
    else DecodeChars(items[1..], items[0].b as int)
  }

  lemma {:induction false} CharsRoundTrip(s: string, rest: seq<Item>)
    ensures DecodeChars(Chars(s) + rest, |s|) == Some((s, rest))
  {
    if s != [] {
      var items := Chars(s) + rest;
      var tail := Chars(s[1..]) + rest;
      assert items == [Char(s[0])] + tail;
      assert items[0] == Char(s[0]) && items[1..] == tail;
      CharsRoundTrip(s[1..], rest);
      assert DecodeChars(items, |s|) == Some(([s[0]] + s[1..], rest));
      assert s == [s[0]] + s[1..];
    } else {
      assert Chars(s) + rest == rest;
    }
  }

  /** A string without NUL characters reads back unchanged. */
  lemma StringRoundTrip(s: string, rest: seq<Item>)
    requires Plain(s)
    ensures CStr(s) == s
    ensures DecodeString(EncodeString(s) + rest) == Some((s, rest))
  {
    CStrStopsAtNul(s);
    var items := EncodeString(s) + rest;
    assert items[1..] == Chars(s) + rest;
    CharsRoundTrip(s, rest);
  }

  // ----- GUIDs -----

  type Guid = s: seq<byte> | |s| == 16 witness [0, 0, 0, 0, 0, 0, 0, 0, 0, 0, 0, 0, 0, 0, 0, 0]

  /** The position of the input byte emitted at position k: the int part and the two short
      parts are reversed, the last eight bytes are kept. */
  function GuidSource(k: int): (j: int)
    requires 0 <= k < 16
    ensures 0 <= j < 16
  {
    if k < 4 then 3 - k else if k < 6 then 9 - k else if k < 8 then 13 - k else k
  }

  /** The order SaveConstantProperty emits the 16 bytes in: 3, 2, 1, 0, 5, 4, 7, 6, 8..15. */
  function GuidOrder(g: Guid): (r: Guid)
    ensures forall k :: 0 <= k < 16 ==> r[k] == g[GuidSource(k)]
  {
    [g[3], g[2], g[1], g[0], g[5], g[4], g[7], g[6]] + g[8..16]
  }

  /** Reordering twice gives the input back, so a reader recovers the GUID. */
  lemma GuidOrderInvolution(g: Guid)
    ensures GuidOrder(GuidOrder(g)) == g
  {
  }

  /** The emitted bytes are a permutation of the input bytes: input byte k is emitted at
      position GuidSource(k), and the position map is its own inverse, so a bijection. */
  lemma GuidOrderPermutes(g: Guid)
    ensures forall k :: 0 <= k < 16 ==> GuidSource(GuidSource(k)) == k
    ensures forall k :: 0 <= k < 16 ==> GuidOrder(g)[GuidSource(k)] == g[k]
  {
    forall k | 0 <= k < 16
      ensures GuidOrder(g)[GuidSource(k)] == g[k]
    {
      assert GuidSource(GuidSource(k)) == k;
    }
  }

  function Bytes(g: seq<byte>): (r: seq<Item>)
    ensures |r| == |g|
  {
    seq(|g|, k requires 0 <= k < |g| => Byte(g[k]))
  }

  // ----- body properties -----

  /** A string the binary writers can pass through: at most 127 characters, no NUL. */
  predicate Plain(s: string)
  {
    |s| <= 127 && NoNul(s)
  }

  /** The five strings of a binary constant property record are plain. */
  predicate PlainStrings(b: Body)
  {
    Plain(b.name) && Plain(b.designation) && Plain(b.provisionalDesignation) && Plain(b.reference) && Plain(b.opposition)
  }

  /** absVisMag and stokes, or two zeros for a body without characteristics. */
  function ConstantDoubles(b: Body): seq<real>
  {
    match b.characteristics
    case Some(c) => [c.absVisMag, c.stokes]
    case None => [0.0, 0.0]
  }

  /** The binary constant property record: id, the reordered GUID, the five strings,
      the ln, type, MPC orbit type and migration type codes, then two doubles. */
  function BinaryConstant(b: Body, guid: Guid): seq<Item>
  {
    [Int(b.id)] + Bytes(GuidOrder(guid)) + ConstantStrings(b)
  }

  /** The five strings and what follows them. */
  function ConstantStrings(b: Body): seq<Item>
  {
    EncodeString(b.name) + (EncodeString(b.designation) + (EncodeString(b.provisionalDesignation) +
      (EncodeString(b.reference) + (EncodeString(b.opposition) + ConstantEnd(b)))))
  }

  /** The text constant property record; it writes no body type. */
  function TextConstant(b: Body): seq<Item>
  {
    [Int(b.id), Str(b.name), Str(b.designation), Str(b.provisionalDesignation), Str(b.reference),
     Str(b.opposition), Int(LnCode(b.ln)), Int(MpcOrbitTypeCode(b.mpcOrbitType)),
     Int(MigrationTypeCode(b.migrationType))] +
    Doubles(ConstantDoubles(b)) + [Newline]
  }

  /** What a reader of the binary constant property file recovers. */
  datatype ConstantRecord = ConstantRecord(
    id: int, guid: Guid, name: string, designation: string, provisionalDesignation: string,
    reference: string, opposition: string, ln: int, bodyType: int, mpcOrbitType: int,
    migrationType: int, absVisMag: real, stokes: real)

  function Reorder(items: seq<Item>): Option<Guid>
  {
    if |items| == 16 && forall k :: 0 <= k < 16 ==> items[k].Byte? then
      var g: Guid := seq(16, k requires 0 <= k < 16 => items[k].b);
      Some(GuidOrder(g))
    else None
  }

  /** Reads the five strings after the GUID, then the four codes and the two doubles. */
  function DecodeConstantTail(items: seq<Item>): Option<(seq<string>, seq<int>, seq<real>)>
  {
    match DecodeString(items)
    case None => None
    case Some(a) => match DecodeString(a.1)
    case None => None
    case Some(b) => match DecodeString(b.1)
    case None => None
    case Some(c) => match DecodeString(c.1)
    case None => None
    case Some(d) => match DecodeString(d.1)
    case None => None
    case Some(e) =>
      var t := e.1;
      if |t| == 6 && t[0].Int? && t[1].Int? && t[2].Int? && t[3].Int? && t[4].Double? && t[5].Double? then
        Some(([a.0, b.0, c.0, d.0, e.0], [t[0].i, t[1].i, t[2].i, t[3].i], [t[4].d, t[5].d]))
      else None
  }

  function DecodeConstant(items: seq<Item>): Option<ConstantRecord>
  {
    if |items| < 17 || !items[0].Int? then None
    else match Reorder(items[1..17])
      case None => None
      case Some(g) => match DecodeConstantTail(items[17..])
        case None => None
        case Some(t) =>
          Some(ConstantRecord(items[0].i, g, t.0[0], t.0[1], t.0[2], t.0[3], t.0[4],
                              t.1[0], t.1[1], t.1[2], t.1[3], t.2[0], t.2[1]))
  }

  lemma GuidBytesRoundTrip(g: Guid)
    ensures Reorder(Bytes(GuidOrder(g))) == Some(g)
  {
    var items := Bytes(GuidOrder(g));
    var h: Guid := seq(16, k requires 0 <= k < 16 => items[k].b);
    assert h == GuidOrder(g);
    GuidOrderInvolution(g);
  }

  /** The codes and doubles that end a binary constant property record. */
  function ConstantEnd(b: Body): seq<Item>
  {
    [Int(LnCode(b.ln)), Int(BodyTypeCode(b.bodyType)), Int(MpcOrbitTypeCode(b.mpcOrbitType)),
     Int(MigrationTypeCode(b.migrationType))] + Doubles(ConstantDoubles(b))
  }

  lemma ConstantTailRoundTrip(b: Body)
    requires PlainStrings(b)
    ensures DecodeConstantTail(ConstantStrings(b)) ==
      Some(([b.name, b.designation, b.provisionalDesignation, b.reference, b.opposition],
            [LnCode(b.ln), BodyTypeCode(b.bodyType), MpcOrbitTypeCode(b.mpcOrbitType), MigrationTypeCode(b.migrationType)],
            ConstantDoubles(b)))
  {
    var t := ConstantEnd(b);
    var s5 := EncodeString(b.opposition) + t;
    var s4 := EncodeString(b.reference) + s5;
    var s3 := EncodeString(b.provisionalDesignation) + s4;
    var s2 := EncodeString(b.designation) + s3;
    StringRoundTrip(b.name, s2);
    StringRoundTrip(b.designation, s3);
    StringRoundTrip(b.provisionalDesignation, s4);
    StringRoundTrip(b.reference, s5);
    StringRoundTrip(b.opposition, t);
    assert |t| == 6 && t[4] == Double(ConstantDoubles(b)[0]) && t[5] == Double(ConstantDoubles(b)[1]);
  }

  /** A reader of the binary constant property file recovers the id, the GUID in its
      original byte order, the five strings, the four codes and the two doubles. */
  lemma ConstantRoundTrip(b: Body, guid: Guid)
    requires PlainStrings(b)
    ensures DecodeConstant(BinaryConstant(b, guid)) == Some(ConstantRecord(
      b.id, guid, b.name, b.designation, b.provisionalDesignation, b.reference, b.opposition,
      LnCode(b.ln), BodyTypeCode(b.bodyType), MpcOrbitTypeCode(b.mpcOrbitType),
      MigrationTypeCode(b.migrationType), ConstantDoubles(b)[0], ConstantDoubles(b)[1]))
  {
    var items := BinaryConstant(b, guid);
    assert items[1..17] == Bytes(GuidOrder(guid));
    assert items[17..] == ConstantStrings(b);
    GuidBytesRoundTrip(guid);
    ConstantTailRoundTrip(b);
  }

  /** mass, radius and density, or three zeros for a body without characteristics. */
  function VariableDoubles(b: Body): seq<real>
  {
    match b.characteristics
    case Some(c) => [c.mass, c.radius, c.density]
    case None => [0.0, 0.0, 0.0]
  }

  /** The variable property record: the property id, the body id, the time, then three
      doubles; in text mode the end of the line follows. */
  function VariableRecord(propertyId: int, b: Body, time: real, t: OutputType): (r: seq<Item>)
    ensures |r| == (if t == BinaryOutput then 6 else 7)
  {
    [Int(propertyId), Int(b.id), Double(time)] + Doubles(VariableDoubles(b)) +
    (if t == BinaryOutput then [] else [Newline])
  }

  /** The components a variable property record is followed by in the composition file. */
  function ComponentsOf(b: Body): seq<Component>
  {
    match b.characteristics
    case Some(c) => c.componentList
    case None => []
  }

  /** The records of xs, where f makes the record of an element from its number; the
      numbers run from first on. */
  function Numbered<T>(f: (int, T) -> seq<Item>, first: int, xs: seq<T>): seq<Item>
  {
    if xs == [] then [] else Numbered(f, first, xs[..|xs| - 1]) + f(first + |xs| - 1, xs[|xs| - 1])
  }

  /** Numbered read front to back. */
  lemma {:induction false} NumberedCons<T>(f: (int, T) -> seq<Item>, first: int, xs: seq<T>)
    requires xs != []
    ensures Numbered(f, first, xs) == f(first, xs[0]) + Numbered(f, first + 1, xs[1..])
    decreases |xs|
  {
    if |xs| > 1 {
      var init := xs[..|xs| - 1];
      var tail := xs[1..];
      assert init[0] == xs[0];
      assert tail[..|tail| - 1] == init[1..];
      assert tail[|tail| - 1] == xs[|xs| - 1];
      NumberedCons(f, first, init);
    } else {
      assert xs[..0] == [] && xs[1..] == [];
    }
  }

  /** One composition record: a fresh composition id, the owning property id, the name and
      the ratio. */
  function CompositionRecord(compositionId: int, propertyId: int, c: Component, t: OutputType): seq<Item>
  {
    if t == BinaryOutput then [Int(compositionId), Int(propertyId)] + (EncodeString(c.name) + [Double(c.ratio)])
    else [Int(compositionId), Int(propertyId), Str(c.name), Double(c.ratio), Newline]
  }

  /** The records of the components cs, numbered from compositionId on. */
  function CompositionRecords(compositionId: int, propertyId: int, cs: seq<Component>, t: OutputType): seq<Item>
  {
    Numbered(CompositionOf(propertyId, t), compositionId, cs)
  }

  /** The record of one component of the body with the given property id, from its number. */
  function CompositionOf(propertyId: int, t: OutputType): (int, Component) -> seq<Item>
  {
    (k: int, c: Component) => CompositionRecord(k, propertyId, c, t)
  }

  /** What a reader of a binary composition file recovers from one record. */
  datatype CompositionEntry = CompositionEntry(compositionId: int, propertyId: int, name: string, ratio: real)

  function DecodeCompositions(items: seq<Item>): Option<seq<CompositionEntry>>
    decreases |items|
  {
    if items == [] then Some([])
    else if |items| < 3 || !items[0].Int? || !items[1].Int? then None
    else match DecodeString(items[2..])
      case None => None
      case Some(s) =>
        if s.1 == [] || !s.1[0].Double? then None
        else match DecodeCompositions(s.1[1..])
          case None => None
          case Some(es) => Some([CompositionEntry(items[0].i, items[1].i, s.0, s.1[0].d)] + es)
  }

  predicate PlainNames(cs: seq<Component>)
  {
    forall k :: 0 <= k < |cs| ==> Plain(cs[k].name)
  }

  /** The binary composition records of a body read back as its components, numbered
      consecutively from the first composition id and all owned by its property id. */
  lemma {:induction false} CompositionsRoundTrip(compositionId: int, propertyId: int, cs: seq<Component>)
    requires PlainNames(cs)
    ensures var d := DecodeCompositions(CompositionRecords(compositionId, propertyId, cs, BinaryOutput));
      d.Some? && |d.value| == |cs| &&
      forall k :: 0 <= k < |cs| ==>
        d.value[k] == CompositionEntry(compositionId + k, propertyId, cs[k].name, cs[k].ratio)
    decreases |cs|
  {
    var f := CompositionOf(propertyId, BinaryOutput);
    if cs != [] {
      NumberedCons(f, compositionId, cs);
      var rest := CompositionRecords(compositionId + 1, propertyId, cs[1..], BinaryOutput);
      var items := CompositionRecords(compositionId, propertyId, cs, BinaryOutput);
      var after := [Double(cs[0].ratio)] + rest;
      assert items == [Int(compositionId), Int(propertyId)] + (EncodeString(cs[0].name) + after);
      assert items[2..] == EncodeString(cs[0].name) + after;
      StringRoundTrip(cs[0].name, after);
      assert after[1..] == rest;
      assert PlainNames(cs[1..]) by {
        forall k | 0 <= k < |cs[1..]|
          ensures Plain(cs[1..][k].name)
        {
          assert cs[1..][k] == cs[k + 1];
        }
      }
      CompositionsRoundTrip(compositionId + 1, propertyId, cs[1..]);
      var es := DecodeCompositions(rest).value;
      var all := [CompositionEntry(compositionId, propertyId, cs[0].name, cs[0].ratio)] + es;
      assert DecodeCompositions(items) == Some(all);
      forall k | 0 <= k < |cs|
        ensures all[k] == CompositionEntry(compositionId + k, propertyId, cs[k].name, cs[k].ratio)
      {
        if k > 0 {
          assert all[k] == es[k - 1];
          assert cs[1..][k - 1] == cs[k];
        }
      }
    }
  }
}
