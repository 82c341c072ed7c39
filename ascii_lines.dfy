/** The line handling shared by the two input parsers of ASCIIFileAdapter.cpp: ReadFile,
    which keeps the meaningful lines of an input file, and the key/value split that
    ParseSettings and ParseBodyGroupList apply to every line. */
module AsciiLines {
  import opened Foreign

  /** A line ReadFile keeps: not empty and not a '#' comment. */
  predicate IsKept(line: string)
  {
    |line| > 0 && line[0] != '#'
  }

  /** The kept lines, in their original order. */
  function Kept(lines: seq<string>): (r: seq<string>)
    ensures |r| <= |lines|
  {
    if lines == [] then []
    else (if IsKept(lines[0]) then [lines[0]] else []) + Kept(lines[1..])
  }

  /** Kept selects exactly the lines that are neither empty nor comments. */
  lemma {:induction false} KeptExactly(lines: seq<string>)
    ensures forall l :: l in Kept(lines) ==> IsKept(l)
    ensures forall l :: l in lines && IsKept(l) ==> l in Kept(lines)
  {
    if lines != [] {
      KeptExactly(lines[1..]);
      assert forall l :: l in lines ==> l == lines[0] || l in lines[1..];
    }
  }

  /** The text made of the given lines, each followed by '\n'. */
  function Joined(lines: seq<string>): (r: string)
    ensures |r| >= |lines|
  {
    if lines == [] then "" else lines[0] + "\n" + Joined(lines[1..])
  }

  /** Filtering a concatenation filters each part: the kept lines keep their order. */
  lemma {:induction false} KeptConcat(a: seq<string>, b: seq<string>)
    ensures Kept(a + b) == Kept(a) + Kept(b)
  {
    if a != [] {
      assert (a + b)[0] == a[0];
      assert (a + b)[1..] == a[1..] + b;
      KeptConcat(a[1..], b);
      var first := if IsKept(a[0]) then [a[0]] else [];
      calc {
        Kept(a + b);
        first + Kept(a[1..] + b);
        first + (Kept(a[1..]) + Kept(b));
        (first + Kept(a[1..])) + Kept(b);
      }
    } else {
      assert a + b == b;
    }
  }

  lemma {:induction false} JoinedConcat(a: seq<string>, b: seq<string>)
    ensures Joined(a + b) == Joined(a) + Joined(b)
  {
    if a != [] {
      assert (a + b)[0] == a[0];
      assert (a + b)[1..] == a[1..] + b;
      JoinedConcat(a[1..], b);
      calc {
        Joined(a + b);
        a[0] + "\n" + Joined(a[1..] + b);
        a[0] + "\n" + (Joined(a[1..]) + Joined(b));
        (a[0] + "\n" + Joined(a[1..])) + Joined(b);
      }
    } else {
      assert a + b == b;
    }
  }

  /** ReadFile: appends to str every line getline yields that is neither empty nor a
      comment, each followed by '\n'. The file is given as the lines getline reads;
      opening it, and the exit(1) when that fails, are outside the model. */
  method ReadFile(lines: seq<string>, str0: string) returns (str: string)
    ensures str == str0 + Joined(Kept(lines))
  {
    str := str0;
    var i := 0;
    while i < |lines|
      invariant 0 <= i <= |lines|
      invariant str == str0 + Joined(Kept(lines[..i]))
    {
      var temp := lines[i];
      assert lines[..i + 1] == lines[..i] + [temp];
      KeptStep(lines[..i], temp);
      if |temp| == 0 {
        // an empty line is skipped
      } else if temp[0] == '#' {
        // a comment line is skipped
      } else {
        str := str + temp;
        str := str + "\n";
      }
      i := i + 1;
    }
    assert lines[..i] == lines;
  }

  lemma KeptStep(prefix: seq<string>, line: string)
    ensures Joined(Kept(prefix + [line])) == Joined(Kept(prefix)) + (if IsKept(line) then line + "\n" else "")
  {
    KeptConcat(prefix, [line]);
    JoinedConcat(Kept(prefix), Kept([line]));
    assert Kept([line]) == (if IsKept(line) then [line] else []) by {
      assert [line][1..] == [];
    }
    if IsKept(line) {
      assert Joined([line]) == line + "\n" by {
        assert [line][1..] == [];
      }
    }
  }

  /** The position of the first '\n' of s, or |s| when there is none. */
  function NewlineIndex(s: string): (i: nat)
    ensures i <= |s|
    ensures forall j :: 0 <= j < i ==> s[j] != '\n'
    ensures i < |s| ==> s[i] == '\n'
  {
    if s == [] then 0 else if s[0] == '\n' then 0 else 1 + NewlineIndex(s[1..])
  }

  /** The lines getline reads back from a text. */
  function SplitLines(s: string): seq<string>
    decreases |s|
  {
    if s == [] then []
    else
      var i := NewlineIndex(s);
      if i == |s| then [s] else [s[..i]] + SplitLines(s[i + 1..])
  }

  predicate NoNewline(l: string)
  {
    forall j :: 0 <= j < |l| ==> l[j] != '\n'
  }

  lemma NewlineIndexAfter(a: string, b: string)
    requires NoNewline(a)
    ensures NewlineIndex(a + "\n" + b) == |a|
  {
    var s := a + "\n" + b;
    assert forall j :: 0 <= j < |a| ==> s[j] == a[j];
    assert s[|a|] == '\n';
  }

  /** Reading back what ReadFile produced gives exactly the kept lines, in order. */
  lemma {:induction false} ReadFileRoundTrip(lines: seq<string>)
    requires forall k :: 0 <= k < |lines| ==> NoNewline(lines[k])
    ensures SplitLines(Joined(Kept(lines))) == Kept(lines)
  {
    KeptNoNewline(lines);
    SplitJoined(Kept(lines));
  }

  lemma {:induction false} KeptNoNewline(lines: seq<string>)
    requires forall k :: 0 <= k < |lines| ==> NoNewline(lines[k])
    ensures forall k :: 0 <= k < |Kept(lines)| ==> NoNewline(Kept(lines)[k])
  {
    if lines != [] {
      KeptNoNewline(lines[1..]);
    }
  }

  lemma {:induction false} SplitJoined(ls: seq<string>)
    requires forall k :: 0 <= k < |ls| ==> NoNewline(ls[k])
    ensures SplitLines(Joined(ls)) == ls
  {
    if ls != [] {
      var s := Joined(ls);
      var rest := Joined(ls[1..]);
      assert s == ls[0] + "\n" + rest;
      NewlineIndexAfter(ls[0], rest);
      assert s[..|ls[0]|] == ls[0];
      assert s[|ls[0]| + 1..] == rest;
      SplitJoined(ls[1..]);
    }
  }

  /** The first two tokens of a line, when the line is a key/value pair. */
  datatype KeyValue = KeyValue(key: string, value: string)

  /** A line is a key/value pair when its tokenizer yields a first and a second token
      before the end (an empty token); a third token and any after it are ignored. */
  function KeyValueOf(tokens: seq<string>): Option<KeyValue>
  {
    if Token(tokens, 0) != "" && Token(tokens, 1) != "" then Some(KeyValue(tokens[0], tokens[1]))
    else None
  }

  /** The token loop of ParseSettings and ParseBodyGroupList: it reads tokens until an
      empty one or until two were taken, and accepts the line when tokenCounter > 2. */
  method ReadKeyValue(line: string, delimiter: string, h: Helpers) returns (kv: Option<KeyValue>)
    ensures kv.Some? <==> Token(h.tokenize(line, delimiter), 0) != "" && Token(h.tokenize(line, delimiter), 1) != ""
    ensures kv.Some? ==> kv.value.key == Token(h.tokenize(line, delimiter), 0)
    ensures kv.Some? ==> kv.value.value == Token(h.tokenize(line, delimiter), 1)
    ensures kv == KeyValueOf(h.tokenize(line, delimiter))
  {
    var tokens := h.tokenize(line, delimiter);
    var next := 0;
    var tokenCounter := 1;
    var key := "";
    var value := "";
    var token := Token(tokens, next);
    next := next + 1;
    while token != "" && tokenCounter <= 2
      invariant 1 <= tokenCounter <= 3
      invariant next == tokenCounter
      invariant token == Token(tokens, next - 1)
      invariant tokenCounter > 1 ==> key == Token(tokens, 0) && key != ""
      invariant tokenCounter > 2 ==> value == Token(tokens, 1) && value != ""
      invariant forall j :: 0 <= j < tokenCounter - 1 ==> Token(tokens, j) != ""
      decreases 3 - tokenCounter
    {
      if tokenCounter == 1 {
        key := token;
      } else if tokenCounter == 2 {
        value := token;
      }
      tokenCounter := tokenCounter + 1;
      token := Token(tokens, next);
      next := next + 1;
    }
    if tokenCounter > 2 {
      kv := Some(KeyValue(key, value));
    } else {
      kv := None;
    }
  }

  /** What a parser does with one line: its status and the new state. */
  type LineStep<!S> = (S, string) -> (Status, S)

  /** The line loop ParseSettings and ParseBodyGroupList share, from line i on: the first
      empty line (the end of the tokens) ends the input, each line goes through step,
      and the first failure stops the parse with the state as far as it got. */
  function ParseLines<S>(s: S, lines: seq<string>, i: nat, step: LineStep<S>): (Status, S)
    decreases |lines| - i
  {
    var line := Token(lines, i);
    if line == "" then (Ok, s)
    else
      var a := step(s, line);
      if a.0 != Ok then a else ParseLines(a.1, lines, i + 1, step)
  }

  /** A line the parse reaches that the step refuses makes the parse fail. */
  lemma {:induction false} RefusedLineFails<S>(s: S, lines: seq<string>, i: nat, j: nat, step: LineStep<S>)
    requires i <= j < |lines|
    requires forall m :: i <= m <= j ==> lines[m] != ""
    requires forall w :: step(w, lines[j]).0 != Ok
    ensures ParseLines(s, lines, i, step).0 != Ok
    decreases j - i
  {
    assert Token(lines, i) == lines[i];
    if i < j {
      var a := step(s, lines[i]);
      if a.0 == Ok {
        RefusedLineFails(a.1, lines, i + 1, j, step);
      }
    }
  }

  /** The parse stops at the first empty line: whatever follows it is never read. */
  lemma {:induction false} StopsAtEmptyLine<S>(s: S, lines: seq<string>, i: nat, j: nat, step: LineStep<S>)
    requires i <= j < |lines| && lines[j] == ""
    ensures ParseLines(s, lines, i, step) == ParseLines(s, lines[..j], i, step)
    decreases j - i
  {
    if i < j {
      assert Token(lines, i) == Token(lines[..j], i);
      var line := Token(lines, i);
      if line != "" {
        var a := step(s, line);
        if a.0 == Ok {
          StopsAtEmptyLine(a.1, lines, i + 1, j, step);
        }
      }
    } else {
      assert Token(lines, i) == "";
    }
  }

  /** inv holds after every line the step applies, whatever its status. */
  ghost predicate StepKeeps<S(!new)>(step: LineStep<S>, inv: S -> bool)
  {
    forall w: S, line: string :: inv(w) ==> inv(step(w, line).1)
  }

  /** An invariant every step keeps holds after the whole parse, failed or not. */
  lemma {:induction false} ParseKeeps<S(!new)>(s: S, lines: seq<string>, i: nat, step: LineStep<S>, inv: S -> bool)
    requires inv(s) && StepKeeps(step, inv)
    ensures inv(ParseLines(s, lines, i, step).1)
    decreases |lines| - i
  {
    var line := Token(lines, i);
    if line != "" {
      var a := step(s, line);
      if a.0 == Ok {
        ParseKeeps(a.1, lines, i + 1, step, inv);
      }
    }
  }
}
