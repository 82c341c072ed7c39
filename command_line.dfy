/** ProcessArgv of Solaris.cpp: the index-advancing scan of the program's arguments that
    fills in the input directory, the three input file names and the run type. */
module CommandLine {
  import opened Foreign

  /** The variables ProcessArgv writes through its reference parameters. */
  datatype ArgvState = ArgvState(
    directory: string,
    settings: string,
    bodyGroupList: string,
    nebula: string,
    runType: string)

  /** Why ProcessArgv returned 1. */
  datatype ArgvError =
    | Usage                  // fewer than two arguments
    | InvalidArgument        // an argument that is not a known flag
    | MissingOperand         // a flag given without its operands (undefined behaviour in the source)
    | MissingSettingsFileName
    | MissingBodyGroupListFileName
    | NoWorkingDirectory     // Tools::GetWorkingDirectory returned 1

  /** -h or --help ends the program with status 0; otherwise ProcessArgv returns 0 with
      the new state or 1 with a reason. */
  datatype ArgvOutcome = Help | Accepted(state: ArgvState) | Rejected(error: ArgvError)

  predicate IsHelp(arg: string)
  {
    arg == "-h" || arg == "--help"
  }

  /** The flags ProcessArgv knows. */
  const Flags: set<string> := {"-h", "--help", "-iDir", "-is", "-ib", "-in", "-c"}

  /** The loop over argv from index i on. A flag with one operand consumes argv[i + 1];
      -c consumes three operands and a fourth only when argv holds one (argv[argc] is the
      null pointer, which the source tests). */
  function Scan(argv: seq<string>, i: nat, s: ArgvState): (r: ArgvOutcome)
    decreases |argv| - i
  {
    if i >= |argv| then Accepted(s)
    else
      var a := argv[i];
      if IsHelp(a) then Help
      else if a == "-iDir" || a == "-is" || a == "-ib" || a == "-in" then
        if i + 1 >= |argv| then Rejected(MissingOperand)
        else
          var v := argv[i + 1];
          var s' := if a == "-iDir" then s.(directory := v)
                    else if a == "-is" then s.(settings := v)
                    else if a == "-ib" then s.(bodyGroupList := v)
                    else s.(nebula := v);
          Scan(argv, i + 2, s')
      else if a == "-c" then
        if i + 3 >= |argv| then Rejected(MissingOperand)
        else
          var s' := s.(runType := "Continue", directory := argv[i + 1], settings := argv[i + 2], bodyGroupList := argv[i + 3]);
          if i + 4 < |argv| then Scan(argv, i + 5, s'.(nebula := argv[i + 4]))
          else Scan(argv, i + 4, s')
      else Rejected(InvalidArgument)
  }

  /** The checks after the loop. An empty directory is replaced by the working directory,
      which the caller supplies (None when Tools::GetWorkingDirectory fails). */
  function Finish(s: ArgvState, workingDirectory: Option<string>): (r: ArgvOutcome)
    ensures r.Accepted? <==> s.settings != "" && s.bodyGroupList != "" && (s.directory != "" || workingDirectory.Some?)
    ensures r.Accepted? ==> r.state == (if s.directory != "" then s else s.(directory := workingDirectory.value))
    ensures s.settings == "" ==> r == Rejected(MissingSettingsFileName)
    ensures s.settings != "" && s.bodyGroupList == "" ==> r == Rejected(MissingBodyGroupListFileName)
    ensures !r.Help?
  {
    if s.settings == "" then Rejected(MissingSettingsFileName)
    else if s.bodyGroupList == "" then Rejected(MissingBodyGroupListFileName)
    else if s.directory != "" then Accepted(s)
    else match workingDirectory
      case None => Rejected(NoWorkingDirectory)
      case Some(d) => Accepted(s.(directory := d))
  }

  /** ProcessArgv as a function of argv (argv[0] is the program name), the state the caller
      starts from and the working directory. */
  function ProcessArgvSpec(argv: seq<string>, s: ArgvState, workingDirectory: Option<string>): ArgvOutcome
  {
    if |argv| < 2 then Rejected(Usage)
    else match Scan(argv, 1, s)
      case Accepted(t) => Finish(t, workingDirectory)
      case other => other
  }

  /** ProcessArgv: the for loop whose index the body advances past each flag's operands. */
  method ProcessArgv(argv: seq<string>, s0: ArgvState, workingDirectory: Option<string>) returns (outcome: ArgvOutcome)
    ensures outcome == ProcessArgvSpec(argv, s0, workingDirectory)
  {
    if |argv| < 2 {
      return Rejected(Usage);
    }
    var directory, settings, bodyGroupList, nebula, runType := s0.directory, s0.settings, s0.bodyGroupList, s0.nebula, s0.runType;
    var i: nat := 1;
    while i < |argv|
      invariant Scan(argv, 1, s0) == Scan(argv, i, ArgvState(directory, settings, bodyGroupList, nebula, runType))
      decreases |argv| - i
    {
      var a := argv[i];
      if a == "-h" || a == "--help" {
        return Help;
      } else if a == "-iDir" {
        if i + 1 >= |argv| {
          return Rejected(MissingOperand);
        }
        i := i + 1;
        directory := argv[i];
      } else if a == "-is" {
        if i + 1 >= |argv| {
          return Rejected(MissingOperand);
        }
        i := i + 1;
        settings := argv[i];
      } else if a == "-ib" {
        if i + 1 >= |argv| {
          return Rejected(MissingOperand);
        }
        i := i + 1;
        bodyGroupList := argv[i];
      } else if a == "-in" {
        if i + 1 >= |argv| {
          return Rejected(MissingOperand);
        }
        i := i + 1;
        nebula := argv[i];
      } else if a == "-c" {
        if i + 3 >= |argv| {
          return Rejected(MissingOperand);
        }
        runType := "Continue";
        i := i + 1;
        directory := argv[i];
        i := i + 1;
        settings := argv[i];
        i := i + 1;
        bodyGroupList := argv[i];
        i := i + 1;
        if i < |argv| {
          nebula := argv[i];
        }
      } else {
        return Rejected(InvalidArgument);
      }
      i := i + 1;
    }
    var s := ArgvState(directory, settings, bodyGroupList, nebula, runType);
    if settings == "" {
      return Rejected(MissingSettingsFileName);
    } else if bodyGroupList == "" {
      return Rejected(MissingBodyGroupListFileName);
    }
    if directory == "" {
      if workingDirectory.None? {
        return Rejected(NoWorkingDirectory);
      }
      s := s.(directory := workingDirectory.value);
    }
    return Accepted(s);
  }

  // ----- properties -----

  /** A run that ProcessArgv accepts names a settings file, a body group list file and
      a directory. */
  lemma AcceptedNamesInputs(argv: seq<string>, s: ArgvState, wd: Option<string>)
    requires wd.Some? ==> wd.value != ""
    ensures var r := ProcessArgvSpec(argv, s, wd);
      r.Accepted? ==> r.state.settings != "" && r.state.bodyGroupList != "" && r.state.directory != ""
  {
  }

  /** -h or --help in any flag position ends the scan with status 0, whatever follows. */
  lemma HelpAtFlagPosition(argv: seq<string>, i: nat, s: ArgvState)
    requires i < |argv| && IsHelp(argv[i])
    ensures Scan(argv, i, s) == Help
  {
  }

  /** A command line that gives all four names with their flags. */
  function Options(directory: string, settings: string, bodyGroupList: string, nebula: string): seq<string>
  {
    ["-iDir", directory, "-is", settings, "-ib", bodyGroupList, "-in", nebula]
  }

  /** Reading back the command line built from four names gives those names and leaves
      the run type alone. */
  lemma OptionsRoundTrip(prog: string, d: string, st: string, b: string, n: string, s: ArgvState, wd: Option<string>)
    requires d != "" && st != "" && b != ""
    ensures ProcessArgvSpec([prog] + Options(d, st, b, n), s, wd) ==
      Accepted(ArgvState(d, st, b, n, s.runType))
  {
    var argv := [prog] + Options(d, st, b, n);
    assert argv[1] == "-iDir" && argv[2] == d && argv[3] == "-is" && argv[4] == st;
    assert argv[5] == "-ib" && argv[6] == b && argv[7] == "-in" && argv[8] == n;
    var s1 := s.(directory := d);
    var s2 := s1.(settings := st);
    var s3 := s2.(bodyGroupList := b);
    var s4 := s3.(nebula := n);
    assert Scan(argv, 9, s4) == Accepted(s4);
    assert Scan(argv, 7, s3) == Accepted(s4);
    assert Scan(argv, 5, s2) == Accepted(s4);
    assert Scan(argv, 3, s1) == Accepted(s4);
    assert Scan(argv, 1, s) == Accepted(s4);
  }

  /** ProcessArgv scans argv before it checks the names: -h after any run of options wins
      over whatever follows it and over missing or empty names. */
  lemma HelpNeedsNoNames(prog: string, d: string, st: string, b: string, n: string, rest: seq<string>, s: ArgvState, wd: Option<string>)
    requires |rest| > 0 && IsHelp(rest[0])
    ensures ProcessArgvSpec([prog] + rest, s, wd) == Help
    ensures ProcessArgvSpec([prog] + Options(d, st, b, n) + rest, s, wd) == Help
  {
    assert ([prog] + rest)[1] == rest[0];
    var argv := [prog] + Options(d, st, b, n) + rest;
    assert argv[1] == "-iDir" && argv[2] == d && argv[3] == "-is" && argv[4] == st;
    assert argv[5] == "-ib" && argv[6] == b && argv[7] == "-in" && argv[8] == n;
    assert argv[9] == rest[0];
    var s1 := s.(directory := d);
    var s2 := s1.(settings := st);
    var s3 := s2.(bodyGroupList := b);
    var s4 := s3.(nebula := n);
    assert Scan(argv, 9, s4) == Help;
    assert Scan(argv, 7, s3) == Help;
    assert Scan(argv, 5, s2) == Help;
    assert Scan(argv, 3, s1) == Help;
    assert Scan(argv, 1, s) == Help;
  }

  /** -c takes the directory, the settings and the body group list in this order, and the
      nebula only when a fourth operand is present; the run type becomes "Continue". */
  lemma ContinueRoundTrip(prog: string, d: string, st: string, b: string, s: ArgvState, wd: Option<string>)
    requires d != "" && st != "" && b != ""
    ensures ProcessArgvSpec([prog, "-c", d, st, b], s, wd) ==
      Accepted(ArgvState(d, st, b, s.nebula, "Continue"))
  {
    var argv := [prog, "-c", d, st, b];
    var s' := s.(runType := "Continue", directory := d, settings := st, bodyGroupList := b);
    assert Scan(argv, 5, s') == Accepted(s');
    assert Scan(argv, 1, s) == Accepted(s');
  }

  lemma ContinueWithNebula(prog: string, d: string, st: string, b: string, n: string, s: ArgvState, wd: Option<string>)
    requires d != "" && st != "" && b != ""
    ensures ProcessArgvSpec([prog, "-c", d, st, b, n], s, wd) ==
      Accepted(ArgvState(d, st, b, n, "Continue"))
  {
    var argv := [prog, "-c", d, st, b, n];
    var s' := s.(runType := "Continue", directory := d, settings := st, bodyGroupList := b, nebula := n);
    assert Scan(argv, 6, s') == Accepted(s');
    assert Scan(argv, 1, s) == Accepted(s');
  }

  /** An argument in a flag position that is not one of the flags is refused. */
  lemma UnknownFlagRefused(argv: seq<string>, i: nat, s: ArgvState)
    requires i < |argv| && argv[i] !in Flags
    ensures Scan(argv, i, s) == Rejected(InvalidArgument)
  {
  }

  /** Every name the scan ends with is the one the caller started with or an argument of
      argv at or after i, and the run type is the old one or "Continue". */
  lemma {:induction false} FieldsComeFromArgv(argv: seq<string>, i: nat, s: ArgvState)
    ensures var r := Scan(argv, i, s);
      r.Accepted? ==>
        (r.state.directory == s.directory || r.state.directory in argv[i..]) &&
        (r.state.settings == s.settings || r.state.settings in argv[i..]) &&
        (r.state.bodyGroupList == s.bodyGroupList || r.state.bodyGroupList in argv[i..]) &&
        (r.state.nebula == s.nebula || r.state.nebula in argv[i..]) &&
        (r.state.runType == s.runType || r.state.runType == "Continue")
    decreases |argv| - i
  {
    if i < |argv| {
      var a := argv[i];
      if IsHelp(a) {
      } else if a == "-iDir" || a == "-is" || a == "-ib" || a == "-in" {
        if i + 1 < |argv| {
          var v := argv[i + 1];
          var s' := if a == "-iDir" then s.(directory := v)
                    else if a == "-is" then s.(settings := v)
                    else if a == "-ib" then s.(bodyGroupList := v)
                    else s.(nebula := v);
          FieldsComeFromArgv(argv, i + 2, s');
          assert v in argv[i..];
          assert forall x :: x in argv[i + 2..] ==> x in argv[i..];
        }
      } else if a == "-c" && i + 3 < |argv| {
        var s' := s.(runType := "Continue", directory := argv[i + 1], settings := argv[i + 2], bodyGroupList := argv[i + 3]);
        assert argv[i + 1] in argv[i..] && argv[i + 2] in argv[i..] && argv[i + 3] in argv[i..];
        if i + 4 < |argv| {
          assert argv[i + 4] in argv[i..];
          FieldsComeFromArgv(argv, i + 5, s'.(nebula := argv[i + 4]));
          assert forall x :: x in argv[i + 5..] ==> x in argv[i..];
        } else {
          FieldsComeFromArgv(argv, i + 4, s');
          assert forall x :: x in argv[i + 4..] ==> x in argv[i..];
        }
      }
    }
  }

  /** An accepted run names a settings file and a body group list file that are
      arguments of the command line, unless the caller's state held them already. */
  lemma AcceptedNamesFromArgv(argv: seq<string>, s: ArgvState, wd: Option<string>)
    requires s.settings == "" && s.bodyGroupList == ""
    ensures var r := ProcessArgvSpec(argv, s, wd);
      r.Accepted? ==> r.state.settings in argv[1..] && r.state.bodyGroupList in argv[1..]
  {
    if |argv| >= 2 {
      FieldsComeFromArgv(argv, 1, s);
    }
  }

  /** Fewer than two arguments: the usage message and 1. */
  lemma TooFewArguments(argv: seq<string>, s: ArgvState, wd: Option<string>)
    requires |argv| < 2
    ensures ProcessArgvSpec(argv, s, wd) == Rejected(Usage)
  {
  }
}
