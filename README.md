# Solaris input, output and disk generator, modelled in Dafny

Solaris is an N-body integrator for planetary systems. This project models the
deterministic parts around its integrator and proves properties of them:

- **The input configuration parser** of `ASCIIFileAdapter.cpp`:
  - `ReadFile`, which drops blank and comment lines;
  - the key/value line loops of `ParseSettings` and `ParseBodyGroupList`;
  - `SetSettings`, which fills a `Settings` object field by field, with its range checks and its lazily created time line, event conditions and integrator;
  - `SetBody`, which reads a `|`-separated body record: keyword tables, range checks, and the component list with its ratio-sum rule;
  - `SetBodyGroupList`, which builds the group list;
  - the final checks on the last body.
- **The default state of `Settings`** (`Settings.cpp`).
- **The command-line scan `ProcessArgv`** (`Solaris.cpp`).
- **The record layouts of `BinaryFileAdapter.cpp`**:
  - the phases, integrals, two-body affair and body property records in binary and text mode;
  - the GUID byte order and the length-prefixed strings;
  - the two static id counters.
- **The deterministic helpers of the disk generator** (`generator.cpp`):
  - the distributions and `set_default`;
  - the body count;
  - body names;
  - the radius/density/mass relations and the case split of `generate_pp`;
  - the id sequence of `generate_pp_disk`;
  - the control flow of `kepler_equation_solver`.

## Modelling approach

Stateful code is modelled as stateful Dafny:

- Objects the source updates in place are classes: `Settings`, `BodyGroupList`, `BinaryFileAdapter` and `BodyDisk`.
- Each method is proved against a pure function of the old state. Lemmas about those functions carry the properties.
- Loops of the source are `while` loops with their invariants: `ReadFile`, the token and line loops, the component loop of `SetBody`, the argv loop, the writer loops, `set_default`, `calculate_number_of_bodies`, `generate_pp_disk` and the Newton loop.
- A `Body` is a value, because the source pushes copies of a local `Body`. Its nullable pointers are `Option`s.

Helpers whose code is not part of this model are uninterpreted functions passed in as a `Helpers` value (module `Foreign`):

- `Tokenizer`;
- `Tools::Trim`, `Tools::IsNumber` and `Tools::StringToBool`;
- `atof`, `atoi` and `pow`;
- `UnitTool` and `Ephemeris::GetFormat`.

The `Validator` predicates are given the meaning their names state.

Default constructors are parameters (`Constructors`, `Blanks`). This covers `TimeLine()`, `EventCondition()`, `Body()`, `Characteristics()` and the integrator classes.

Enumerator codes follow `SolarisType.h`. Doubles are reals.

An output file is the sequence of values written to it, in order. An int, a double, a byte, or in text mode a string and the end of the line are each one value.

Inputs on which the source has undefined behaviour are reported as explicit errors (`NoIntegrator`, `NullCharacteristics`, `NoBodyGroup`, `NoBody`). These are:

- a null pointer dereference;
- `back()` on an empty list.

## Model

| member | source | states |
|---|---|---|
| AsciiLines.ReadFile | src/Solaris.cpu/ASCIIFileAdapter.cpp:26-49 | the text grows by exactly the lines that are neither empty nor start with '#', each followed by '\n', in their original order |
| AsciiLines.KeptExactly | src/Solaris.cpu/ASCIIFileAdapter.cpp:31-40 | a line is kept if and only if it is non-empty and not a comment |
| AsciiLines.KeptConcat | src/Solaris.cpu/ASCIIFileAdapter.cpp:31-40 | filtering is done line by line, so the kept lines of a concatenation are the kept lines of each part, in order |
| AsciiLines.ReadFileRoundTrip | src/Solaris.cpu/ASCIIFileAdapter.cpp:31-40 | splitting the text ReadFile produced at '\n' gives back exactly the kept lines |
| AsciiLines.ReadKeyValue | src/Solaris.cpu/ASCIIFileAdapter.cpp:1315-1330 | the token loop accepts a line exactly when its first two tokens are non-empty; key and value are those two tokens and any further token is ignored |
| AsciiLines.RefusedLineFails | src/Solaris.cpu/ASCIIFileAdapter.cpp:1314-1339 | a line the parse reaches that its step refuses makes the whole parse return 1 |
| AsciiLines.StopsAtEmptyLine | src/Solaris.cpu/ASCIIFileAdapter.cpp:1314 | the line loop ends at the first empty line; nothing after it is read |
| AsciiLines.ParseKeeps | src/Solaris.cpu/ASCIIFileAdapter.cpp:1314-1339 | an invariant that every line step keeps holds after the whole parse, whether it failed or not |
| SettingsModel.Settings.constructor | src/Solaris.cpu/Settings.cpp:6-18 | ASTRO frame, distinct start times off, no integrator and an undefined integrator type, no time line, no collision, close-encounter or weak-capture condition, ejection and hit-centrum 0 |
| AsciiSettings.SetSettings | src/Solaris.cpu/ASCIIFileAdapter.cpp:51-328 | after trimming and lower-casing key and value, the new state and the status are those of Apply on the old state |
| AsciiSettings.Apply | src/Solaris.cpu/ASCIIFileAdapter.cpp:57-327 | a key changes only the field it names; objects once created stay; a refused non-stop key changes nothing; only an integrator name other than rk56 creates an integrator, and only a successful timeline_start/length/output line creates a time line |
| AsciiSettings.ApplyRecognizes | src/Solaris.cpu/ASCIIFileAdapter.cpp:317-320 | a key is reported as unrecognised if and only if it is none of the settings keys |
| AsciiSettings.UnknownKeyRefused | src/Solaris.cpu/ASCIIFileAdapter.cpp:317-320 | an unknown key returns 1 and leaves the settings unchanged |
| AsciiSettings.ApplyGeneral | src/Solaris.cpu/ASCIIFileAdapter.cpp:57-97 | enabledistinctstarttimes accepts exactly the boolean strings; barycentric accepts exactly "astro" and "bary" and selects the bary centre exactly for "bary"; an output file name is always accepted and stored as given |
| AsciiSettings.ApplyIntegratorName | src/Solaris.cpu/ASCIIFileAdapter.cpp:98-120 | accepted exactly for the nine aliases; these select the type; all but the Runge-Kutta 5/6 aliases also install a new integrator of that type; rk56 keeps the old integrator; any other name returns 1 and changes nothing |
| AsciiSettings.ApplyAccuracy | src/Solaris.cpu/ASCIIFileAdapter.cpp:121-134 | accepted exactly for a number in [-16, 0] when an integrator exists; then accuracy is the value and epsilon is 10 to its power; a non-number and an out-of-range value give their own errors |
| AsciiSettings.ApplyTimeLine | src/Solaris.cpu/ASCIIFileAdapter.cpp:135-194 | start, length and output each change only their own field of the existing or new time line; a length must be non-zero and an output positive; the unit fails without a time line and otherwise rescales start, length and output |
| AsciiSettings.ApplyDistance | src/Solaris.cpu/ASCIIFileAdapter.cpp:195-207 | an ejection or hit-centrum value is accepted exactly when it is a number at least 0, and becomes the distance |
| AsciiSettings.ApplyDistanceUnit | src/Solaris.cpu/ASCIIFileAdapter.cpp:208-238 | a known distance unit rescales the distance to AU; an unknown one is refused and changes nothing |
| AsciiSettings.ApplyFactor | src/Solaris.cpu/ASCIIFileAdapter.cpp:239-306 | a collision factor must lie in [0, 1) and the close-encounter and weak-capture factors must be at least 0; an accepted factor goes into the existing or new condition and keeps its stop flag |
| AsciiSettings.ApplyStop | src/Solaris.cpu/ASCIIFileAdapter.cpp:255-316 | the condition exists afterwards whatever the value; a boolean value becomes its stop flag and keeps its factor; any other value returns 1 |
| AsciiSettings.ParseSettings | src/Solaris.cpu/ASCIIFileAdapter.cpp:1306-1353 | the new state and the status are those of the line loop over the text, followed by the integrator and time line checks |
| AsciiSettings.ParseSettingsSpec | src/Solaris.cpu/ASCIIFileAdapter.cpp:1341-1350 | an accepted settings text leaves both an integrator and a time line |
| AsciiSettings.ApplyLine | src/Solaris.cpu/ASCIIFileAdapter.cpp:1315-1338 | a line without a key and a value returns 1 and changes nothing; a line creates an integrator or a time line only when it asks for one |
| AsciiSettings.MalformedLineFails | src/Solaris.cpu/ASCIIFileAdapter.cpp:1330-1338 | a line that is not a key/value pair makes ParseSettings fail |
| AsciiSettings.CreatedByALine | src/Solaris.cpu/ASCIIFileAdapter.cpp:1314-1339 | an integrator or time line that exists after the loop but not before was created by one of the lines read |
| AsciiSettings.ParseSettingsNeedsIntegratorAndTimeLine | src/Solaris.cpu/ASCIIFileAdapter.cpp:1306-1353 | a settings file accepted from a fresh Settings object contains an integrator_name line other than rk56 and a timeline_start, _length or _output line |
| AsciiBodies.BodyTypeOfKeyword | src/Solaris.cpu/ASCIIFileAdapter.cpp:367-380 | exactly the seven body type keywords are accepted, each naming its own type |
| AsciiBodies.MpcOrbitTypeOfKeyword | src/Solaris.cpu/ASCIIFileAdapter.cpp:383-407 | exactly the eighteen MPC orbit type keywords are accepted, each naming its own type |
| AsciiBodies.MigrationTypeOfKeyword | src/Solaris.cpu/ASCIIFileAdapter.cpp:410-418 | exactly "i" and "ii" are accepted |
| AsciiBodies.LnOfKeyword | src/Solaris.cpu/ASCIIFileAdapter.cpp:446-457 | exactly "l1" to "l5" are accepted |
| AsciiBodies.KeywordsRoundTrip | src/Solaris.cpu/ASCIIFileAdapter.cpp:367-457 | every keyword reads back as the enumerator it was written for |
| AsciiBodies.ReadHeader | src/Solaris.cpu/ASCIIFileAdapter.cpp:340-457 | the id must be a number; a blank field keeps the current value; the four keyword fields go through their tables and an unknown keyword is refused; a given migration stop must be a positive number; nothing else changes |
| AsciiBodies.ReadPhase | src/Solaris.cpu/ASCIIFileAdapter.cpp:458-506 | accepted exactly when the six coordinates are numbers; they become a new phase that carries the body's id |
| AsciiBodies.ReadAbsVisMag | src/Solaris.cpu/ASCIIFileAdapter.cpp:508-520 | a given magnitude must be a number and goes into the existing or new characteristics |
| AsciiBodies.ReadNonNegative | src/Solaris.cpu/ASCIIFileAdapter.cpp:522-575 | a given drag coefficient, mass or radius is accepted exactly when it is a number at least 0; a non-number and a negative value give their own errors |
| AsciiBodies.ReadDensity | src/Solaris.cpu/ASCIIFileAdapter.cpp:576-596 | a density must be a number at least 0, and is refused together with a positive radius unless the body is a super-planetesimal or the density is 0 |
| AsciiBodies.ReadComponents | src/Solaris.cpu/ASCIIFileAdapter.cpp:601-618 | the pairs are read exactly when every ratio token is a number in [0, 100]; n pairs are read for a positive count |
| AsciiBodies.ComponentsRead | src/Solaris.cpu/ASCIIFileAdapter.cpp:601-618 | the i-th pair read is the i-th name with the i-th ratio, and every ratio lies in [0, 100] |
| AsciiBodies.ComponentListAccepted | src/Solaris.cpu/ASCIIFileAdapter.cpp:598-635 | a count of "0" needs an empty next token; any other count must be positive; its ratios, appended after the body's existing components, each lie in [0, 100] and sum to 100 within 1e-4; the token after the last pair must be empty; nothing but the component list changes |
| AsciiBodies.SetBody | src/Solaris.cpu/ASCIIFileAdapter.cpp:330-638 | the result is BodySpec of the '\|' tokens of the record |
| AsciiBodies.BodySpec | src/Solaris.cpu/ASCIIFileAdapter.cpp:330-638 | an accepted body has a phase carrying its own id, and the orbital element of the blank body |
| AsciiBodies.ReadPairs | src/Solaris.cpu/ASCIIFileAdapter.cpp:599-619 | the ratiosum loop appends each pair to the body's component list; it leaves 100 minus the sum of the ratios read; it fails at the first bad ratio; it reads from a body without characteristics only when the count is zero |
| AsciiBodies.GroupStep | src/Solaris.cpu/ASCIIFileAdapter.cpp:640-1142 | a description opens a new group; every other key writes only its own field of the last group, which must exist; epoch needs a known format; offset needs a number; body appends the body SetBody builds; an unknown key returns 1; a refused line changes nothing |
| AsciiBodies.BodyGroupList.SetBodyGroupList | src/Solaris.cpu/ASCIIFileAdapter.cpp:640-1142 | after trimming and lower-casing key and value, the new list and the status are those of GroupStep on the old list |
| AsciiBodies.BodyGroupList.constructor | src/Solaris.cpu/ASCIIFileAdapter.cpp:1355 | a new list holds no groups |
| AsciiBodies.FinalCheck | src/Solaris.cpu/ASCIIFileAdapter.cpp:1394-1416 | accepted exactly when the last body of the last group has exactly one of a phase and an orbital element, has a defined type, and is not a test particle with both characteristics and a migration type |
| AsciiBodies.ParseBodyGroupList | src/Solaris.cpu/ASCIIFileAdapter.cpp:1355-1419 | the new list and the status are those of the line loop over the text, followed by the final check |
| AsciiBodies.PhaseChecksNeverFail | src/Solaris.cpu/ASCIIFileAdapter.cpp:1394-1411 | every body SetBody builds has a phase and no orbital element, so neither phase/orbital element error is reachable from text input, and the central-body default-phase branch is dead |
| CommandLine.ProcessArgv | src/Solaris.cpu/Solaris.cpp:27-95 | the outcome is ProcessArgvSpec of argv, the caller's names and the working directory |
| CommandLine.TooFewArguments | src/Solaris.cpu/Solaris.cpp:29-32 | fewer than two arguments give the usage message and 1 |
| CommandLine.HelpAtFlagPosition | src/Solaris.cpu/Solaris.cpp:33-37 | -h or --help in any flag position the scan reaches ends the run with 0, whatever follows it |
| CommandLine.HelpNeedsNoNames | src/Solaris.cpu/Solaris.cpp:33-37 | -h or --help right after the program name or after a run of options ends the run with 0, before any name is checked, even when names are empty |
| CommandLine.OptionsRoundTrip | src/Solaris.cpu/Solaris.cpp:38-53 | -iDir, -is, -ib and -in each store the next argument as the directory, settings, body group list and nebula name, and leave the run type alone |
| CommandLine.ContinueRoundTrip | src/Solaris.cpu/Solaris.cpp:54-66 | -c sets the run type to "Continue" and takes the next three arguments as directory, settings and body group list, leaving the nebula name when no fourth argument exists |
| CommandLine.ContinueWithNebula | src/Solaris.cpu/Solaris.cpp:54-66 | a fourth argument after -c becomes the nebula name |
| CommandLine.UnknownFlagRefused | src/Solaris.cpu/Solaris.cpp:67-70 | any other argument in a flag position returns 1 |
| CommandLine.Finish | src/Solaris.cpu/Solaris.cpp:73-94 | accepted exactly when the settings name and the body group list name are non-empty and a directory is named or the working directory is known; an empty settings name is reported first; an empty directory is replaced by the working directory |
| CommandLine.AcceptedNamesInputs | src/Solaris.cpu/Solaris.cpp:73-94 | an accepted run names a settings file, a body group list file and a directory |
| CommandLine.FieldsComeFromArgv | src/Solaris.cpu/Solaris.cpp:33-71 | every name the loop ends with is the caller's or an argument at or after the current index, and the run type is the old one or "Continue" |
| CommandLine.AcceptedNamesFromArgv | src/Solaris.cpu/Solaris.cpp:27-95 | with empty names from the caller, an accepted run's settings and body group list names are arguments of the command line |
| SolarisTypes.BodyTypeCode | src/Solaris.cpu/solaris.type/SolarisType.h:33-44 | body type codes lie in 0..7, and 0 is exactly the undefined type |
| SolarisTypes.BodyTypeOfCode | src/Solaris.cpu/solaris.type/SolarisType.h:33-44 | every code maps back to the type with that code |
| SolarisTypes.CodesAreInjective | src/Solaris.cpu/solaris.type/SolarisType.h:33-104 | distinct body, MPC orbit, migration and Lagrange point enumerators have distinct codes |
| BinaryRecords.EntriesSnoc | src/Solaris.cpu/BinaryFileAdapter.cpp:133-134 | the n phase entries are written one body at a time: id, then the six state values y[6i..6i+6] |
| BinaryRecords.BinaryPhasesRoundTrip | src/Solaris.cpu/BinaryFileAdapter.cpp:131-134 | a binary phases record (time, n, then the id and six values of each body) reads back as the time, the n ids and their 6n values |
| BinaryRecords.TextPhasesRoundTrip | src/Solaris.cpu/BinaryFileAdapter.cpp:159-169 | a text phases record reads back as the live bodies and the ids of the removed ones |
| BinaryRecords.DecodeRemovedRoundTrip | src/Solaris.cpu/BinaryFileAdapter.cpp:197-203 | placeholders (the negated id and six zeros) up to the end of the line read back as the ids they mark |
| BinaryRecords.RemovedIds | src/Solaris.cpu/BinaryFileAdapter.cpp:164-168 | the removed bodies are the slots after the n live ones |
| BinaryRecords.RemovedAreNotLive | src/Solaris.cpu/BinaryFileAdapter.cpp:161-168 | with distinct ids, no live body of a text phases record is reported as removed |
| BinaryRecords.RemovedAsWritten | src/Solaris.cpu/BinaryFileAdapter.cpp:164-168 | the code as written marks slots 0..removed-1 |
| BinaryRecords.RemovedAsWrittenMarksLiveBody | src/Solaris.cpu/BinaryFileAdapter.cpp:161-168 | with one live body 5 and one removed body 7, the record as written marks 5 and not 7 |
| BinaryRecords.IntegralsRoundTrip | src/Solaris.cpu/BinaryFileAdapter.cpp:251-254 | a binary integrals record (the count n + 1, the time, then the n values) reads back as the time and the n values |
| BinaryRecords.BinaryAffair | src/Solaris.cpu/BinaryFileAdapter.cpp:389-396 | a binary two-body affair record has 17 values |
| BinaryRecords.TextAffair | src/Solaris.cpu/BinaryFileAdapter.cpp:403-414 | a text affair record has 18 values |
| BinaryRecords.AffairRoundTrip | src/Solaris.cpu/BinaryFileAdapter.cpp:389-396 | a binary affair record (id, type, body1Id, body2Id, the two phases, then the time) reads back as the affair |
| BinaryRecords.CStrStopsAtNul | src/Solaris.cpu/BinaryFileAdapter.cpp:614-617 | strlen stops at the first NUL and only there; a string without NUL is passed whole |
| BinaryRecords.StringRoundTrip | src/Solaris.cpu/BinaryFileAdapter.cpp:611-637 | a one-byte length followed by that many characters reads back as the string when it has no NUL |
| BinaryRecords.GuidOrder | src/Solaris.cpu/BinaryFileAdapter.cpp:602-608 | output byte k is input byte GuidSource(k): the order is 3, 2, 1, 0, 5, 4, 7, 6, 8..15 |
| BinaryRecords.GuidOrderInvolution | src/Solaris.cpu/BinaryFileAdapter.cpp:602-608 | reordering twice gives the GUID back |
| BinaryRecords.GuidOrderPermutes | src/Solaris.cpu/BinaryFileAdapter.cpp:602-608 | the emitted bytes are a permutation of the input bytes |
| BinaryRecords.ConstantRoundTrip | src/Solaris.cpu/BinaryFileAdapter.cpp:586-663 | a reader recovers the id, the GUID in its original byte order, the five strings, the ln, type, MPC orbit type and migration type codes, and the two doubles. Those doubles are zero when the body has no characteristics |
| BinaryRecords.VariableRecord | src/Solaris.cpu/BinaryFileAdapter.cpp:754-863 | a variable property record has six values in binary mode and seven in text mode |
| BinaryRecords.CompositionsRoundTrip | src/Solaris.cpu/BinaryFileAdapter.cpp:865-895 | the binary composition records of a body read back as its components, with consecutive composition ids from the first and all carrying the owning property id |
| BinaryAdapter.BinaryFileAdapter.constructor | src/Solaris.cpu/BinaryFileAdapter.cpp:27-33 | both counters start at 0 and no file has been written |
| BinaryAdapter.BinaryFileAdapter.SavePhases | src/Solaris.cpu/BinaryFileAdapter.cpp:112-218 | the phases file of the output type grows by the phases record, with the text-mode placeholders taken from slots 0..removed-1 as the code is written; no other file and no counter changes |
| BinaryAdapter.WritePhases | src/Solaris.cpu/BinaryFileAdapter.cpp:130-169 | the writes are time and n, the n entries, then in text mode a placeholder for each of the slots 0..removed-1 and the end of the line; it requires only that those slots exist |
| BinaryAdapter.PhasesRecordReadsBack | src/Solaris.cpu/BinaryFileAdapter.cpp:130-168 | a reader of the phases record gets back the time, the n ids and 6n values, and in text mode the ids of slots 0..removed-1 as the removed bodies |
| BinaryAdapter.WritePhaseEntries | src/Solaris.cpu/BinaryFileAdapter.cpp:133-135 | the loop writes the entries of bodies 0..n-1 in order |
| BinaryAdapter.WritePlaceholders | src/Solaris.cpu/BinaryFileAdapter.cpp:164-168 | the loop writes one placeholder per removed id, in order |
| BinaryAdapter.BinaryFileAdapter.SaveIntegrals | src/Solaris.cpu/BinaryFileAdapter.cpp:224-308 | the integrals file grows by the binary record, or by the time and 16 values and the end of the line in text mode; nothing else changes |
| BinaryAdapter.BinaryFileAdapter.SaveTwoBodyAffairs | src/Solaris.cpu/BinaryFileAdapter.cpp:315-425 | the affairs file grows by the records of the affairs in list order; nothing else changes |
| BinaryAdapter.BinaryFileAdapter.SaveConstantProperty | src/Solaris.cpu/BinaryFileAdapter.cpp:531-584 | the constant property file grows by the body's record; nothing else changes |
| BinaryAdapter.WriteConstantProperty | src/Solaris.cpu/BinaryFileAdapter.cpp:586-697 | the writer receives exactly the constant property record of the body |
| BinaryAdapter.WriteGuid | src/Solaris.cpu/BinaryFileAdapter.cpp:602-608 | the three reversing loops and the final eight-byte write emit the GUID bytes in GuidOrder |
| BinaryAdapter.BinaryFileAdapter.SaveVariableProperty | src/Solaris.cpu/BinaryFileAdapter.cpp:699-752 | the record takes the current property id and the counter goes up by one; the composition records of the body follow in the composition file; the composition counter goes up by the number of components |
| BinaryAdapter.BinaryFileAdapter.WriteVariableProperty | src/Solaris.cpu/BinaryFileAdapter.cpp:754-863 | same as SaveVariableProperty, for the open writers |
| BinaryAdapter.BinaryFileAdapter.WriteCompositionProperty | src/Solaris.cpu/BinaryFileAdapter.cpp:865-918 | one record per component, each with a fresh composition id and the owning property id; the composition counter goes up by the number of components and the property counter stays |
| BinaryAdapter.BinaryFileAdapter.SaveBodyProperties | src/Solaris.cpu/BinaryFileAdapter.cpp:427-529 | for each body in list order, its constant record goes to the constant file and its variable record to the variable file; the variable record is numbered from the old property counter; its components go to the composition file, numbered on from the old composition counter; the counters advance by the number of bodies and the number of components; no other file changes |
| BinaryAdapter.BinaryFileAdapter.WriteBodyProperties | src/Solaris.cpu/BinaryFileAdapter.cpp:471-474 | the loop over the bodies produces the constant, variable and composition records of all bodies in list order |
| BinaryAdapter.VariableRecordsAt | src/Solaris.cpu/BinaryFileAdapter.cpp:760-767 | the k-th binary variable record starts with the counter value plus k, the body's id and the time |
| BinaryAdapter.CompositionsOfBody | src/Solaris.cpu/BinaryFileAdapter.cpp:778-797 | in the composition file of one call, the slice belonging to body k reads back as body k's components, owned by property id p0 + k, with composition ids continuing from the bodies before |
| Generator.SetRange | src/Solaris.generator/generator.cpp:172-177 | the limits become (x, y) and the density is pdf |
| Generator.SetPoint | src/Solaris.generator/generator.cpp:166-170 | both limits become x |
| Generator.PointDistributionDrawsItsValue | src/Solaris.generator/generator.cpp:166-170 | a distribution set to one value draws that value, for any sampler that stays within its limits |
| Generator.BodyDisk.constructor | src/Solaris.cpu/solaris.type/SolarisType.h:156-164 | the arrays have their fixed sizes; no names, and mig_type and stop_at are not allocated yet |
| Generator.SetDefault | src/Solaris.generator/generator.cpp:192-206 | for every type from STAR on, no bodies and all six orbital-element and four physical-property distributions set to [0, 0] with the constant density; the undefined type's entries are unchanged |
| Generator.CalculateNumberOfBodies | src/Solaris.generator/generator.cpp:208-216 | the result is the sum of nBody over the types from STAR on |
| Generator.NumberOfBodiesIgnoresUndefined | src/Solaris.generator/generator.cpp:211 | the count of the undefined type never enters the number of bodies |
| Generator.DefaultDiskIsEmpty | src/Solaris.generator/generator.cpp:192-216 | after set_default the number of bodies is 0 |
| Generator.BodiesGeneratedAreCounted | src/Solaris.generator/generator.cpp:285-288 | with no negative count, generate_pp_disk makes exactly as many bodies as calculate_number_of_bodies counts |
| Generator.TypesBelowPrefix | src/Solaris.generator/generator.cpp:285-288 | the bodies of the lower types come first, in type order |
| Generator.TypeOfId | src/Solaris.generator/generator.cpp:284-288 | the i-th body of type t gets the id equal to the number of bodies of the lower types plus i, and that id has type t |
| Generator.DecimalRoundTrip | src/Solaris.generator/generator.cpp:185-186 | the decimal form of an int reads back as that int |
| Generator.CreateNameAsWrittenMislabels | src/Solaris.generator/generator.cpp:179-190 | as written, the i-th giant planet is named "rocky" + i, and the test particle code indexes past the end of the table |
| Generator.CreateNameRoundTrip | src/Solaris.generator/generator.cpp:179-190 | a generated name gives back its body type and its number |
| Generator.CreateNameIsInjective | src/Solaris.generator/generator.cpp:179-190 | two bodies get the same name only if they have the same type and number |
| Generator.CalculateDensity | src/Solaris.generator/generator.cpp:63-70 | a radius of 0 gives density 0 |
| Generator.CalculateMass | src/Solaris.generator/generator.cpp:72-75 | a radius or density of 0 gives mass 0 |
| Generator.MassOfDensity | src/Solaris.generator/generator.cpp:63-75 | for a radius other than 0, the mass of the derived density is the original mass |
| Generator.DensityOfMass | src/Solaris.generator/generator.cpp:63-75 | for a radius other than 0, the density of the derived mass is the original density |
| Generator.GeneratePp | src/Solaris.generator/generator.cpp:228-257 | the mass is drawn first; radius and density follow the case that the density and radius limits select: none, radius drawn with the density derived, density drawn with the radius derived, or both drawn; the drag coefficient is drawn last; no other field changes |
| Generator.DefaultHasNoSize | src/Solaris.generator/generator.cpp:192-237 | the items set_default leaves make generate_pp give a body radius and density 0 |
| Generator.RadiusDrawnIsConsistent | src/Solaris.generator/generator.cpp:238-243 | with only the radius given and draws within limits, the radius is positive and the derived density gives back the drawn mass |
| Generator.GenerateOe | src/Solaris.generator/generator.cpp:218-226 | the six elements are drawn in order, and each lies within its limits when draws do |
| Generator.GeneratePpDisk | src/Solaris.generator/generator.cpp:267-333 | returns 0 with one record per body, or 1 with the records made before a body whose phase failed, which is never a star; record j has id j, the j-th type in type order, the j-th name and migration data, epoch 0 and the set_param fields; its sizes follow its type's case; a star sits at the origin at rest |
| Generator.NewtonLoop | src/Solaris.generator/generator.cpp:87-91 | the loop stops at the first step whose change is at most eps, or after 17 steps; E is the iterate at that step, error is its change, and step counts the passes that went on |
| Generator.StepsCharacterized | src/Solaris.generator/generator.cpp:87-91 | the loop ends within n steps with a converged change exactly when some step among the first n converges |
| Generator.KeplerEquationSolverAsWritten | src/Solaris.generator/generator.cpp:77-97 | eccentricity 0, or a mean anomaly of 0 or pi, gives E = mean and 0; otherwise E is the last Newton iterate, and 1 is returned exactly when none of the first 16 steps converged |
| Generator.KeplerEquationSolver | src/Solaris.generator/generator.cpp:77-97 | as intended: the same early exit, and 1 exactly when none of the 17 steps converged |
| Generator.LateConvergenceReportedAsFailure | src/Solaris.generator/generator.cpp:87-94 | halving from 2^17 with eps = 1 converges only at the 17th step, which the solver as written reports as a failure |

## Left out

- `SetNebula` and `ParseNebula`: the nebula path is disabled in `Solaris.cpp` and not needed by the other parsers.
- The commented-out `SetBodyGroupList` branches: they are not compiled.
- The verbose echo of `SetSettings` and `SetBodyGroupList`: it is console output only.
- Error message text, `Error::PushLocation`, `ofstream` open modes, the `firstcall` truncation flags, `Log`, `LogStartParameters`, `LogTimeSpan`, `FileExists`, `perror` and `exit`: these are I/O. An output file is modelled as one append-only sequence.
- Opening the input file in `ReadFile`: the file is given as the lines `getline` yields.
- The unreachable header block of `SaveIntegrals`: `firstcall` is cleared before the block reads it.
- `SaveCollisionProperty` and `SaveElapsedTimes`: they depend on orbital-element numerics and timers whose code is not part of this model.
- Field widths and precisions of the text output: each value is one item, whatever its format.
- Doubles are modelled as reals. No rounding is modelled, so the 1e-4 ratio tolerance and the range checks are exact.
- `Tools::GuidToCharArray` is a parameter: its code is not part of this model.
- The two static counters are fields of the one adapter. The program has a single adapter.
- The integrator, the force evaluator and the event handling: only their declarations are part of the sources.
- `Tools::GetWorkingDirectory`: it is a parameter of `ProcessArgv`, `None` when it fails.
- A flag that is missing any of its operands: `-iDir`, `-is`, `-ib` or `-in` as the last argument, or `-c` followed by fewer than three arguments. The source then assigns `argv[argc]`, a null pointer, or reads past it. The model refuses all of these with `MissingOperand`.
- `generate_random`, `srand`, `rand` and the pdfs: draws are a sampler indexed by the draw number. Only the fact that a draw lies within its limits is assumed, as a hypothesis of the lemmas that need it.
- `calculate_radius` (a cube root), `calculate_phase` with `Constants::Gauss2`, and the Newton update with the starting guess of `kepler_equation_solver`: trigonometry and floating point, modelled as parameters.
- `print_body_record`: it is text output. `generate_pp_disk` returns the records it would print.
- Opening the generator output file and its `exit(0)` on failure: these are I/O.
- `set_parameters_of_Dvorak_disk`, `parse_options` and the generator's `main`: they are a fixed set-up and the entry point, not core logic.
- Generator.BodyDisk.constructor: its contents are left indeterminate, as in the source, where a declared `body_disk_t` holds garbage until `set_default`.
- The `param_t` fields that `generate_pp_disk` never writes (designations, reference, opposition, activity flags and the like) are not modelled.
- Generator.FourPiOverThree and Generator.Pi: these are the double values of 4π/3 and π, kept as exact decimals.
- Generator.CalculateNumberOfBodies: does not model the 32-bit `int_t` overflow; the sum is an unbounded integer.
- AsciiBodies.GroupStep: does not state that a "body" line never reports an unrecognised key; SetBody's error is passed on, and the model does not prove that SetBody has no such error.
- BinaryRecords.EncodeString: does not model a length above 127; the cast of the length to `char` is taken as exact, the limit the source sets for its C# reader.
- BinaryRecords.TextConstant: follows the source, which writes no body type in text mode. No decoder is given for it.
- BinaryAdapter.BinaryFileAdapter.WriteCompositionProperty: returns only the records it writes, not the open writer's whole contents.
- `SetBody` is modelled as a function of the record's tokens. The source reads tokens with a tokenizer object; the model indexes the token list, returning "" past the end, as `next()` does.

## Findings

| source | as written | input that shows it | evidently intended | confidence | as-written member | corrected member |
|---|---|---|---|---|---|---|
| src/Solaris.cpu/BinaryFileAdapter.cpp:164-168 | the placeholders for removed bodies are written from slots 0..removed-1, which hold the first live bodies | one live body with id 5 and one removed body with id 7 (n = 1, removed = 1): the text record marks 5 as removed and never mentions 7 | the slots after the n live bodies, n..n+removed-1 | not executed | BinaryRecords.RemovedAsWrittenMarksLiveBody | BinaryRecords.RemovedAreNotLive |
| src/Solaris.generator/generator.cpp:21, 187 | `body_type_names[type]` is indexed with the type code, but the table starts at "star" while BODY_TYPE_STAR is 1 | create_name(0, BODY_TYPE_GIANTPLANET) gives "rocky0"; the Dvorak disk's protoplanets (line 381) are named "superpl0", "superpl1", ...; BODY_TYPE_TESTPARTICLE (7) reads past the end of the seven-entry table | the name of the body's own type, index type - 1 | not executed | Generator.CreateNameAsWrittenMislabels | Generator.CreateNameRoundTrip |
| src/Solaris.generator/generator.cpp:91-93 | the loop allows 17 Newton steps, but a convergence at the 17th leaves step at 16 and is reported as failure | halving update from E = 2^17 with eps = 1: the changes are 2^16, ..., 2, 1, so only step 17 converges, and 1 is returned | 1 only when no step converged | not executed | Generator.LateConvergenceReportedAsFailure | Generator.KeplerEquationSolver |

The adapter's `SavePhases` and `WritePhases` follow the code as written for the first row: their text record marks slots 0..removed-1 (`BinaryRecords.RemovedAsWritten`). `BinaryRecords.RemovedIds` is the intended choice of slots, and `BinaryRecords.RemovedAreNotLive` is proved for it alone.
