# KPU and kappa-ray core, modelled in Dafny

This project models the core of the KPU ("Kerbal Processing Unit") mod for
Kerbal Space Program, together with the small part of its companion mod
kappa-ray that the KPU core relies on.

**Program library.** Programs are named lists of instructions. A program
reports which processor capabilities its code needs and how much
instruction memory it uses. The library is a dictionary of programs keyed
by name. It lists the names in sorted order, picks a fresh "Untitled" /
"Untitled #n" name, and can put, get, rename and delete programs.

**Code window.** The window compiles the edited text one instruction per
non-empty line and stops at the first line that does not parse. It
decompiles instructions back into newline-joined text.
- The "Compile!" button compiles and then normalises the text.
- "Undo" decompiles the current instructions.
- "Revert" reloads the processor's program.

**Processor.** On every update the processor rebuilds its input values
(battery level, landing gear, surface height) from the inputs that are
available on the vessel. Sensors give a resolution: the smallest one
among the sensors of the input's type.

**Part modules.**
- The sensor master checks that it is active, has power, is at the
  required body and is below its altitude limit.
- The orientation source and the inertial platform defer to a non-working
  master on their part.
- Each module sets `isWorking` and a status text from the first check that
  fails.
- Each module describes itself through `GetInfo`: StringBuilder lines,
  with the trailing newline trimmed.
- The processor module creates the processor and forwards updates to it.

**kappa-ray.**
- The emitter turns its throttle into a ray count and fires the count in
  batches of 100, 10 and 1 rays. It stays quiet on its first tick.
- The core keeps one live instance and caches one radiation tracker per
  vessel.
- `Util.Clamp` bounds a value between a minimum and a maximum.

## Modelling choices

**Values and objects.**
- Classes whose fields the source updates become Dafny classes:
  `Program`, `Library`, `Processor`, `CodeWindow`, the part modules, the
  emitter and `Core`.
- Every method is specified by a function of its inputs or old state.
- `List`, `Dictionary` and `HashSet` become `seq`, `map` and `set`.
- The instruction stub has no parser, so an `Instruction` is its text plus
  the attributes Library.cs and CodeWindow.cs read from it.
- The parser is a parameter: a function from a line to attributes or a
  `ParseError`.
- `StubParse` is the behaviour of the code as shipped: every line parses,
  with no requirements and 0 words.

**Strings and numbers.**
- Strings are sequences of characters.
- `Environment.NewLine` is a parameter, either `"\n"` or `"\r\n"`.
- Doubles are exact reals. `+∞`, which `res` starts from, is a separate
  `Float` case.
- Number formatting for `{0:G}`, `{0:F}`, `g4` and `formatSI` is passed in
  as functions.
- `{0:D}` integer formatting is written out.
- `int` loop counters are 32-bit and wrap (`Increment32`). `chooseName`'s
  `for (int i = 2; i != 0; i++)` therefore tries 2, 3, …, `int.MaxValue`,
  `int.MinValue`, …, -1.

**Null and exceptions.**
- A null program name, a missing `mVessels`, the part module's missing
  processor and a missing sensor master become `Option` or nullable
  references. The code window's processor is not nullable; see
  "## Left out".
- Unity's overloaded `==`, under which a destroyed object equals `null`,
  is an `alive` flag on `Core`.
- A thrown exception becomes a failure value:
  - `Dictionary.Add` of a duplicate name in `putProgram` and `OnUpdate`;
  - `Dictionary.Add` of a null key in `putProgram`;
  - a missing engine module in the emitter.

**Game state passed in.** Observations of the game arrive as parameters:
- the vessel (`null` when the part is not on a vessel), its situation,
  parts, sensors, body name and altitude;
- whether the sensor master got 90% of the charge it requested;
- the engine's state;
- the emitter's one random draw;
- the universal time.

## Model

| member | source | states |
|---|---|---|
| Common.Increment32 | src/KPU/Library/Library.cs:109 | `i++` on a C# `int`: one more, except that `int.MaxValue` wraps to `int.MinValue` |
| Strings.Join | src/KPU/UI/CodeWindow.cs:47-51 | the pieces with the separator between each two; decompiling builds it (DecompileIsJoin), JoinSnoc extends it, and SplitJoin makes `Split` its inverse |
| Strings.Split | src/KPU/UI/CodeWindow.cs:60 | `Split('\n')` gives at least one piece, and no piece contains the separator |
| Strings.SplitJoin | src/KPU/UI/CodeWindow.cs:60 | splitting the separator-joined pieces gives the same pieces back, when no piece contains the separator |
| Strings.SplitPrefix | src/KPU/UI/CodeWindow.cs:60 | a separator-free prefix followed by the separator splits off as the first piece |
| Strings.JoinSnoc | src/KPU/UI/CodeWindow.cs:47-51 | joining one more piece appends the separator and that piece |
| Strings.NonEmpty | src/KPU/UI/CodeWindow.cs:62 | dropping the empty lines keeps only non-empty lines taken from the input, and changes nothing when none is empty |
| Strings.NonEmptyAppend | src/KPU/UI/CodeWindow.cs:60-62 | the lines kept from two parts are those kept from the first, then those kept from the second, in order |
| Strings.NonEmptySingle | src/KPU/UI/CodeWindow.cs:62 | one line is kept exactly when it is not empty |
| Strings.NonEmptyCounts | src/KPU/UI/CodeWindow.cs:62 | every non-empty line is kept as often as it occurs |
| Strings.TrimEnd | src/KPU/Modules/ModuleKpuProcessor.cs:87 | `TrimEnd(chars)` gives a prefix of the input that does not end in one of the chars, and every removed character is one of them |
| Strings.TrimEndKeeps | src/KPU/Modules/ModuleKpuProcessor.cs:87 | a character outside the trimmed set survives trimming, together with everything before it |
| Strings.TrimEndSuffix | src/KPU/Modules/ModuleKpuProcessor.cs:87 | appending characters that are all trimmed does not change the trimmed text |
| Strings.AppendLines | src/KPU/Modules/ModuleKpuProcessor.cs:79-85 | the text after `AppendLine` of each line in turn; AppendLinesSnoc, AppendLinesIsJoin and AppendLinesPrefix state its properties |
| Strings.AppendLinesSnoc | src/KPU/Modules/ModuleKpuProcessor.cs:79-85 | one more `AppendLine` adds the line and the newline to the builder |
| Strings.AppendLineWhen | src/KPU/Modules/ModuleKpuOrientation.cs:67-68 | `if (c) info.AppendLine(line)` keeps the builder equal to the lines appended so far |
| Strings.AppendLinesIsJoin | src/KPU/Modules/ModuleKpuProcessor.cs:77-87 | the builder text of a non-empty list of lines is the lines joined by newlines, plus one more newline |
| Strings.AppendLinesPrefix | src/KPU/Modules/ModuleKpuProcessor.cs:79 | the builder text starts with the first line appended |
| Strings.InfoText | src/KPU/Modules/ModuleKpuProcessor.cs:87 | `info.ToString().TrimEnd(Environment.NewLine.ToCharArray())`, what every `GetInfo` returns; InfoTextIsJoin and InfoTextStartsWithFirstLine state its properties |
| Strings.InfoTextIsJoin | src/KPU/Modules/ModuleKpuProcessor.cs:87 | when the last line does not end in a newline character, the trimmed text is exactly the lines joined by newlines |
| Strings.JoinEndsWithLast | src/KPU/Modules/ModuleKpuProcessor.cs:87 | the joined text is at least as long as the last line and ends in its last character |
| Strings.InfoTextStartsWithFirstLine | src/KPU/Modules/ModuleKpuOrientation.cs:66 | the trimmed text still starts with the first line, when that line ends in a non-newline character |
| Strings.DigitChar | src/KPU/Library/Library.cs:111 | digit d becomes the character d places after '0' |
| Strings.NatToDecimal | src/KPU/Library/Library.cs:111 | `{0:D}` of a natural number is a non-empty string of decimal digits with no leading zero |
| Strings.NatToDecimalValue | src/KPU/Library/Library.cs:111 | the digits written for n denote n |
| Strings.NatToDecimalInjective | src/KPU/Library/Library.cs:111 | different numbers are written with different digits |
| Strings.IntToDecimal | src/KPU/Library/Library.cs:111 | `{0:D}` of an int starts with '-' iff it is negative, followed by the digits of its magnitude |
| Strings.IntToDecimalInjective | src/KPU/Library/Library.cs:111 | different ints are written differently |
| Strings.LessIrreflexive | src/KPU/Library/Library.cs:96 | the ordinal string order never puts a name before itself |
| Strings.LessTransitive | src/KPU/Library/Library.cs:96 | the ordinal string order is transitive |
| Strings.LessTotal | src/KPU/Library/Library.cs:96 | of two different names, one comes before the other |
| Strings.InsertSorted | src/KPU/Library/Library.cs:95-96 | inserting into the name list adds exactly that name: the multiset grows by it, the length by one |
| Strings.InsertSortedMembers | src/KPU/Library/Library.cs:95-96 | after inserting, a name is present iff it was there before or is the inserted one |
| Strings.InsertSortedAscending | src/KPU/Library/Library.cs:96 | inserting a new name into a strictly ascending list keeps it strictly ascending |
| Instructions.NewInstruction | src/KPU/Processor/Processor.cs:12-16 | constructing an instruction succeeds iff its text parses, and keeps the text verbatim with the parsed attributes |
| Instructions.StubParse | src/KPU/Processor/Processor.cs:12-18 | the stub as shipped: every text is accepted, with no requirements and 0 words; StubNeverFails states it |
| Instructions.StubNeverFails | src/KPU/Processor/Processor.cs:12-18 | with the stub as shipped, every text becomes an instruction with no requirements and 0 words |
| KpuLibrary.AnyNeeds | src/KPU/Library/Library.cs:24-32 | `code.Exists(i => i.requires…)` holds iff some instruction needs that capability |
| KpuLibrary.TotalWordsAppend | src/KPU/Library/Library.cs:33-35 | the word total of two lists appended is the sum of their totals |
| KpuLibrary.TotalWords | src/KPU/Library/Library.cs:33-35 | the unbounded total of the instructions' words; TotalWordsAppend and CheckedSumFromSpec state its properties |
| KpuLibrary.CheckedSumFrom | src/KPU/Library/Library.cs:34 | `Sum` over `int`, throwing on the first running total outside 32 bits; CheckedSumFromSpec states its meaning |
| KpuLibrary.CheckedSumFromSpec | src/KPU/Library/Library.cs:34 | the checked sum completes iff every running total fits in 32 bits, and is then the plain total |
| KpuLibrary.Program.ImemWords | src/KPU/Library/Library.cs:33-35 | throws iff some running total of the words leaves the 32-bit range; otherwise the total of the words, itself 32-bit |
| KpuLibrary.UntitledNumbered | src/KPU/Library/Library.cs:111 | "Untitled #" and the counter in `{0:D}`; UntitledNumberedInjective states its properties |
| KpuLibrary.UntitledNumberedInjective | src/KPU/Library/Library.cs:110-111 | two counter values give the same name iff they are equal, and no numbered name is "Untitled" |
| KpuLibrary.TryOrder | src/KPU/Library/Library.cs:109 | every candidate counter is tried at a place before 0, which comes last and ends the loop |
| KpuLibrary.TryOrderStep | src/KPU/Library/Library.cs:109 | `i++` moves a candidate one place on, and 2 is tried first |
| KpuLibrary.TryOrderInjective | src/KPU/Library/Library.cs:109 | no two 32-bit counter values share a place |
| KpuLibrary.AnyNeedsAppend | src/KPU/Library/Library.cs:24-32 | appended code needs a capability iff either part does |
| KpuLibrary.Program.constructor | src/KPU/Library/Library.cs:12-17 | a new program has a null name, an empty description and no code |
| KpuLibrary.Program.AddCode | src/KPU/Library/Library.cs:19-22 | `AddRange` appends the instructions in order; the word total grows by theirs, and the level-trigger requirement becomes the disjunction |
| KpuLibrary.Program.RequiresLevelTrigger | src/KPU/Library/Library.cs:24-26 | true iff some instruction requires level triggers |
| KpuLibrary.Program.RequiresLogicOps | src/KPU/Library/Library.cs:27-29 | true iff some instruction requires logical ops |
| KpuLibrary.Program.RequiresArithOps | src/KPU/Library/Library.cs:30-32 | true iff some instruction requires arithmetic ops |
| KpuLibrary.Program.UsedInputs | src/KPU/Library/Library.cs:37-42 | the set collected is exactly the union of the inputs the instructions use |
| KpuLibrary.Program.UsedOrients | src/KPU/Library/Library.cs:43-48 | the set collected is exactly the union of the orientations the instructions use |
| KpuLibrary.Library.constructor | src/KPU/Library/Library.cs:83-86 | a new library is empty |
| KpuLibrary.Library.IsEmpty | src/KPU/Library/Library.cs:88-91 | true iff no program is stored |
| KpuLibrary.Library.NameExists | src/KPU/Library/Library.cs:100-103 | true iff the name is a key |
| KpuLibrary.Library.ProgramNames | src/KPU/Library/Library.cs:93-98 | the names come out strictly ascending, each key exactly once and nothing else; the list is empty iff the library is |
| KpuLibrary.Library.ChooseName | src/KPU/Library/Library.cs:105-118 | the chosen name is unused; it is "Untitled" iff that is free; otherwise it is the first free "Untitled #i" in the wrapping order from 2; null only when every candidate is taken |
| KpuLibrary.Library.GetProgram | src/KPU/Library/Library.cs:141-146 | null iff the name is absent, else the stored program |
| KpuLibrary.Library.PutProgram | src/KPU/Library/Library.cs:148-151 | adds the program under its name iff the name is non-null and unused; otherwise it throws and changes nothing; keeps every program stored under its own name |
| KpuLibrary.Library.DeleteProgram | src/KPU/Library/Library.cs:153-157 | removes the name if present, and nothing else |
| KpuLibrary.Library.RenameProgram | src/KPU/Library/Library.cs:120-139 | succeeds iff the old name exists and the new one is the same or unused; a real rename moves the same program object to the new key and sets its name, keeping the count, description and code; failures and same-name renames change nothing |
| KpuLibrary.MapMoveSize | src/KPU/Library/Library.cs:135-137 | removing a key and adding an unused one keeps the number of programs |
| KpuProcessor.FromDouble | src/KPU/Processor/Processor.cs:29-33 | a double input value has type DOUBLE and holds the double |
| KpuProcessor.FromBool | src/KPU/Processor/Processor.cs:35-39 | a boolean input value has type BOOLEAN and holds the boolean |
| KpuProcessor.ToText | src/KPU/Processor/Processor.cs:41-52 | `ToString`: "1"/"0" for a boolean, the supplied "g4" format for a double; BoolText states the boolean case |
| KpuProcessor.BoolText | src/KPU/Processor/Processor.cs:41-46 | a boolean value prints as "1" iff true and as "0" iff false |
| KpuProcessor.AnySensorOfType | src/KPU/Processor/Processor.cs:115 | true iff one of the part's sensors has the input's sensor type |
| KpuProcessor.SensorAvailable | src/KPU/Processor/Processor.cs:111-117 | an input is available iff some sensor of its type exists on some part |
| KpuProcessor.Resolution | src/KPU/Processor/Processor.cs:118-126 | infinite iff no sensor of the type exists; otherwise the resolution of one such sensor and no larger than any of them: the minimum |
| KpuProcessor.InputName | src/KPU/Processor/Processor.cs:63-166 | the `name` getters: "batteries", "gear", "srfHeight"; StandardInputsNeverCollide states that they never clash |
| KpuProcessor.GearValue | src/KPU/Processor/Processor.cs:133-140 | gear is a boolean, true iff the vessel is LANDED or PRELAUNCH |
| KpuProcessor.Available | src/KPU/Processor/Processor.cs:63-117 | batteries are available iff the capacity exceeds 0.1f; gear and surface height iff a sensor of their type exists; SnapshotContents uses it |
| KpuProcessor.Value | src/KPU/Processor/Processor.cs:68-160 | each input's current value: battery percent, GearValue, or +∞ for surface height without a sensor; SnapshotContents uses it |
| KpuProcessor.AddInputs | src/KPU/Processor/Processor.cs:201-207 | the remaining iterations of the `OnUpdate` loop; AddInputsFacts states its properties |
| KpuProcessor.TakeSnapshot | src/KPU/Processor/Processor.cs:198-208 | the whole `OnUpdate` loop from an empty dictionary; SnapshotContents states its properties |
| KpuProcessor.NoClashSkip | src/KPU/Processor/Processor.cs:203 | an unavailable input adds no name and so causes no clash |
| KpuProcessor.NoClashAdd | src/KPU/Processor/Processor.cs:203-206 | adding an available input causes no later clash iff its name is new and the rest add distinct names |
| KpuProcessor.AddInputsFacts | src/KPU/Processor/Processor.cs:200-207 | the fold over the inputs completes iff no name repeats; every key came from the start map or an available input; on completion each available input maps to its value |
| KpuProcessor.SnapshotContents | src/KPU/Processor/Processor.cs:198-208 | `OnUpdate` completes iff the available inputs have distinct names; the keys are exactly available names, each mapped to its input's value |
| KpuProcessor.StandardInputsNeverCollide | src/KPU/Processor/Processor.cs:191-193 | the three standard inputs never collide, and the keys are among "batteries", "gear" and "srfHeight" |
| KpuProcessor.Processor.constructor | src/KPU/Processor/Processor.cs:183-194 | copies the module's capabilities; no instructions; the three standard inputs in order |
| KpuProcessor.Processor.OnUpdate | src/KPU/Processor/Processor.cs:198-208 | the new dictionary is the snapshot of the available inputs; it throws exactly when a name repeats, naming it |
| KpuCodeWindow.Texts | src/KPU/UI/CodeWindow.cs:47-50 | the texts of the instructions, one per instruction, in order |
| KpuCodeWindow.CompileLines | src/KPU/UI/CodeWindow.cs:55-79 | the compile loop over the split lines; CompileAllParse, CompileStopsAtFirstError and CompileOkIff state its properties |
| KpuCodeWindow.DecompileText | src/KPU/UI/CodeWindow.cs:44-53 | the decompile loop's text; DecompileIsJoin states it is the "\n" join |
| KpuCodeWindow.CompileAllParse | src/KPU/UI/CodeWindow.cs:55-79 | when every non-empty line parses, compiling succeeds with one instruction per non-empty line, texts in order |
| KpuCodeWindow.CompileStopsAtFirstError | src/KPU/UI/CodeWindow.cs:64-74 | at the first failing line, compiling fails with the instructions of the non-empty lines before it |
| KpuCodeWindow.CompileOkIff | src/KPU/UI/CodeWindow.cs:55-79 | compiling succeeds iff every non-empty line parses |
| KpuCodeWindow.CompiledAreReparsable | src/KPU/UI/CodeWindow.cs:60-74 | each compiled instruction's text is a non-empty single line that parses to its own attributes |
| KpuCodeWindow.DecompileIsJoin | src/KPU/UI/CodeWindow.cs:44-53 | for non-empty texts, decompiling gives the texts joined by "\n" |
| KpuCodeWindow.JoinStartsWithFirst | src/KPU/UI/CodeWindow.cs:49-50 | joined text is at least as long as its first piece |
| KpuCodeWindow.CompileTexts | src/KPU/UI/CodeWindow.cs:60-76 | compiling the texts of reparsable instructions gives those instructions back |
| KpuCodeWindow.CompileDecompile | src/KPU/UI/CodeWindow.cs:44-79 | decompile then compile is the identity on reparsable instructions |
| KpuCodeWindow.NormaliseIdempotent | src/KPU/UI/CodeWindow.cs:104-114 | after a successful compile, compiling the normalised text gives the same instructions and the same text again |
| KpuCodeWindow.CodeWindow.constructor | src/KPU/UI/CodeWindow.cs:16-35 | a new window holds the processor's instructions, decompiled, marked compiled and loaded |
| KpuCodeWindow.CodeWindow.Revert | src/KPU/UI/CodeWindow.cs:37-42 | reloads the processor's instructions and their text; compiled and loaded |
| KpuCodeWindow.CodeWindow.Decompile | src/KPU/UI/CodeWindow.cs:44-53 | the text becomes the decompiled instructions; compiled |
| KpuCodeWindow.CodeWindow.Compile | src/KPU/UI/CodeWindow.cs:55-79 | the instructions and result are those of compiling the split text, prefix kept on failure; not loaded |
| KpuCodeWindow.CodeWindow.EditText | src/KPU/UI/CodeWindow.cs:93-99 | a different text is stored and clears compiled and loaded; the same text changes nothing |
| KpuCodeWindow.CodeWindow.PressCompile | src/KPU/UI/CodeWindow.cs:104-115 | compiles; on success the text is normalised to the decompiled instructions, on failure it is kept |
| KpuCodeWindow.CodeWindow.PressUndo | src/KPU/UI/CodeWindow.cs:116-119 | the text goes back to the decompiled instructions |
| KpuCodeWindow.CompileTwice | src/KPU/UI/CodeWindow.cs:104-115 | pressing "Compile!" a second time after a successful press leaves instructions and text as the first press made them |
| PartStatus.StatusText | src/KPU/Modules/ModuleKpuOrientation.cs:42-59 | the status is null only when copied from a master with a null status, and "OK" only when working or copied; StatusTextIdentifies states the rest |
| PartStatus.StatusTextIdentifies | src/KPU/Modules/ModuleKpuSensorMaster.cs:49-74 | apart from a copied master status, different verdicts set different status texts |
| PartStatus.LocationVerdict | src/KPU/Modules/ModuleKpuOrientation.cs:46-59 | "Not at X!" iff a body is required and the vessel is elsewhere; "Too high!" iff at the right body and above a positive limit; working iff neither; an empty body or non-positive limit switches its check off |
| PartStatus.WrongBody | src/KPU/Modules/ModuleKpuSensorMaster.cs:61 | the body test: a body is required and the vessel orbits another; LocationVerdict turns it into "Not at X!" |
| PartStatus.AboveLimit | src/KPU/Modules/ModuleKpuSensorMaster.cs:67 | the altitude test: the limit is positive and the vessel is above it; LocationVerdict turns it into "Too high!" |
| PartStatus.MasterGate | src/KPU/Modules/ModuleKpuOrientation.cs:40-45 | a present, non-working master overrides with its own status; an absent or working one lets the next check decide |
| SensorMaster.MasterVerdict | src/KPU/Modules/ModuleKpuSensorMaster.cs:46-74 | working iff active, powered, at the body and under the limit; inactive first, then power, then the location checks |
| SensorMaster.ModuleKpuSensorMaster.constructor | src/KPU/Modules/ModuleKpuSensorMaster.cs:11-29 | configuration fields as loaded; not working, no status; the toggle labelled "Toggle" and hidden |
| SensorMaster.ModuleKpuSensorMaster.SetActive | src/KPU/Modules/ModuleKpuSensorMaster.cs:23-27 | the toggle reads "Deactivate" iff active, else "Activate", and is shown |
| SensorMaster.ModuleKpuSensorMaster.OnStart | src/KPU/Modules/ModuleKpuSensorMaster.cs:36-39 | labels and shows the toggle |
| SensorMaster.ModuleKpuSensorMaster.EventToggle | src/KPU/Modules/ModuleKpuSensorMaster.cs:29-34 | negates `isActive` and relabels the toggle |
| SensorMaster.ModuleKpuSensorMaster.FixedUpdate | src/KPU/Modules/ModuleKpuSensorMaster.cs:41-75 | no vessel: nothing changes; otherwise charge is requested iff active, and `isWorking`/status follow the first failing check, "OK" when none fails |
| SensorMaster.MasterInfoLines | src/KPU/Modules/ModuleKpuSensorMaster.cs:77-89 | the lines `GetInfo` appends, each only when its field is set; GetInfo states the finished text |
| SensorMaster.ModuleKpuSensorMaster.GetInfo | src/KPU/Modules/ModuleKpuSensorMaster.cs:77-89 | the altitude, body and energy lines that apply, trimmed; never ends in a newline character; empty when none applies |
| SensorMaster.ToggleTwice | src/KPU/Modules/ModuleKpuSensorMaster.cs:29-34 | toggling twice restores `isActive` |
| Orientation.ViewOf | src/KPU/Modules/ModuleKpuOrientation.cs:29-31 | the part's sensor master as the gate sees it: absent iff there is none, else its `isWorking` and status |
| Orientation.OrientationVerdict | src/KPU/Modules/ModuleKpuOrientation.cs:40-59 | working iff the master (if any) works and the body and altitude checks pass; a non-working master's status wins; with no master the gate is skipped |
| Orientation.SourceLines | src/KPU/Modules/ModuleKpuOrientation.cs:66-76 | the header and the "Gives …" lines of the positive fields; SourceLinesMention and SourceLastLine state its properties |
| Orientation.OrientationInfoLines | src/KPU/Modules/ModuleKpuOrientation.cs:66-84 | the source lines, then the limit lines that apply; InfoStartsWithHeader and InfoWithoutLimits state its properties |
| Orientation.SourceLinesMention | src/KPU/Modules/ModuleKpuOrientation.cs:66-76 | the header comes first, and each "Gives …" line is present iff its field is positive |
| Orientation.SourceLastLine | src/KPU/Modules/ModuleKpuOrientation.cs:66-76 | the last integer-driven line ends in a non-newline character |
| Orientation.InfoStartsWithHeader | src/KPU/Modules/ModuleKpuOrientation.cs:66-84 | the info text always starts with "Orientation source:" |
| Orientation.InfoWithoutLimits | src/KPU/Modules/ModuleKpuOrientation.cs:66-84 | without the resolution, altitude and body lines, the info text is exactly the header and the "Gives …" lines joined by newlines |
| Orientation.ModuleKpuOrientation.constructor | src/KPU/Modules/ModuleKpuOrientation.cs:9-33 | configuration fields as loaded; status "Inactive" and not working |
| Orientation.ModuleKpuOrientation.FixedUpdate | src/KPU/Modules/ModuleKpuOrientation.cs:35-60 | no vessel: nothing changes; otherwise `isWorking` and status follow the gate, body and altitude checks in that order |
| Orientation.ModuleKpuOrientation.GetInfo | src/KPU/Modules/ModuleKpuOrientation.cs:62-85 | the builder's lines trimmed; starts with the header and never ends in a newline character |
| InertialPlatform.PlatformVerdict | src/KPU/Modules/ModuleKpuInertialPlatform.cs:24-31 | working iff there is no master or it works; otherwise the master's status |
| InertialPlatform.ModuleKpuInertialPlatform.constructor | src/KPU/Modules/ModuleKpuInertialPlatform.cs:10-17 | status "Inactive" and not working |
| InertialPlatform.ModuleKpuInertialPlatform.FixedUpdate | src/KPU/Modules/ModuleKpuInertialPlatform.cs:19-32 | no vessel: nothing changes; otherwise the master gate alone decides, "OK" when it passes |
| InertialPlatform.ModuleKpuInertialPlatform.GetInfo | src/KPU/Modules/ModuleKpuInertialPlatform.cs:34-41 | exactly "Inertial platform" |
| ProcessorModule.CapabilityLines | src/KPU/Modules/ModuleKpuProcessor.cs:79-85 | the capability lines `GetInfo` appends; CapabilityLinesMention states its properties |
| ProcessorModule.CapabilityLinesMention | src/KPU/Modules/ModuleKpuProcessor.cs:79-85 | "Supports Edge-Triggers" comes first; each optional line is present iff its flag is set; one line per set flag |
| ProcessorModule.CapabilityInfoIsJoin | src/KPU/Modules/ModuleKpuProcessor.cs:77-87 | the trimmed info is exactly the capability lines joined by newlines |
| ProcessorModule.ModuleKpuProcessor.constructor | src/KPU/Modules/ModuleKpuProcessor.cs:10-19 | configuration fields as loaded; no processor yet |
| ProcessorModule.ModuleKpuProcessor.OnStart | src/KPU/Modules/ModuleKpuProcessor.cs:34-37 | a fresh processor with this module's capabilities, the three standard inputs and no instructions |
| ProcessorModule.ModuleKpuProcessor.OnUpdate | src/KPU/Modules/ModuleKpuProcessor.cs:70-73 | does nothing without a processor; otherwise the processor's input values are rebuilt as its own `OnUpdate` promises, the reported name included, and its instructions, inputs and capabilities are unchanged |
| ProcessorModule.ModuleKpuProcessor.GetInfo | src/KPU/Modules/ModuleKpuProcessor.cs:75-88 | the capability lines joined; starts with "Supports Edge-Triggers", never ends in a newline character, and is exactly that line with all flags off |
| Emitter.Ceil | src/kappa-ray/Modules/ModuleKappaRayEmitter.cs:30 | `Math.Ceiling`: the least integer not below the value |
| Emitter.CeilMonotonic | src/kappa-ray/Modules/ModuleKappaRayEmitter.cs:30 | the ceiling is monotonic |
| Emitter.ToInt32 | src/kappa-ray/Modules/ModuleKappaRayEmitter.cs:30 | the `(int)` cast keeps a value that fits and gives `int.MinValue` otherwise |
| Emitter.RayCount | src/kappa-ray/Modules/ModuleKappaRayEmitter.cs:28-32 | a 32-bit count; below strength 0.1 it is 1 iff the draw is at most ten times the strength, and 0 (the early return) otherwise |
| Emitter.RayCountBounds | src/kappa-ray/Modules/ModuleKappaRayEmitter.cs:29-30 | from strength 0.1 on, a draw in [0, 1) gives between 0 and the ceiling of ten times the strength rays |
| Emitter.Batches | src/kappa-ray/Modules/ModuleKappaRayEmitter.cs:33-46 | the batch plan of the three loops; BatchesSum, BatchesShape, TensThenOnes and HundredsPhase state its properties |
| Emitter.Ones | src/kappa-ray/Modules/ModuleKappaRayEmitter.cs:43-46 | n single-ray batches |
| Emitter.Repeat | src/kappa-ray/Modules/ModuleKappaRayEmitter.cs:33-37 | n batches of one size |
| Emitter.BatchesSum | src/kappa-ray/Modules/ModuleKappaRayEmitter.cs:33-46 | the batch sizes add up to the count, or to 0 for a count below one |
| Emitter.OnesSum | src/kappa-ray/Modules/ModuleKappaRayEmitter.cs:43-46 | n single rays add up to n |
| Emitter.BatchesShape | src/kappa-ray/Modules/ModuleKappaRayEmitter.cs:33-46 | every batch is 100, 10 or 1, and none is larger than the one before |
| Emitter.TensThenOnes | src/kappa-ray/Modules/ModuleKappaRayEmitter.cs:38-46 | from 1000 rays down, no batch is larger than 10 |
| Emitter.HundredsPhase | src/kappa-ray/Modules/ModuleKappaRayEmitter.cs:33-37 | the 100-loop leaves at most 1000 rays, and more than 900 when it ran; the batches are its 100s followed by the batches of the rest |
| Emitter.SingleShotsBound | src/kappa-ray/Modules/ModuleKappaRayEmitter.cs:38-46 | at most 100 single-ray calls; between 91 and 100 when the count exceeds 100; exactly the count when it does not |
| Emitter.OnesMultiset | src/kappa-ray/Modules/ModuleKappaRayEmitter.cs:43-46 | n single rays are n batches of size 1 |
| Emitter.FireBatches | src/kappa-ray/Modules/ModuleKappaRayEmitter.cs:33-46 | the three loops fire exactly the batch plan of the count |
| Emitter.Irradiate | src/kappa-ray/Modules/ModuleKappaRayEmitter.cs:26-47 | fires the batch plan of the ray count; the rays add up to the count; at most one batch below strength 0.1 |
| Emitter.Strength | src/kappa-ray/Modules/ModuleKappaRayEmitter.cs:66 | the strength passed to `Irradiate`: coefficient times requested throttle times 100 |
| Emitter.Emission | src/kappa-ray/Modules/ModuleKappaRayEmitter.cs:56-72 | nothing on the first tick or with a non-positive coefficient or a non-operational engine; throws iff an engine is needed and missing; otherwise fires for the throttle's strength |
| Emitter.ModuleKappaRayEmitter.constructor | src/kappa-ray/Modules/ModuleKappaRayEmitter.cs:10-13 | `lastUpdate` starts at -1 |
| Emitter.ModuleKappaRayEmitter.OnFixedUpdate | src/kappa-ray/Modules/ModuleKappaRayEmitter.cs:56-72 | fires what `Emission` says for the old `lastUpdate`, and records the time unless the tick throws |
| Emitter.FirstTickIsQuiet | src/kappa-ray/Modules/ModuleKappaRayEmitter.cs:13 | a newly loaded emitter fires nothing on its first tick and records the time |
| KappaCore.RadiationTracker.constructor | src/kappa-ray/RadiationTracker.cs:11-15 | the tracker belongs to the vessel given |
| KappaCore.Registry.constructor | src/kappa-ray/Core.cs:9 | the static `Instance` slot starts empty |
| KappaCore.Core.constructor | src/kappa-ray/Core.cs:7-10 | a new core is alive and has no dictionary until `Start` |
| KappaCore.Core.Start | src/kappa-ray/Core.cs:12-24 | with a live instance already set: this core destroys itself, and nothing else changes; with none, or a destroyed one, this becomes the instance with an empty cache |
| KappaCore.Core.Destroy | src/kappa-ray/Core.cs:16 | after `Destroy` the core is no longer alive and compares as `null` |
| KappaCore.NextScene | src/kappa-ray/Core.cs:12-52 | once the previous scene's core is destroyed, the next scene's new core takes the slot with an empty cache |
| KappaCore.Core.GetRT | src/kappa-ray/Core.cs:26-33 | afterwards the vessel is cached; a cached tracker is returned unreplaced; otherwise a fresh tracker for that vessel is added; other entries are untouched and the map grows by at most one |
| KappaCore.AddKeyGrowsByOne | src/kappa-ray/Core.cs:30 | storing one key grows the cache by at most one entry, by none when the key is present |
| KappaCore.GetRTTwice | src/kappa-ray/Core.cs:26-33 | two lookups of one vessel return the same tracker |
| KappaUtil.Clamp | src/kappa-ray/Util.cs:8-11 | the result is the value, min or max; below min gives min; a value between them is kept |
| KappaUtil.ClampInRange | src/kappa-ray/Util.cs:8-11 | for a proper comparer and min ≤ max, the result lies in [min, max] |
| KappaUtil.ClampAbove | src/kappa-ray/Util.cs:10 | for a proper comparer and min ≤ max, a value above max gives max |
| KappaUtil.ClampIdempotent | src/kappa-ray/Util.cs:8-11 | for a proper comparer and min ≤ max, clamping twice is clamping once |
| KappaUtil.CompareInt | src/kappa-ray/Util.cs:8 | `int.CompareTo` is negative iff below and positive iff above |
| KappaUtil.CompareIntIsComparer | src/kappa-ray/Util.cs:8 | `int.CompareTo` meets the comparer laws |
| KappaUtil.ClampInt | src/kappa-ray/Util.cs:8-11 | on integers with min ≤ max the result is within bounds and keeps in-range values |

## Left out

- Instruction parsing and evaluation. `Processor.Instruction` here is a stub: it stores its text and has no parser (src/KPU/Processor/Processor.cs:8-19). Library.cs and CodeWindow.cs use members of it the stub lacks: the requirement flags, `imemWords`, `usedInputs` and `ParseError`. The parser is a parameter and the attributes are opaque. The stub's constructor only logs that the parser is not written yet (src/KPU/Processor/Processor.cs:15).
- Instructions are values. Program lists, the window's list and the processor's list share no mutable instruction objects.
- All `Save`/`Load`/`OnSave`/`OnLoad` against `ConfigNode`. This includes the processor creation inside the module's `OnSave`/`OnLoad`. It is game serialisation.
- IMGUI layout of every window: scroll views, styles, greyed buttons and the "I have no Processor!?" label. Only the compile, undo, revert and edit logic of the code window is modelled.
- `EventOpen` only logs. The IMEM total in `compile` is an unchecked `int` sum that is only logged (src/KPU/UI/CodeWindow.cs:59, 75, 77).
- Logging and screen messages, including the `chooseName` and `renameProgram` messages.
- Battery fill level, total capacity and surface-height rounding. They are floating-point sums, divisions and `Math.Round`; the vessel view supplies them as values. Battery availability is computed from the supplied capacity, compared with `0.1f` (src/KPU/Processor/Processor.cs:66).
- The double "g4", `{0:G}`, `{0:F}` and `formatSI` formatting. They are passed in as functions.
- Sensor types are never null, and sensor resolutions are finite reals. NaN comparisons are not modelled.
- The vessel is assumed present when `Gear`/`SrfHeight` read it. Inputs are bound to the part's vessel when the processor is constructed; here the vessel view is passed to each update.
- The `Processor` constructor takes the module's four capability values instead of the module itself, and no part.
- The sensor master's power draw. `RequestResource` and `TimeWarp.fixedDeltaTime` are the game's; the result of the 90% comparison is an input. The method reports whether charge was requested.
- The emitter's `GetInfo` is one `{0:G}` double format and is not modelled.
- `IrradiateOnce` is not modelled. It calls `getRT` and takes a random energy draw for the radiation physics; the model returns the batch sizes in the order they are fired. `NextDouble` is a parameter.
- `Core.Update` and the `RadiationTracker` physics, together with its random source. `CoreFlight`/`CoreTracking` are plain subclasses.
- `Util.Clamp` is specified for comparers that obey the `IComparable` laws. A comparer that breaks them, or a null value, is outside the lemmas.
- KpuLibrary.Library.ProgramNames: sorts ordinally (by character code). `List<string>.Sort()` uses the current culture's comparison, which orders case differently ("a" before "B") and can rank distinct names equal. The two orders differ, and only the model's list is proved strictly ascending; both hold each key exactly once.
- KpuLibrary.Library.ChooseName: the model does not prove that a free name exists when the library holds fewer than 2^32 - 1 "Untitled" names. It states only which name is returned, or that every candidate was taken.
- KpuLibrary.Library.NameExists, KpuLibrary.Library.GetProgram, KpuLibrary.Library.DeleteProgram and KpuLibrary.Library.RenameProgram take non-null names: `ContainsKey(null)` would throw in the source (src/KPU/Library/Library.cs:100-157), and every caller passes a name already stored in the library.
- KappaCore.Core.GetRT: requires that `Start` has created the dictionary. Calling it before `Start` dereferences null in the source.
- KpuCodeWindow.CodeWindow: the window's processor is not nullable. The source draws "I have no Processor!?" for a null processor (src/KPU/UI/CodeWindow.cs:86-88), but its constructor already dereferences it through `revert` (src/KPU/UI/CodeWindow.cs:34, 39), so a window over no processor cannot be built; the model leaves that case out.
- KappaCore.Core.Start: Unity defers `Destroy` to the end of the frame; the model marks the core destroyed at once.
