# pyNeuroML core, modelled in Dafny

This project models three parts of pyNeuroML, the Python toolkit that drives
jNeuroML (jnml), NEURON, NetPyNE and other engines on NeuroML 2 / LEMS models.
For each part it proves what the code promises.

- **The runner layer** of `pyneuroml/runners.py`:
  - `run_lems_with`, which dispatches on an engine name by looking up the
    module's `run_lems_with_*` functions;
  - the jnml command-line fragments: the GUI switch, the include-path option,
    the NEURON and NetPyNE `post_args`, and the headless JVM flag;
  - what `run_jneuroml` returns for each process outcome;
  - the up-front checks of `generate_sim_scripts_in_folder`;
  - how `reload_saved_data` rebuilds traces and events from the output files
    of a LEMS simulation.
- **The tuning controller** of `pyneuroml/tune/NeuroMLController.py`:
  - the `NeuroMLController` object: its settings, counter and document;
  - the sequential and parallel candidate loops of `run`;
  - the variable-expression interpreter of `run_individual`. An expression
    has the form `type:id1/variable[:id2]/units`, with pieces joined by `+`.
    Each piece finds one element of the NeuroML document and writes
    `"value units"` into it.
- **The morphology drawing rules** of `pyneuroml/plot/PlotMorphology.py`:
  - plane selection, segment width and colour;
  - `add_line`, which nudges a degenerate line in place and widens the
    horizontal extent;
  - the 2D drawing loop, the scalebar and axis-limit rules;
  - the surface and width choices of the 3D plots.

## Files and modules

| file | module | what it holds |
|---|---|---|
| `base.dfy` | `Base` | `Option`, `Result`, string prefix, suffix and substring tests, Python's `str.split(sep)` and `join`, and decimal rendering of integers. |
| `jnml_args.dfy` | `JnmlArgs` | The jnml switches. Each builder has a reader beside it that reads the string back the way jnml's option parser would. |
| `dispatch.dfy` | `Dispatch` | `run_lems_with` as a loop over the module's functions, plus the checks of `generate_sim_scripts_in_folder`. |
| `reload.dfy` | `Reload` | The output-file and event-file loops of `reload_saved_data`, each as a method proved equal to a recursive specification function. Lemmas state what those functions mean. |
| `tune_variables.dfy` | `Variables` | The NeuroML document as values, and the expression interpreter, both as functions and as the loops the source runs. |
| `tune_controller.dfy` | `Tune` | The `Controller` class, its constructor, and `run` / `run_individual` as methods that change the object's document and counter. |
| `morphology.dfy` | `Morphology` | `add_line` over two-element arrays, the nested drawing loop of `plot_2D`, and the styling and limit rules. |

The effectful parts enter the model as parameters:

- a simulation is a function `simulate(document, path)`;
- a finished jnml process is a `ProcessOutcome` value;
- whether a file was found, or is older than the run, is a boolean on the
  file's record;
- a file's contents are its lines, already split into tokens.

## Model

| member | source | states |
|---|---|---|
| `JnmlArgs.GuiString` | pyneuroml/runners.py:657-664 | The switch is `" -nogui"` exactly when `nogui` is set, and empty exactly when it is not. |
| `JnmlArgs.IncludeString` | pyneuroml/runners.py:667-682 | The option is empty exactly for a missing argument or an empty string. Otherwise it is ` -I '…'`. |
| `JnmlArgs.IncludeStringRoundTrip` | pyneuroml/runners.py:667-682 | Reading the option back gives every path of a non-empty list, in order. A plain string comes back as the only path. An empty list comes back as one empty path. A missing argument or an empty string gives no option. |
| `JnmlArgs.TakeOptionalSwitch` | pyneuroml/runners.py:306-313 | An optional switch at the front is read back as present exactly when it was added, and the rest is untouched. |
| `JnmlArgs.OtherLetterIsNotSwitch` | pyneuroml/runners.py:306-313 | An option whose letter differs from a switch's is never read as that switch. |
| `JnmlArgs.SwitchLetter` | pyneuroml/runners.py:306-313 | Adding a switch with a different letter keeps the next option from being read as the letter being tested. |
| `JnmlArgs.ReadNeuronArgsOf` | pyneuroml/runners.py:306-313 | The NEURON arguments read back as exactly the run, compile and nogui switches that were set, followed by the include text. |
| `JnmlArgs.NeuronPostArgs` | pyneuroml/runners.py:306-313 | The appended string starts with ` -neuron` and ends with the GUI and include strings. It reads back as: run unless only scripts are generated, compile when asked, nogui when asked. |
| `JnmlArgs.NeuronArgsOf` | pyneuroml/runners.py:306-313 | The concatenation built by the appends reads back as the switches that were set. |
| `JnmlArgs.ReadRunJsonGuiOf` | pyneuroml/runners.py:449-456 | The run, json and nogui switches read back as exactly the ones that were set. |
| `JnmlArgs.ReadProcessorsOf` | pyneuroml/runners.py:448-449 | ` -np <n>` reads back as `n`. Without the switch, nothing is read. |
| `JnmlArgs.NotProcessorsSwitch` | pyneuroml/runners.py:448-456 | With one processor, nothing after ` -netpyne` can be read as a processor count. |
| `JnmlArgs.ReadNetpyneArgsOf` | pyneuroml/runners.py:446-456 | The NetPyNE arguments read back as the processor count (when not 1) and the run, json and nogui switches that were set. |
| `JnmlArgs.NetpynePostArgs` | pyneuroml/runners.py:446-456 | The appended string starts with ` -netpyne` and ends with the GUI and include strings. It reads back as: ` -np` only when the count is not 1, run unless only scripts or JSON are generated, json when asked. |
| `JnmlArgs.NetpyneArgsOf` | pyneuroml/runners.py:446-456 | The concatenation built by the appends reads back as the switches that were set. |
| `JnmlArgs.PreJar` | pyneuroml/runners.py:734-737 | The flag before `-jar` is either the headless flag or empty. |
| `JnmlArgs.GuiSwitchMakesHeadless` | pyneuroml/runners.py:734-737 | Arguments that carry ` -nogui` make the JVM headless exactly when the OS is not `nt`. Arguments without "nogui" never do. |
| `JnmlArgs.RunJneuroml` | pyneuroml/runners.py:741-784 | It exits exactly when `exit_on_fail` is set and the run failed. It exits with the non-zero return code, or with UNKNOWN_ERR after an exception. Otherwise it returns a flag, with the output when `return_string` is set, and the flag is true exactly on success. |
| `Dispatch.RunLemsWith` | pyneuroml/runners.py:228-242 | The loop calls exactly the runners whose names fit, in module order. It returns the value of the last one called, or none when no name fits. |
| `Dispatch.NoRunnerNoResult` | pyneuroml/runners.py:230-242 | The result is none exactly when no function name fits the engine. |
| `Dispatch.LastRunnerResultIsLastMatch` | pyneuroml/runners.py:230-242 | A result that is not none comes from a fitting function with no fitting function after it. |
| `Dispatch.CalledRunnersAreTheMatches` | pyneuroml/runners.py:230-236 | Every called name fits the engine, and every fitting name is called. |
| `Dispatch.EngineSelectsItsRunner` | pyneuroml/runners.py:245-990 | Each of the five engine suffixes selects exactly its own runner among the module's functions. |
| `Dispatch.OtherFunctionIsNotRunner` | pyneuroml/runners.py:230-236 | No other function of the module fits that engine. |
| `Dispatch.OnlyMatch` | pyneuroml/runners.py:230-236 | With a single fitting name, that name alone is called. |
| `Dispatch.NoMatch` | pyneuroml/runners.py:230-242 | With no fitting name, nothing is called. |
| `Dispatch.CalledRunnersAppend` | pyneuroml/runners.py:230-236 | The calls made for two lists of names are the calls for the first followed by those for the second. |
| `Dispatch.PathPartsOfNames` | pyneuroml/runners.py:1298-1301 | A plain file name has at most one path part, so it passes the check. `dir/name` has two parts, so it is refused. |
| `Dispatch.ParentReferenceHasDirectoryPart` | pyneuroml/runners.py:1317-1319 | The two nested tests (a directory part, then "../") together hold exactly when the path contains "../". |
| `Dispatch.FirstParentReference` | pyneuroml/runners.py:1314-1330 | The copy loop stops at the first file that refers to a parent directory, and at no other. It finishes exactly when no file does. |
| `Dispatch.ScriptsGuard` | pyneuroml/runners.py:1281-1330 | The checks run in the source's order: an unsupported engine, then a LEMS name with a directory part, then the first parent-directory file. Each outcome holds exactly under its condition. |
| `Reload.AsFloat` | pyneuroml/runners.py:1161-1164 | `float()` of a token fails exactly on a non-number, and an integer becomes its own value. |
| `Reload.AsInt` | pyneuroml/runners.py:1085-1101 | `int()` of a token succeeds exactly on an integer token. |
| `Reload.Columns` | pyneuroml/runners.py:1154-1159 | The column list is "t" followed by the file's quantities, in order. |
| `Reload.ResetColumnsMeaning` | pyneuroml/runners.py:1156-1158 | Exactly the quantities are added as keys. Each quantity's trace is emptied, and every other trace is kept. |
| `Reload.ReadOutputFile` | pyneuroml/runners.py:1123-1164 | The nested line/value loop gives exactly the specified outcome for one output file. That covers "t" reset first, then the missing-file and stale-file errors, then the column reset and the appends. |
| `Reload.ReloadTraces` | pyneuroml/runners.py:1123-1164 | The loop over output files gives exactly the specified outcome, stopping at the first error. |
| `Reload.DeclareColumns` | pyneuroml/runners.py:1154-1159 | The column loop empties exactly the declared quantities' traces and lists "t" then the quantities, as specified. |
| `Reload.ReadLines` | pyneuroml/runners.py:1160-1164 | The loop over a file's lines gives exactly the specified outcome, stopping at the first line that fails. |
| `Reload.ReadLine` | pyneuroml/runners.py:1162-1164 | The loop over one line's tokens gives exactly the specified outcome, stopping at the first token that fails. |
| `Reload.AppendTokensAccepts` | pyneuroml/runners.py:1162-1164 | A line is accepted exactly when each of its tokens has a column and is a number. |
| `Reload.AppendTokensColumns` | pyneuroml/runners.py:1162-1164 | For a line that fits, token `i` is appended to column `i`. No key and no other trace changes. |
| `Reload.AppendLinesAccepts` | pyneuroml/runners.py:1160-1164 | A file body is accepted exactly when every line fits. |
| `Reload.AppendLinesColumns` | pyneuroml/runners.py:1160-1164 | When every line fits, each column gains its own tokens in line order. No key and no other trace changes. |
| `Reload.OutputFileColumns` | pyneuroml/runners.py:1123-1164 | A found, fresh output file with distinct columns loads exactly when every line fits. Column `c` then holds token `c` of every line, and other traces are unchanged. |
| `Reload.ResetStartsColumnsEmpty` | pyneuroml/runners.py:1124-1158 | Before any line is read, every column exists and is empty, and other traces are unchanged. |
| `Reload.MissingFileStops` | pyneuroml/runners.py:1139-1140 | A missing output file anywhere in the list makes the whole reload fail. |
| `Reload.ReadEventFile` | pyneuroml/runners.py:1062-1104 | The selection and line loops give exactly the specified outcome for one event file. |
| `Reload.ReloadEvents` | pyneuroml/runners.py:1062-1104 | The loop over event files gives exactly the specified outcome, stopping at the first error. |
| `Reload.EventLineMeaning` | pyneuroml/runners.py:1092-1101 | In a known format, one line is accepted exactly when it has an integer id of a declared selection and a numeric time. Its time is then appended to that selection's list, and nothing else changes. |
| `Reload.EventLinesAccepts` | pyneuroml/runners.py:1092-1101 | In a known format, the lines are accepted exactly when each one fits. |
| `Reload.EventLinesTimes` | pyneuroml/runners.py:1092-1101 | When every line fits, each selection gains the times of its own lines, in file order, and no selection is added or removed. |
| `Reload.DeclareSelectionsMeaning` | pyneuroml/runners.py:1085-1090 | The selections are declared exactly when every id is an integer. Each named selection is then an empty event list, and the id map is updated. |
| `Reload.EventFileSelections` | pyneuroml/runners.py:1085-1101 | After a successful load, every selection of the file is an event list. |
| `Reload.BlankEventLine` | pyneuroml/runners.py:1092-1097 | A blank line in the events file raises an IndexError. |
| `Reload.GridShape` | pyneuroml/runners.py:1115-1116 | The plot grid has `min(3, n)` columns and at least one row. For at least one file it has room for every file, with no spare row. For up to three files it is one row of that many. |
| `Reload.ReloadSavedData` | pyneuroml/runners.py:1062-1227 | Events are read first, and only when asked, then the traces. The pair is returned exactly when events were asked for. |
| `Variables.LastIndexIsLastMatch` | pyneuroml/tune/NeuroMLController.py:246-249 | The search finds nothing exactly when nothing matches. Otherwise the index found matches and no later element does. |
| `Variables.FirstIndexIsFirstMatch` | pyneuroml/tune/NeuroMLController.py:232-234 | The first-match lookup finds nothing exactly when nothing matches. Otherwise it returns a match with no earlier one. |
| `Variables.LastIndexSameMatches` | pyneuroml/tune/NeuroMLController.py:246-249 | A lookup depends only on which elements match. |
| `Variables.FirstIndexSameMatches` | pyneuroml/tune/NeuroMLController.py:232-234 | The same holds for the first-match lookup. |
| `Variables.FindLast` | pyneuroml/tune/NeuroMLController.py:246-249 | The `for c in xs: if p(c): found = c` loop returns the last match. |
| `Variables.ParsePiece` | pyneuroml/tune/NeuroMLController.py:216-224 | A parsed piece's words contain no "/", and its type, id and variable contain no ":". |
| `Variables.ParseFormatPiece` | pyneuroml/tune/NeuroMLController.py:216-224 | Writing a piece as `type:id1/variable[:id2]/units` and parsing it back gives the same piece. |
| `Variables.ShortKeyFails` | pyneuroml/tune/NeuroMLController.py:216-224 | A piece with fewer than three "/"-words is an error. |
| `Variables.SetCombined` | pyneuroml/tune/NeuroMLController.py:251-260 | Writing element `j` of the joined densities list changes that element only, and no other list of the cell. |
| `Variables.CellLookup` | pyneuroml/tune/NeuroMLController.py:251-331 | The element a cell variable finds lies within the list that variable searches. |
| `Variables.SetAttribute` | pyneuroml/tune/NeuroMLController.py:338-344 | Setting "id" changes the id. Any other name sets that attribute only. |
| `Variables.SetKeepsLookup` | pyneuroml/tune/NeuroMLController.py:251-331 | Writing a field changes no id, ion or segment group, so the same lookup finds the same element again. |
| `Variables.CellPutGet` | pyneuroml/tune/NeuroMLController.py:251-331 | After a successful cell update, the designated field holds the new text. |
| `Variables.CellUpdateFailsOnlyWhenNotFound` | pyneuroml/tune/NeuroMLController.py:251-331 | A cell update fails exactly when its lookup finds nothing, and then with an AttributeError. |
| `Variables.UpdateCellKeepsShape` | pyneuroml/tune/NeuroMLController.py:251-331 | A cell update keeps every id, ion, segment group and list length. |
| `Variables.CellPutPut` | pyneuroml/tune/NeuroMLController.py:251-331 | Writing the same field twice leaves the second value, as if only the second write happened. |
| `Variables.SetTwice` | pyneuroml/tune/NeuroMLController.py:251-331 | Setting one field of a given list element twice is setting it to the second text. |
| `Variables.SetKeepsShape` | pyneuroml/tune/NeuroMLController.py:251-331 | Setting one field keeps every id, ion, segment group and list length of the cell. |
| `Variables.PiecePutGet` | pyneuroml/tune/NeuroMLController.py:232-349 | At document level, a successful writing piece leaves its text in the field it designates. |
| `Variables.NonWritingPieceKeepsDocument` | pyneuroml/tune/NeuroMLController.py:232-349 | A piece of unknown type, or a channel piece for a variable other than vShift, leaves the document as it was. |
| `Variables.UnknownCellVariableExits` | pyneuroml/tune/NeuroMLController.py:332-337 | An unknown cell variable exits before the cell is looked at. |
| `Variables.Quantity` | pyneuroml/tune/NeuroMLController.py:238 | The written text is the value, one space, and the units. |
| `Variables.JoinedKeyAppliesEachPiece` | pyneuroml/tune/NeuroMLController.py:211-216 | A key made of `+`-joined pieces applies each piece in order, with the same value. |
| `Variables.SecondValueWins` | pyneuroml/tune/NeuroMLController.py:251-331 | Applying a cell piece with two values in turn ends as if only the second were applied. |
| `Variables.ChangeValue` | pyneuroml/tune/NeuroMLController.py:232-349 | The branch chain for one piece computes the specified update, including its SystemExit and AttributeError cases. |
| `Variables.ChangeCell` | pyneuroml/tune/NeuroMLController.py:245-337 | The cell branch computes the specified update. |
| `Variables.ApplyVariables` | pyneuroml/tune/NeuroMLController.py:211-349 | The loop over keys computes the specified document, stopping at the first error with the changes made so far. |
| `Variables.ApplyKey` | pyneuroml/tune/NeuroMLController.py:221-349 | The loop over one key's `+`-separated pieces computes the specified document, stopping at the first error with the changes made so far. |
| `Variables.Basename` | pyneuroml/tune/NeuroMLController.py:351 | The basename holds no "/" and ends the path. |
| `Variables.NewNeuromlFile` | pyneuroml/tune/NeuroMLController.py:351 | The new file is inside the generate directory and ends with the file's basename. |
| `Variables.NewFileKeepsName` | pyneuroml/tune/NeuroMLController.py:351 | A file `dir/name` or `name` is written as `generate_dir/name`. |
| `Variables.BasenameOfPlainName` | pyneuroml/tune/NeuroMLController.py:351 | A name without "/" is its own basename. |
| `Variables.BasenameAfterSlash` | pyneuroml/tune/NeuroMLController.py:351 | The basename of `dir/name` is `name`. |
| `Tune.NormaliseDir` | pyneuroml/tune/NeuroMLController.py:45-47 | The directory ends with "/", and one is added only when it was missing. |
| `Tune.NormaliseDirIdempotent` | pyneuroml/tune/NeuroMLController.py:45-47 | Normalising twice is normalising once. |
| `Tune.Zip` | pyneuroml/tune/NeuroMLController.py:92 | `zip` pairs the names and values position by position, up to the shorter length. |
| `Tune.DictOfDistinct` | pyneuroml/tune/NeuroMLController.py:92 | With distinct parameter names, the dictionary is the zipped pairs themselves, in order. |
| `Tune.DictOfHasDistinctKeys` | pyneuroml/tune/NeuroMLController.py:92 | The dictionary never holds a key twice. |
| `Tune.SequentialTraceCount` | pyneuroml/tune/NeuroMLController.py:87-99 | A sequential run keeps the traces it started with. It adds one trace per candidate when it finishes, and fewer when a candidate fails. |
| `Tune.ParallelTraces` | pyneuroml/tune/NeuroMLController.py:100-160 | When the parallel run succeeds, trace `k` comes from candidate `k` applied to the controller's unchanged document in `CANDIDATE_k`. |
| `Tune.ParallelFailsOnFailedJob` | pyneuroml/tune/NeuroMLController.py:148-156 | The parallel run fails exactly when one of its jobs fails. |
| `Tune.CollectResults` | pyneuroml/tune/NeuroMLController.py:148-155 | The collecting loop gives exactly the specified outcome, ending at the first failed job. |
| `Tune.CollectTraces` | pyneuroml/tune/NeuroMLController.py:148-155 | A collection that succeeds holds one value per job, each job's own value, in submission order. |
| `Tune.CollectFails` | pyneuroml/tune/NeuroMLController.py:148-155 | A collection fails exactly when one of its jobs fails. |
| `Tune.Controller.constructor` | pyneuroml/tune/NeuroMLController.py:26-73 | Every setting is stored, the directory is normalised, `still_included` lists the document's includes, and the counter starts at 0. |
| `Tune.NewController` | pyneuroml/tune/NeuroMLController.py:26-73 | Construction fails exactly when the parallelism is not a whole number of at least 1. Otherwise it yields a fresh, valid controller at count 0 that holds the given document, the normalised directory and every other setting as given. |
| `Tune.Controller.RunIndividual` | pyneuroml/tune/NeuroMLController.py:171-185 | The controller's document becomes the updated one, even on error. The simulation runs on it, written to `generate_dir/basename`. No other field changes. |
| `Tune.Controller.Run` | pyneuroml/tune/NeuroMLController.py:75-169 | With parallelism 1, candidates run in order on the shared document, which keeps their changes. Otherwise each job starts from the same document. The counter rises per candidate started, and an empty candidate list ends in a division by zero. Only the document and the counter can change. |
| `Tune.Controller.RunSequential` | pyneuroml/tune/NeuroMLController.py:87-99 | The sequential loop computes the specified traces, document and counter. No other field changes. |
| `Tune.Controller.RunParallel` | pyneuroml/tune/NeuroMLController.py:100-160 | The submit and collect loops give the specified traces. Only the counter changes, rising by the number of candidates. |
| `Tune.Controller.ParallelPathHasWorkers` | pyneuroml/tune/NeuroMLController.py:51-58 | A valid controller whose parallelism is not 1 has a whole number of at least two workers for the parallel path. |
| `Morphology.PlaneName` | pyneuroml/plot/PlotMorphology.py:220-240 | A plane's name is the horizontal axis's letter, then the vertical's. |
| `Morphology.ParsePlaneAccepts` | pyneuroml/plot/PlotMorphology.py:220-240 | Exactly the six names xy, yx, xz, zx, yz and zy are accepted. The first letter names the horizontal axis and the second the vertical one. |
| `Morphology.ParsePlaneName` | pyneuroml/plot/PlotMorphology.py:220-240 | Every plane of two different axes parses back from its name. |
| `Morphology.PlaneNameOfParse` | pyneuroml/plot/PlotMorphology.py:220-240 | An accepted name is the name of the plane it parses to. |
| `Morphology.Width2D` | pyneuroml/plot/PlotMorphology.py:292-295 | The width is the mean diameter, raised to `min_width` when smaller. |
| `Morphology.WebWidth` | pyneuroml/plot/PlotMorphology.py:797-799 | The web width is the larger diameter, raised to `min_width` when smaller. |
| `Morphology.Width2DAtMostWebWidth` | pyneuroml/plot/PlotMorphology.py:292-295 | The 2D width never exceeds the web plot's width for the same segment. |
| `Morphology.PointColour` | pyneuroml/plot/PlotMorphology.py:268-270 | A point cell takes the population's colour, else blue. |
| `Morphology.PointRadius` | pyneuroml/plot/PlotMorphology.py:267 | A point cell takes the population's radius, else 10. |
| `Morphology.SegmentColourRules` | pyneuroml/plot/PlotMorphology.py:297-302 | A population colour always wins. Otherwise an axon segment is red, even when it is also in the soma group, a soma segment is green, and any other is blue. |
| `Morphology.SurfaceChoice` | pyneuroml/plot/PlotMorphology.py:552-563 | A segment is drawn as a sphere exactly when it is spherical. Otherwise it is a 2-point cylinder exactly when the diameters agree, and a 3-point frustum exactly when they differ. |
| `Morphology.Widen` | pyneuroml/plot/PlotMorphology.py:392-395 | The min/max update always yields a range. |
| `Morphology.LineFor` | pyneuroml/plot/PlotMorphology.py:384-386 | A line is round exactly when both coordinates change by less than 0.01. Only then is its second point moved, by width/1000 in x and in y. |
| `Morphology.AddLine` | pyneuroml/plot/PlotMorphology.py:382-396 | The arrays are nudged in place as specified, and the extent is widened by both new x coordinates. |
| `Morphology.AddLineBounds` | pyneuroml/plot/PlotMorphology.py:392-396 | The new minimum is at most the old minimum and both x end points. The new maximum is at least the old maximum and both x end points. |
| `Morphology.WidenBounds` | pyneuroml/plot/PlotMorphology.py:392-395 | Widening covers the new coordinate, keeps the old range, and moves a bound only to that coordinate. |
| `Morphology.SegmentLines` | pyneuroml/plot/PlotMorphology.py:289-326 | A cell draws one line per segment. |
| `Morphology.ExtentFromAppend` | pyneuroml/plot/PlotMorphology.py:242-326 | Threading the extent through two runs of lines equals threading it through both at once. |
| `Morphology.ExtentCoversLines` | pyneuroml/plot/PlotMorphology.py:242-326 | The extent is empty exactly when nothing was drawn. Otherwise it is the smallest range holding every drawn line's x end points, each bound being one of them. |
| `Morphology.PointCellIsDot` | pyneuroml/plot/PlotMorphology.py:265-285 | A point cell is drawn as a dot: its line is degenerate and nudged by radius/1000. |
| `Morphology.ScalebarValue` | pyneuroml/plot/PlotMorphology.py:332-336 | The scalebar is 1, 5 or 50 µm. |
| `Morphology.ScalebarGrows` | pyneuroml/plot/PlotMorphology.py:332-336 | The scalebar is 1 exactly below a width of 10 (or with nothing drawn), and 50 exactly from a width of 100. Drawing more never shortens it. |
| `Morphology.Scalebars` | pyneuroml/plot/PlotMorphology.py:330-339 | One scalebar is chosen per population. |
| `Morphology.DrawDot` | pyneuroml/plot/PlotMorphology.py:265-285 | A point cell is one `add_line` call at its position. |
| `Morphology.DrawSegment` | pyneuroml/plot/PlotMorphology.py:289-326 | A segment is one `add_line` call with its width, colour, and end points offset by the cell position. |
| `Morphology.DrawCell` | pyneuroml/plot/PlotMorphology.py:265-326 | A cell's lines are drawn in segment order, threading the extent. |
| `Morphology.DrawPopulation` | pyneuroml/plot/PlotMorphology.py:249-326 | A population's cells are drawn in position order. |
| `Morphology.Plot2D` | pyneuroml/plot/PlotMorphology.py:220-339 | An unknown plane ends the plot before anything is drawn. Otherwise every line is drawn in order, the final extent is that of all the lines, and a scalebar follows each population. |
| `Morphology.Around` | pyneuroml/plot/PlotMorphology.py:351-369 | `m ± half` spans `2·half` and is centred on `m`. |
| `Morphology.SmallLimits` | pyneuroml/plot/PlotMorphology.py:347-358 | A lone point gets ±100 on both axes. One tiny axis gets a fifth of the other's span, centred on its own middle. Otherwise the autoscaled limits stay. |
| `Morphology.AsWrittenPointIsNotSquare` | pyneuroml/plot/PlotMorphology.py:347-369 | The square rule as written leaves a lone point whose autoscaled ranges differ with one axis 200 wide and the other 0.05. |
| `Morphology.Square` | pyneuroml/plot/PlotMorphology.py:360-369 | The shorter axis is widened to the longer one's span about its own middle, so both spans are equal. |
| `Morphology.PlotLimits` | pyneuroml/plot/PlotMorphology.py:347-369 | With `square`, the final limits have equal spans. |
| `Morphology.PlotLimitsAgreeUnlessBothTiny` | pyneuroml/plot/PlotMorphology.py:347-369 | The corrected rule agrees with the code as written whenever at least one autoscaled range is not tiny. |
| `Base.Split` | pyneuroml/tune/NeuroMLController.py:213-218 | `str.split(sep)` always gives at least one piece. |
| `Base.SplitJoin` | pyneuroml/runners.py:679-681 | Joining pieces that hold no separator and splitting again gives the pieces back. |
| `Base.JoinSplit` | pyneuroml/tune/NeuroMLController.py:213 | Splitting and joining again gives the string back. |
| `Base.ParseNatText` | pyneuroml/runners.py:449 | A natural number's decimal text reads back as that number. |
| `Base.ParseIntText` | pyneuroml/runners.py:449 | The `%i` text of an integer reads back as that integer. |

## Left out

- Process execution is left out: `execute_command_in_dir`, the Java command line beyond its flag, `sys.exit` itself (it is an outcome value), and `run_lems_with_*`'s call into the engine.
- File-system work is left out: the search order over candidate directories, `os.path.isfile`, `mkdir`, `shutil.copy`, removing `.dat` files, and reading the LEMS XML (its output-file and event-file records are inputs).
- `reload_saved_data` staleness: the comparison of the file's modification time with `t_run` is a boolean on each file record.
- libNeuroML and the NeuroML reader are left out. The document is reduced to the lists the interpreter reads.
- `get_by_id` is modelled as the first ion channel with that id. The library searches every element of the document.
- A cell without `biophysical_properties` is not modelled. Every cell carries its lists.
- `Reload.ReadOutputFile`, `Reload.ReadEventFile`: Python's `float()` is modelled on tokens that are already classified as integer, decimal or other text. Floating-point rounding and the text formats Python accepts are not modelled.
- `Variables.Quantity`: `str(value)` of a float is the value's text as given. Float formatting is not modelled.
- Dictionary order of `traces` and `events` is not modelled. They are maps.
- The tuning loop is modelled on `sim_var` as an ordered list of pairs, which is the insertion order Python keeps.
- Parallel jobs run one after another in the model, on a copy of the document each. The `pp` job server, its processes and how it reports a job's exception are not modelled: a failing job's error reaches `run`.
- `Tune.Controller.Run`: timing, logging and the per-run timing message are left out. Only the division by zero on an empty candidate list is kept.
- `Tune.Controller.RunIndividual`: writing the document, copying the still-included files, and `NeuroMLSimulation` are one call to `simulate`.
- `Dispatch.RunLemsWith`: when no runner matches, the source returns `False`; the model returns none.
- `Dispatch.RunLemsWith`: the engine name "with" would make `run_lems_with` select itself and recurse. The model treats every member as a value it returns.
- `Dispatch.ScriptsGuard` covers only the checks before any job is submitted. The copy of the files that precede a refused one, the temporary directory and `get_model_file_list` are left out.
- `Dispatch.PathParts`: a path starting with exactly two slashes keeps a `//` root in Python. The model gives it the root `/`.
- The runners of `run_lems_with_*` apart from their `post_args` are not modelled: the keyword handling, the `skip_run` branch and the module-level argument checks.
- The drawing calls (matplotlib, plotly, `ScaleBar`, `plt.autoscale`) are left out. The autoscaled limits are inputs to the limit rules, and a drawn line is a `Line` value.
- `get_actual_proximal`: a segment's proximal point is given already resolved.
- Python floats are modelled as exact reals. The comparisons `< 0.01` and `< 0.1` and the divisions by 1000, 2 and 10 are exact in the model.
- Verbose printing and logging are left out everywhere.

## Findings

| source | as written | input that shows it | evidently intended | confidence | as-written member | corrected member |
|---|---|---|---|---|---|---|
| pyneuroml/plot/PlotMorphology.py:360-369 | The square rule reads the autoscaled limits `xl`, `yl`, even after the tiny-range rule has replaced them with ±100. | Autoscaled x range (0, 0.05), y range (0, 0.01), `square=True`: x ends at (-100, 100) and y at (-0.02, 0.03). | Both axes equally long whenever `square` is set. | medium, not executed | `Morphology.AsWrittenPointIsNotSquare` | `Morphology.PlotLimits` |
