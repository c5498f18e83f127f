# DSC translator core in Dafny

This project models the parts of DSC (Dynamic Statistical Comparisons) that
turn a preprocessed benchmark into SoS pipeline text. It covers:

- the step de-duplication of `DSC_Translator.__init__`. Each step occurrence
  gets the identity key `(name, flow, depend)`. The first occurrence of a key
  is canonical, and `step_map` sends every later occurrence to it. Each step
  name's job script is produced once, and each key gets one configuration
  entry;
- the execution pass that fills `job_pool` and `last_steps`, and the
  `filter_execution` pass that keeps only the canonical entries;
- the library cache of `install_libs`. It collects stale `.lib-info` files,
  installs only the libraries not yet recorded, and records the installs that
  succeeded;
- the checks of `Step_Translator` and how it derives parameters, loops and
  input options;
- the plugin code emitters of `dsc/plugin.py` and the `Plugin` factory;
- `lower_keys` and the `RuntimeEnvironments` setters and lock-file list of
  `src/dsc/utils.py`.

The files are:

- `common.dfy` (module `Common`): `Option`, `Result` and the Python
  exceptions. It also has models of the Python list and string helpers the
  source uses: `uniq_list`, `index`, `remove`, `join`, `split`, `strip`,
  `upper`, `lower`, `repr` and `int`. `split()` and `strip()` use Python's
  white space; `upper` and `lower` change ASCII letters only, and `repr`
  escapes the Latin-1 non-printable characters and the white space (see
  "Left out").
- `utils.dfy` (module `Utils`)
- `plugin.dfy` (module `Plugin`)
- `step_translator.dfy` (module `StepTranslation`)
- `translator.dfy` (module `Translator`): the bookkeeping of
  `DSC_Translator`, as functions with their invariants.
- `libs.dfy` (module `LibCache`): `install_libs` as a function over a file
  store, with its properties.
- `dsc_translator.dfy` (module `DscTranslation`): the class `DscTranslator`.
  Its constructor runs the loops of `__init__` step by step. Each loop is
  proved to compute the functions of `Translator` and `LibCache`.

The parts that are external are opaque constants or parameters:

| part | how it is modelled |
|---|---|
| `n2a` | the constant `N2a` |
| `inspect.getsource(n2a)` | `N2aSource` |
| `fileMD5` | `FileMD5` |
| `xxh32` | an uninterpreted function behind `HexDigest` |
| the library installers `install_r_lib` and `install_py_module` | an `installer` oracle |
| the file system | a map from path to content, handed in and returned |
| the current directory | a parameter |
| the script files that can be opened | a set `scripts` |

A DSC workflow is an ordered dictionary of steps, modelled as a sequence
`seq<Step>`. Its `keys()` are the step names in order.

The dependency part of the identity key is the `'_'`-join of `uniq_list` of
the dependency names, in first-occurrence order, not sorted
(src/dsc_translator.py:45); `Translator.Depend` does the same.

## Model

| member | source | states |
|---|---|---|
| Common.UniqList | src/dsc_translator.py:45 | the result holds exactly the input's elements, each once, and is no longer than the input |
| Common.UniqListOrder | src/dsc_translator.py:45 | the elements of `uniq_list` come in the order of their first occurrences in the input |
| Common.UniqListIsSubseq | src/dsc_translator.py:168 | `uniq_list` keeps the input order (the result is a subsequence) |
| Common.IndexOf | src/dsc_translator.py:44 | `keys.index(x)` is the position of the first occurrence of `x` |
| Common.RemoveFirst | src/dsc/utils.py:39-40 | `list.remove` drops exactly the first occurrence and leaves a list without `x` unchanged |
| Common.RemoveFirstKeeps | src/dsc/utils.py:39-40 | removing `x` keeps every other element |
| Common.RemoveFirstLess | dsc/plugin.py:110 | `list.remove(x)` takes away exactly one occurrence of `x`, and none when there is none |
| Common.Split | dsc/plugin.py:135 | `s.split(c)` gives at least one piece, and no piece holds `c` (also line 115) |
| Common.JoinSplit | dsc/plugin.py:135 | joining the pieces of `s.split(c)` with `c` gives back `s` |
| Common.Words | src/dsc_translator.py:340 | `cmd.split()` gives non-empty words without white space; there are none iff the string is all white space; joined together they are exactly its non-space characters, in order (also line 355) |
| Common.StripLeft | src/dsc_translator.py:173 | the result is a suffix of the string, starts with no white space, and what was dropped is all white space |
| Common.StripRight | src/dsc_translator.py:173 | the result is a prefix of the string, ends with no white space, and what was dropped is all white space |
| Common.Strip | src/dsc_translator.py:173 | the result starts and ends with no white space (also dsc/plugin.py lines 132, 135) |
| Common.StripSlice | src/dsc_translator.py:173 | `strip()` returns one contiguous slice of the string, and everything before and after that slice is white space |
| Common.Upper | dsc/plugin.py:42 | one character per character of the input, each its upper-case form (also lines 233-235) |
| Common.Lower | src/dsc/utils.py:278 | one character per character of the input, each its lower-case form |
| Common.UpperIgnoresCase | dsc/plugin.py:233-235 | upper-casing after lower- or upper-casing is upper-casing |
| Common.LowerIdempotent | src/dsc/utils.py:278 | lower-casing twice is lower-casing once |
| Common.Repr | dsc/plugin.py:67 | the text is quoted with the same `'` or `"` at both ends and is at least two characters longer than the string |
| Common.ReprOfPlain | dsc/plugin.py:204 | a string of printable ASCII characters other than backslash and `'` is rendered as itself between single quotes |
| Utils.LowerKeys | src/dsc/utils.py:274-280 | a list maps element-wise to the same length; a dict's keys are the de-duplicated lower-cased keys in first-occurrence order, and its mapping is that of the lower-cased, recursively transformed pairs stored in order; any other value is returned unchanged |
| Utils.DictFromPairs | src/dsc/utils.py:278 | `dict(pairs)` has the de-duplicated keys in first-occurrence order and maps each key to its last value |
| Utils.LowerKeysDictKeys | src/dsc/utils.py:277-278 | the keys of a lowered dict are distinct, are exactly the lower-case forms of the input keys, and are themselves lower case |
| Utils.LowerKeysIdempotent | src/dsc/utils.py:274-280 | lower-casing keys twice gives the same value as once |
| Utils.PyInt | src/dsc/utils.py:65 | `int(v)` keeps an int and fails on `None`, lists and dicts |
| Utils.PyIntOfString | src/dsc/utils.py:63-67 | a decimal width string reads back as its number |
| Utils.InsertStores | src/dsc/utils.py:278 | storing `k: v` in an ordered dictionary puts the pair in it, at the key's old position when the key was there |
| Utils.RuntimeEnvironments.constructor | src/dsc/utils.py:20-31 | the initial search path is the current directory; the verbosities are 1 and 0; there are no lock files and no terminal width |
| Utils.RuntimeEnvironments.SetTermWidth | src/dsc/utils.py:63-67 | the width becomes `int(v)`, or nothing when the conversion fails; everything else is unchanged |
| Utils.RuntimeEnvironments.SetLogfileVerbosity | src/dsc/utils.py:73-75 | only `'0'`, `'1'` and `'2'` are taken; any other value leaves the setting unchanged; the `Valid` invariant is kept |
| Utils.RuntimeEnvironments.SetVerbosity | src/dsc/utils.py:82-84 | only `'0'` to `'3'` is taken; any other value leaves the setting unchanged; the `Valid` invariant is kept |
| Utils.RuntimeEnvironments.SetSearchPath | src/dsc/utils.py:140-142 | `None` and `'None'` are ignored; any other value is stored |
| Utils.RuntimeEnvironments.SetUserStash | src/dsc/utils.py:147-149 | `None` and `'None'` are ignored; any other value is stored |
| Utils.RuntimeEnvironments.Lock | src/dsc/utils.py:33-36 | the file is written with the content, and its name is appended to the lock list |
| Utils.RuntimeEnvironments.Unlock | src/dsc/utils.py:38-45 | the first entry of the name leaves the lock list; a missing file passes untouched; a file with other content raises `RuntimeError` and stays; a file with this content is removed |
| Utils.RuntimeEnvironments.UnlockAll | src/dsc/utils.py:52-59 | exactly the listed files are removed from the store, and the lock list becomes empty |
| Utils.RuntimeEnvironments.LockUnlock | src/dsc/utils.py:33-45 | `lock` then `unlock` with the same content, for a file not locked yet: the outcome is a pass, the lock list is as before, the file is gone and the rest of the files and settings are unchanged |
| Utils.LockThenUnlock | src/dsc/utils.py:33-45 | the updates that the contracts of `Lock` and `Unlock` state (the lock list gains the file, then loses its first occurrence; the file is written, then removed) undo each other for a file that was not locked: the lock list is restored, and the files are the original ones without that file |
| Plugin.RenderAtom | dsc/plugin.py:67 | a string is rendered by `repr`, an integer as decimal text that reads back as the integer, and booleans and `None` as Python spells them |
| Plugin.RenderAtoms | dsc/plugin.py:67 | each element rendered by `repr` for strings and `str` otherwise, one per element |
| Plugin.PluginKind | dsc/plugin.py:230-238 | `None` gives the base plugin named `None`; `R` and `PY` in any case give the R and Python plugins; anything else gives the base plugin named `''` |
| Plugin.PluginKindIgnoresCase | dsc/plugin.py:233-235 | the dispatch does not depend on the key's letter case |
| Plugin.MakePlugin | dsc/plugin.py:230-238 | a fresh plugin of the kind and name `PluginKind` picks, with identifier `DSC_` and the upper-cased argument, and empty lists |
| Plugin.Without | dsc/plugin.py:136 | `[x for x in keys if x != 'seed']` removes every `seed` and keeps the rest in order, each element as often as in the input |
| Plugin.NotIn | dsc/plugin.py:107 | keeps in order exactly the elements not in the container variables, each as often as in the input, and drops the others entirely |
| Plugin.SplitKeys | dsc/plugin.py:135 | one stripped key per comma-separated field |
| Plugin.Plug.Base | dsc/plugin.py:40-49 | the identifier is `DSC_` and the upper-cased argument, and all four lists are empty |
| Plugin.Plug.R | dsc/plugin.py:69-71 | an R plugin named `R`, identifier as in `BasePlug`, empty lists |
| Plugin.Plug.Py | dsc/plugin.py:146-148 | a Python plugin named `python`, identifier as in `BasePlug`, empty lists |
| Plugin.Plug.Reset | dsc/plugin.py:45-49 | all four lists become empty |
| Plugin.Plug.AliasRhs | dsc/plugin.py:73-76 | an rhs starting with `$`, other than `${_output!r}`, is prefixed by the identifier (R) or becomes `identifier[repr(rhs[1:])]` (Python); any other rhs is kept verbatim (also lines 150-153) |
| Plugin.Plug.AddInput | dsc/plugin.py:73-76 | the base plugin changes nothing; the others append exactly one alias line `lhs <- rhs` / `lhs = rhs` with the rewritten rhs; the other lists are unchanged (also lines 51-52, 150-153) |
| Plugin.Plug.AddReturn | dsc/plugin.py:78-79 | the base plugin changes nothing; the others append exactly one return alias line (also lines 54-55, 155-156) |
| Plugin.Plug.ContainerKeys | dsc/plugin.py:135-136 | the keys are the comma fields of `value` in order, or the parameter names when `value` is empty, each as often as there, with every `seed` removed (also lines 218-219) |
| Plugin.Plug.ContainerLines | dsc/plugin.py:137-139 | one declaration line, then one entry line per key in order (also lines 220-222) |
| Plugin.Plug.ContainerBlock | dsc/plugin.py:137-139 | the loop builds exactly `ContainerLines` (also lines 220-222) |
| Plugin.Plug.SetContainer | dsc/plugin.py:134-141 | the base plugin changes nothing; the others grow `container` by `1 + len(keys)` lines and `container_vars` by exactly those keys (also lines 60-61, 217-224) |
| Plugin.Plug.FormatTuple | dsc/plugin.py:66-67 | space-joined for the base plugin, `c(...)` for R and `(...)` for Python, each over the rendered elements (also lines 143-144, 226-227) |
| Plugin.Plug.SaveCall | dsc/plugin.py:130-131 | the save call is non-empty, starts with no blank and ends with `)` (also lines 212-213) |
| Plugin.Plug.GetReturn | dsc/plugin.py:210-215 | the base plugin returns `''`; the others return the return-alias lines joined by newlines and followed by a newline, with leading white space removed, and then the save call of the output variables (also lines 57-58, 128-132) |
| Plugin.Plug.LibText | dsc/plugin.py:159-164 | the loop builds exactly the library prelude (also lines 82-85) |
| Plugin.Plug.LoadInputs | dsc/plugin.py:92-104 | no loading when `input_num < 1`; otherwise the multi-file load iff `input_num > 1` and the single-file load iff `input_num == 1`, followed, iff `index > 0`, by the previous-output load (also lines 171-183) |
| Plugin.Plug.ParamKeys | dsc/plugin.py:107-110 | the parameter lines are for the parameters that are not container variables, in `params` order and as often as there, less one `seed`; when the parameter names are distinct, `seed` is never among them (also lines 186-189) |
| Plugin.Plug.SetsSeed | dsc/plugin.py:108-110 | the seed line appears iff `seed` is a parameter that is not a container variable (also lines 187-189) |
| Plugin.Plug.Preamble | dsc/plugin.py:81-110 | the input block up to the command arguments: library paths and input loading, the seed line when `SetsSeed` holds, then the container lines; `WritePreamble` is proved to build it |
| Plugin.CmdArg | dsc/plugin.py:113-123 | one command argument fails, always with `ValueError`, iff it names with `$` a parameter not in `params` (or, for R, is not one `lhs=rhs` pair); otherwise the parameter list only shrinks (also lines 196-204) |
| Plugin.CmdArgs | dsc/plugin.py:192-205 | on success, one text per command argument; a failure is a `ValueError` (also lines 112-123) |
| Plugin.Plug.WritePreamble | dsc/plugin.py:158-190 | the loops build exactly the preamble (`Preamble`) and the parameter keys (`ParamKeys`) (also lines 81-110) |
| Plugin.Plug.GetInput | dsc/plugin.py:158-208 | the base plugin returns `''`; otherwise the text is the preamble, then the command-argument text, then the parameter lines; a bad `$` argument raises `ValueError`; the parameter list comes back with the consumed `$` names removed (also lines 63-64, 81-126) |
| Plugin.Plug.RunCmdArgs | dsc/plugin.py:112-123 | the loop over the command arguments computes `CmdArgs` (also lines 196-205) |
| Plugin.Plug.EmitParams | dsc/plugin.py:124-125 | the loop over the keys emits exactly the parameter lines (also lines 206-207) |
| Plugin.CmdArgsRejectBad | dsc/plugin.py:116-118 | any bad `$` argument, at any position, makes `get_input` fail (also lines 197-199) |
| Plugin.CmdArgsLiteral | dsc/plugin.py:203-205 | Python command arguments without `$` become their `repr`s, in order, and leave the parameters unchanged |
| Plugin.StripAfterAliases | dsc/plugin.py:211-215 | stripping the alias lines plus the save call keeps the save call at the end (also lines 129-132) |
| StepTranslation.Reverse | src/dsc_translator.py:250 | `reversed` puts the last element first |
| StepTranslation.ParamNames | src/dsc_translator.py:244 | the parameter names in declaration order |
| StepTranslation.ParamStringAppend | src/dsc_translator.py:245-248 | the parameter text of a concatenation is the concatenation of the texts, one line per parameter in order |
| StepTranslation.ParamStringFirst | src/dsc_translator.py:245-248 | the first parameter's line comes first |
| StepTranslation.LoopParamsSnoc | src/dsc_translator.py:249-250 | the loop over the parameters runs in reverse declaration order |
| StepTranslation.FilterString | src/dsc_translator.py:251-252 | the filter text is empty iff the step has no filter |
| StepTranslation.FirstMissing | src/dsc_translator.py:259-264 | nothing is missing iff every dependency has a step-map entry; otherwise what is reported is a missing one |
| StepTranslation.PrepareInputOf | src/dsc_translator.py:255-271 | the prepare-mode input fails iff there are two or more dependencies and the step lacks a step-map entry, or some dependency lacks one |
| StepTranslation.PrepareInputShape | src/dsc_translator.py:256-271 | no input variable iff no dependencies; no input loop iff no dependencies; with several dependencies the loop is over chunks of that size |
| StepTranslation.RunInputString | src/dsc_translator.py:273-278 | the run-mode input is the bare `input:` iff the step has no dependencies |
| StepTranslation.RunInputOptionParts | src/dsc_translator.py:276-288 | `group_by` appears iff there are dependencies, and then first; `for_each` appears iff there are parameters; `concurrent = True` appears iff there is no host configuration, and then last; nothing else appears |
| StepTranslation.Rejection | src/dsc_translator.py:202-203 | more than one output file raises `ValueError`; otherwise, when the run is not a prepare run, a host configuration with neither a section for the step nor a `default` section raises `KeyError('default')`; with a section (or no host configuration) and a non-empty command the step is accepted iff it is a shell command, or `get_input` accepts its command arguments and its script can be opened; `get_input`'s `ValueError` comes first, and otherwise `IOError` names the script; an empty command raises `IndexError`; in the prepare mode it is accepted iff there is exactly one output file, the input resolves and the step has a step-map entry (also lines 259-264, 290-293, 310-312, 325, 338-358) |
| StepTranslation.LaterRejection | src/dsc_translator.py:225-227 | the checks after `get_input`, in the order the source makes them; `Rejection`, `Compile` and `StepTranslator.Finish` state what follows from them |
| StepTranslation.InputError | src/dsc_translator.py:338-341 | the error of `get_input` on the step's command arguments is always a `ValueError` and needs a non-base plugin and at least one argument after the script |
| StepTranslation.InputErrorOfBadArg | dsc/plugin.py:116-118 | a bad `$` argument at any position after the script makes `get_input` fail for the step (also lines 197-199) |
| StepTranslation.InputErrorOfLiterals | dsc/plugin.py:203-205 | for a Python step, arguments without `$` never make `get_input` fail |
| StepTranslation.LaterRejectionAsWritten | src/dsc_translator.py:338-341 | as written, every locally run, non-shell step whose host check passes raises `TypeError`, because `get_input` gets six arguments; shell steps and the prepare mode are unaffected |
| StepTranslation.AsWrittenRefusesPlainScript | src/dsc_translator.py:338-341 | a Python step running an existing script with no arguments is accepted by the corrected checks and raises `TypeError` as written |
| StepTranslation.NonEmpty | src/dsc_translator.py:374-383 | keeps exactly the non-empty parts, in order, each as often as in the input |
| StepTranslation.DumpOf | src/dsc_translator.py:373-383 | `dump()` joins, with newlines, the non-empty parts among header, stripped parameters, input, output, step option and action; what is dropped is stated by `NonEmpty` |
| StepTranslation.Compile | src/dsc_translator.py:191-227 | the translator fails iff `Rejection` names an error, and with that error; the script signature is empty for a configuration step or a shell command, and otherwise the digest of the script (also lines 364-368) |
| StepTranslation.StepTranslator.Init | src/dsc_translator.py:204-221 | the fields as the constructor sets them, before the `get_*` calls |
| StepTranslation.StepTranslator.GetHeader | src/dsc_translator.py:234-240 | the header for the mode |
| StepTranslation.StepTranslator.GetParameters | src/dsc_translator.py:242-252 | the parameter names, their text, the reversed loop and the filter |
| StepTranslation.StepTranslator.GetPrepareInput | src/dsc_translator.py:255-271 | fails exactly as `PrepareInputOf`, and otherwise stores its input text, variable and loop |
| StepTranslation.StepTranslator.GetRunInput | src/dsc_translator.py:272-288 | the run-mode input line and options |
| StepTranslation.StepTranslator.GetOutput | src/dsc_translator.py:290-308 | in the prepare mode it raises `KeyError` iff the step has no step-map entry; in the run mode the output declaration groups by 1 |
| StepTranslation.StepTranslator.GetStepOption | src/dsc_translator.py:310-312 | on a remote run it raises `KeyError('default')` iff the configuration has neither the step's section nor a default one; otherwise the option is empty unless the run is remote |
| StepTranslation.StepTranslator.GetAction | src/dsc_translator.py:314-371 | the prepare mode fails with `IndexError` iff there is no output file; the run mode fails first with `get_input`'s `ValueError` on a bad command argument of a non-shell step, then with `IndexError` on an empty command and with `IOError` on a script that cannot be opened; the script signature is the script's digest unless the step is a shell command |
| StepTranslation.StepTranslator.Finish | src/dsc_translator.py:225-227 | the last three calls fail iff `LaterRejection` names an error, and otherwise set the output, option, action and signature |
| StepTranslation.StepTranslator.Start | src/dsc_translator.py:222-223 | the constructor up to `get_parameters` |
| StepTranslation.StepTranslator.StartPrepare | src/dsc_translator.py:255-271 | the constructor up to `get_input`, in the prepare mode (also lines 222-224) |
| StepTranslation.StepTranslator.StartRun | src/dsc_translator.py:272-288 | the constructor up to `get_input`, in the run mode (also lines 222-224) |
| StepTranslation.StepTranslator.MakePrepare | src/dsc_translator.py:191-227 | a configuration translator fails with the input error or the later error, and otherwise holds the prepare-mode parts |
| StepTranslation.StepTranslator.MakeRun | src/dsc_translator.py:191-227 | a job translator fails with the later error, and otherwise holds the run-mode parts and signature |
| StepTranslation.StepTranslator.Make | src/dsc_translator.py:191-227 | the constructor raises iff `Compile` does, with the same error; an accepted translator's `dump()` and script signature are those of `Compile` (also lines 373-383) |
| Translator.Names | src/dsc_translator.py:42 | `list(workflow.keys())`: the step names in order |
| Translator.KeyOf | src/dsc_translator.py:44-47 | the identity key `(name, flow, depend)` of a step; `Flow` is stated by `FlowOfFirst` and `FlowOfLater`, and the dependency part is the `_`-join of `uniq_list`, whose order `UniqListOrder` states |
| Translator.FlowOfFirst | src/dsc_translator.py:44 | a step at position 0 has its own name as its flow |
| Translator.FlowOfLater | src/dsc_translator.py:44 | a later step's flow is the names up to and including it, joined by `_`, with outer `_` stripped |
| Translator.JobStep | src/dsc_translator.py:51-55 | a step name already processed adds no job; a new name adds its job text and script signature once; it fails iff the name is new and its job translator raises |
| Translator.ResolveStep | src/dsc_translator.py:47-62 | the pipelines are unchanged; a known key points the step at its earlier pair and changes nothing else |
| Translator.ResolveStepNew | src/dsc_translator.py:47-60 | a new key maps the step to `(name, wid)` in both `step_map` and `processed_steps`; it adds one configuration entry and a job only for a new name; it fails iff a translator it runs raises |
| Translator.ResolveSteps | src/dsc_translator.py:43-62 | the pipeline set is unchanged |
| Translator.ResolveStepInv | src/dsc_translator.py:47-62 | one step keeps the invariant |
| Translator.ResolveStepsInv | src/dsc_translator.py:43-62 | one pipeline keeps the invariant |
| Translator.Resolve | src/dsc_translator.py:40-62 | the first loop of `__init__`, pipeline by pipeline; its invariant is stated by `ResolveAllInv` and `ResolveKeeps` |
| Translator.ResolveAllInv | src/dsc_translator.py:40-62 | the whole loop keeps the invariant |
| Translator.PipelineInv | src/dsc_translator.py:40-62 | opening and resolving the next pipeline keeps the invariant |
| Translator.ResolveKeeps | src/dsc_translator.py:40-62 | the pipelines are `1..n`; one configuration entry exists per distinct key; `step_map` points only at canonical pairs; one job and signature exist per step name |
| Translator.Sqn | src/dsc_translator.py:71 | the pairs of a sequence, in order, or the `KeyError` of the missing pipeline or step |
| Translator.NewPairs | src/dsc_translator.py:72 | exactly the pairs not yet configured, in order |
| Translator.NewPairsNoDup | src/dsc_translator.py:72 | without repeats in the sequence, a pair is configured at most once |
| Translator.ConfTexts | src/dsc_translator.py:72 | the configuration texts of the pairs, in order, or `KeyError` when a pair has none |
| Translator.ConfTextsFirstMissing | src/dsc_translator.py:72 | the `KeyError` names the first pair without a configuration |
| Translator.PoolLinesDepends | src/dsc_translator.py:85-92 | the `depends:` line is emitted iff the position is after the first |
| Translator.PoolFirstMissing | src/dsc_translator.py:86 | the `KeyError` names the first step of the sequence without a script signature |
| Translator.Pool | src/dsc_translator.py:83-96 | fails iff some producer has no script signature; every occurrence gets a `job_pool` key; the keys stay distinct; only the last element of a non-empty sequence goes to `last_steps` |
| Translator.ExecSequence | src/dsc_translator.py:70-96 | the second loop's work for one sequence: the new configuration texts, then the pool entries; stated by `ConfTexts`, `Pool` and `ExecSequenceKeeps` |
| Translator.ExecSequenceKeeps | src/dsc_translator.py:70-96 | one sequence keeps `ConfOnce` and distinct pool keys, adds exactly its occurrences and appends its last pair; it appends to `conf_pairs` the pairs it configures for the first time, and to `conf_str` their header and texts, or nothing when there are none |
| Translator.ExecSequenceConf | src/dsc_translator.py:73-85 | the pairs added to `conf_pairs` are the sequence's not yet configured, in order; `conf_str` grows by the header and `conf_dict` texts of exactly those pairs, and `io_info_files` by the pipeline's file, both only when there are such pairs |
| Translator.ExecSequenceJobs | src/dsc_translator.py:70-96 | one sequence keeps `ConfOnce` and distinct pool keys, adds exactly its occurrences and appends its last pair |
| Translator.Execute | src/dsc_translator.py:69-96 | the second loop over all sequences, numbered from 1; stated by `ExecuteKeeps` |
| Translator.LastPairs | src/dsc_translator.py:93-94 | at most one pair per sequence, the last step of a non-empty sequence with that sequence's number, in increasing sequence order |
| Translator.ExecuteKeeps | src/dsc_translator.py:69-96 | each canonical pair's configuration is appended at most once across all sequences (with `ExecSequenceKeeps`, `conf_str` gains only the texts of the pairs newly added to `conf_pairs`); the pool keys are exactly the occurrences and lie in `step_map`; `last_steps` is the last pair of each non-empty sequence |
| Translator.Included | src/dsc_translator.py:152-156 | keeps exactly the pool keys `x` with `step_map[x[1]][x[0]] == x`, in pool order, or the `KeyError` of the missing entry |
| Translator.KeepIncluded | src/dsc_translator.py:158 | exactly the last steps that were included, in order |
| Translator.FilterExecution | src/dsc_translator.py:150-161 | fails iff some pool key is missing from `step_map`; on success the new `last_steps` is the order-preserving sublist of canonical pool keys, and the job text is the old one, then the texts of the included entries in pool order, then the `[DSC]` section |
| Translator.IncludedText | src/dsc_translator.py:152-156 | with distinct pool keys, the text appended is the pool text of each included key, joined in pool order |
| Translator.TextsOfSnoc | src/dsc_translator.py:155-156 | appending one more included key appends its pool text after a newline |
| Translator.FilterAfterInit | src/dsc_translator.py:40-161 | after `__init__`, the filter cannot fail, it keeps exactly the canonical last pairs of the sequences, and the job text gains exactly the included entries' texts and the `[DSC]` section |
| LibCache.ParseLibType | src/dsc_translator.py:164-165 | only `R_library` and `Python_Module` are accepted; anything else raises the `ValueError` that names it |
| LibCache.CacheFileInGlob | src/dsc_translator.py:170-171 | the cache file matches the glob the loop scans |
| LibCache.CacheFilesDiffer | src/dsc_translator.py:170 | lists with different hashes have different cache files |
| LibCache.UntypedGlobShared | src/dsc_translator.py:171 | as written, both library types scan the same family of files |
| LibCache.TypedGlobsDisjoint | src/dsc_translator.py:170-171 | with one family per type, the families do not meet |
| LibCache.ReadLines | src/dsc_translator.py:173 | no line holds a newline |
| LibCache.Recorded | src/dsc_translator.py:173 | the recorded entries fail with `IndexError` iff some stripped line has no blank |
| LibCache.RecordedLines | src/dsc_translator.py:173 | only lines whose library name is in `libs` are kept |
| LibCache.RecordedKeepsWanted | src/dsc_translator.py:173 | every line whose library name is in `libs` is kept, and the kept lines keep their order in the file |
| LibCache.RecordedKeepsAll | src/dsc_translator.py:173 | when every line names a library in `libs`, all lines are kept |
| LibCache.Calls | src/dsc_translator.py:177-180 | the installer is called for exactly the libraries whose `'<type> <lib>'` entry is not recorded, in order |
| LibCache.InstalledMembers | src/dsc_translator.py:181-186 | the entries added are exactly those of the calls that succeeded |
| LibCache.Collect | src/dsc_translator.py:171-175 | every file of the glob except `fn` is removed, and nothing else changes |
| LibCache.InstallLibsChecks | src/dsc_translator.py:164-167 | a bad type raises `ValueError`, and an empty list changes no file |
| LibCache.InstallLibsCollects | src/dsc_translator.py:168-175 | afterwards the only file of the glob is the one keyed by the de-duplicated list; other files keep their content (also lines 187-188) |
| LibCache.UpdateCollects | src/dsc_translator.py:170-175 | the same for the de-duplicated list itself (also lines 187-188) |
| LibCache.InstallLibs | src/dsc_translator.py:163-188 | `install_libs`; its behaviour is stated by `InstallLibsChecks`, `InstallLibsCollects`, `InstallLibsDelta` and `InstallLibsIdempotent` |
| LibCache.Update | src/dsc_translator.py:168-188 | the part of `install_libs` after the type check, for a de-duplicated list; stated by `UpdateCollects` and `UpdateRerun` |
| LibCache.InstallLibsDelta | src/dsc_translator.py:168-188 | it fails iff the cache file cannot be parsed; it calls the installer once per unrecorded library; it writes the kept records plus the entries of the successful installs |
| LibCache.UpdateRerun | src/dsc_translator.py:168-188 | a second run over the file written, after all installs succeeded, calls no installer |
| LibCache.InstallLibsIdempotent | src/dsc_translator.py:163-188 | after a run whose installs all succeeded, running again with the same libraries makes no installer call and changes no file |
| LibCache.MissingCacheCallsAll | src/dsc_translator.py:176-186 | without a cache file every library is installed |
| LibCache.PythonCallRemovesR | src/dsc_translator.py:170-175 | as written, the Python call removes the R cache file (also lines 123-124) |
| LibCache.SharedGlobReinstalls | src/dsc_translator.py:170-175 | as written, a second local run reinstalls every R library (also lines 120-124) |
| LibCache.TypedCacheKeeps | src/dsc_translator.py:163-188 | with one cache family per type, a second local run after a fully successful first one installs nothing (also lines 120-124) |
| LibCache.LocalLibs | src/dsc_translator.py:120-124 | the two local calls, R libraries first; stated by `TypedCacheKeeps` and, for the shared glob, `SharedGlobReinstalls` |
| LibCache.StripIdempotent | src/dsc_translator.py:173 | stripping twice is stripping once |
| DscTranslation.Basename | src/dsc_translator.py:25 | `os.path.basename`: the longest suffix of the path without `/`, that is the whole path or the part after its last `/` |
| DscTranslation.DscTranslator.Of | src/dsc_translator.py:24-25 | the fields as `__init__` leaves them (also line 105) |
| DscTranslation.DscTranslator.Init | src/dsc_translator.py:22-129 | `__init__` raises the first error of resolution, execution or (locally) library installation; otherwise its fields are those of `Resolve` and `Execute`, and the store is that of `LocalLibs` on a local run |
| DscTranslation.DscTranslator.ResolveAll | src/dsc_translator.py:40-41 | the loop over pipelines computes `Resolve` |
| DscTranslation.DscTranslator.ResolvePipeline | src/dsc_translator.py:42-62 | the loop over one pipeline computes `ResolveSteps` |
| DscTranslation.DscTranslator.ResolveOne | src/dsc_translator.py:43-62 | one step computes `ResolveStep` |
| DscTranslation.DscTranslator.ExecuteAll | src/dsc_translator.py:70-96 | the loop over sequences computes `Execute` |
| DscTranslation.DscTranslator.ExecuteOne | src/dsc_translator.py:71-96 | one sequence computes `ExecSequence` |
| DscTranslation.DscTranslator.FillPool | src/dsc_translator.py:83-96 | the loop over a sequence computes `Pool` |
| DscTranslation.DscTranslator.AppendIncluded | src/dsc_translator.py:152-156 | the loop appends the text of exactly the included entries and returns them |
| DscTranslation.DscTranslator.FilterExecution | src/dsc_translator.py:150-161 | the method raises iff `Translator.FilterExecution` fails; otherwise its job text and last steps are that function's; the other fields are unchanged |
| DscTranslation.DscTranslator.InstallLibs | src/dsc_translator.py:163-188 | the method computes `LibCache.InstallLibs` with one cache family per type |
| DscTranslation.DscTranslator.Sweep | src/dsc_translator.py:171-175 | the glob loop computes the records of `RecordedOf` and, when they parse, the store of `Collect` |
| DscTranslation.DscTranslator.SweepFiles | src/dsc_translator.py:171-175 | the loop over the glob's files reads the records of `fn` and removes every other file of the glob; files outside the glob keep their content |
| DscTranslation.DscTranslator.InstallMissing | src/dsc_translator.py:176-186 | the install loop calls exactly `Calls` and records exactly `Installed` |

## Left out

- `conf_str_py`, `conf_str_sos` and `lib_depends` (src/dsc_translator.py:97-117, 126-129) are left out. They are fixed text templates over values the model already computes. The pieces `conf_str` holds are kept.
- `write_pipeline` (src/dsc_translator.py:131-148) and `clean` (229-232) are left out. They only write or remove files.
- `n2a`, `inspect.getsource(n2a)`, `fileMD5`, `xxh32`, `dict2str` and `convert_null` are opaque. So are the R source and `DSC_LMERGE` templates. These are helper functions whose source is not part of this model.
- Header, output, step-option and action text: only the fields they depend on and the errors they raise are modelled. The texts themselves are opaque.
- In `get_action`, the call to `plugin.get_input` passes six arguments while the plugins take five (see "Findings"). The translator uses the corrected five-argument call: its errors are those of `InputError`, which shares `CmdArgs` with `Plugin.Plug.GetInput`. The action text itself stays opaque.
- `try_catch` and `add_try` (src/dsc_translator.py:360-361) are left out, because no plugin defines `add_try`; the model takes `try_catch` to be false.
- `StepTranslation.Compile`: the source falls back to the command's words as the signature when the script is not a regular file (src/dsc_translator.py:364-368). The model takes every file in `scripts` to be regular. A script that cannot be opened has already raised `IOError` at line 358.
- `StepTranslation.StepTranslator.GetAction`: does not model `executable(cmd)` failing for a shell command, because whether a program is on the path is outside the model.
- Exceptions leave the source's state partly updated. The model returns the error and does not describe the partial state.
- Glob metacharacters in the database name are not modelled. `InGlob` reads `*` as a run of characters without `/`.
- `LibCache.ReadLines`: splits only at `\n` and drops a final empty line. Python's text-mode `readlines` also ends a line at a lone `\r`, so a cache file with `\r` line ends reads as fewer lines in the model. A `\r` before `\n` is stripped away in both.
- The singleton behaviour of `RuntimeEnvironments`, its temporary directory and its logger are left out. They depend on the environment, randomness and logging. A failed `os.remove` only logs a warning, and the model treats a removal as always succeeding.
- `Utils.PyInt`: does not model `int()` of a float, digits separated by `_`, or non-ASCII decimal digits (Python's `int('٣')` is 3), because the value model has no floats and the decimal parser takes the ASCII digits only.
- `StepTranslation.GetInputArityMessage`: gives the `TypeError` text of Python before 3.10; Python 3.10 and later qualify the method name with its class (`RPlug.get_input()`, `PyPlug.get_input()`, `BasePlug.get_input()`), which the model does not.
- A step repeated within one sequence is outside the invariants. `ExecuteKeeps` and `ResolveKeeps` require the step names of each sequence and pipeline to be distinct, as the keys of a workflow dictionary are.
- `DscTranslation.DscTranslator` installs libraries with one cache family per type: the corrected form of the finding below. The as-written form is `LibCache.LocalLibs` with `typed` false.
- `Plugin.CmdArgs`: its own contract states only the length on success. The error cases and the literal case are the lemmas `CmdArgsRejectBad` and `CmdArgsLiteral`.
- The text lines of `job_pool` are opaque apart from which lines appear (`PoolLinesDepends`).
- `Common.Upper`, `Common.Lower`: change ASCII letters only. Python also maps other letters, some to several characters (`'ß'.upper()` is `'SS'`, `'Ä'.lower()` is `'ä'`). The workflow keys and plugin names these are applied to are taken to be ASCII.
- `Common.Repr`: escapes backslash, the quote, `\t`, `\n`, `\r`, the Latin-1 characters `str.isprintable()` rejects (as `\xhh`) and the other white space (as `\uhhhh`). Python also escapes the other non-printable characters beyond Latin-1 (unassigned, format and private-use characters), which are left as they are here.
- `Common.Words`: the contract fixes that the words are non-empty and free of white space, that there are none exactly for an all-white-space string, and that together they are the non-space characters in order; it does not state where one word ends and the next begins, which only the definition fixes.
- `Plugin.RenderAtoms`: the value model has no floats, so a float parameter value (rendered by `str`) is not modelled.
- `Utils.LowerKeys`: dictionary keys are strings only, and lowering is that of `Common.Lower`. A non-string key, on which `k.lower()` raises `AttributeError` (src/dsc/utils.py:278), cannot be expressed.

## Findings

| source | as written | input that shows it | evidently intended | confidence | as-written member | corrected member |
|---|---|---|---|---|---|---|
| src/dsc_translator.py:170-175 | both calls of `install_libs` (lines 123-124) scan the same glob `.sos/.dsc/<db>.*.lib-info`, so the Python call removes the cache file the R call has just written | non-empty R libraries and Python modules whose joined lists have different hashes, run twice on the local host with every install succeeding | each library type keeps its own cache, so a second run installs nothing | medium, not executed | LibCache.SharedGlobReinstalls | LibCache.TypedCacheKeeps |
| src/dsc_translator.py:338-341 | `get_action` calls `plugin.get_input` with six arguments besides `self`, the last one a flag for `var` dependencies; the plugins' `get_input` takes five (dsc/plugin.py:63, 81, 158), so the call raises `TypeError` | a Python step `x` running the existing script `x` with no arguments, not a shell command, on the local host | the five-argument call, which raises only `get_input`'s own `ValueError` on a bad command argument | high, not executed | StepTranslation.AsWrittenRefusesPlainScript | StepTranslation.Rejection |
