/** `DSC_Translator.Step_Translator` of `src/dsc_translator.py`: the
    compiler of one DSC step, either into its configuration code (the
    "prepare" mode, given the step map of its pipeline) or into its job
    script (the run mode). The model covers the checks that reject a step,
    the parameter, loop and input text that decides parameter order and
    input grouping, and `dump`; the header, output, step option and action
    text is opaque. */
module StepTranslation {
  import opened Common
  import Plugin

  /** `(name, pipeline id)`: where a step was first configured. */
  datatype Pair = Pair(name: string, wid: nat)

  /** One parameter of a step: its name and the `repr` of its (null
      converted) value list. */
  datatype Param = Param(key: string, values: string)

  /** A step as the translator sees it. `depends` holds the producer names
      of the step's dependencies in order, `outputFiles` the flattened list
      of its output file declarations, `filter` its parameter filter (empty
      when there is none), `exe` its command line, `plugin` the class of the
      plugin that runs its script. */
  datatype Step = Step(
    name: string,
    depends: seq<string>,
    outputFiles: seq<string>,
    params: seq<Param>,
    filter: string,
    exe: string,
    shellRun: bool,
    plugin: Plugin.PlugKind)

  /** A pipeline's step map: step name to the pair configuring it. */
  type StepMap = map<string, Pair>

  /** The host configuration of a remote run: the names of its sections. */
  type HostConf = Option<set<string>>

  /** `n2a`, the letter code of a pipeline number; not part of this model. */
  const N2a: nat -> string
  /** `fileMD5` of a script; not part of this model. */
  const FileMD5: string -> string
  /** The header, output, step option and action text; not part of this
      model beyond what they depend on. */
  const HeaderText: (Step, bool) -> string
  const PrepareOutputText: (Step, StepMap, string) -> string
  const StepOptionText: (Step, set<string>) -> string
  const ActionText: (Step, Option<StepMap>, HostConf) -> string

  /** The compiled form of a step: the text `dump()` returns and the
      step's script signature. */
  datatype Compiled = Compiled(dump: string, exeSignature: seq<string>)

  // ---------------------------------------------------------------------
  // Parameters and loops

  function Reverse<T>(s: seq<T>): (r: seq<T>)
    ensures |r| == |s| && forall i :: 0 <= i < |s| ==> r[i] == s[|s| - 1 - i]
  {
    seq(|s|, i requires 0 <= i < |s| => s[|s| - 1 - i])
  }

  function ParamNames(step: Step): (r: seq<string>)
    ensures |r| == |step.params| && forall i :: 0 <= i < |r| ==> r[i] == step.params[i].key
  {
    seq(|step.params|, i requires 0 <= i < |step.params| => step.params[i].key)
  }

  /** The distinct producer names, in order of first mention. */
  function CurrentDepends(step: Step): seq<string>
  {
    UniqList(step.depends)
  }

  /** The declaration of one parameter: `parameter: ` in front in the run
      mode. */
  function ParamLine(p: Param, prepare: bool): string
  {
    (if prepare then "" else "parameter: ") + p.key + " = " + p.values + "\n"
  }

  /** The parameter declarations, in declared order. */
  function ParamString(params: seq<Param>, prepare: bool): string
  {
    if |params| == 0 then "" else ParamString(params[..|params| - 1], prepare) + ParamLine(params[|params| - 1], prepare)
  }

  /** The declarations of two runs of parameters follow each other. */
  lemma {:induction false} ParamStringAppend(p: seq<Param>, q: seq<Param>, prepare: bool)
    ensures ParamString(p + q, prepare) == ParamString(p, prepare) + ParamString(q, prepare)
    decreases |q|
  {
    if |q| == 0 {
      assert p + q == p;
    } else {
      var init, last := q[..|q| - 1], q[|q| - 1];
      var pq := p + q;
      assert pq[..|pq| - 1] == p + init && pq[|pq| - 1] == last;
      var a, b, c := ParamString(p, prepare), ParamString(init, prepare), ParamLine(last, prepare);
      assert ParamString(pq, prepare) == ParamString(p + init, prepare) + c;
      ParamStringAppend(p, init, prepare);
      assert ParamString(q, prepare) == b + c;
      assert (a + b) + c == a + (b + c);
    }
  }

  /** The first declared parameter is declared first. */
  lemma ParamStringFirst(x: Param, rest: seq<Param>, prepare: bool)
    ensures ParamString([x] + rest, prepare) == ParamLine(x, prepare) + ParamString(rest, prepare)
  {
    ParamStringAppend([x], rest, prepare);
    assert [x][..0] == [];
  }

  function ForClause(s: string): string
  {
    "for _" + s + " in " + s
  }

  /** `loop_string[0]`: one `for` clause per parameter, the last declared
      parameter first. */
  function LoopParams(names: seq<string>): (r: string)
  {
    Join(" ", seq(|names|, i requires 0 <= i < |names| => ForClause(Reverse(names)[i])))
  }

  /** A parameter declared last gets the first `for` clause. */
  lemma LoopParamsSnoc(names: seq<string>, x: string)
    requires names != []
    ensures LoopParams(names + [x]) == ForClause(x) + " " + LoopParams(names)
  {
    var n := names + [x];
    var clauses := seq(|n|, i requires 0 <= i < |n| => ForClause(Reverse(n)[i]));
    var rest := seq(|names|, i requires 0 <= i < |names| => ForClause(Reverse(names)[i]));
    assert clauses == [ForClause(x)] + rest;
    JoinCons(" ", ForClause(x), rest);
  }

  function FilterString(step: Step): (r: string)
    ensures step.filter == "" <==> r == ""
  {
    if step.filter == "" then "" else " if " + step.filter
  }

  // ---------------------------------------------------------------------
  // Input, prepare mode

  /** The variable holding the outputs of `x` in the configuration code. */
  function OutputVar(sm: StepMap, x: string): string
    requires x in sm
  {
    "__" + Lower(N2a(sm[x].wid)) + "_" + x + "_output__"
  }

  /** What `get_input` sets in the prepare mode. */
  datatype PrepareInput = PrepareInput(inputString: string, inputVars: Option<string>, loopInput: string)

  /** The first of `names` missing from the step map, if any. */
  function FirstMissing(sm: StepMap, names: seq<string>): (r: Option<string>)
    ensures r.None? <==> forall x :: x in names ==> x in sm
    ensures r.Some? ==> r.value in names && r.value !in sm
    ensures r.Some? ==> forall j :: 0 <= j < IndexOf(names, r.value) ==> names[j] in sm
  {
    if |names| == 0 then None
    else if names[0] !in sm then Some(names[0])
    else
      assert forall x :: x in names ==> x == names[0] || x in names[1..];
      FirstMissing(sm, names[1..])
  }

  /** `get_input` in the prepare mode: several producers are grouped into
      one input variable and walked in chunks of their number, a single
      producer's output variable is walked directly. A producer (or, with
      several producers, the step itself) missing from the step map is a
      `KeyError`. */
  function PrepareInputOf(step: Step, sm: StepMap): (r: Result<PrepareInput>)
    ensures r.Err? <==> (|CurrentDepends(step)| >= 2 && step.name !in sm) || FirstMissing(sm, CurrentDepends(step)).Some?
  {
    var cd := CurrentDepends(step);
    var head := if cd != [] then WithVariables(cd) else "";
    if |cd| >= 2 then
      if step.name !in sm then Err(KeyError(step.name))
      else match FirstMissing(sm, cd)
        case Some(x) => Err(KeyError(x))
        case None =>
          var vars := GroupInputVar(sm, step.name);
          var outs := seq(|cd|, i requires 0 <= i < |cd| => OutputVar(sm, cd[i]));
          Ok(PrepareInput(head + GroupInputLine(vars, outs), Some(vars), ChunkLoop(vars, |cd|)))
    else if |cd| == 1 then
      assert cd[1..] == [];
      if cd[0] !in sm then Err(KeyError(cd[0]))
      else
        var vars := OutputVar(sm, cd[0]);
        Ok(PrepareInput(head, Some(vars), DirectLoop(vars)))
    else Ok(PrepareInput(head, None, ""))
  }

  /** `PrepareInputOf`, case by case, as `get_input` meets the cases. */
  lemma PrepareInputCases(step: Step, sm: StepMap)
    ensures var cd := CurrentDepends(step);
      |cd| >= 2 && step.name !in sm ==> PrepareInputOf(step, sm) == Err(KeyError(step.name))
    ensures var cd := CurrentDepends(step);
      |cd| >= 2 && step.name in sm && FirstMissing(sm, cd).Some? ==>
        PrepareInputOf(step, sm) == Err(KeyError(FirstMissing(sm, cd).value))
    ensures var cd := CurrentDepends(step);
      |cd| >= 2 && step.name in sm && FirstMissing(sm, cd).None? ==>
        var vars := GroupInputVar(sm, step.name);
        PrepareInputOf(step, sm) ==
          Ok(PrepareInput(WithVariables(cd) + GroupInputLine(vars, seq(|cd|, i requires 0 <= i < |cd| => OutputVar(sm, cd[i]))),
                          Some(vars), ChunkLoop(vars, |cd|)))
    ensures var cd := CurrentDepends(step);
      |cd| == 1 && cd[0] !in sm ==> PrepareInputOf(step, sm) == Err(KeyError(cd[0]))
    ensures var cd := CurrentDepends(step);
      |cd| == 1 && cd[0] in sm ==>
        PrepareInputOf(step, sm) == Ok(PrepareInput(WithVariables(cd), Some(OutputVar(sm, cd[0])), DirectLoop(OutputVar(sm, cd[0]))))
    ensures CurrentDepends(step) == [] ==> PrepareInputOf(step, sm) == Ok(PrepareInput("", None, ""))
  {
  }

  /** Without producers there is no input variable and no loop; with
      several, the loop walks the grouped variable in chunks. */
  lemma PrepareInputShape(step: Step, sm: StepMap)
    ensures var r := PrepareInputOf(step, sm);
      r.Ok? ==>
        (r.value.inputVars.None? <==> CurrentDepends(step) == []) &&
        (CurrentDepends(step) == [] <==> r.value.loopInput == "") &&
        (|CurrentDepends(step)| > 1 ==> r.value.loopInput == ChunkLoop(r.value.inputVars.value, |CurrentDepends(step)|))
  {
  }

  function WithVariables(cd: seq<string>): string
  {
    "## With variables from: " + Join(", ", cd)
  }

  /** The variable grouping the outputs of several producers. */
  function GroupInputVar(sm: StepMap, name: string): string
    requires name in sm
  {
    "__" + Lower(N2a(sm[name].wid)) + "_" + name + "_input__"
  }

  function GroupInputLine(vars: string, outs: seq<string>): string
  {
    "\n" + vars + " = sos_group_input(" + Join(", ", outs) + ")"
  }

  /** `loop_string[1]` with several producers: their grouped outputs
      walked in tuples of their number. */
  function ChunkLoop(vars: string, n: int): (r: string)
    ensures |r| > 0
  {
    "for __i__ in chunks(" + vars + ", " + IntToString(n) + ")"
  }

  /** `loop_string[1]` with one producer. */
  function DirectLoop(vars: string): (r: string)
    ensures |r| > 0
  {
    "for __i__ in " + vars
  }

  // ---------------------------------------------------------------------
  // Input, run mode

  /** `repr` of a list of strings. */
  function ReprList(items: seq<string>): string
  {
    "[" + Join(", ", seq(|items|, i requires 0 <= i < |items| => Repr(items[i]))) + "]"
  }

  /** The `for_each` option: the parameter names in declared order, or,
      with a filter, a comprehension over all their combinations whose
      loops run over the parameters in reverse. */
  function ForEachOption(names: seq<string>, filterString: string): (r: string)
    ensures |r| > 0 && r[0] == 'f'
  {
    if filterString != "" then ForEachFiltered(names, filterString) else ForEachPlain(names)
  }

  function ForEachFiltered(names: seq<string>, filterString: string): string
  {
    var tuple := Join(",", seq(|names|, i requires 0 <= i < |names| => "_" + names[i]));
    "for_each = {'" + tuple + "':[(" + tuple + ") " + LoopParams(names) + filterString + "]}"
  }

  function ForEachPlain(names: seq<string>): string
  {
    "for_each = " + ReprList(names)
  }

  /** The run-mode input declaration of a step with producers. */
  function InputFilesLine(name: string): (r: string)
    ensures |r| > 0 && r[0] == 'p'
  {
    "parameter: " + name + "_input_files = list\ninput: dynamic(" + name + "_input_files)"
  }

  /** `input_string` in the run mode. */
  function RunInputString(step: Step): (r: string)
    ensures CurrentDepends(step) == [] <==> r == "input:"
  {
    if CurrentDepends(step) != [] then InputFilesLine(step.name) else "input:"
  }

  function GroupOption(n: int): (r: string)
    ensures |r| > 0 && r[0] == 'g'
  {
    "group_by = " + IntToString(n)
  }

  const Concurrent: string := "concurrent = True"

  /** `input_option` in the run mode: the grouping by the number of
      distinct producers, the `for_each` loop over the parameters, and
      `concurrent = True` for a local run, each when it applies. */
  function RunInputOption(step: Step, conf: HostConf): seq<string>
  {
    var cd := CurrentDepends(step);
    (if cd != [] then [GroupOption(|cd|)] else []) +
    (if step.params != [] then [ForEachOption(ParamNames(step), FilterString(step))] else []) +
    (if conf.None? then [Concurrent] else [])
  }

  lemma RunInputOptionOf(step: Step, conf: HostConf, group: seq<string>, loops: seq<string>, all: seq<string>)
    requires group == if CurrentDepends(step) != [] then [GroupOption(|CurrentDepends(step)|)] else []
    requires loops == group + if step.params != [] then [ForEachOption(ParamNames(step), FilterString(step))] else []
    requires all == loops + if conf.None? then [Concurrent] else []
    ensures all == RunInputOption(step, conf)
  {
  }

  /** Each of the three options is present exactly when it applies, the
      grouping first and `concurrent = True` last. */
  lemma RunInputOptionParts(step: Step, conf: HostConf)
    ensures var r := RunInputOption(step, conf);
      |r| == (if CurrentDepends(step) != [] then 1 else 0) + (if step.params != [] then 1 else 0) +
             (if conf.None? then 1 else 0) &&
      (GroupOption(|CurrentDepends(step)|) in r <==> CurrentDepends(step) != []) &&
      (ForEachOption(ParamNames(step), FilterString(step)) in r <==> step.params != []) &&
      (Concurrent in r <==> conf.None?) &&
      (CurrentDepends(step) != [] ==> r[0] == GroupOption(|CurrentDepends(step)|)) &&
      (conf.None? ==> r[|r| - 1] == Concurrent)
  {
  }

  // ---------------------------------------------------------------------
  // The checks, in the order the constructor meets them

  /** The host configuration, if there is one, has a section for the step
      or a default section. */
  predicate HasSection(step: Step, conf: HostConf)
  {
    conf.None? || step.name in conf.value || "default" in conf.value
  }

  /** Why the translator refuses `step`, if it does: more than one output
      file; in the prepare mode a missing step-map entry or no output file
      at all; in the run mode a host configuration without the step's or a
      default section, an empty command, a command argument the plugin's
      `get_input` rejects, or a script that cannot be found. `scripts` are
      the script files that can be opened. */
  function Rejection(step: Step, sm: Option<StepMap>, conf: HostConf, scripts: set<string>): (r: Option<Error>)
    ensures |step.outputFiles| > 1 ==> r == Some(ValueError("Multiple output files not implemented"))
    ensures |step.outputFiles| <= 1 && sm.None? && !HasSection(step, conf) ==> r == Some(KeyError("default"))
    ensures |step.outputFiles| <= 1 && sm.None? && HasSection(step, conf) && Words(step.exe) != [] ==>
      (r.None? <==> step.shellRun || (InputError(step).None? && Words(step.exe)[0] in scripts))
    ensures |step.outputFiles| <= 1 && sm.None? && HasSection(step, conf) && !step.shellRun && InputError(step).Some? ==>
      r == InputError(step)
    ensures (|step.outputFiles| <= 1 && sm.None? && HasSection(step, conf) && Words(step.exe) != [] && !step.shellRun &&
             InputError(step).None? && Words(step.exe)[0] !in scripts) ==>
      r == Some(IOError("Cannot find script ``" + Words(step.exe)[0] + "``!"))
    ensures |step.outputFiles| <= 1 && sm.None? && HasSection(step, conf) && Words(step.exe) == [] ==>
      r == Some(IndexError("list index out of range"))
    ensures sm.Some? ==> (r.None? <==> |step.outputFiles| == 1 && PrepareInputOf(step, sm.value).Ok? && step.name in sm.value)
  {
    if |step.outputFiles| > 1 then Some(ValueError("Multiple output files not implemented"))
    else if sm.Some? && PrepareInputOf(step, sm.value).Err? then Some(PrepareInputOf(step, sm.value).error)
    else LaterRejection(step, sm, conf, scripts)
  }

  /** The exception the plugin's `get_input` raises on the command
      arguments of a step (the words after its script name), given the
      step's parameter names: R and Python plugins refuse a `$name`
      argument naming no parameter left in the list, R also an argument
      that is not one `lhs=rhs` pair; the base plugin ignores them. */
  function InputError(step: Step): (r: Option<Error>)
    ensures r.Some? ==> r.value.ValueError? && step.plugin != Plugin.BasePlug && |Words(step.exe)| > 1
  {
    var words := Words(step.exe);
    if step.plugin == Plugin.BasePlug || |words| <= 1 then None
    else
      var res := Plugin.CmdArgs(step.plugin, words[1..], ParamNames(step)).0;
      if res.Err? then Some(res.error) else None
  }

  /** A command argument `get_input` refuses, wherever it stands after the
      script name, makes the step fail. */
  lemma InputErrorOfBadArg(step: Step, i: nat)
    requires step.plugin != Plugin.BasePlug
    requires 1 <= i < |Words(step.exe)| && Plugin.BadCmdArg(step.plugin, Words(step.exe)[i], ParamNames(step))
    ensures InputError(step).Some?
  {
    var words := Words(step.exe);
    assert words[1..][i - 1] == words[i];
    Plugin.CmdArgsRejectBad(step.plugin, words[1..], ParamNames(step), i - 1);
  }

  /** Python command arguments without `$` never fail. */
  lemma InputErrorOfLiterals(step: Step)
    requires step.plugin == Plugin.PyPlug
    requires forall i :: 1 <= i < |Words(step.exe)| ==> !StartsWith(Words(step.exe)[i], "$")
    ensures InputError(step).None?
  {
    var words := Words(step.exe);
    if |words| > 1 {
      assert forall j :: 0 <= j < |words[1..]| ==> words[1..][j] == words[j + 1];
      Plugin.CmdArgsLiteral(step.plugin, words[1..], ParamNames(step));
    }
  }

  /** The checks `get_output`, `get_step_option` and `get_action` make. In
      the run mode `get_input` runs before the script is opened, and an
      empty command fails only when its first word is taken. */
  function LaterRejection(step: Step, sm: Option<StepMap>, conf: HostConf, scripts: set<string>): Option<Error>
  {
    match sm
    case Some(m) =>
      if step.name !in m then Some(KeyError(step.name))
      else if |step.outputFiles| == 0 then Some(IndexError("list index out of range"))
      else None
    case None =>
      var words := Words(step.exe);
      if !HasSection(step, conf) then Some(KeyError("default"))
      else if !step.shellRun && InputError(step).Some? then InputError(step)
      else if words == [] then Some(IndexError("list index out of range"))
      else if !step.shellRun && words[0] !in scripts then Some(IOError("Cannot find script ``" + words[0] + "``!"))
      else None
  }

  /** The message of the `TypeError` Python raises for a call of
      `get_input` with six arguments besides `self`: the plugins take five
      (the base class with three of them optional). */
  function GetInputArityMessage(kind: Plugin.PlugKind): string
  {
    if kind == Plugin.BasePlug then "get_input() takes from 3 to 6 positional arguments but 7 were given"
    else "get_input() takes 6 positional arguments but 7 were given"
  }

  /** The checks of `get_output`, `get_step_option` and `get_action` as the
      run-mode call of `get_input` is written, with a sixth argument (the
      flag for `var` dependencies) that no plugin accepts: every step whose
      script is not run by the shell fails at that call. */
  function LaterRejectionAsWritten(step: Step, sm: Option<StepMap>, conf: HostConf, scripts: set<string>): (r: Option<Error>)
    ensures sm.None? && !step.shellRun && (conf.None? || step.name in conf.value || "default" in conf.value) ==>
      r == Some(TypeError(GetInputArityMessage(step.plugin)))
    ensures sm.Some? || step.shellRun ==> r == LaterRejection(step, sm, conf, scripts)
  {
    match sm
    case Some(_) => LaterRejection(step, sm, conf, scripts)
    case None =>
      if conf.Some? && step.name !in conf.value && "default" !in conf.value then Some(KeyError("default"))
      else if !step.shellRun then Some(TypeError(GetInputArityMessage(step.plugin)))
      else if Words(step.exe) == [] then Some(IndexError("list index out of range"))
      else None
  }

  /** A Python step with one script that exists and no command arguments:
      accepted once `get_input` is called with its five arguments, refused
      with a `TypeError` as the call is written. */
  lemma AsWrittenRefusesPlainScript()
    ensures var step := Step("A", [], [], [], "", "x", false, Plugin.PyPlug);
      LaterRejection(step, None, None, {"x"}).None? &&
      LaterRejectionAsWritten(step, None, None, {"x"}) ==
        Some(TypeError("get_input() takes 6 positional arguments but 7 were given"))
  {
    var step := Step("A", [], [], [], "", "x", false, Plugin.PyPlug);
    assert Words("x") == ["x"] by {
      assert !IsSpace('x') && "x"[1..] == "" && "" + ['x'] == "x";
      assert WordsFrom("x", "") == WordsFrom("", "x");
    }
    assert InputError(step).None?;
  }

  // ---------------------------------------------------------------------
  // What `dump` returns

  /** `[x for x in parts if x]`. */
  function NonEmpty(parts: seq<string>): (r: seq<string>)
    ensures forall x :: x in r <==> x in parts && x != ""
    ensures IsSubseq(r, parts)
    ensures multiset(r) == multiset(parts)["" := 0]
  {
    if |parts| == 0 then []
    else
      var init := parts[..|parts| - 1];
      var r := NonEmpty(init);
      assert parts == init + [parts[|parts| - 1]];
      assert multiset(parts) == multiset(init) + multiset{parts[|parts| - 1]};
      if parts[|parts| - 1] == "" then
        IsSubseqOfPrefixExtends(r, init, "");
        r
      else
        IsSubseqAppend(r, init, parts[|parts| - 1]);
        r + [parts[|parts| - 1]]
  }

  /** The input part of the dumped text: in the run mode the input line
      followed by its options. */
  function InputPart(prepare: bool, inputString: string, inputOption: seq<string>): string
  {
    if prepare then inputString
    else inputString + " " + ((if inputString != "input:" then ", " else "") + Join(", ", inputOption))
  }

  /** The six parts `dump()` joins. */
  datatype Parts = Parts(header: string, paramString: string, input: string, output: string,
                         stepOption: string, action: string)

  /** `dump()`: the non-empty parts, one per line. */
  function DumpOf(p: Parts): string
  {
    Join("\n", NonEmpty([p.header, Strip(p.paramString), p.input, p.output, p.stepOption, p.action]))
  }

  /** The run-mode output declaration. */
  function RunOutputString(step: Step): string
  {
    "output: " + step.name + "_output_files, group_by = 1"
  }

  /** The parts the translator produces in the prepare mode. */
  function PrepareParts(step: Step, m: StepMap, conf: HostConf): Parts
    requires PrepareInputOf(step, m).Ok?
  {
    var pin := PrepareInputOf(step, m).value;
    Parts(HeaderText(step, true), ParamString(step.params, true), InputPart(true, pin.inputString, []),
          PrepareOutputText(step, m, pin.loopInput), "", ActionText(step, Some(m), conf))
  }

  /** The parts the translator produces in the run mode. */
  function RunParts(step: Step, conf: HostConf): Parts
  {
    Parts(HeaderText(step, false), ParamString(step.params, false),
          InputPart(false, RunInputString(step), RunInputOption(step, conf)), RunOutputString(step),
          if conf.Some? then StepOptionText(step, conf.value) else "", ActionText(step, None, conf))
  }

  /** The run-mode script signature: none for a shell command. */
  function RunSignature(step: Step): (r: seq<string>)
    requires Words(step.exe) != []
  {
    if step.shellRun then [] else [FileMD5(Words(step.exe)[0])]
  }

  /** What the translator of an accepted step produces. */
  function Compile(step: Step, sm: Option<StepMap>, conf: HostConf, scripts: set<string>): (r: Result<Compiled>)
    ensures r.Err? <==> Rejection(step, sm, conf, scripts).Some?
    ensures r.Err? ==> r.error == Rejection(step, sm, conf, scripts).value
    ensures r.Ok? && (sm.Some? || step.shellRun) ==> r.value.exeSignature == []
    ensures r.Ok? && sm.None? && !step.shellRun ==> r.value.exeSignature == [FileMD5(Words(step.exe)[0])]
  {
    match Rejection(step, sm, conf, scripts)
    case Some(e) => Err(e)
    case None =>
      match sm
      case Some(m) => Ok(Compiled(DumpOf(PrepareParts(step, m, conf)), []))
      case None => Ok(Compiled(DumpOf(RunParts(step, conf)), RunSignature(step)))
  }

  /** `Compile` in the prepare mode, for at most one output file. */
  lemma CompilePrepare(step: Step, m: StepMap, conf: HostConf, scripts: set<string>)
    requires |step.outputFiles| <= 1
    ensures var c := Compile(step, Some(m), conf, scripts); var pin := PrepareInputOf(step, m);
      var later := LaterRejection(step, Some(m), conf, scripts);
      (pin.Err? ==> c == Err(pin.error)) &&
      (pin.Ok? ==> (c.Err? <==> later.Some?) && (c.Err? ==> c.error == later.value) &&
                   (c.Ok? ==> c.value == Compiled(DumpOf(PrepareParts(step, m, conf)), [])))
  {
  }

  /** `Compile` in the run mode, for at most one output file. */
  lemma CompileRun(step: Step, conf: HostConf, scripts: set<string>)
    requires |step.outputFiles| <= 1
    ensures var c := Compile(step, None, conf, scripts); var later := LaterRejection(step, None, conf, scripts);
      (c.Err? <==> later.Some?) && (c.Err? ==> c.error == later.value)
    ensures Compile(step, None, conf, scripts).Ok? ==> Words(step.exe) != []
    ensures Compile(step, None, conf, scripts).Ok? ==>
      Compile(step, None, conf, scripts).value == Compiled(DumpOf(RunParts(step, conf)), RunSignature(step))
  {
    RejectionRun(step, conf, scripts);
  }

  lemma RejectionRun(step: Step, conf: HostConf, scripts: set<string>)
    requires |step.outputFiles| <= 1
    ensures Rejection(step, None, conf, scripts) == LaterRejection(step, None, conf, scripts)
    ensures LaterRejection(step, None, conf, scripts).None? ==> Words(step.exe) != []
  {
  }

  // ---------------------------------------------------------------------
  // The translator object

  class StepTranslator {
    const step: Step
    const stepMap: Option<StepMap>
    const conf: HostConf
    /** Configuration code is produced when a step map is given. */
    const prepare: bool := stepMap.Some?
    const currentDepends: seq<string> := CurrentDepends(step)
    var exeSignature: seq<string>
    var params: seq<string>
    var header: string
    var paramString: string
    var loopParams: string
    var loopInput: string
    var filterString: string
    var inputString: string
    var inputVars: Option<string>
    var inputOption: seq<string>
    var outputString: string
    var stepOption: string
    var action: string

    /** The fields as `__init__` sets them before the `get_*` calls. */
    constructor Init(step: Step, stepMap: Option<StepMap>, conf: HostConf)
      ensures this.step == step && this.stepMap == stepMap && this.conf == conf
      ensures prepare == stepMap.Some? && currentDepends == CurrentDepends(step)
      ensures exeSignature == [] && params == [] && inputVars.None? && inputOption == []
      ensures header == "" && paramString == "" && loopParams == "" && loopInput == "" && filterString == ""
      ensures inputString == "" && outputString == "" && stepOption == "" && action == ""
    {
      this.step := step;
      this.stepMap := stepMap;
      this.conf := conf;
      exeSignature, params, inputVars, inputOption := [], [], None, [];
      header, paramString, loopParams, loopInput, filterString := "", "", "", "", "";
      inputString, outputString, stepOption, action := "", "", "", "";
    }

    /** `get_header()`. */
    method GetHeader()
      modifies this`header
      ensures header == HeaderText(step, prepare)
    {
      header := HeaderText(step, prepare);
    }

    /** `get_parameters()`: one declaration per parameter in declared
        order, the loop clauses over the parameters in reverse, and the
        filter. */
    method GetParameters()
      requires paramString == ""
      modifies this`params, this`paramString, this`loopParams, this`filterString
      ensures params == ParamNames(step)
      ensures paramString == ParamString(step.params, prepare)
      ensures loopParams == LoopParams(params)
      ensures filterString == FilterString(step)
    {
      params := ParamNames(step);
      var i := 0;
      while i < |step.params|
        modifies this`paramString
        invariant 0 <= i <= |step.params|
        invariant paramString == ParamString(step.params[..i], prepare)
      {
        assert step.params[..i + 1][..i] == step.params[..i];
        paramString := paramString + ParamLine(step.params[i], prepare);
        i := i + 1;
      }
      assert step.params[..|step.params|] == step.params;
      if params != [] {
        loopParams := LoopParams(params);
      } else {
        loopParams := "";
      }
      if step.filter != "" {
        filterString := " if " + step.filter;
      } else {
        filterString := "";
      }
    }

    /** `get_input()` in the prepare mode. */
    method GetPrepareInput() returns (o: Outcome)
      requires prepare
      requires inputString == "" && inputVars.None? && loopInput == "" && inputOption == []
      modifies this`inputString, this`inputVars, this`loopInput
      ensures var pin := PrepareInputOf(step, stepMap.value);
        (o.Fail? <==> pin.Err?) && (o.Fail? ==> o.error == pin.error) &&
        (o.Pass? ==> inputString == pin.value.inputString && inputVars == pin.value.inputVars &&
                     loopInput == pin.value.loopInput)
    {
      var sm := stepMap.value;
      var cd := currentDepends;
      PrepareInputCases(step, sm);
      if cd != [] {
        inputString := WithVariables(cd);
      }
      if |cd| >= 2 {
        if step.name !in sm {
          return Fail(KeyError(step.name));
        }
        var vars := GroupInputVar(sm, step.name);
        var outs := OutputVars(sm, cd);
        if outs.Err? {
          return Fail(outs.error);
        }
        assert outs.value == seq(|cd|, i requires 0 <= i < |cd| => OutputVar(sm, cd[i]));
        inputVars := Some(vars);
        inputString := inputString + GroupInputLine(vars, outs.value);
      } else if |cd| == 1 {
        if cd[0] !in sm {
          return Fail(KeyError(cd[0]));
        }
        inputVars := Some(OutputVar(sm, cd[0]));
      }
      if |cd| > 0 {
        if |cd| > 1 {
          loopInput := ChunkLoop(inputVars.value, |cd|);
        } else {
          loopInput := DirectLoop(inputVars.value);
        }
      }
      o := Pass;
    }

    /** The output variables of the producers, or the `KeyError` of the
        first one missing from the step map. */
    static method OutputVars(sm: StepMap, cd: seq<string>) returns (r: Result<seq<string>>)
      ensures FirstMissing(sm, cd).Some? ==> r == Err(KeyError(FirstMissing(sm, cd).value))
      ensures FirstMissing(sm, cd).None? ==>
        r.Ok? && |r.value| == |cd| && forall j :: 0 <= j < |cd| ==> r.value[j] == OutputVar(sm, cd[j])
    {
      var outs := [];
      var i := 0;
      while i < |cd|
        invariant 0 <= i <= |cd|
        invariant FirstMissing(sm, cd) == FirstMissing(sm, cd[i..])
        invariant |outs| == i && forall j :: 0 <= j < i ==> cd[j] in sm && outs[j] == OutputVar(sm, cd[j])
      {
        assert cd[i..][0] == cd[i] && cd[i..][1..] == cd[i + 1..];
        if cd[i] !in sm {
          return Err(KeyError(cd[i]));
        }
        outs := outs + [OutputVar(sm, cd[i])];
        i := i + 1;
      }
      assert cd[i..] == [];
      r := Ok(outs);
    }

    /** `get_input()` in the run mode. */
    method GetRunInput()
      requires !prepare
      requires params == ParamNames(step) && filterString == FilterString(step)
      requires inputString == "" && inputOption == []
      modifies this`inputString, this`inputOption
      ensures inputString == RunInputString(step) && inputOption == RunInputOption(step, conf)
    {
      var cd := currentDepends;
      if |cd| > 0 {
        inputString := InputFilesLine(step.name);
        inputOption := inputOption + [GroupOption(|cd|)];
      } else {
        inputString := "input:";
      }
      ghost var group := inputOption;
      var names := params;
      if |names| > 0 {
        if filterString != "" {
          inputOption := inputOption + [ForEachFiltered(names, filterString)];
        } else {
          inputOption := inputOption + [ForEachPlain(names)];
        }
        assert inputOption == group + [ForEachOption(names, filterString)];
      }
      ghost var loops := inputOption;
      if conf.None? {
        inputOption := inputOption + [Concurrent];
      }
      RunInputOptionOf(step, conf, group, loops, inputOption);
    }
  
    /** `get_output()`: in the prepare mode the step's own step-map entry
        names its output variable. */
    method GetOutput() returns (o: Outcome)
      requires outputString == ""
      modifies this`outputString
      ensures o.Fail? <==> prepare && step.name !in stepMap.value
      ensures o.Fail? ==> o.error == KeyError(step.name)
      ensures o.Pass? ==>
        (outputString == if prepare then PrepareOutputText(step, stepMap.value, loopInput) else RunOutputString(step))
    {
      if prepare {
        if step.name !in stepMap.value {
          return Fail(KeyError(step.name));
        }
        outputString := outputString + PrepareOutputText(step, stepMap.value, loopInput);
      } else {
        outputString := outputString + RunOutputString(step);
      }
      o := Pass;
    }

    /** `get_step_option()`: a remote run takes the task options from the
        step's section of the host configuration, or from its `default`
        section. */
    method GetStepOption() returns (o: Outcome)
      requires stepOption == ""
      modifies this`stepOption
      ensures o.Fail? <==> !prepare && conf.Some? && step.name !in conf.value && "default" !in conf.value
      ensures o.Fail? ==> o.error == KeyError("default")
      ensures o.Pass? ==> (stepOption == if !prepare && conf.Some? then StepOptionText(step, conf.value) else "")
    {
      if !prepare && conf.Some? {
        if step.name !in conf.value && "default" !in conf.value {
          return Fail(KeyError("default"));
        }
        stepOption := stepOption + StepOptionText(step, conf.value);
      }
      o := Pass;
    }

    /** `get_action()`: the prepare mode needs the output file's extension;
        the run mode needs the plugin's `get_input` to accept the command
        arguments (unless the command is run by the shell), a command, and,
        unless the shell runs it, a script that can be opened, whose
        signature is recorded. */
    method GetAction(scripts: set<string>) returns (o: Outcome)
      requires action == "" && exeSignature == []
      modifies this`action, this`exeSignature
      ensures prepare && step.outputFiles == [] ==> o == Fail(IndexError("list index out of range"))
      ensures !prepare && !step.shellRun && InputError(step).Some? ==> o == Fail(InputError(step).value)
      ensures !prepare && (step.shellRun || InputError(step).None?) && Words(step.exe) == [] ==>
        o == Fail(IndexError("list index out of range"))
      ensures (!prepare && Words(step.exe) != [] && !step.shellRun && InputError(step).None? &&
               Words(step.exe)[0] !in scripts) ==>
        o == Fail(IOError("Cannot find script ``" + Words(step.exe)[0] + "``!"))
      ensures o.Pass? <==>
        (if prepare then step.outputFiles != []
         else Words(step.exe) != [] && (step.shellRun || (InputError(step).None? && Words(step.exe)[0] in scripts)))
      ensures o.Pass? ==> action == ActionText(step, stepMap, conf)
      ensures o.Pass? ==>
        (exeSignature == if prepare || step.shellRun then [] else [FileMD5(Words(step.exe)[0])])
    {
      if prepare {
        if step.outputFiles == [] {
          return Fail(IndexError("list index out of range"));
        }
      } else {
        var words := Words(step.exe);
        if !step.shellRun {
          var e := InputError(step);
          if e.Some? {
            return Fail(e.value);
          }
        }
        if words == [] {
          return Fail(IndexError("list index out of range"));
        }
        if !step.shellRun {
          if words[0] !in scripts {
            return Fail(IOError("Cannot find script ``" + words[0] + "``!"));
          }
          exeSignature := exeSignature + [FileMD5(words[0])];
        }
      }
      action := action + ActionText(step, stepMap, conf);
      o := Pass;
    }

    /** The parts as the fields hold them. */
    function Current(): Parts
      reads this
    {
      Parts(header, paramString, InputPart(prepare, inputString, inputOption), outputString, stepOption, action)
    }

    /** `dump()`. */
    function Dump(): string
      reads this
    {
      DumpOf(Current())
    }

    /** The lengths of the fields the calls after `get_input()` set. */
    function Later(): (nat, nat, nat, nat)
      reads this
    {
      (|outputString|, |stepOption|, |action|, |exeSignature|)
    }

    /** The calls after `get_input()` in the constructor. */
    method Finish(scripts: set<string>) returns (o: Outcome)
      requires Later() == (0, 0, 0, 0)
      modifies this`outputString, this`stepOption, this`action, this`exeSignature
      ensures o.Fail? <==> LaterRejection(step, stepMap, conf, scripts).Some?
      ensures o.Fail? ==> o.error == LaterRejection(step, stepMap, conf, scripts).value
      ensures o.Pass? && prepare ==>
        outputString == PrepareOutputText(step, stepMap.value, loopInput) && stepOption == "" && exeSignature == []
      ensures o.Pass? && !prepare ==>
        outputString == RunOutputString(step) &&
        stepOption == (if conf.Some? then StepOptionText(step, conf.value) else "") &&
        exeSignature == (if step.shellRun then [] else [FileMD5(Words(step.exe)[0])])
      ensures o.Pass? ==> action == ActionText(step, stepMap, conf)
    {
      o := GetOutput();
      if o.Fail? {
        return;
      }
      o := GetStepOption();
      if o.Fail? {
        return;
      }
      o := GetAction(scripts);
    }

    /** The constructor `Step_Translator(step, db, step_map, try_catch,
        host_conf)`: the translator of an accepted step, whose `dump()` and
        script signature are those `Compile` describes, or the exception of
        the first check the step fails. */
    static method Make(step: Step, stepMap: Option<StepMap>, conf: HostConf, scripts: set<string>)
      returns (r: Result<StepTranslator>)
      ensures r.Err? <==> Compile(step, stepMap, conf, scripts).Err?
      ensures r.Err? ==> r.error == Compile(step, stepMap, conf, scripts).error
      ensures r.Ok? ==> fresh(r.value)
      ensures r.Ok? ==> r.value.Dump() == Compile(step, stepMap, conf, scripts).value.dump
      ensures r.Ok? ==> r.value.exeSignature == Compile(step, stepMap, conf, scripts).value.exeSignature
    {
      if |step.outputFiles| > 1 {
        return Err(ValueError("Multiple output files not implemented"));
      }
      if stepMap.Some? {
        r := MakePrepare(step, stepMap.value, conf, scripts);
        CompilePrepare(step, stepMap.value, conf, scripts);
      } else {
        r := MakeRun(step, conf, scripts);
        CompileRun(step, conf, scripts);
      }
    }

    /** The constructor up to `get_input()`. */
    static method Start(step: Step, stepMap: Option<StepMap>, conf: HostConf) returns (t: StepTranslator)
      ensures fresh(t) && (t.step, t.stepMap, t.conf) == (step, stepMap, conf)
      ensures (t.header, t.paramString) == (HeaderText(step, stepMap.Some?), ParamString(step.params, stepMap.Some?))
      ensures (t.params, t.filterString) == (ParamNames(step), FilterString(step))
      ensures t.inputString == "" && t.inputVars.None? && t.loopInput == "" && t.inputOption == []
      ensures t.Later() == (0, 0, 0, 0)
    {
      t := new StepTranslator.Init(step, stepMap, conf);
      t.GetHeader();
      t.GetParameters();
    }

    /** The constructor up to and including `get_input()`, in the prepare
        mode. */
    static method StartPrepare(step: Step, m: StepMap, conf: HostConf) returns (t: StepTranslator, o: Outcome)
      ensures fresh(t) && (t.step, t.stepMap, t.conf) == (step, Some(m), conf)
      ensures (t.header, t.paramString) == (HeaderText(step, true), ParamString(step.params, true))
      ensures t.Later() == (0, 0, 0, 0)
      ensures var pin := PrepareInputOf(step, m);
        (o.Fail? <==> pin.Err?) && (o.Fail? ==> o.error == pin.error) &&
        (o.Pass? ==> t.inputString == pin.value.inputString && t.loopInput == pin.value.loopInput)
    {
      t := Start(step, Some(m), conf);
      o := t.GetPrepareInput();
    }

    /** The constructor up to and including `get_input()`, in the run
        mode. */
    static method StartRun(step: Step, conf: HostConf) returns (t: StepTranslator)
      ensures fresh(t) && (t.step, t.stepMap, t.conf) == (step, None, conf)
      ensures (t.header, t.paramString, t.inputString, t.inputOption) ==
        (HeaderText(step, false), ParamString(step.params, false), RunInputString(step), RunInputOption(step, conf))
      ensures t.Later() == (0, 0, 0, 0)
    {
      t := Start(step, None, conf);
      t.GetRunInput();
    }

    static method MakePrepare(step: Step, m: StepMap, conf: HostConf, scripts: set<string>)
      returns (r: Result<StepTranslator>)
      ensures PrepareInputOf(step, m).Err? ==> r == Err(PrepareInputOf(step, m).error)
      ensures PrepareInputOf(step, m).Ok? ==> var later := LaterRejection(step, Some(m), conf, scripts);
        (r.Err? <==> later.Some?) && (r.Err? ==> r.error == later.value)
      ensures r.Ok? ==> PrepareInputOf(step, m).Ok? && fresh(r.value)
      ensures r.Ok? ==> r.value.Current() == PrepareParts(step, m, conf) && r.value.exeSignature == []
    {
      var t, o := StartPrepare(step, m, conf);
      if o.Fail? {
        return Err(o.error);
      }
      o := t.Finish(scripts);
      if o.Fail? {
        return Err(o.error);
      }
      r := Ok(t);
    }

    static method MakeRun(step: Step, conf: HostConf, scripts: set<string>)
      returns (r: Result<StepTranslator>)
      ensures var later := LaterRejection(step, None, conf, scripts);
        (r.Err? <==> later.Some?) && (r.Err? ==> r.error == later.value)
      ensures r.Ok? ==> Words(step.exe) != [] && fresh(r.value)
      ensures r.Ok? ==> r.value.Current() == RunParts(step, conf)
      ensures r.Ok? ==> r.value.exeSignature == RunSignature(step)
    {
      var t := StartRun(step, conf);
      var o := t.Finish(scripts);
      if o.Fail? {
        return Err(o.error);
      }
      r := Ok(t);
    }
  }
}
