/** The per-language code emitters of `dsc/plugin.py`: a plugin object
    collects alias lines and parameter containers, then assembles the
    text that loads a module's inputs and parameters before its script
    and saves its outputs after it. */
module Plugin {
  import opened Common

  /** The R program that makes `source()` search `DSC_LIBPATH`, and the R
      list-merge function; their text is not part of this model. */
  const RSource: string
  const RLmerge: string

  /** The three plugin classes: `BasePlug`, `RPlug` and `PyPlug`. */
  datatype PlugKind = BasePlug | RPlug | PyPlug

  /** A value handed to `format_tuple`: a string or another scalar. */
  datatype Atom = AStr(s: string) | AInt(i: int) | ABool(b: bool) | ANone

  /** `repr(x) if isinstance(x, str) else str(x)`. */
  function RenderAtom(a: Atom): (r: string)
    ensures a.AStr? ==> r == Repr(a.s)
    ensures a.AInt? ==> ParseInt(r) == Some(a.i)
    ensures a.ABool? ==> r == (if a.b then "True" else "False")
    ensures a.ANone? ==> r == "None"
  {
    match a
    case AStr(s) => Repr(s)
    case AInt(i) => ParseIntOfString(i); IntToString(i)
    case ABool(b) => if b then "True" else "False"
    case ANone => "None"
  }

  function RenderAtoms(value: seq<Atom>): (r: seq<string>)
    ensures |r| == |value|
    ensures forall i :: 0 <= i < |value| ==> r[i] == RenderAtom(value[i])
  {
    seq(|value|, i requires 0 <= i < |value| => RenderAtom(value[i]))
  }

  /** The factory `Plugin(key)`: which class it builds and the `name` that
      class gets. The key is compared case-insensitively with `R` and `PY`. */
  function PluginKind(key: Option<string>): (r: (PlugKind, Option<string>))
    ensures key.None? ==> r == (BasePlug, None)
    ensures key.Some? && Upper(key.value) == "R" ==> r == (RPlug, Some("R"))
    ensures key.Some? && Upper(key.value) == "PY" ==> r == (PyPlug, Some("python"))
    ensures key.Some? && Upper(key.value) != "R" && Upper(key.value) != "PY" ==> r == (BasePlug, Some(""))
  {
    match key
    case None => (BasePlug, None)
    case Some(k) =>
      if Upper(k) == "R" then (RPlug, Some("R"))
      else if Upper(k) == "PY" then (PyPlug, Some("python"))
      else (BasePlug, Some(""))
  }

  /** The dispatch does not depend on how the key is capitalised. */
  lemma PluginKindIgnoresCase(k: string)
    ensures PluginKind(Some(Lower(k))) == PluginKind(Some(k))
    ensures PluginKind(Some(Upper(k))) == PluginKind(Some(k))
  {
    UpperIgnoresCase(k);
  }

  /** The list `[x for x in s if x != v]`. */
  function Without(s: seq<string>, v: string): (r: seq<string>)
    ensures v !in r
    ensures forall x :: x != v ==> (x in r <==> x in s)
    ensures IsSubseq(r, s)
    ensures multiset(r) == multiset(s)[v := 0]
  {
    if |s| == 0 then []
    else
      var r := Without(s[..|s| - 1], v);
      assert s == s[..|s| - 1] + [s[|s| - 1]];
      assert multiset(s) == multiset(s[..|s| - 1]) + multiset{s[|s| - 1]};
      if s[|s| - 1] == v then
        IsSubseqOfPrefixExtends(r, s[..|s| - 1], v);
        r
      else
        IsSubseqAppend(r, s[..|s| - 1], s[|s| - 1]);
        r + [s[|s| - 1]]
  }

  /** The list `[x for x in s if not x in drop]`. */
  function NotIn(s: seq<string>, drop: seq<string>): (r: seq<string>)
    ensures forall x :: x in r <==> x in s && x !in drop
    ensures IsSubseq(r, s)
    ensures forall x :: multiset(r)[x] == if x in drop then 0 else multiset(s)[x]
  {
    if |s| == 0 then []
    else
      var r := NotIn(s[..|s| - 1], drop);
      assert s == s[..|s| - 1] + [s[|s| - 1]];
      assert multiset(s) == multiset(s[..|s| - 1]) + multiset{s[|s| - 1]};
      if s[|s| - 1] in drop then
        IsSubseqOfPrefixExtends(r, s[..|s| - 1], s[|s| - 1]);
        r
      else
        IsSubseqAppend(r, s[..|s| - 1], s[|s| - 1]);
        r + [s[|s| - 1]]
  }

  /** `''.join(parts)`. */
  function Concat(parts: seq<string>): string
  {
    if |parts| == 0 then "" else Concat(parts[..|parts| - 1]) + parts[|parts| - 1]
  }

  lemma ConcatSnoc(parts: seq<string>, p: string)
    ensures Concat(parts + [p]) == Concat(parts) + p
  {
    assert (parts + [p])[..|parts|] == parts;
  }

  /** `[x.strip() for x in value.split(',')]`: the key list written in a
      container declaration. */
  function SplitKeys(value: string): (r: seq<string>)
    ensures |r| == |Split(value, ',')|
    ensures forall i :: 0 <= i < |r| ==> r[i] == Strip(Split(value, ',')[i])
  {
    var parts := Split(value, ',');
    seq(|parts|, i requires 0 <= i < |parts| => Strip(parts[i]))
  }

  /** A `$name` command argument whose parameter is not (or no longer) in
      the parameter list: the case `get_input` rejects. For R an argument
      not of the form `lhs=rhs` is rejected too. */
  predicate BadCmdArg(kind: PlugKind, item: string, params: seq<string>) {
    if kind == RPlug then
      var parts := Split(item, '=');
      |parts| != 2 || (StartsWith(parts[1], "$") && parts[1][1..] !in params)
    else StartsWith(item, "$") && item[1..] !in params
  }

  /** One command argument: the text it contributes (an R assignment
      line, a Python `sys.argv` item) and the parameter list after it,
      or the exception it raises. */
  function CmdArg(kind: PlugKind, item: string, params: seq<string>): (r: (Result<string>, seq<string>))
    requires kind != BasePlug
    ensures r.0.Err? <==> BadCmdArg(kind, item, params)
    ensures r.0.Err? ==> r.0.error.ValueError?
    ensures r.0.Ok? ==> |r.1| <= |params| && forall x :: x in r.1 ==> x in params
  {
    if kind == RPlug then
      var parts := Split(item, '=');
      if |parts| < 2 then (Err(ValueError("not enough values to unpack (expected 2, got 1)")), params)
      else if |parts| > 2 then (Err(ValueError("too many values to unpack (expected 2)")), params)
      else
        var lhs, rhs := parts[0], parts[1];
        if StartsWith(rhs, "$") then
          if rhs[1..] !in params then (Err(ValueError("Cannot find ``" + rhs + "`` in parameter list")), params)
          else
            RemoveFirstKeeps(params, rhs[1..]);
            (Ok("\n" + lhs + " <- ${_" + rhs[1..] + "}"), RemoveFirst(params, rhs[1..]))
        else (Ok("\n" + lhs + " <- " + rhs), params)
    else
      if StartsWith(item, "$") then
        if item[1..] !in params then (Err(ValueError("Cannot find ``" + item + "`` in parameter list")), params)
        else
          RemoveFirstKeeps(params, item[1..]);
          (Ok("${_" + item[1..] + "}"), RemoveFirst(params, item[1..]))
      else (Ok(Repr(item)), params)
  }

  /** The command arguments in order, each seeing the parameter list the
      previous ones left: their texts, or the first exception. The
      parameter list is returned in either case, as the caller's list is
      changed in place. */
  function CmdArgs(kind: PlugKind, args: seq<string>, params: seq<string>): (r: (Result<seq<string>>, seq<string>))
    requires kind != BasePlug
    ensures r.0.Ok? ==> |r.0.value| == |args|
    ensures r.0.Err? ==> r.0.error.ValueError?
    decreases |args|
  {
    if |args| == 0 then (Ok([]), params)
    else
      var (one, params1) := CmdArg(kind, args[0], params);
      match one
      case Err(e) => (Err(e), params1)
      case Ok(text) =>
        var (rest, params2) := CmdArgs(kind, args[1..], params1);
        match rest
        case Err(e) => (Err(e), params2)
        case Ok(texts) => (Ok([text] + texts), params2)
  }

  /** Puts `texts` in front of a later result. */
  function Prepend(texts: seq<string>, r: (Result<seq<string>>, seq<string>)): (Result<seq<string>>, seq<string>)
  {
    match r.0
    case Err(e) => (Err(e), r.1)
    case Ok(more) => (Ok(texts + more), r.1)
  }

  class Plug {
    const kind: PlugKind
    const name: Option<string>
    const identifier: string
    var container: seq<string>
    var containerVars: seq<string>
    var returnAlias: seq<string>
    var inputAlias: seq<string>

    /** `BasePlug(name, identifier)`. */
    constructor Base(name: Option<string>, identifier: string)
      ensures kind == BasePlug && this.name == name
      ensures this.identifier == "DSC_" + Upper(identifier)
      ensures container == [] && containerVars == [] && returnAlias == [] && inputAlias == []
    {
      this.kind := BasePlug;
      this.name := name;
      this.identifier := "DSC_" + Upper(identifier);
      container, containerVars, returnAlias, inputAlias := [], [], [], [];
    }

    /** `RPlug(identifier)`: a plugin named `R`. */
    constructor R(identifier: string)
      ensures kind == RPlug && name == Some("R")
      ensures this.identifier == "DSC_" + Upper(identifier)
      ensures container == [] && containerVars == [] && returnAlias == [] && inputAlias == []
    {
      this.kind := RPlug;
      this.name := Some("R");
      this.identifier := "DSC_" + Upper(identifier);
      container, containerVars, returnAlias, inputAlias := [], [], [], [];
    }

    /** `PyPlug(identifier)`: a plugin named `python`. */
    constructor Py(identifier: string)
      ensures kind == PyPlug && name == Some("python")
      ensures this.identifier == "DSC_" + Upper(identifier)
      ensures container == [] && containerVars == [] && returnAlias == [] && inputAlias == []
    {
      this.kind := PyPlug;
      this.name := Some("python");
      this.identifier := "DSC_" + Upper(identifier);
      container, containerVars, returnAlias, inputAlias := [], [], [], [];
    }

    /** `reset()`: empties the four lists. */
    method Reset()
      modifies this
      ensures container == [] && containerVars == [] && returnAlias == [] && inputAlias == []
    {
      container, containerVars, returnAlias, inputAlias := [], [], [], [];
    }

    /** The right-hand side an input alias gets: a `$name` other than
        `${_output!r}` is read from the loaded inputs (R: the identifier
        glued in front; Python: the identifier indexed by the quoted name),
        anything else is kept as written. */
    function AliasRhs(rhs: string): (r: string)
      requires kind != BasePlug
      ensures !StartsWith(rhs, "$") || rhs == "${_output!r}" ==> r == rhs
      ensures StartsWith(rhs, "$") && rhs != "${_output!r}" && kind == RPlug ==>
        r == identifier + rhs
      ensures StartsWith(rhs, "$") && rhs != "${_output!r}" && kind == PyPlug ==>
        r == identifier + "[" + Repr(rhs[1..]) + "]"
    {
      if !StartsWith(rhs, "$") || rhs == "${_output!r}" then rhs
      else if kind == RPlug then identifier + rhs
      else identifier + "[" + Repr(rhs[1..]) + "]"
    }

    /** The assignment operator of the target language. */
    function Assign(): string
    {
      if kind == RPlug then " <- " else " = "
    }

    /** `add_input(lhs, rhs)`: exactly one alias line more (none for the
        base class); nothing else changes. */
    method AddInput(lhs: string, rhs: string)
      modifies this
      ensures kind == BasePlug ==> inputAlias == old(inputAlias)
      ensures kind != BasePlug ==> inputAlias == old(inputAlias) + [lhs + Assign() + AliasRhs(rhs)]
      ensures container == old(container) && containerVars == old(containerVars)
      ensures returnAlias == old(returnAlias)
    {
      if kind != BasePlug {
        inputAlias := inputAlias + [lhs + Assign() + AliasRhs(rhs)];
      }
    }

    /** `add_return(lhs, rhs)`: one return alias line more (none for the
        base class). */
    method AddReturn(lhs: string, rhs: string)
      modifies this
      ensures kind == BasePlug ==> returnAlias == old(returnAlias)
      ensures kind != BasePlug ==> returnAlias == old(returnAlias) + [lhs + Assign() + rhs]
      ensures container == old(container) && containerVars == old(containerVars)
      ensures inputAlias == old(inputAlias)
    {
      if kind != BasePlug {
        returnAlias := returnAlias + [lhs + Assign() + rhs];
      }
    }

    /** The keys a container gets: the comma-separated names in `value`
        (each stripped), or all parameter names when `value` is empty or
        absent, and never `seed`. */
    static function ContainerKeys(value: Option<string>, params: seq<string>): (keys: seq<string>)
      ensures "seed" !in keys
      ensures value.None? || value.value == "" ==>
        IsSubseq(keys, params) && forall k :: k != "seed" ==> (k in keys <==> k in params)
      ensures value.None? || value.value == "" ==> multiset(keys) == multiset(params)["seed" := 0]
      ensures value.Some? && value.value != "" ==>
        IsSubseq(keys, SplitKeys(value.value)) &&
        forall k :: k != "seed" ==> (k in keys <==> k in SplitKeys(value.value))
      ensures value.Some? && value.value != "" ==> multiset(keys) == multiset(SplitKeys(value.value))["seed" := 0]
    {
      if value.Some? && value.value != "" then Without(SplitKeys(value.value), "seed")
      else Without(params, "seed")
    }

    /** The declaration of an empty container. */
    function DeclLine(name: string): string
      requires kind != BasePlug
    {
      if kind == RPlug then name + " <- list()" else name + " = {}"
    }

    /** The container entry of parameter `k`, set from the step's `${_k}`. */
    function EntryLine(name: string, k: string): string
      requires kind != BasePlug
    {
      if kind == RPlug then name + "$" + k + " <- ${_" + k + "}"
      else name + "[" + k + "] = ${_" + k + "}"
    }

    /** The lines declaring container `name` with one entry per key. */
    function ContainerLines(name: string, keys: seq<string>): (r: seq<string>)
      requires kind != BasePlug
      ensures |r| == 1 + |keys|
      ensures r[0] == DeclLine(name)
      ensures forall i :: 0 <= i < |keys| ==> r[i + 1] == EntryLine(name, keys[i])
    {
      [DeclLine(name)] + seq(|keys|, i requires 0 <= i < |keys| => EntryLine(name, keys[i]))
    }

    /** The loop building the declaration and entry lines of a container. */
    method ContainerBlock(name: string, keys: seq<string>) returns (res: seq<string>)
      requires kind != BasePlug
      ensures res == ContainerLines(name, keys)
    {
      ghost var lines := ContainerLines(name, keys);
      res := [DeclLine(name)];
      var j := 0;
      while j < |keys|
        invariant 0 <= j <= |keys|
        invariant res == lines[..j + 1]
      {
        assert lines[..j + 2] == lines[..j + 1] + [lines[j + 1]];
        res := res + [EntryLine(name, keys[j])];
        j := j + 1;
      }
      assert lines[..|keys| + 1] == lines;
    }

    /** `set_container(name, value, params)`: the container grows by one
        declaration plus one line per key, and the keys are remembered as
        container variables. */
    method SetContainer(name: string, value: Option<string>, params: seq<string>)
      modifies this
      ensures kind == BasePlug ==> container == old(container) && containerVars == old(containerVars)
      ensures kind != BasePlug ==>
        var keys := ContainerKeys(value, params);
        container == old(container) + ContainerLines(name, keys) &&
        containerVars == old(containerVars) + keys &&
        |container| == |old(container)| + 1 + |keys|
      ensures inputAlias == old(inputAlias) && returnAlias == old(returnAlias)
    {
      if kind != BasePlug {
        var keys := ContainerKeys(value, params);
        var res := ContainerBlock(name, keys);
        container := container + res;
        containerVars := containerVars + keys;
      }
    }

    /** `format_tuple(value)`: strings quoted with `repr`, other values as
        `str`; R wraps the list in `c(...)`, Python in parentheses, the
        base class separates by single spaces. */
    function FormatTuple(value: seq<Atom>): (r: string)
      ensures kind == BasePlug ==> r == Join(" ", RenderAtoms(value))
      ensures kind == RPlug ==> r == "c(" + Join(", ", RenderAtoms(value)) + ")"
      ensures kind == PyPlug ==> r == "(" + Join(", ", RenderAtoms(value)) + ")"
    {
      match kind
      case BasePlug => Join(" ", RenderAtoms(value))
      case RPlug => "c(" + Join(", ", RenderAtoms(value)) + ")"
      case PyPlug => "(" + Join(", ", RenderAtoms(value)) + ")"
    }

    /** The statement that saves the output variables. */
    function SaveCall(outputVars: seq<string>): (r: string)
      requires kind != BasePlug
      ensures |r| > 0 && !IsSpace(r[0]) && r[|r| - 1] == ')'
    {
      if kind == RPlug then
        "saveRDS(list(" + Join(", ", seq(|outputVars|, i requires 0 <= i < |outputVars| =>
          outputVars[i] + "=" + outputVars[i])) + "), ${_output!r})"
      else
        "save_rds({" + Join(", ", seq(|outputVars|, i requires 0 <= i < |outputVars| =>
          "\"" + outputVars[i] + "\": " + outputVars[i])) + "}, ${_output!r})"
    }

    /** `get_return(output_vars)`: the return aliases followed by the save
        statement, white space stripped at both ends; empty for the base
        class. */
    function GetReturn(outputVars: seq<string>): (r: string)
      reads this
      ensures kind == BasePlug ==> r == ""
      ensures kind != BasePlug ==> EndsWith(r, SaveCall(outputVars))
      ensures kind != BasePlug && returnAlias == [] ==> r == SaveCall(outputVars)
      ensures kind != BasePlug ==> r == StripLeft(Join("\n", returnAlias) + "\n") + SaveCall(outputVars)
    {
      if kind == BasePlug then ""
      else
        StripAfterAliases(returnAlias, SaveCall(outputVars));
        Strip(Join("\n", returnAlias) + "\n" + SaveCall(outputVars))
    }

    /** The text that makes the library paths available. */
    function LibPrelude(lib: Option<seq<string>>): string
      requires kind != BasePlug
    {
      match lib
      case None => ""
      case Some(dirs) =>
        if kind == RPlug then
          "\nDSC_LIBPATH <- c(" + Join(",", seq(|dirs|, i requires 0 <= i < |dirs| => Repr(dirs[i]))) + ")" + RSource
        else
          "\nimport sys, os" + PathLines(dirs)
    }

    static function PathLines(dirs: seq<string>): string
    {
      Concat(seq(|dirs|, i requires 0 <= i < |dirs| => PathLine(dirs[i])))
    }

    static function PathLine(dir: string): string
    {
      "\nsys.path.append(os.path.abspath(\"" + dir + "\"))"
    }

    /** The library prelude as `get_input` builds it, one path line per
        directory for Python. */
    method LibText(lib: Option<seq<string>>) returns (res: string)
      requires kind != BasePlug
      ensures res == LibPrelude(lib)
    {
      if lib.None? {
        return "";
      }
      var dirs := lib.value;
      if kind == RPlug {
        return "\nDSC_LIBPATH <- c(" + Join(",", seq(|dirs|, i requires 0 <= i < |dirs| => Repr(dirs[i]))) + ")" + RSource;
      }
      var paths := PathText(dirs);
      res := "\nimport sys, os" + paths;
    }

    /** The loop adding one `sys.path` line per library directory. */
    static method PathText(dirs: seq<string>) returns (acc: string)
      ensures acc == PathLines(dirs)
    {
      ghost var lines := seq(|dirs|, i requires 0 <= i < |dirs| => PathLine(dirs[i]));
      acc := "";
      var i := 0;
      while i < |dirs|
        invariant 0 <= i <= |dirs|
        invariant acc == Concat(lines[..i])
      {
        assert lines[..i + 1] == lines[..i] + [PathLine(dirs[i])];
        ConcatSnoc(lines[..i], PathLine(dirs[i]));
        acc := acc + PathLine(dirs[i]);
        i := i + 1;
      }
      assert lines[..|dirs|] == lines;
    }

    function LoadMultiIn(): string
      requires kind != BasePlug
    {
      if kind == RPlug then
        RLmerge + "\n" + identifier + " <- list()" +
        "\ninput.files <- c(${_input!r,})\nfor (i in 1:length(input.files)) " +
        identifier + " <- DSC_LMERGE(" + identifier + ", readRDS(input.files[i]))"
      else
        "\n" + identifier + " = {}" + "\nfor item in [${_input!r,}]:\n\t" + identifier + ".update(load_rds(item))"
    }

    function LoadSingleIn(): string
      requires kind != BasePlug
    {
      if kind == RPlug then "\n" + identifier + " <- readRDS(\"${_input}\")"
      else "\n" + identifier + " = load_rds(\"${_input}\")"
    }

    function LoadOut(): string
      requires kind != BasePlug
    {
      if kind == RPlug then "\nattach(readRDS(\"${_output}\"), warn.conflicts = F)"
      else "\nglobals().update(load_rds(\"${_output}\"))"
    }

    /** The input-loading block: several files merged when there is more
        than one input, one file read when there is exactly one, nothing
        otherwise; the previous output is attached as well exactly when
        there is at least one input and this is not the first command. */
    function LoadInputs(inputNum: int, index: int): (r: string)
      requires kind != BasePlug
      ensures inputNum > 1 ==> StartsWith(r, LoadMultiIn())
      ensures inputNum == 1 ==> StartsWith(r, LoadSingleIn())
      ensures inputNum >= 1 && index > 0 ==> EndsWith(r, LoadOut())
      ensures inputNum < 1 ==> r == ""
      ensures inputNum >= 1 && index <= 0 ==> r == if inputNum > 1 then LoadMultiIn() else LoadSingleIn()
      ensures inputNum >= 1 && index > 0 ==>
        |r| == (if inputNum > 1 then |LoadMultiIn()| else |LoadSingleIn()|) + |LoadOut()|
    {
      var load := if inputNum > 1 then LoadMultiIn() else if inputNum == 1 then LoadSingleIn() else "";
      load + (if inputNum >= 1 && index > 0 then LoadOut() else "")
    }

    /** Python scripts import the RDS helpers. */
    function ImportLine(): string
    {
      if kind == PyPlug then "\nfrom dsc.utils import save_rds, load_rds" else ""
    }

    /** Everything `get_input` writes before the seed line. */
    function InputHead(inputNum: int, lib: Option<seq<string>>, index: int): string
      reads this
      requires kind != BasePlug
    {
      LibPrelude(lib) + ImportLine() +
      LoadInputs(inputNum, index) + "\n" + Join("\n", inputAlias)
    }

    function SeedLine(): string
      requires kind != BasePlug
    {
      if kind == RPlug then "\nset.seed(${_seed})"
      else "\nimport random, numpy\nrandom.seed(${_seed})\nnumpy.random.seed(${_seed})"
    }

    /** The parameters that get their own assignment line: those not held
        in a container, `seed` (handled by the seed line) taken out once. */
    function ParamKeys(params: seq<string>): (keys: seq<string>)
      reads this
      ensures forall k :: k != "seed" ==> (k in keys <==> k in params && k !in containerVars)
      ensures IsSubseq(keys, params)
      ensures NoDup(params) ==> "seed" !in keys
      ensures multiset(keys) == multiset(NotIn(params, containerVars)) - multiset{"seed"}
    {
      var kept := NotIn(params, containerVars);
      RemoveFirstLess(kept, "seed");
      assert NoDup(params) ==> "seed" !in RemoveFirst(kept, "seed") by {
        if NoDup(params) && "seed" in kept {
          NoDupCount(params, "seed");
          RemoveFirstCount(kept, "seed");
        }
      }
      RemoveFirstKeeps(kept, "seed");
      IsSubseqTrans(RemoveFirst(kept, "seed"), kept, params);
      RemoveFirst(kept, "seed")
    }

    /** `seed` is set exactly when it is a parameter not held in a container. */
    function SetsSeed(params: seq<string>): (b: bool)
      reads this
      ensures b <==> "seed" in params && "seed" !in containerVars
    {
      "seed" in NotIn(params, containerVars)
    }

    function ParamLine(k: string): string
      requires kind != BasePlug
    {
      "\n" + k + Assign() + "${_" + k + "}"
    }

    function ParamLines(keys: seq<string>): (r: string)
      requires kind != BasePlug
    {
      if |keys| == 0 then "" else ParamLines(keys[..|keys| - 1]) + ParamLine(keys[|keys| - 1])
    }

    /** How the command arguments end the script; `res` is the text so far. */
    function CmdText(res: string, texts: seq<string>): string
      requires kind != BasePlug
    {
      if kind == RPlug then res + Concat(texts)
      else (if res == "" then "\nimport sys" else res) + "\nsys.argv.extend([" + Join(", ", texts) + "])"
    }

    /** The part of the generated input block that precedes the command
        arguments: library paths, input loading, input aliases, the seed
        line and the containers. */
    function Preamble(params: seq<string>, inputNum: int, lib: Option<seq<string>>, index: int): string
      reads this
      requires kind != BasePlug
    {
      InputHead(inputNum, lib, index) + (if SetsSeed(params) then SeedLine() else "") + Join("\n", container)
    }

    /** `get_input(params, input_num, lib, index, cmd_args)`. Returns the
        script text (or the exception) and the parameter list as the call
        leaves it, since the method removes the parameters the command
        arguments use from the caller's list. */
    method GetInput(params: seq<string>, inputNum: int, lib: Option<seq<string>>, index: int,
                    cmdArgs: Option<seq<string>>)
      returns (r: Result<string>, paramsOut: seq<string>)
      ensures kind == BasePlug ==> r == Ok("") && paramsOut == params
      ensures kind != BasePlug ==>
        var res := Preamble(params, inputNum, lib, index);
        if cmdArgs.None? || cmdArgs.value == [] then
          r == Ok(res + ParamLines(ParamKeys(params))) && paramsOut == params
        else
          var (texts, left) := CmdArgs(kind, cmdArgs.value, params);
          paramsOut == left &&
          (texts.Err? ==> r == Err(texts.error)) &&
          (texts.Ok? ==> r == Ok(CmdText(res, texts.value) + ParamLines(ParamKeys(params))))
    {
      if kind == BasePlug {
        return Ok(""), params;
      }
      var res, keys := WritePreamble(params, inputNum, lib, index);
      paramsOut := params;
      if cmdArgs.Some? && cmdArgs.value != [] {
        var texts;
        texts, paramsOut := RunCmdArgs(cmdArgs.value, params);
        if texts.Err? {
          return Err(texts.error), paramsOut;
        }
        res := CmdText(res, texts.value);
      }
      var tail := EmitParams(keys);
      r := Ok(res + tail);
    }

    /** The first part of `get_input`: the text before the command
        arguments and the parameters that get an assignment line. */
    method WritePreamble(params: seq<string>, inputNum: int, lib: Option<seq<string>>, index: int)
      returns (res: string, keys: seq<string>)
      requires kind != BasePlug
      ensures res == Preamble(params, inputNum, lib, index) && keys == ParamKeys(params)
    {
      res := LibText(lib);
      res := res + ImportLine();
      res := res + LoadInputs(inputNum, index) + "\n" + Join("\n", inputAlias);
      assert res == InputHead(inputNum, lib, index);
      keys := NotIn(params, containerVars);
      if "seed" in keys {
        res := res + SeedLine();
        keys := RemoveFirst(keys, "seed");
      } else {
        assert res + "" == res;
      }
      res := res + Join("\n", container);
    }

    /** The loop over the command arguments of `get_input`. */
    method RunCmdArgs(args: seq<string>, params: seq<string>)
      returns (texts: Result<seq<string>>, paramsOut: seq<string>)
      requires kind != BasePlug
      ensures (texts, paramsOut) == CmdArgs(kind, args, params)
    {
      var done: seq<string> := [];
      paramsOut := params;
      var i := 0;
      assert args[0..] == args;
      PrependNothing(CmdArgs(kind, args, params));
      while i < |args|
        invariant 0 <= i <= |args|
        invariant CmdArgs(kind, args, params) == Prepend(done, CmdArgs(kind, args[i..], paramsOut))
      {
        var (one, next) := CmdArg(kind, args[i], paramsOut);
        assert args[i..][1..] == args[i + 1..];
        if one.Err? {
          return Err(one.error), next;
        }
        PrependTwice(done, one.value, CmdArgs(kind, args[i + 1..], next));
        done := done + [one.value];
        paramsOut := next;
        i := i + 1;
      }
      assert done + [] == done;
      texts := Ok(done);
    }

    /** The loop writing one assignment line per parameter key. */
    method EmitParams(keys: seq<string>) returns (tail: string)
      requires kind != BasePlug
      ensures tail == ParamLines(keys)
    {
      tail := "";
      var j := 0;
      while j < |keys|
        invariant 0 <= j <= |keys|
        invariant tail == ParamLines(keys[..j])
      {
        assert keys[..j + 1][..j] == keys[..j];
        tail := tail + ParamLine(keys[j]);
        j := j + 1;
      }
      assert keys[..|keys|] == keys;
    }
  }

  /** The factory `Plugin(key, identifier)`: a fresh plugin of the class
      `PluginKind` selects, with empty lists. */
  method MakePlugin(key: Option<string>, identifier: string) returns (p: Plug)
    ensures fresh(p)
    ensures (p.kind, p.name) == PluginKind(key)
    ensures p.identifier == "DSC_" + Upper(identifier)
    ensures p.container == [] && p.containerVars == [] && p.returnAlias == [] && p.inputAlias == []
  {
    if key.None? {
      p := new Plug.Base(None, identifier);
    } else if Upper(key.value) == "R" {
      p := new Plug.R(identifier);
    } else if Upper(key.value) == "PY" {
      p := new Plug.Py(identifier);
    } else {
      p := new Plug.Base(Some(""), identifier);
    }
  }

  /** A command argument that names a parameter missing from the list
      (or, for R, is not one `lhs=rhs` pair) makes `get_input` fail,
      wherever it stands: the arguments before it only ever take
      parameters out of the list. */
  lemma {:induction false} CmdArgsRejectBad(kind: PlugKind, args: seq<string>, params: seq<string>, i: nat)
    requires kind != BasePlug
    requires i < |args| && BadCmdArg(kind, args[i], params)
    ensures CmdArgs(kind, args, params).0.Err?
    decreases i
  {
    if i > 0 {
      var (one, params1) := CmdArg(kind, args[0], params);
      if one.Ok? {
        assert args[1..][i - 1] == args[i];
        CmdArgsRejectBad(kind, args[1..], params1, i - 1);
      }
    }
  }

  /** Each string quoted with `repr`. */
  function Quoted(items: seq<string>): (r: seq<string>)
    ensures |r| == |items| && forall j :: 0 <= j < |items| ==> r[j] == Repr(items[j])
  {
    seq(|items|, j requires 0 <= j < |items| => Repr(items[j]))
  }

  /** Python command arguments without `$` are passed through quoted, in
      order, and leave the parameter list alone. */
  lemma {:induction false} CmdArgsLiteral(kind: PlugKind, args: seq<string>, params: seq<string>)
    requires kind == PyPlug
    requires forall j :: 0 <= j < |args| ==> !StartsWith(args[j], "$")
    ensures CmdArgs(kind, args, params) == (Ok(Quoted(args)), params)
    decreases |args|
  {
    if |args| > 0 {
      assert CmdArg(kind, args[0], params) == (Ok(Repr(args[0])), params);
      CmdArgsLiteral(kind, args[1..], params);
      assert [Repr(args[0])] + Quoted(args[1..]) == Quoted(args);
    }
  }

  lemma PrependNothing(r: (Result<seq<string>>, seq<string>))
    ensures Prepend([], r) == r
  {
    if r.0.Ok? {
      assert [] + r.0.value == r.0.value;
    }
  }

  lemma PrependTwice(done: seq<string>, one: string, r: (Result<seq<string>>, seq<string>))
    ensures Prepend(done, Prepend([one], r)) == Prepend(done + [one], r)
  {
    if r.0.Ok? {
      assert done + ([one] + r.0.value) == (done + [one]) + r.0.value;
    }
  }

  /** Removing leading white space stops at the first other character. */
  lemma {:induction false} StripLeftConcat(p: string, q: string)
    requires |q| > 0 && !IsSpace(q[0])
    ensures EndsWith(StripLeft(p + q), q)
    decreases |p|
  {
    if |p| == 0 {
      assert p + q == q;
    } else if IsSpace(p[0]) {
      assert (p + q)[1..] == p[1..] + q;
      StripLeftConcat(p[1..], q);
    } else {
      assert (p + q)[..|p|] == p;
    }
  }

  /** Leading white space is removed from `p + q` as from `p`, when `q`
      starts with a visible character. */
  lemma {:induction false} StripLeftAppend(p: string, q: string)
    requires |q| > 0 && !IsSpace(q[0])
    ensures StripLeft(p + q) == StripLeft(p) + q
    decreases |p|
  {
    if |p| == 0 {
      assert p + q == q;
    } else if IsSpace(p[0]) {
      assert (p + q)[1..] == p[1..] + q;
      StripLeftAppend(p[1..], q);
    } else {
      assert (p + q)[0] == p[0];
    }
  }

  /** `strip()` keeps a tail that starts and ends with visible characters. */
  lemma StripKeepsTail(p: string, q: string)
    requires |q| > 0 && !IsSpace(q[0]) && !IsSpace(q[|q| - 1])
    ensures EndsWith(Strip(p + q), q)
  {
    StripLeftConcat(p, q);
    var l := StripLeft(p + q);
    assert l[|l| - 1] == q[|q| - 1];
  }

  /** The alias lines, a newline, then a visible-ended statement: stripping
      keeps the statement, and leaves only it when there are no aliases. */
  lemma {:induction false} StripAfterAliases(aliases: seq<string>, q: string)
    requires |q| > 0 && !IsSpace(q[0]) && !IsSpace(q[|q| - 1])
    ensures EndsWith(Strip(Join("\n", aliases) + "\n" + q), q)
    ensures aliases == [] ==> Strip(Join("\n", aliases) + "\n" + q) == q
    ensures Strip(Join("\n", aliases) + "\n" + q) == StripLeft(Join("\n", aliases) + "\n") + q
  {
    var p := Join("\n", aliases) + "\n";
    assert p + q == Join("\n", aliases) + "\n" + q;
    StripVisibleTail(p, q);
    if aliases == [] {
      NoAliasesLeft(aliases);
    }
  }

  lemma NoAliasesLeft(aliases: seq<string>)
    requires aliases == []
    ensures StripLeft(Join("\n", aliases) + "\n") == ""
  {
    var p := Join("\n", aliases) + "\n";
    assert p == "\n" && IsSpace(p[0]) && p[1..] == "";
  }

  /** Stripping `p + q`, `q` starting and ending with visible characters,
      strips only the front of `p`. */
  lemma {:induction false} StripVisibleTail(p: string, q: string)
    requires |q| > 0 && !IsSpace(q[0]) && !IsSpace(q[|q| - 1])
    ensures Strip(p + q) == StripLeft(p) + q
    ensures EndsWith(StripLeft(p) + q, q)
  {
    var l := StripLeft(p);
    StripLeftAppend(p, q);
    assert (l + q)[|l + q| - 1] == q[|q| - 1];
    StripNoop(l + q);
    assert (l + q)[|l|..] == q;
  }

  /** White space followed by a visible-ended text strips to that text. */
  lemma StripOfSpacesThen(p: string, q: string)
    requires forall i :: 0 <= i < |p| ==> IsSpace(p[i])
    requires |q| > 0 && !IsSpace(q[0]) && !IsSpace(q[|q| - 1])
    ensures Strip(p + q) == q
  {
    StripLeftOfSpaces(p, q);
    StripNoop(q);
  }

  lemma {:induction false} StripLeftOfSpaces(p: string, q: string)
    requires forall i :: 0 <= i < |p| ==> IsSpace(p[i])
    requires |q| > 0 && !IsSpace(q[0])
    ensures StripLeft(p + q) == q
    decreases |p|
  {
    if |p| == 0 {
      assert p + q == q;
    } else {
      assert (p + q)[1..] == p[1..] + q;
      StripLeftOfSpaces(p[1..], q);
    }
  }
}
