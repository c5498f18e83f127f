/** The class `DSC_Translator` of `src/dsc_translator.py` as an object: its
    constructor runs the two loops of `__init__` step by step and installs
    the local libraries, `filter_execution` updates the job text and the
    last steps in place. Every loop is proved to compute the functions of
    the modules `Translator` and `LibCache`, whose properties are proved
    there. */
module DscTranslation {
  import opened Common
  import opened Utils
  import opened StepTranslation
  import opened Translator
  import opened LibCache

  /** `inspect.getsource(n2a)`; not part of this model. */
  const N2aSource: string

  const JobImports := "import msgpack\nfrom collections import OrderedDict\n"
  const JobLoad := "IO_DB = msgpack.unpackb(open('"
  const JobLoadEnd := ".conf.mpk', 'rb').read(), encoding = 'utf-8', object_pairs_hook = OrderedDict)\n\n"

  /** `job_header`. */
  function JobHeader(output: string, db: string): string
  {
    JobImports + JobLoad + output + "/" + db + JobLoadEnd + N2aSource + "\n"
  }

  /** `os.path.basename(p)`: what follows the last `/`, that is the
      longest end of `p` without a `/`. */
  function Basename(p: string): (r: string)
    ensures '/' !in r && |r| <= |p| && p[|p| - |r|..] == r
    ensures |r| == |p| || p[|p| - |r| - 1] == '/'
  {
    var parts := Split(p, '/');
    JoinSplit(p, '/');
    JoinLast(['/'], parts);
    parts[|parts| - 1]
  }

  /** The last part ends the joined string, right after a separator when
      there are several parts. */
  lemma JoinLast(sep: string, parts: seq<string>)
    requires |parts| > 0
    ensures var j := Join(sep, parts); var l := parts[|parts| - 1];
      |l| <= |j| && j[|j| - |l|..] == l &&
      (|parts| == 1 ==> j == l) &&
      (|parts| > 1 ==> |l| + |sep| <= |j| && j[|j| - |l| - |sep|..|j| - |l|] == sep)
  {
  }

  // ---------------------------------------------------------------------
  // An error stops a fold: the results of longer prefixes are the same error

  lemma {:induction false} ResolveStepsErrLater(acc: Resolved, w: nat, keys: seq<string>, steps: seq<Step>,
                                                k: nat, cs: Compilers)
    requires w in acc.stepMap && forall s :: s in steps ==> s.name in keys
    requires k <= |steps|
    requires ResolveSteps(acc, w, keys, steps[..k], cs).Err?
    ensures ResolveSteps(acc, w, keys, steps, cs) == ResolveSteps(acc, w, keys, steps[..k], cs)
    decreases |steps| - k
  {
    if k < |steps| {
      var init := steps[..|steps| - 1];
      assert init[..k] == steps[..k];
      assert forall s :: s in init ==> s in steps;
      ResolveStepsErrLater(acc, w, keys, init, k, cs);
      ResolveStepsErrStep(acc, w, keys, steps, cs);
    } else {
      assert steps[..k] == steps;
    }
  }

  lemma ResolveStepsErrStep(acc: Resolved, w: nat, keys: seq<string>, steps: seq<Step>, cs: Compilers)
    requires w in acc.stepMap && forall s :: s in steps ==> s.name in keys
    requires |steps| > 0 && ResolveSteps(acc, w, keys, steps[..|steps| - 1], cs).Err?
    ensures ResolveSteps(acc, w, keys, steps, cs) == ResolveSteps(acc, w, keys, steps[..|steps| - 1], cs)
  {
  }

  lemma {:induction false} ResolveErrLater(workflows: seq<seq<Step>>, k: nat, cs: Compilers)
    requires k <= |workflows| && Resolve(workflows[..k], cs).Err?
    ensures Resolve(workflows, cs) == Resolve(workflows[..k], cs)
    decreases |workflows| - k
  {
    if k < |workflows| {
      var init := workflows[..|workflows| - 1];
      assert init[..k] == workflows[..k];
      ResolveErrLater(init, k, cs);
    } else {
      assert workflows[..k] == workflows;
    }
  }

  lemma {:induction false} PoolErrLater(w: nat, sequence: seq<string>, k: nat, m: nat,
                                        signatures: map<string, seq<string>>,
                                        jobPool: seq<(Pair, string)>, lastSteps: seq<Pair>)
    requires k <= m <= |sequence| && Pool(w, sequence, k, signatures, jobPool, lastSteps).Err?
    ensures Pool(w, sequence, m, signatures, jobPool, lastSteps) == Pool(w, sequence, k, signatures, jobPool, lastSteps)
    decreases m - k
  {
    if k < m {
      PoolErrLater(w, sequence, k, m - 1, signatures, jobPool, lastSteps);
    }
  }

  lemma {:induction false} ExecuteErrLater(db: string, sequences: seq<seq<string>>, k: nat, r: Resolved)
    requires k <= |sequences| && Execute(db, sequences[..k], r).Err?
    ensures Execute(db, sequences, r) == Execute(db, sequences[..k], r)
    decreases |sequences| - k
  {
    if k < |sequences| {
      var init := sequences[..|sequences| - 1];
      assert init[..k] == sequences[..k];
      ExecuteErrLater(db, init, k, r);
    } else {
      assert sequences[..k] == sequences;
    }
  }

  lemma {:induction false} IncludedErrLater(stepMap: map<nat, StepMap>, pool: seq<(Pair, string)>, k: nat)
    requires k <= |pool| && Included(stepMap, pool[..k]).Err?
    ensures Included(stepMap, pool) == Included(stepMap, pool[..k])
    decreases |pool| - k
  {
    if k < |pool| {
      var init := pool[..|pool| - 1];
      assert init[..k] == pool[..k];
      IncludedErrLater(stepMap, init, k);
    } else {
      assert pool[..k] == pool;
    }
  }

  lemma ResolveStepsSnoc(acc: Resolved, w: nat, keys: seq<string>, steps: seq<Step>, j: nat, cs: Compilers)
    requires w in acc.stepMap && forall s :: s in steps ==> s.name in keys
    requires j < |steps| && ResolveSteps(acc, w, keys, steps[..j], cs).Ok?
    ensures ResolveSteps(acc, w, keys, steps[..j + 1], cs) ==
      ResolveStep(ResolveSteps(acc, w, keys, steps[..j], cs).value, w, keys, steps[j], cs)
  {
    assert steps[..j + 1][..j] == steps[..j] && steps[..j + 1][j] == steps[j];
  }

  lemma PoolSnoc(w: nat, sequence: seq<string>, k: nat, signatures: map<string, seq<string>>,
                 jobPool: seq<(Pair, string)>, lastSteps: seq<Pair>)
    requires 0 < k <= |sequence| && sequence[k - 1] in signatures
    requires Pool(w, sequence, k - 1, signatures, jobPool, lastSteps).Ok?
    ensures var acc := Pool(w, sequence, k - 1, signatures, jobPool, lastSteps).value;
      var y := sequence[k - 1];
      Pool(w, sequence, k, signatures, jobPool, lastSteps) ==
        Ok((Insert(acc.0, Pair(y, w), EntryText(w, y, signatures[y], k)),
            if k == |sequence| then acc.1 + [Pair(y, w)] else acc.1))
  {
  }

  class DscTranslator {
    var output: string
    var db: string
    /** `self.step_map`. */
    var stepMap: map<nat, StepMap>
    /** `self.job_pool`, an ordered dictionary. */
    var jobPool: seq<(Pair, string)>
    var lastSteps: seq<Pair>
    var jobStr: string
    /** `conf_str`, the pieces `conf_str_py` is assembled from. */
    var confStr: seq<string>

    constructor Of(output: string, r: Resolved, e: Execution)
      ensures this.output == output && db == Basename(output) && stepMap == r.stepMap
      ensures jobPool == e.jobPool && lastSteps == e.lastSteps && confStr == e.confStr
      ensures jobStr == JobHeader(output, Basename(output)) + "\n" + Join("\n", r.jobStr)
    {
      this.output := output;
      db := Basename(output);
      stepMap := r.stepMap;
      jobPool := e.jobPool;
      lastSteps := e.lastSteps;
      confStr := e.confStr;
      jobStr := JobHeader(output, Basename(output)) + "\n" + Join("\n", r.jobStr);
    }

    /** `__init__`: the two loops, then, on the local host, the libraries'
        installation (in the layout with one family of cache files per
        library type). The file store and the installers are parameters;
        the new store is returned. */
    static method Init(output: string, workflows: seq<seq<Step>>, sequences: seq<seq<string>>, conf: HostConf,
                       scripts: set<string>, rlibs: seq<string>, pymodules: seq<string>,
                       store: map<string, string>, installer: (LibType, string) -> bool)
      returns (t: Result<DscTranslator>, store': map<string, string>)
      ensures var res := Resolve(workflows, CompilersOf(conf, scripts));
        res.Err? ==> t.Err? && t.error == res.error
      ensures var res := Resolve(workflows, CompilersOf(conf, scripts));
        res.Ok? && Execute(Basename(output), sequences, res.value).Err? ==>
          t.Err? && t.error == Execute(Basename(output), sequences, res.value).error
      ensures var res := Resolve(workflows, CompilersOf(conf, scripts));
        var libs := LocalLibs(store, Basename(output), rlibs, pymodules, installer, true);
        res.Ok? && Execute(Basename(output), sequences, res.value).Ok? && conf.None? && libs.Err? ==>
          t.Err? && t.error == libs.error
      ensures t.Ok? ==>
        var res := Resolve(workflows, CompilersOf(conf, scripts));
        var libs := LocalLibs(store, Basename(output), rlibs, pymodules, installer, true);
        res.Ok? && Execute(Basename(output), sequences, res.value).Ok? && (conf.None? ==> libs.Ok?) &&
        var e := Execute(Basename(output), sequences, res.value).value;
        fresh(t.value) && t.value.db == Basename(output) && t.value.stepMap == res.value.stepMap &&
        t.value.jobPool == e.jobPool && t.value.lastSteps == e.lastSteps && t.value.confStr == e.confStr &&
        t.value.jobStr == JobHeader(output, Basename(output)) + "\n" + Join("\n", res.value.jobStr) &&
        store' == if conf.None? then libs.value.0 else store
      ensures var res := Resolve(workflows, CompilersOf(conf, scripts));
        var libs := LocalLibs(store, Basename(output), rlibs, pymodules, installer, true);
        res.Ok? && Execute(Basename(output), sequences, res.value).Ok? && (conf.None? ==> libs.Ok?) ==> t.Ok?
    {
      store' := store;
      var db := Basename(output);
      var res := ResolveAll(workflows, conf, scripts);
      if res.Err? {
        return Err(res.error), store;
      }
      var ex := ExecuteAll(db, sequences, res.value);
      if ex.Err? {
        return Err(ex.error), store;
      }
      var x := new DscTranslator.Of(output, res.value, ex.value);
      if conf.None? {
        var rl := x.InstallLibs(rlibs, "R_library", store, installer);
        if rl.Err? {
          return Err(rl.error), store;
        }
        var pl := x.InstallLibs(pymodules, "Python_Module", rl.value.0, installer);
        if pl.Err? {
          return Err(pl.error), store;
        }
        store' := pl.value.0;
      }
      t := Ok(x);
    }

    /** The first loop of `__init__`, over the pipelines. */
    static method ResolveAll(workflows: seq<seq<Step>>, conf: HostConf, scripts: set<string>)
      returns (r: Result<Resolved>)
      ensures r == Resolve(workflows, CompilersOf(conf, scripts))
    {
      ghost var cs := CompilersOf(conf, scripts);
      var acc := Unresolved;
      var k := 0;
      while k < |workflows|
        invariant 0 <= k <= |workflows|
        invariant Resolve(workflows[..k], cs) == Ok(acc)
      {
        var wf := workflows[k];
        assert workflows[..k + 1][..k] == workflows[..k] && workflows[..k + 1][k] == wf;
        NamesOfSteps(wf);
        var next := ResolvePipeline(OpenPipeline(acc, k + 1), k + 1, Names(wf), wf, conf, scripts);
        if next.Err? {
          ResolveErrLater(workflows, k + 1, cs);
          return next;
        }
        acc := next.value;
        k := k + 1;
      }
      assert workflows[..|workflows|] == workflows;
      r := Ok(acc);
    }

    /** The inner loop of the first loop, over the steps of pipeline `w`. */
    static method ResolvePipeline(start: Resolved, w: nat, keys: seq<string>, wf: seq<Step>, conf: HostConf,
                                  scripts: set<string>) returns (r: Result<Resolved>)
      requires w in start.stepMap && forall s :: s in wf ==> s.name in keys
      ensures r == ResolveSteps(start, w, keys, wf, CompilersOf(conf, scripts))
    {
      ghost var cs := CompilersOf(conf, scripts);
      var acc := start;
      var j := 0;
      while j < |wf|
        invariant 0 <= j <= |wf| && w in acc.stepMap
        invariant forall s :: s in wf[..j] ==> s.name in keys
        invariant ResolveSteps(start, w, keys, wf[..j], cs) == Ok(acc)
      {
        assert wf[j] in wf && forall s :: s in wf[..j + 1] ==> s in wf;
        ResolveStepsSnoc(start, w, keys, wf, j, cs);
        var next := ResolveOne(acc, w, keys, wf[j], conf, scripts);
        if next.Err? {
          ResolveStepsErrLater(start, w, keys, wf, j + 1, cs);
          return next;
        }
        acc := next.value;
        j := j + 1;
      }
      assert wf[..|wf|] == wf;
      r := Ok(acc);
    }

    /** The body of the first loop for one step of pipeline `w`. */
    static method ResolveOne(acc: Resolved, w: nat, keys: seq<string>, step: Step, conf: HostConf,
                             scripts: set<string>) returns (r: Result<Resolved>)
      requires w in acc.stepMap && step.name in keys
      ensures r == ResolveStep(acc, w, keys, step, CompilersOf(conf, scripts))
    {
      var key := KeyOf(keys, step);
      if key in acc.processed {
        return Ok(acc.(stepMap := acc.stepMap[w := acc.stepMap[w][step.name := acc.processed[key]]]));
      }
      var pair := Pair(step.name, w);
      var sm := acc.stepMap[w][step.name := pair];
      var a := acc.(stepMap := acc.stepMap[w := sm]);
      var cs := CompilersOf(conf, scripts);
      assert cs.job(step) == Compile(step, None, conf, scripts) && cs.config(step, sm) == Compile(step, Some(sm), None, scripts);
      if step.name !in ProcessedNames(a.processed) {
        var job := StepTranslator.Make(step, None, conf, scripts);
        if job.Err? {
          return Err(job.error);
        }
        a := a.(jobStr := a.jobStr + [job.value.Dump()],
                exeSignatures := a.exeSignatures[step.name := job.value.exeSignature]);
      }
      var config := StepTranslator.Make(step, Some(sm), None, scripts);
      if config.Err? {
        return Err(config.error);
      }
      r := Ok(a.(processed := a.processed[key := pair], confDict := a.confDict[pair := config.value.Dump()]));
    }

    /** The second loop of `__init__`, over the pipelines' sequences. */
    static method ExecuteAll(db: string, sequences: seq<seq<string>>, r: Resolved) returns (res: Result<Execution>)
      ensures res == Execute(db, sequences, r)
    {
      var e := NoExecution;
      var k := 0;
      while k < |sequences|
        invariant 0 <= k <= |sequences|
        invariant Execute(db, sequences[..k], r) == Ok(e)
      {
        assert sequences[..k + 1][..k] == sequences[..k] && sequences[..k + 1][k] == sequences[k];
        var next := ExecuteOne(e, db, k + 1, sequences[k], r);
        if next.Err? {
          ExecuteErrLater(db, sequences, k + 1, r);
          return next;
        }
        e := next.value;
        k := k + 1;
      }
      assert sequences[..|sequences|] == sequences;
      res := Ok(e);
    }

    /** The body of the second loop for the sequence of pipeline `w`, with
        the inner loop that fills the execution pool. */
    static method ExecuteOne(e: Execution, db: string, w: nat, sequence: seq<string>, r: Resolved)
      returns (res: Result<Execution>)
      ensures res == ExecSequence(e, db, w, sequence, r)
    {
      var sq := Sqn(r.stepMap, w, sequence);
      if sq.Err? {
        return Err(sq.error);
      }
      var sqn := sq.value;
      var pairs := NewPairs(sqn, e.configured);
      var confs := ConfTexts(r.confDict, pairs);
      if confs.Err? {
        return Err(confs.error);
      }
      var e1 := e;
      if |confs.value| > 0 {
        e1 := e.(confStr := e.confStr + [ConfHeader(db, w, sqn)] + confs.value,
                 ioInfoFiles := e.ioInfoFiles + [IoInfoFile(db, w)]);
      }
      e1 := e1.(confPairs := e.confPairs + pairs, configured := e.configured + set x | x in sqn);
      var pool := FillPool(w, sequence, r.exeSignatures, e1.jobPool, e1.lastSteps);
      if pool.Err? {
        return Err(pool.error);
      }
      res := Ok(e1.(jobPool := pool.value.0, lastSteps := pool.value.1));
    }

    /** The inner loop of the second loop: the pool entry of every step of
        the sequence, and the sequence's last step. */
    static method FillPool(w: nat, sequence: seq<string>, signatures: map<string, seq<string>>,
                           jobPool: seq<(Pair, string)>, lastSteps: seq<Pair>)
      returns (r: Result<(seq<(Pair, string)>, seq<Pair>)>)
      ensures r == Pool(w, sequence, |sequence|, signatures, jobPool, lastSteps)
    {
      var pool := jobPool;
      var last := lastSteps;
      var ii := 1;
      while ii <= |sequence|
        invariant 1 <= ii <= |sequence| + 1
        invariant Pool(w, sequence, ii - 1, signatures, jobPool, lastSteps) == Ok((pool, last))
      {
        var y := sequence[ii - 1];
        if y !in signatures {
          PoolErrLater(w, sequence, ii, |sequence|, signatures, jobPool, lastSteps);
          return Err(KeyError(y));
        }
        var text := EntryText(w, y, signatures[y], ii);
        PoolSnoc(w, sequence, ii, signatures, jobPool, lastSteps);
        if ii == |sequence| {
          last := last + [Pair(y, w)];
        }
        pool := Insert(pool, Pair(y, w), text);
        ii := ii + 1;
      }
      r := Ok((pool, last));
    }

    /** `filter_execution`: appends the included pool entries and the
        `[DSC]` section to `job_str` and keeps the included last steps. On
        an error the object may be left partly updated. */
    method FilterExecution() returns (err: Option<Error>)
      modifies this`jobStr, this`lastSteps
      ensures var f := Translator.FilterExecution(old(stepMap), old(jobPool), old(lastSteps), old(jobStr));
        (err.Some? <==> f.Err?) && (err.Some? ==> err.value == f.error) &&
        (f.Ok? ==> jobStr == f.value.0 && lastSteps == f.value.1)
      ensures output == old(output) && db == old(db) && stepMap == old(stepMap) && jobPool == old(jobPool)
      ensures confStr == old(confStr)
    {
      var included := AppendIncluded();
      if included.Err? {
        return Some(included.error);
      }
      lastSteps := KeepIncluded(lastSteps, included.value);
      jobStr := jobStr + DscSection(lastSteps);
      err := None;
    }

    /** The loop of `filter_execution`: the pool entries whose pair is
        canonical are appended to `job_str`, and their pairs returned. */
    method AppendIncluded() returns (r: Result<seq<Pair>>)
      modifies this`jobStr
      ensures var inc := Included(stepMap, jobPool);
        (r.Err? <==> inc.Err?) && (r.Err? ==> r.error == inc.error) &&
        (r.Ok? ==> r.value == inc.value.0 && jobStr == old(jobStr) + inc.value.1)
    {
      var included: seq<Pair> := [];
      ghost var added := "";
      var i := 0;
      while i < |jobPool|
        invariant 0 <= i <= |jobPool|
        invariant Included(stepMap, jobPool[..i]) == Ok((included, added))
        invariant jobStr == old(jobStr) + added
      {
        var (x, text) := jobPool[i];
        IncludedSnoc(stepMap, jobPool, i);
        if x.wid !in stepMap || x.name !in stepMap[x.wid] {
          IncludedErrLater(stepMap, jobPool, i + 1);
          return Err(if x.wid !in stepMap then KeyError(IntToString(x.wid)) else KeyError(x.name));
        }
        if stepMap[x.wid][x.name] == x {
          jobStr := jobStr + "\n" + text;
          added := added + "\n" + text;
          included := included + [x];
        }
        i := i + 1;
      }
      assert jobPool[..|jobPool|] == jobPool;
      r := Ok(included);
    }

    /** `install_libs(libs, lib_type)` on the store, with one family of
        cache files per library type: the new store and the libraries the
        installer is called for. */
    method InstallLibs(libs: seq<string>, libType: string, store: map<string, string>,
                       installer: (LibType, string) -> bool)
      returns (r: Result<(map<string, string>, seq<string>)>)
      ensures r == LibCache.InstallLibs(store, db, libs, libType, installer, true)
    {
      var parsed := ParseLibType(libType);
      if parsed.Err? {
        return Err(parsed.error);
      }
      var t := parsed.value;
      if |libs| == 0 {
        return Ok((store, []));
      }
      var u := UniqList(libs);
      var fn := CacheFile(db, t, u, true);
      CacheFileInGlob(db, t, u, true);
      var st, installed := Sweep(store, t, fn, u);
      if installed.Err? {
        return Err(installed.error);
      }
      var calls, added := InstallMissing(u, t, installed.value, installer);
      r := Ok((st[fn := Join("\n", installed.value + added)], calls));
    }

    /** `glob.glob(...)` and the loop over its files: the cache file of the
        list is read, the other files of the glob are removed. */
    method Sweep(store: map<string, string>, t: LibType, fn: string, u: seq<string>)
      returns (st: map<string, string>, installed: Result<seq<string>>)
      requires InGlob(db, t, true, fn)
      ensures installed == RecordedOf(store, fn, u)
      ensures installed.Ok? ==> st == Collect(store, db, t, true, fn)
    {
      var glob := set f | f in store && InGlob(db, t, true, f);
      st, installed := SweepFiles(store, fn, u, glob);
      if installed.Ok? {
        var c := Collect(store, db, t, true, fn);
        assert forall f :: f in st <==> f in c;
        assert st == c;
      }
    }

    /** The loop over the files of the glob, in any order. */
    static method SweepFiles(store: map<string, string>, fn: string, u: seq<string>, glob: set<string>)
      returns (st: map<string, string>, installed: Result<seq<string>>)
      requires fn in glob <==> fn in store
      ensures fn in glob ==> installed == RecordedOf(store, fn, u)
      ensures fn !in glob ==> installed == Ok([])
      ensures installed.Ok? ==> forall f :: f in st <==> f in store && (f == fn || f !in glob)
      ensures installed.Ok? ==> forall f :: f in st ==> st[f] == store[f]
    {
      var items := glob;
      st := store;
      installed := Ok([]);
      ghost var seen: set<string> := {};
      while items != {}
        invariant forall f :: f in glob <==> f in items || f in seen
        invariant items !! seen
        invariant forall f :: f in st <==> f in store && (f == fn || f !in seen)
        invariant forall f :: f in st ==> st[f] == store[f]
        invariant fn in seen ==> installed == RecordedOf(store, fn, u)
        invariant fn !in seen ==> installed == Ok([])
        invariant installed.Ok?
        decreases |items|
      {
        var item :| item in items;
        if item == fn {
          installed := Recorded(StripAll(ReadLines(store[fn])), u);
          if installed.Err? {
            return;
          }
        } else {
          st := st - {item};
        }
        items := items - {item};
        seen := seen + {item};
      }
    }

    /** The loop over the libraries: the installer is called for each one
        without a record, and the successful ones are recorded. */
    static method InstallMissing(u: seq<string>, t: LibType, installed: seq<string>,
                                 installer: (LibType, string) -> bool)
      returns (calls: seq<string>, added: seq<string>)
      ensures calls == Calls(u, t, installed) && added == Installed(calls, t, installer)
    {
      calls := [];
      added := [];
      var i := 0;
      while i < |u|
        invariant 0 <= i <= |u|
        invariant calls == Calls(u[..i], t, installed) && added == Installed(calls, t, installer)
      {
        var lib := u[i];
        assert u[..i + 1][..i] == u[..i] && u[..i + 1][i] == lib;
        if Entry(t, lib) !in installed {
          var before := calls;
          calls := calls + [lib];
          assert calls[..|calls| - 1] == before;
          if installer(t, lib) {
            added := added + [Entry(t, lib)];
          }
        }
        i := i + 1;
      }
      assert u[..|u|] == u;
    }
  }
}
