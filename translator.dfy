/** `DSC_Translator` of `src/dsc_translator.py`: the bookkeeping that turns
    the pipelines of a DSC file into configuration entries, job scripts and
    the execution pool. A step occurrence is identified by its name, the
    steps before it in its pipeline and its producers; the first occurrence
    of an identity is configured under `(name, pipeline id)`, the later ones
    point at it through the step map. */
module Translator {
  import opened Common
  import opened Utils
  import opened StepTranslation

  // ---------------------------------------------------------------------
  // Identity of a step occurrence

  /** `(step.name, flow, depend)`. */
  datatype Key = Key(name: string, flow: string, depend: string)

  /** `list(workflow.keys())`: the step names of a pipeline, in order. */
  function Names(wf: seq<Step>): (r: seq<string>)
    ensures |r| == |wf| && forall i :: 0 <= i < |wf| ==> r[i] == wf[i].name
  {
    seq(|wf|, i requires 0 <= i < |wf| => wf[i].name)
  }

  lemma NamesOfSteps(wf: seq<Step>)
    ensures forall s :: s in wf ==> s.name in Names(wf)
  {
    forall s | s in wf ensures s.name in Names(wf) {
      var i :| 0 <= i < |wf| && wf[i] == s;
      assert Names(wf)[i] == s.name;
    }
  }

  /** `flow`: the names before `name` joined by `_`, then `_` and `name`,
      with the outer `_` stripped. */
  function Flow(keys: seq<string>, name: string): string
    requires name in keys
  {
    StripChar(Join("_", [Join("_", keys[..IndexOf(keys, name)]), name]), '_')
  }

  /** `depend`: the distinct producer names joined by `_`. */
  function Depend(step: Step): string
  {
    Join("_", CurrentDepends(step))
  }

  function KeyOf(keys: seq<string>, step: Step): Key
    requires step.name in keys
  {
    Key(step.name, Flow(keys, step.name), Depend(step))
  }

  /** The first step of a pipeline is identified by its own name. */
  lemma FlowOfFirst(keys: seq<string>, name: string)
    requires |keys| > 0 && keys[0] == name
    requires |name| > 0 ==> name[0] != '_' && name[|name| - 1] != '_'
    ensures Flow(keys, name) == name
  {
    assert IndexOf(keys, name) == 0;
    var pre := keys[..0];
    assert pre == [];
    assert Join("_", pre) == "";
    JoinPair("_", "", name);
    var s := "_" + name;
    assert Join("_", [Join("_", pre), name]) == s;
    assert s[1..] == name;
    assert StripLeftChar(s, '_') == StripLeftChar(name, '_');
    StripCharNoop(name, '_');
    assert StripChar(s, '_') == StripRightChar(StripLeftChar(name, '_'), '_');
  }

  /** A later step is identified by the names up to and including its own,
      joined by `_` and stripped of outer `_`. */
  lemma FlowOfLater(keys: seq<string>, name: string)
    requires name in keys && IndexOf(keys, name) > 0
    ensures Flow(keys, name) == StripChar(Join("_", keys[..IndexOf(keys, name) + 1]), '_')
  {
    var i := IndexOf(keys, name);
    assert keys[..i + 1] == keys[..i] + [name];
    JoinAfter("_", keys[..i], name);
  }

  lemma JoinAfter(sep: string, pre: seq<string>, name: string)
    requires |pre| > 0
    ensures Join(sep, [Join(sep, pre), name]) == Join(sep, pre + [name])
  {
    JoinSnoc(sep, pre, name);
    JoinPair(sep, Join(sep, pre), name);
  }

  lemma JoinPair(sep: string, a: string, b: string)
    ensures Join(sep, [a, b]) == a + sep + b
  {
    assert [a, b][..1] == [a];
  }

  // ---------------------------------------------------------------------
  // Resolving the pipelines: `__init__`, the first loop

  /** What the first loop of `__init__` builds: `self.step_map`,
      `processed_steps`, `conf_dict`, `job_str` and `exe_signatures`. */
  datatype Resolved = Resolved(
    stepMap: map<nat, StepMap>,
    processed: map<Key, Pair>,
    confDict: map<Pair, string>,
    jobStr: seq<string>,
    exeSignatures: map<string, seq<string>>)

  const Unresolved := Resolved(map[], map[], map[], [], map[])

  /** The names of the processed identities. */
  function ProcessedNames(processed: map<Key, Pair>): set<string>
  {
    set k | k in processed :: k.name
  }

  /** The two uses of `Step_Translator` in the first loop: the job
      translator of a step (run mode, with the host configuration) and its
      configuration translator (prepare mode, given the pipeline's step
      map). The bookkeeping below holds whatever they return; the class
      `DscTranslator` instantiates them with `Compile`. */
  datatype Compilers = Compilers(job: Step -> Result<Compiled>, config: (Step, StepMap) -> Result<Compiled>)

  /** The compilers as `__init__` calls them. */
  function CompilersOf(conf: HostConf, scripts: set<string>): Compilers
  {
    Compilers(s => Compile(s, None, conf, scripts), (s, sm) => Compile(s, Some(sm), None, scripts))
  }

  /** The job script of a step, the first time its name is met. */
  function JobStep(acc: Resolved, step: Step, cs: Compilers): (r: Result<Resolved>)
    ensures step.name in ProcessedNames(acc.processed) ==> r == Ok(acc)
    ensures r.Ok? && step.name !in ProcessedNames(acc.processed) ==>
      cs.job(step).Ok? &&
      r.value == acc.(jobStr := acc.jobStr + [cs.job(step).value.dump],
                      exeSignatures := acc.exeSignatures[step.name := cs.job(step).value.exeSignature])
    ensures r.Err? <==> step.name !in ProcessedNames(acc.processed) && cs.job(step).Err?
    ensures r.Ok? ==> r.value.stepMap == acc.stepMap && r.value.processed == acc.processed
  {
    if step.name in ProcessedNames(acc.processed) then Ok(acc)
    else match cs.job(step)
      case Err(e) => Err(e)
      case Ok(c) => Ok(acc.(jobStr := acc.jobStr + [c.dump], exeSignatures := acc.exeSignatures[step.name := c.exeSignature]))
  }

  /** One step of pipeline `w`: a new identity is configured under
      `(name, w)`, a known one is pointed at. */
  function ResolveStep(acc: Resolved, w: nat, keys: seq<string>, step: Step, cs: Compilers): (r: Result<Resolved>)
    requires w in acc.stepMap && step.name in keys
    ensures r.Ok? ==> r.value.stepMap.Keys == acc.stepMap.Keys
    ensures KeyOf(keys, step) in acc.processed ==>
      r == Ok(acc.(stepMap := acc.stepMap[w := acc.stepMap[w][step.name := acc.processed[KeyOf(keys, step)]]]))
  {
    var key := KeyOf(keys, step);
    if key in acc.processed then
      Ok(acc.(stepMap := acc.stepMap[w := acc.stepMap[w][step.name := acc.processed[key]]]))
    else
      var pair := Pair(step.name, w);
      var sm := acc.stepMap[w][step.name := pair];
      var acc0 := acc.(stepMap := acc.stepMap[w := sm]);
      assert acc0.stepMap.Keys == acc.stepMap.Keys;
      match JobStep(acc0, step, cs)
      case Err(e) => Err(e)
      case Ok(acc') =>
        match cs.config(step, sm)
        case Err(e) => Err(e)
        case Ok(c) => Ok(acc'.(processed := acc'.processed[key := pair], confDict := acc'.confDict[pair := c.dump]))
  }

  /** The steps of pipeline `w`, one after the other. */
  function ResolveSteps(acc: Resolved, w: nat, keys: seq<string>, steps: seq<Step>, cs: Compilers)
    : (r: Result<Resolved>)
    requires w in acc.stepMap && forall s :: s in steps ==> s.name in keys
    ensures r.Ok? ==> r.value.stepMap.Keys == acc.stepMap.Keys
  {
    if |steps| == 0 then Ok(acc)
    else
      var init := steps[..|steps| - 1];
      assert forall s :: s in init ==> s in steps;
      match ResolveSteps(acc, w, keys, init, cs)
      case Err(e) => Err(e)
      case Ok(a) => ResolveStep(a, w, keys, steps[|steps| - 1], cs)
  }

  /** The start of pipeline `w`: `self.step_map[w] = dict()`. */
  function OpenPipeline(acc: Resolved, w: nat): Resolved
  {
    acc.(stepMap := acc.stepMap[w := map[]])
  }

  /** The first loop of `__init__` over the pipelines, numbered from 1. */
  function Resolve(workflows: seq<seq<Step>>, cs: Compilers): (r: Result<Resolved>)
  {
    if |workflows| == 0 then Ok(Unresolved)
    else
      var n := |workflows|;
      var wf := workflows[n - 1];
      match Resolve(workflows[..n - 1], cs)
      case Err(e) => Err(e)
      case Ok(a) =>
        NamesOfSteps(wf);
        ResolveSteps(OpenPipeline(a, n), n, Names(wf), wf, cs)
  }

  // ---------------------------------------------------------------------
  // What the first loop keeps true

  /** A pair is canonical when its own step map entry points at it. */
  ghost predicate Canonical(stepMap: map<nat, StepMap>, p: Pair)
  {
    p.wid in stepMap && p.name in stepMap[p.wid] && stepMap[p.wid][p.name] == p
  }

  /** `conf_dict` has exactly one entry per identity: its keys are the
      pairs of `processed_steps`, and no two identities share a pair. */
  ghost predicate OneConfPerKey(r: Resolved)
  {
    r.confDict.Keys == r.processed.Values &&
    forall k1, k2 :: k1 in r.processed && k2 in r.processed && r.processed[k1] == r.processed[k2] ==> k1 == k2
  }

  /** The step map points only at configured pairs of the step's own name,
      and every configured pair is canonical. */
  ghost predicate PointsToCanonical(r: Resolved)
  {
    (forall w, x :: w in r.stepMap && x in r.stepMap[w] ==>
       r.stepMap[w][x] in r.confDict && r.stepMap[w][x].name == x) &&
    forall k :: k in r.processed ==> Canonical(r.stepMap, r.processed[k])
  }

  /** One job script and one script signature per step name. */
  ghost predicate OneJobPerName(r: Resolved)
  {
    r.exeSignatures.Keys == ProcessedNames(r.processed) && |r.jobStr| == |r.exeSignatures|
  }

  /** The step maps are those of pipelines `1..n`. */
  ghost predicate Pipelines(r: Resolved, n: nat)
  {
    forall w :: w in r.stepMap <==> 1 <= w <= n
  }

  /** Every configured pair carries its identity's name and a pipeline
      already opened; those of pipeline `n` belong to the steps `done`. */
  ghost predicate PairsSoFar(r: Resolved, n: nat, done: seq<string>)
  {
    forall k :: k in r.processed ==>
      r.processed[k].name == k.name && 1 <= r.processed[k].wid <= n && (r.processed[k].wid == n ==> k.name in done)
  }

  /** The step map of pipeline `n` holds exactly the steps `done`. */
  ghost predicate CurrentPipeline(r: Resolved, n: nat, done: seq<string>)
  {
    if n == 0 then done == [] else n in r.stepMap && r.stepMap[n].Keys == set x | x in done
  }

  /** After `n` pipelines, with the steps `done` of the last one resolved. */
  ghost predicate Inv(r: Resolved, n: nat, done: seq<string>)
  {
    Pipelines(r, n) && PairsSoFar(r, n, done) && CurrentPipeline(r, n, done) &&
    OneConfPerKey(r) && PointsToCanonical(r) && OneJobPerName(r)
  }

  lemma OpenPipelineInv(r: Resolved, n: nat, done: seq<string>)
    requires Inv(r, n, done)
    ensures Inv(OpenPipeline(r, n + 1), n + 1, [])
  {
    var r' := OpenPipeline(r, n + 1);
    assert Pipelines(r', n + 1);
    assert PairsSoFar(r', n + 1, []);
    assert CurrentPipeline(r', n + 1, []);
    assert forall k :: k in r.processed ==> r.processed[k].wid <= n;
    OpenPipelineCanonical(r, n);
  }

  lemma OpenPipelineCanonical(r: Resolved, n: nat)
    requires forall k :: k in r.processed ==> r.processed[k].wid <= n
    requires PointsToCanonical(r)
    ensures PointsToCanonical(OpenPipeline(r, n + 1))
  {
    var r' := OpenPipeline(r, n + 1);
    forall k | k in r'.processed ensures Canonical(r'.stepMap, r'.processed[k]) {
      assert Canonical(r.stepMap, r.processed[k]);
      assert r.processed[k].wid in r.stepMap;
    }
  }

  /** A step with a new identity: its pair `(name, w)` enters the step map,
      `processed_steps` and `conf_dict`; its job script is added only the
      first time its name is met; and it fails exactly when one of the two
      compilations it needs fails. */
  lemma ResolveStepNew(acc: Resolved, w: nat, keys: seq<string>, step: Step, cs: Compilers)
    requires w in acc.stepMap && step.name in keys && KeyOf(keys, step) !in acc.processed
    ensures var pair := Pair(step.name, w);
      var sm := acc.stepMap[w][step.name := pair];
      var r := ResolveStep(acc, w, keys, step, cs);
      var isNew := step.name !in ProcessedNames(acc.processed);
      (r.Err? <==> (isNew && cs.job(step).Err?) || cs.config(step, sm).Err?) &&
      (r.Ok? ==>
         r.value.stepMap == acc.stepMap[w := sm] &&
         r.value.processed == acc.processed[KeyOf(keys, step) := pair] &&
         r.value.confDict == acc.confDict[pair := cs.config(step, sm).value.dump] &&
         (!isNew ==> r.value.jobStr == acc.jobStr && r.value.exeSignatures == acc.exeSignatures) &&
         (isNew ==>
            r.value.jobStr == acc.jobStr + [cs.job(step).value.dump] &&
            r.value.exeSignatures == acc.exeSignatures[step.name := cs.job(step).value.exeSignature]))
  {
    var pair := Pair(step.name, w);
    var sm := acc.stepMap[w][step.name := pair];
    var acc1 := acc.(stepMap := acc.stepMap[w := sm]);
    assert ProcessedNames(acc1.processed) == ProcessedNames(acc.processed);
  }

  lemma KnownStepInv(acc: Resolved, r: Resolved, n: nat, done: seq<string>, name: string, p: Pair)
    requires n > 0 && Inv(acc, n, done) && name !in done
    requires p in acc.confDict && p.name == name
    requires r == acc.(stepMap := acc.stepMap[n := acc.stepMap[n][name := p]])
    ensures Inv(r, n, done + [name])
  {
    KnownStepPipelines(acc, r, n, done, name, p);
    KnownStepCanonical(acc, r, n, done, name, p);
  }

  lemma KnownStepPipelines(acc: Resolved, r: Resolved, n: nat, done: seq<string>, name: string, p: Pair)
    requires n > 0 && Pipelines(acc, n) && PairsSoFar(acc, n, done) && CurrentPipeline(acc, n, done)
    requires r == acc.(stepMap := acc.stepMap[n := acc.stepMap[n][name := p]])
    ensures Pipelines(r, n) && PairsSoFar(r, n, done + [name]) && CurrentPipeline(r, n, done + [name])
  {
  }

  lemma KnownStepCanonical(acc: Resolved, r: Resolved, n: nat, done: seq<string>, name: string, p: Pair)
    requires n > 0 && PointsToCanonical(acc) && PairsSoFar(acc, n, done) && CurrentPipeline(acc, n, done)
    requires name !in done && p in acc.confDict && p.name == name
    requires r == acc.(stepMap := acc.stepMap[n := acc.stepMap[n][name := p]])
    ensures PointsToCanonical(r)
  {
    forall w, x | w in r.stepMap && x in r.stepMap[w]
      ensures r.stepMap[w][x] in r.confDict && r.stepMap[w][x].name == x
    {
      if w != n || x != name {
        assert r.stepMap[w][x] == acc.stepMap[w][x];
      }
    }
    forall k | k in r.processed ensures Canonical(r.stepMap, r.processed[k]) {
      var q := acc.processed[k];
      assert Canonical(acc.stepMap, q);
      assert q.wid == n ==> q.name != name;
      assert r.stepMap[q.wid][q.name] == acc.stepMap[q.wid][q.name];
    }
  }

  /** The bookkeeping of a new identity `key`, configured under `(name, n)`. */
  lemma NewStepInv(acc: Resolved, r: Resolved, n: nat, done: seq<string>, name: string, key: Key)
    requires key.name == name
    requires n > 0 && Inv(acc, n, done) && key.name !in done && key !in acc.processed
    requires r.stepMap == acc.stepMap[n := acc.stepMap[n][key.name := Pair(key.name, n)]]
    requires r.processed == acc.processed[key := Pair(key.name, n)]
    requires r.confDict.Keys == acc.confDict.Keys + {Pair(key.name, n)}
    requires OneJobPerName(r)
    ensures Inv(r, n, done + [name])
  {
    NewStepPipelines(acc, r, n, done, key);
    NewStepOneConf(acc, r, n, done, key);
    NewStepCanonical(acc, r, n, done, key);
  }

  lemma NewStepPipelines(acc: Resolved, r: Resolved, n: nat, done: seq<string>, key: Key)
    requires n > 0 && Pipelines(acc, n) && PairsSoFar(acc, n, done) && CurrentPipeline(acc, n, done)
    requires r.stepMap == acc.stepMap[n := acc.stepMap[n][key.name := Pair(key.name, n)]]
    requires r.processed == acc.processed[key := Pair(key.name, n)]
    ensures Pipelines(r, n) && PairsSoFar(r, n, done + [key.name]) && CurrentPipeline(r, n, done + [key.name])
  {
  }

  lemma NewStepOneConf(acc: Resolved, r: Resolved, n: nat, done: seq<string>, key: Key)
    requires OneConfPerKey(acc) && PairsSoFar(acc, n, done) && key.name !in done && key !in acc.processed
    requires r.processed == acc.processed[key := Pair(key.name, n)]
    requires r.confDict.Keys == acc.confDict.Keys + {Pair(key.name, n)}
    ensures OneConfPerKey(r)
  {
    var pair := Pair(key.name, n);
    assert pair !in acc.processed.Values by {
      forall k | k in acc.processed ensures acc.processed[k] != pair {
        if acc.processed[k].wid == n {
          assert k.name in done;
        }
      }
    }
    NewPairValues(acc.processed, key, pair);
  }

  lemma NewPairValues(m: map<Key, Pair>, key: Key, pair: Pair)
    requires key !in m
    ensures m[key := pair].Values == m.Values + {pair}
  {
    var m' := m[key := pair];
    forall v | v in m.Values ensures v in m'.Values {
      var k :| k in m && m[k] == v;
      assert m'[k] == v;
    }
    assert m'[key] == pair;
  }

  lemma NewStepCanonical(acc: Resolved, r: Resolved, n: nat, done: seq<string>, key: Key)
    requires n > 0 && PointsToCanonical(acc) && PairsSoFar(acc, n, done) && CurrentPipeline(acc, n, done)
    requires key.name !in done
    requires r.stepMap == acc.stepMap[n := acc.stepMap[n][key.name := Pair(key.name, n)]]
    requires r.processed == acc.processed[key := Pair(key.name, n)]
    requires r.confDict.Keys == acc.confDict.Keys + {Pair(key.name, n)}
    ensures PointsToCanonical(r)
  {
    var pair := Pair(key.name, n);
    forall w, x | w in r.stepMap && x in r.stepMap[w]
      ensures r.stepMap[w][x] in r.confDict && r.stepMap[w][x].name == x
    {
      if w != n || x != key.name {
        assert r.stepMap[w][x] == acc.stepMap[w][x];
      }
    }
    forall k | k in r.processed ensures Canonical(r.stepMap, r.processed[k]) {
      if k != key {
        var q := acc.processed[k];
        assert Canonical(acc.stepMap, q);
        assert q.wid == n ==> q.name != key.name;
        assert r.stepMap[q.wid][q.name] == acc.stepMap[q.wid][q.name];
      }
    }
  }

  /** A step of pipeline `n` not met before in it keeps the invariant. */
  lemma ResolveStepInv(acc: Resolved, n: nat, done: seq<string>, keys: seq<string>, step: Step,
                       cs: Compilers)
    requires n > 0 && Inv(acc, n, done) && step.name in keys && step.name !in done
    ensures ResolveStep(acc, n, keys, step, cs).Ok? ==>
      Inv(ResolveStep(acc, n, keys, step, cs).value, n, done + [step.name])
  {
    if KeyOf(keys, step) in acc.processed {
      KnownResolveStepInv(acc, n, done, keys, step, cs);
    } else {
      NewResolveStepInv(acc, n, done, keys, step, cs);
    }
  }

  lemma KnownResolveStepInv(acc: Resolved, n: nat, done: seq<string>, keys: seq<string>, step: Step,
                            cs: Compilers)
    requires n > 0 && Inv(acc, n, done) && step.name in keys && step.name !in done
    requires KeyOf(keys, step) in acc.processed
    ensures ResolveStep(acc, n, keys, step, cs).Ok? &&
      Inv(ResolveStep(acc, n, keys, step, cs).value, n, done + [step.name])
  {
    var key := KeyOf(keys, step);
    assert acc.processed[key] in acc.processed.Values;
    KnownStepInv(acc, acc.(stepMap := acc.stepMap[n := acc.stepMap[n][step.name := acc.processed[key]]]),
                 n, done, step.name, acc.processed[key]);
  }

  lemma NewResolveStepInv(acc: Resolved, n: nat, done: seq<string>, keys: seq<string>, step: Step,
                          cs: Compilers)
    requires n > 0 && Inv(acc, n, done) && step.name in keys && step.name !in done
    requires KeyOf(keys, step) !in acc.processed
    ensures ResolveStep(acc, n, keys, step, cs).Ok? ==>
      Inv(ResolveStep(acc, n, keys, step, cs).value, n, done + [step.name])
  {
    if ResolveStep(acc, n, keys, step, cs).Ok? {
      NewStepShape(acc, n, keys, step, cs);
      NewStepJobsOf(acc, n, keys, step, cs);
      NewStepInv(acc, ResolveStep(acc, n, keys, step, cs).value, n, done, step.name, KeyOf(keys, step));
    }
  }

  /** The maps a new identity changes. */
  lemma NewStepShape(acc: Resolved, n: nat, keys: seq<string>, step: Step, cs: Compilers)
    requires n in acc.stepMap && step.name in keys && KeyOf(keys, step) !in acc.processed
    requires ResolveStep(acc, n, keys, step, cs).Ok?
    ensures var r := ResolveStep(acc, n, keys, step, cs).value; var key := KeyOf(keys, step);
      r.stepMap == acc.stepMap[n := acc.stepMap[n][key.name := Pair(key.name, n)]] &&
      r.processed == acc.processed[key := Pair(key.name, n)] &&
      r.confDict.Keys == acc.confDict.Keys + {Pair(key.name, n)}
  {
    ResolveStepNew(acc, n, keys, step, cs);
  }

  lemma NewStepJobsOf(acc: Resolved, n: nat, keys: seq<string>, step: Step, cs: Compilers)
    requires n in acc.stepMap && step.name in keys && KeyOf(keys, step) !in acc.processed
    requires OneJobPerName(acc) && ResolveStep(acc, n, keys, step, cs).Ok?
    ensures OneJobPerName(ResolveStep(acc, n, keys, step, cs).value)
  {
    ResolveStepNew(acc, n, keys, step, cs);
    NewStepJobs(acc, ResolveStep(acc, n, keys, step, cs).value, KeyOf(keys, step), Pair(step.name, n), cs.job(step));
  }

  lemma NewStepJobs(acc: Resolved, r: Resolved, key: Key, pair: Pair, job: Result<Compiled>)
    requires OneJobPerName(acc) && r.processed == acc.processed[key := pair]
    requires key.name in ProcessedNames(acc.processed) ==> r.jobStr == acc.jobStr && r.exeSignatures == acc.exeSignatures
    requires key.name !in ProcessedNames(acc.processed) ==>
      job.Ok? && r.jobStr == acc.jobStr + [job.value.dump] &&
      r.exeSignatures == acc.exeSignatures[key.name := job.value.exeSignature]
    ensures OneJobPerName(r)
  {
    ProcessedNamesUpdate(acc.processed, key, pair);
    if key.name !in ProcessedNames(acc.processed) {
      SignaturesGrow(acc.exeSignatures, key.name, job.value.exeSignature);
    }
  }

  lemma ProcessedNamesUpdate(processed: map<Key, Pair>, key: Key, pair: Pair)
    ensures ProcessedNames(processed[key := pair]) == ProcessedNames(processed) + {key.name}
  {
    assert key in processed[key := pair];
  }

  lemma SignaturesGrow(sigs: map<string, seq<string>>, name: string, sig: seq<string>)
    requires name !in sigs
    ensures sigs[name := sig].Keys == sigs.Keys + {name} && |sigs[name := sig]| == |sigs| + 1
  {
  }

  /** The steps of pipeline `n`, each name once, keep the invariant. */
  lemma {:induction false} ResolveStepsInv(acc: Resolved, n: nat, keys: seq<string>, steps: seq<Step>,
                                           cs: Compilers)
    requires n > 0 && Inv(acc, n, []) && NoDup(Names(steps))
    requires forall s :: s in steps ==> s.name in keys
    ensures ResolveSteps(acc, n, keys, steps, cs).Ok? ==>
      Inv(ResolveSteps(acc, n, keys, steps, cs).value, n, Names(steps))
    decreases |steps|
  {
    if |steps| > 0 {
      var init := steps[..|steps| - 1];
      var last := steps[|steps| - 1];
      assert forall s :: s in init ==> s in steps;
      NamesSnoc(steps);
      ResolveStepsInv(acc, n, keys, init, cs);
      var res := ResolveSteps(acc, n, keys, init, cs);
      if res.Ok? {
        ResolveStepInv(res.value, n, Names(init), keys, last, cs);
      }
    }
  }

  lemma NamesSnoc(steps: seq<Step>)
    requires |steps| > 0 && NoDup(Names(steps))
    ensures var init := steps[..|steps| - 1];
      Names(steps) == Names(init) + [steps[|steps| - 1].name] &&
      NoDup(Names(init)) && steps[|steps| - 1].name !in Names(init)
  {
    var init := steps[..|steps| - 1];
    assert Names(init) == Names(steps)[..|steps| - 1];
    assert Names(steps) == Names(init) + [steps[|steps| - 1].name];
  }

  /** The pipelines of a DSC file, numbered from 1, keep the invariant. */
  lemma {:induction false} ResolveAllInv(workflows: seq<seq<Step>>, cs: Compilers)
    requires forall i :: 0 <= i < |workflows| ==> NoDup(Names(workflows[i]))
    ensures Resolve(workflows, cs).Ok? ==>
      Inv(Resolve(workflows, cs).value, |workflows|, if |workflows| == 0 then [] else Names(workflows[|workflows| - 1]))
    decreases |workflows|
  {
    var n := |workflows|;
    if n > 0 {
      var init := workflows[..n - 1];
      var wf := workflows[n - 1];
      assert forall i :: 0 <= i < |init| ==> init[i] == workflows[i];
      ResolveAllInv(init, cs);
      if Resolve(init, cs).Ok? {
        PipelineInv(workflows, if |init| == 0 then [] else Names(init[|init| - 1]), cs);
      }
    }
  }

  /** The last pipeline, after those before it. */
  lemma PipelineInv(workflows: seq<seq<Step>>, done: seq<string>, cs: Compilers)
    requires |workflows| > 0 && NoDup(Names(workflows[|workflows| - 1]))
    requires Resolve(workflows[..|workflows| - 1], cs).Ok?
    requires Inv(Resolve(workflows[..|workflows| - 1], cs).value, |workflows| - 1, done)
    ensures Resolve(workflows, cs).Ok? ==>
      Inv(Resolve(workflows, cs).value, |workflows|, Names(workflows[|workflows| - 1]))
  {
    var n := |workflows|;
    var wf := workflows[n - 1];
    var a := Resolve(workflows[..n - 1], cs).value;
    OpenPipelineInv(a, n - 1, done);
    NamesOfSteps(wf);
    ResolveStepsInv(OpenPipeline(a, n), n, Names(wf), wf, cs);
  }

  /** What the first loop of `__init__` guarantees: the step maps are
      those of the pipelines; each identity has one configuration entry,
      under the pair of its first occurrence, which its own step map entry
      points at; every step map entry points at a configured pair of its
      own name; and there is one job script per step name. */
  lemma ResolveKeeps(workflows: seq<seq<Step>>, cs: Compilers)
    requires forall i :: 0 <= i < |workflows| ==> NoDup(Names(workflows[i]))
    ensures Resolve(workflows, cs).Ok? ==>
      var r := Resolve(workflows, cs).value;
      (forall w :: w in r.stepMap <==> 1 <= w <= |workflows|) &&
      OneConfPerKey(r) && PointsToCanonical(r) && OneJobPerName(r)
  {
    ResolveAllInv(workflows, cs);
  }

  // ---------------------------------------------------------------------
  // The executions: the second loop of `__init__`

  /** `sqn = [self.step_map[w][x] for x in sequence]`: nothing is looked up
      for an empty sequence. */
  function Sqn(stepMap: map<nat, StepMap>, w: nat, sequence: seq<string>): (r: Result<seq<Pair>>)
    ensures r.Ok? <==> |sequence| == 0 || (w in stepMap && forall x :: x in sequence ==> x in stepMap[w])
    ensures r.Ok? ==> (|r.value| == |sequence| &&
      forall i :: 0 <= i < |sequence| ==> r.value[i] == stepMap[w][sequence[i]])
    ensures r.Err? && w !in stepMap ==> r.error == KeyError(IntToString(w))
    ensures r.Err? && w in stepMap ==> r.error == KeyError(FirstMissing(stepMap[w], sequence).value)
  {
    if |sequence| == 0 then Ok([])
    else if w !in stepMap then Err(KeyError(IntToString(w)))
    else match FirstMissing(stepMap[w], sequence)
      case Some(x) => Err(KeyError(x))
      case None => Ok(seq(|sequence|, i requires 0 <= i < |sequence| => stepMap[w][sequence[i]]))
  }

  /** The pairs of `sqn` not configured yet, in order. */
  function NewPairs(sqn: seq<Pair>, configured: set<Pair>): (r: seq<Pair>)
    ensures forall x :: x in r <==> x in sqn && x !in configured
    ensures IsSubseq(r, sqn)
  {
    if |sqn| == 0 then []
    else
      var init := sqn[..|sqn| - 1];
      var x := sqn[|sqn| - 1];
      var r := NewPairs(init, configured);
      assert sqn == init + [x];
      IsSubseqAppend(r, init, x);
      if x in configured then r else r + [x]
  }

  lemma {:induction false} NewPairsNoDup(sqn: seq<Pair>, configured: set<Pair>)
    requires NoDup(sqn)
    ensures NoDup(NewPairs(sqn, configured))
    decreases |sqn|
  {
    if |sqn| > 0 {
      var init := sqn[..|sqn| - 1];
      var x := sqn[|sqn| - 1];
      assert NoDup(init);
      assert x !in init;
      NewPairsNoDup(init, configured);
    }
  }

  /** `repr` of a pair `(name, w)`. */
  function PairRepr(x: Pair): string
  {
    "(" + Repr(x.name) + ", " + IntToString(x.wid) + ")"
  }

  /** `[conf_dict[x] for x in pairs]`. */
  function ConfTexts(confDict: map<Pair, string>, pairs: seq<Pair>): (r: Result<seq<string>>)
    ensures r.Ok? <==> forall x :: x in pairs ==> x in confDict
    ensures r.Ok? ==> |r.value| == |pairs| && forall i :: 0 <= i < |pairs| ==> r.value[i] == confDict[pairs[i]]
    ensures r.Err? ==> exists x :: x in pairs && x !in confDict && r.error == KeyError(PairRepr(x))
  {
    if |pairs| == 0 then Ok([])
    else if pairs[0] !in confDict then Err(KeyError(PairRepr(pairs[0])))
    else match ConfTexts(confDict, pairs[1..])
      case Err(e) => Err(e)
      case Ok(rest) => Ok([confDict[pairs[0]]] + rest)
  }

  /** The `KeyError` is that of the first pair without a configuration. */
  lemma {:induction false} ConfTextsFirstMissing(confDict: map<Pair, string>, pairs: seq<Pair>)
    requires ConfTexts(confDict, pairs).Err?
    ensures exists i :: (0 <= i < |pairs| && pairs[i] !in confDict && (forall j :: 0 <= j < i ==> pairs[j] in confDict) &&
                         ConfTexts(confDict, pairs).error == KeyError(PairRepr(pairs[i])))
  {
    if pairs[0] !in confDict {
      assert ConfTexts(confDict, pairs).error == KeyError(PairRepr(pairs[0]));
    } else {
      var rest := pairs[1..];
      assert ConfTexts(confDict, pairs).error == ConfTexts(confDict, rest).error;
      ConfTextsFirstMissing(confDict, rest);
      var i :| 0 <= i < |rest| && rest[i] !in confDict && (forall j :: 0 <= j < i ==> rest[j] in confDict) &&
        ConfTexts(confDict, rest).error == KeyError(PairRepr(rest[i]));
      FirstMissingShift(confDict, pairs, i);
    }
  }

  lemma FirstMissingShift(confDict: map<Pair, string>, pairs: seq<Pair>, i: nat)
    requires 0 < |pairs| && pairs[0] in confDict && i < |pairs| - 1
    requires forall j :: 0 <= j < i ==> pairs[1..][j] in confDict
    ensures forall j :: 0 <= j < i + 1 ==> pairs[j] in confDict
    ensures pairs[i + 1] == pairs[1..][i]
  {
    forall j | 0 <= j < i + 1 ensures pairs[j] in confDict {
      if j > 0 { assert pairs[j] == pairs[1..][j - 1]; }
    }
  }

  /** The file the configuration of pipeline `w` is written to. */
  function IoInfoFile(db: string, w: nat): string
  {
    ".sos/.dsc/" + db + "_" + IntToString(w) + ".mpk"
  }

  /** The comment block that opens the configuration of pipeline `w`. */
  function ConfHeader(db: string, w: nat, sqn: seq<Pair>): string
  {
    var names := seq(|sqn|, i requires 0 <= i < |sqn| => Lower(N2a(sqn[i].wid)) + "_" + sqn[i].name);
    "###\n# [" + N2a(w) + "]\n###\n__pipeline_id__ = '" + IntToString(w) + "'\n" +
    "__pipeline_name__ = '" + Join("+", names) + "'\n# output: '" + IoInfoFile(db, w) + "'\n"
  }

  /** `IO_DB['w']['y']`. */
  function IoEntry(w: nat, y: string): string
  {
    "IO_DB['" + IntToString(w) + "']['" + y + "']"
  }

  function DependsLine(w: nat, y: string): string
  {
    "depends: " + "[sos_step('%s_%s' % (n2a(x[1]).lower(), x[0])) for x in " + IoEntry(w, y) + "['depends']]"
  }

  function TitleLine(w: nat, y: string): string
  {
    "\n[" + Lower(N2a(w)) + "_" + y + " (" + y + ")]"
  }

  function SignatureLine(signature: seq<string>): string
  {
    "script_signature = " + ReprList(signature)
  }

  function OutputLine(w: nat, y: string): string
  {
    "output: " + IoEntry(w, y) + "['output']"
  }

  function RunLine(w: nat, y: string): string
  {
    "sos_run('" + y + "', " + y + "_output_files = " + IoEntry(w, y) + "['output'], " + y + "_input_files = " +
    IoEntry(w, y) + "['input'], DSC_STEP_ID_ = '_'.join(script_signature))"
  }

  /** The lines of the execution of step `y` at position `ii` (from 1) of
      pipeline `w`. */
  function PoolLines(w: nat, y: string, signature: seq<string>, ii: nat): seq<string>
  {
    [TitleLine(w, y), SignatureLine(signature)] + (if ii > 1 then [DependsLine(w, y)] else []) +
    [OutputLine(w, y), RunLine(w, y)]
  }

  /** Only a step after the first of its pipeline waits for its producers. */
  lemma PoolLinesDepends(w: nat, y: string, signature: seq<string>, ii: nat)
    ensures DependsLine(w, y) in PoolLines(w, y, signature, ii) <==> ii > 1
    ensures |PoolLines(w, y, signature, ii)| == if ii > 1 then 5 else 4
  {
    var d := DependsLine(w, y);
    assert d[0] == 'd';
    assert TitleLine(w, y)[0] != 'd' && SignatureLine(signature)[0] != 'd';
    assert OutputLine(w, y)[0] != 'd' && RunLine(w, y)[0] != 'd';
  }

  /** The execution pool entries of `sequence[..k]` in pipeline `w`,
      `job_pool` being an ordered dictionary, and the pipeline's last step. */
  function Pool(w: nat, sequence: seq<string>, k: nat, signatures: map<string, seq<string>>,
                jobPool: seq<(Pair, string)>, lastSteps: seq<Pair>): (r: Result<(seq<(Pair, string)>, seq<Pair>)>)
    requires k <= |sequence|
    ensures r.Ok? <==> forall i :: 0 <= i < k ==> sequence[i] in signatures
    ensures r.Err? ==> exists i :: 0 <= i < k && sequence[i] !in signatures && r.error == KeyError(sequence[i])
    ensures r.Ok? ==> forall x :: x in Keys(r.value.0) <==> x in Keys(jobPool) || (x.wid == w && x.name in sequence[..k])
    ensures r.Ok? && NoDup(Keys(jobPool)) ==> NoDup(Keys(r.value.0))
    ensures r.Ok? ==> r.value.1 == if k == |sequence| && k > 0 then lastSteps + [Pair(sequence[k - 1], w)] else lastSteps
  {
    if k == 0 then Ok((jobPool, lastSteps))
    else
      var y := sequence[k - 1];
      AllInStep(sequence, k, signatures);
      match Pool(w, sequence, k - 1, signatures, jobPool, lastSteps)
      case Err(e) => Err(e)
      case Ok(acc) =>
        if y !in signatures then Err(KeyError(y))
        else
          var text := EntryText(w, y, signatures[y], k);
          var last := if k == |sequence| then acc.1 + [Pair(y, w)] else acc.1;
          InsertNoDup(acc.0, Pair(y, w), text);
          PoolKeysStep(acc.0, jobPool, w, sequence, k, text);
          Ok((Insert(acc.0, Pair(y, w), text), last))
  }

  /** The execution pool entry of step `y` at position `ii` of pipeline `w`. */
  function EntryText(w: nat, y: string, signature: seq<string>, ii: nat): string
  {
    Join("\n", PoolLines(w, y, signature, ii))
  }

  /** The `KeyError` is that of the first step without a script signature. */
  lemma {:induction false} PoolFirstMissing(w: nat, sequence: seq<string>, k: nat, signatures: map<string, seq<string>>,
                                            jobPool: seq<(Pair, string)>, lastSteps: seq<Pair>)
    requires k <= |sequence| && Pool(w, sequence, k, signatures, jobPool, lastSteps).Err?
    ensures exists i :: (0 <= i < k && sequence[i] !in signatures && (forall j :: 0 <= j < i ==> sequence[j] in signatures) &&
                         Pool(w, sequence, k, signatures, jobPool, lastSteps).error == KeyError(sequence[i]))
  {
    if Pool(w, sequence, k - 1, signatures, jobPool, lastSteps).Err? {
      PoolErrStep(w, sequence, k, signatures, jobPool, lastSteps);
      PoolFirstMissing(w, sequence, k - 1, signatures, jobPool, lastSteps);
    } else {
      assert sequence[k - 1] !in signatures;
      PoolErrStep(w, sequence, k, signatures, jobPool, lastSteps);
    }
  }

  /** One step of `Pool`'s error path. */
  lemma PoolErrStep(w: nat, sequence: seq<string>, k: nat, signatures: map<string, seq<string>>,
                    jobPool: seq<(Pair, string)>, lastSteps: seq<Pair>)
    requires 0 < k <= |sequence|
    ensures var prev := Pool(w, sequence, k - 1, signatures, jobPool, lastSteps);
      prev.Err? ==> Pool(w, sequence, k, signatures, jobPool, lastSteps) == prev
    ensures var prev := Pool(w, sequence, k - 1, signatures, jobPool, lastSteps);
      prev.Ok? && sequence[k - 1] !in signatures ==>
        Pool(w, sequence, k, signatures, jobPool, lastSteps) == Err(KeyError(sequence[k - 1]))
  {
  }

  lemma AllInStep(sequence: seq<string>, k: nat, signatures: map<string, seq<string>>)
    requires 0 < k <= |sequence|
    ensures (forall i :: 0 <= i < k ==> sequence[i] in signatures) <==>
      (forall i :: 0 <= i < k - 1 ==> sequence[i] in signatures) && sequence[k - 1] in signatures
  {
  }

  lemma PoolKeysStep(d: seq<(Pair, string)>, jobPool: seq<(Pair, string)>, w: nat, sequence: seq<string>, k: nat,
                     text: string)
    requires 0 < k <= |sequence|
    requires forall x :: x in Keys(d) <==> x in Keys(jobPool) || (x.wid == w && x.name in sequence[..k - 1])
    ensures forall x :: x in Keys(Insert(d, Pair(sequence[k - 1], w), text)) <==>
      x in Keys(jobPool) || (x.wid == w && x.name in sequence[..k])
  {
    assert sequence[..k] == sequence[..k - 1] + [sequence[k - 1]];
  }

  lemma InsertNoDup<K, V>(d: seq<(K, V)>, k: K, v: V)
    ensures NoDup(Keys(d)) ==> NoDup(Keys(Insert(d, k, v)))
  {
    if NoDup(Keys(d)) && k !in Keys(d) {
      assert Keys(Insert(d, k, v)) == Keys(d) + [k];
    }
  }

  /** What the execution pass has built so far: `conf_str`, the pairs whose
      configuration text `conf_str` holds, `io_info_files`,
      `configured_steps`, `self.job_pool` and `self.last_steps`. */
  datatype Execution = Execution(
    confStr: seq<string>,
    confPairs: seq<Pair>,
    ioInfoFiles: seq<string>,
    configured: set<Pair>,
    jobPool: seq<(Pair, string)>,
    lastSteps: seq<Pair>)

  const NoExecution := Execution([], [], [], {}, [], [])

  /** The part of the execution pass for pipeline `w`. */
  function ExecSequence(e: Execution, db: string, w: nat, sequence: seq<string>, r: Resolved): Result<Execution>
  {
    match Sqn(r.stepMap, w, sequence)
    case Err(err) => Err(err)
    case Ok(sqn) =>
      var pairs := NewPairs(sqn, e.configured);
      match ConfTexts(r.confDict, pairs)
      case Err(err) => Err(err)
      case Ok(confs) =>
        var e1 :=
          if |confs| > 0 then
            e.(confStr := e.confStr + [ConfHeader(db, w, sqn)] + confs, ioInfoFiles := e.ioInfoFiles + [IoInfoFile(db, w)])
          else e;
        var e2 := e1.(confPairs := e.confPairs + pairs, configured := e.configured + set x | x in sqn);
        match Pool(w, sequence, |sequence|, r.exeSignatures, e2.jobPool, e2.lastSteps)
        case Err(err) => Err(err)
        case Ok(pl) => Ok(e2.(jobPool := pl.0, lastSteps := pl.1))
  }

  /** The execution pass over the pipelines' sequences, numbered from 1. */
  function Execute(db: string, sequences: seq<seq<string>>, r: Resolved): Result<Execution>
  {
    if |sequences| == 0 then Ok(NoExecution)
    else
      var n := |sequences|;
      match Execute(db, sequences[..n - 1], r)
      case Err(err) => Err(err)
      case Ok(e) => ExecSequence(e, db, n, sequences[n - 1], r)
  }

  /** The pair of the last step of every non-empty sequence, in order. */
  function LastPairs(sequences: seq<seq<string>>): (r: seq<Pair>)
    ensures |r| <= |sequences|
    ensures forall i :: 0 <= i < |r| ==> (1 <= r[i].wid <= |sequences| && |sequences[r[i].wid - 1]| > 0 &&
                                          r[i].name == sequences[r[i].wid - 1][|sequences[r[i].wid - 1]| - 1])
    ensures forall i, j :: 0 <= i < j < |r| ==> r[i].wid < r[j].wid
  {
    if |sequences| == 0 then []
    else
      var n := |sequences|;
      var s := sequences[n - 1];
      LastPairs(sequences[..n - 1]) + if |s| > 0 then [Pair(s[|s| - 1], n)] else []
  }

  /** Each pair's configuration text is appended once, the first time a
      sequence meets it; and the pairs met are those configured so far. */
  ghost predicate ConfOnce(e: Execution)
  {
    NoDup(e.confPairs) && (set x | x in e.confPairs) == e.configured
  }

  /** A step map entry carries its step's name. */
  ghost predicate NamedEntries(stepMap: map<nat, StepMap>)
  {
    forall w, x :: w in stepMap && x in stepMap[w] ==> stepMap[w][x].name == x
  }

  lemma SqnNoDup(stepMap: map<nat, StepMap>, w: nat, sequence: seq<string>)
    requires NamedEntries(stepMap) && NoDup(sequence) && Sqn(stepMap, w, sequence).Ok?
    ensures NoDup(Sqn(stepMap, w, sequence).value)
  {
    var sqn := Sqn(stepMap, w, sequence).value;
    forall i, j | 0 <= i < j < |sqn| ensures sqn[i] != sqn[j] {
      assert sqn[i].name == sequence[i] && sqn[j].name == sequence[j];
    }
  }

  /** A sequence configures the pairs it meets that were not configured
      before, each once. */
  lemma NewPairsOnce(confPairs: seq<Pair>, configured: set<Pair>, sqn: seq<Pair>)
    requires NoDup(confPairs) && (set x | x in confPairs) == configured && NoDup(sqn)
    ensures var cp := confPairs + NewPairs(sqn, configured);
      NoDup(cp) && (set x | x in cp) == configured + set x | x in sqn
  {
    var pairs := NewPairs(sqn, configured);
    NewPairsNoDup(sqn, configured);
    var cp := confPairs + pairs;
    forall i, j | 0 <= i < j < |cp| ensures cp[i] != cp[j] {
      if i < |confPairs| && j >= |confPairs| {
        assert cp[i] in configured;
        assert cp[j] in pairs;
      }
    }
  }

  /** One sequence keeps the invariant of `ExecuteKeeps`, and appends its
      configuration texts as `ExecSequenceConf` states. */
  lemma ExecSequenceKeeps(e: Execution, db: string, w: nat, sequence: seq<string>, r: Resolved)
    requires ConfOnce(e) && NoDup(Keys(e.jobPool)) && NamedEntries(r.stepMap) && NoDup(sequence)
    ensures ExecSequence(e, db, w, sequence, r).Ok? ==>
      var e' := ExecSequence(e, db, w, sequence, r).value;
      ConfOnce(e') && NoDup(Keys(e'.jobPool)) &&
      (forall x :: x in Keys(e'.jobPool) <==> x in Keys(e.jobPool) || (x.wid == w && x.name in sequence)) &&
      (|sequence| > 0 ==> w in r.stepMap && forall y :: y in sequence ==> y in r.stepMap[w]) &&
      e'.lastSteps == e.lastSteps + if |sequence| > 0 then [Pair(sequence[|sequence| - 1], w)] else []
    ensures ExecSequence(e, db, w, sequence, r).Ok? ==>
      var e' := ExecSequence(e, db, w, sequence, r).value;
      var sqn := Sqn(r.stepMap, w, sequence).value;
      var pairs := NewPairs(sqn, e.configured);
      ConfTexts(r.confDict, pairs).Ok? && e'.confPairs == e.confPairs + pairs &&
      e'.confStr == if pairs == [] then e.confStr else e.confStr + [ConfHeader(db, w, sqn)] + ConfTexts(r.confDict, pairs).value
  {
    if ExecSequence(e, db, w, sequence, r).Ok? {
      ExecSequenceJobs(e, db, w, sequence, r);
      ExecSequenceConf(e, db, w, sequence, r);
    }
  }

  lemma ExecSequenceJobs(e: Execution, db: string, w: nat, sequence: seq<string>, r: Resolved)
    requires ConfOnce(e) && NoDup(Keys(e.jobPool)) && NamedEntries(r.stepMap) && NoDup(sequence)
    ensures ExecSequence(e, db, w, sequence, r).Ok? ==>
      var e' := ExecSequence(e, db, w, sequence, r).value;
      ConfOnce(e') && NoDup(Keys(e'.jobPool)) &&
      (forall x :: x in Keys(e'.jobPool) <==> x in Keys(e.jobPool) || (x.wid == w && x.name in sequence)) &&
      (|sequence| > 0 ==> w in r.stepMap && forall y :: y in sequence ==> y in r.stepMap[w]) &&
      e'.lastSteps == e.lastSteps + if |sequence| > 0 then [Pair(sequence[|sequence| - 1], w)] else []
  {
    var res := ExecSequence(e, db, w, sequence, r);
    if res.Ok? {
      var sqn := Sqn(r.stepMap, w, sequence).value;
      SqnNoDup(r.stepMap, w, sequence);
      NewPairsOnce(e.confPairs, e.configured, sqn);
      assert sequence[..|sequence|] == sequence;
    }
  }

  /** A sequence appends to `conf_str` the header and the configuration
      texts of exactly the pairs it configures for the first time, and
      nothing when there are none. */
  lemma ExecSequenceConf(e: Execution, db: string, w: nat, sequence: seq<string>, r: Resolved)
    requires ExecSequence(e, db, w, sequence, r).Ok?
    ensures var e' := ExecSequence(e, db, w, sequence, r).value;
      var sqn := Sqn(r.stepMap, w, sequence).value;
      var pairs := NewPairs(sqn, e.configured);
      ConfTexts(r.confDict, pairs).Ok? && e'.confPairs == e.confPairs + pairs
  ensures var e' := ExecSequence(e, db, w, sequence, r).value;
      var sqn := Sqn(r.stepMap, w, sequence).value;
      var pairs := NewPairs(sqn, e.configured);
      e'.confStr == if pairs == [] then e.confStr else e.confStr + [ConfHeader(db, w, sqn)] + ConfTexts(r.confDict, pairs).value
  ensures var e' := ExecSequence(e, db, w, sequence, r).value;
      var pairs := NewPairs(Sqn(r.stepMap, w, sequence).value, e.configured);
      e'.ioInfoFiles == if pairs == [] then e.ioInfoFiles else e.ioInfoFiles + [IoInfoFile(db, w)]
  {
    var sqn := Sqn(r.stepMap, w, sequence).value;
    var pairs := NewPairs(sqn, e.configured);
    assert |ConfTexts(r.confDict, pairs).value| == |pairs|;
  }

  /** The execution pass: every occurrence `(y, w)` of a step in a sequence
      has one `job_pool` entry and nothing else has; `last_steps` holds the
      last step of every non-empty sequence, in order; and every pair's
      configuration text is appended at most once. */
  lemma {:induction false} ExecuteKeeps(db: string, sequences: seq<seq<string>>, r: Resolved)
    requires NamedEntries(r.stepMap) && forall i :: 0 <= i < |sequences| ==> NoDup(sequences[i])
    ensures Execute(db, sequences, r).Ok? ==>
      var e := Execute(db, sequences, r).value;
      ConfOnce(e) && NoDup(Keys(e.jobPool)) &&
      (forall x :: x in Keys(e.jobPool) <==> 1 <= x.wid <= |sequences| && x.name in sequences[x.wid - 1]) &&
      (forall x :: x in Keys(e.jobPool) ==> x.wid in r.stepMap && x.name in r.stepMap[x.wid]) &&
      e.lastSteps == LastPairs(sequences)
    decreases |sequences|
  {
    var n := |sequences|;
    if n > 0 {
      var init := sequences[..n - 1];
      assert forall i :: 0 <= i < |init| ==> init[i] == sequences[i];
      ExecuteKeeps(db, init, r);
      var res := Execute(db, init, r);
      if res.Ok? {
        var next := ExecSequence(res.value, db, n, sequences[n - 1], r);
        assert Execute(db, sequences, r) == next;
        ExecSequenceKeeps(res.value, db, n, sequences[n - 1], r);
        if next.Ok? {
          ExecuteKeepsStep(sequences, r, res.value, next.value);
        }
      }
    }
  }

  /** The invariant of `ExecuteKeeps` across one more sequence. */
  lemma ExecuteKeepsStep(sequences: seq<seq<string>>, r: Resolved, e: Execution, e': Execution)
    requires |sequences| > 0
    requires var init := sequences[..|sequences| - 1];
      (forall x :: x in Keys(e.jobPool) <==> 1 <= x.wid <= |init| && x.name in init[x.wid - 1]) &&
      (forall x :: x in Keys(e.jobPool) ==> x.wid in r.stepMap && x.name in r.stepMap[x.wid]) &&
      e.lastSteps == LastPairs(init)
    requires var w, sequence := |sequences|, sequences[|sequences| - 1];
      (forall x :: x in Keys(e'.jobPool) <==> x in Keys(e.jobPool) || (x.wid == w && x.name in sequence)) &&
      (|sequence| > 0 ==> w in r.stepMap && forall y :: y in sequence ==> y in r.stepMap[w]) &&
      e'.lastSteps == e.lastSteps + if |sequence| > 0 then [Pair(sequence[|sequence| - 1], w)] else []
    ensures forall x :: x in Keys(e'.jobPool) <==> 1 <= x.wid <= |sequences| && x.name in sequences[x.wid - 1]
    ensures forall x :: x in Keys(e'.jobPool) ==> x.wid in r.stepMap && x.name in r.stepMap[x.wid]
    ensures e'.lastSteps == LastPairs(sequences)
  {
    var init := sequences[..|sequences| - 1];
    assert forall i :: 0 <= i < |init| ==> init[i] == sequences[i];
  }

  // ---------------------------------------------------------------------
  // `filter_execution`

  /** The `job_pool` keys whose step map entry is the key itself, in
      `job_pool` order, with the text of their entries. */
  function Included(stepMap: map<nat, StepMap>, pool: seq<(Pair, string)>): (r: Result<(seq<Pair>, string)>)
    ensures r.Ok? <==> forall x :: x in Keys(pool) ==> x.wid in stepMap && x.name in stepMap[x.wid]
    ensures r.Ok? ==> forall x :: x in r.value.0 <==> x in Keys(pool) && Canonical(stepMap, x)
    ensures r.Ok? ==> IsSubseq(r.value.0, Keys(pool))
    ensures r.Err? ==> exists x :: (x in Keys(pool) &&
      r.error == if x.wid !in stepMap then KeyError(IntToString(x.wid)) else KeyError(x.name))
  {
    if |pool| == 0 then Ok(([], ""))
    else
      var init := pool[..|pool| - 1];
      var (x, text) := pool[|pool| - 1];
      assert Keys(pool) == Keys(init) + [x];
      match Included(stepMap, init)
      case Err(e) => Err(e)
      case Ok(acc) =>
        IsSubseqAppend(acc.0, Keys(init), x);
        if x.wid !in stepMap then Err(KeyError(IntToString(x.wid)))
        else if x.name !in stepMap[x.wid] then Err(KeyError(x.name))
        else if stepMap[x.wid][x.name] == x then Ok((acc.0 + [x], acc.1 + "\n" + text))
        else Ok(acc)
  }

  /** The text of the `job_pool` entry of `x`. */
  function PoolText(pool: seq<(Pair, string)>, x: Pair): string
    requires x in Keys(pool)
  {
    pool[IndexOf(Keys(pool), x)].1
  }

  /** The texts of the entries of `xs`, each on a new line, in the order of
      `xs`. */
  function TextsOf(pool: seq<(Pair, string)>, xs: seq<Pair>): string
    requires forall x :: x in xs ==> x in Keys(pool)
  {
    if |xs| == 0 then ""
    else TextsOf(pool, xs[..|xs| - 1]) + "\n" + PoolText(pool, xs[|xs| - 1])
  }

  /** On a pool with distinct keys, the text `Included` gathers is the
      included entries' texts in pool order. */
  lemma {:induction false} IncludedText(stepMap: map<nat, StepMap>, pool: seq<(Pair, string)>)
    requires NoDup(Keys(pool))
    ensures Included(stepMap, pool).Ok? ==>
      Included(stepMap, pool).value.1 == TextsOf(pool, Included(stepMap, pool).value.0)
    decreases |pool|
  {
    if |pool| > 0 && Included(stepMap, pool).Ok? {
      var i := |pool| - 1;
      var init, x, text := pool[..i], pool[i].0, pool[i].1;
      assert pool[..i + 1] == pool && init + [(x, text)] == pool;
      assert Keys(pool) == Keys(init) + [x];
      assert NoDup(Keys(init)) by {
        assert Keys(init) == Keys(pool)[..i];
      }
      IncludedOkLater(stepMap, pool, i);
      IncludedText(stepMap, init);
      var acc := Included(stepMap, init).value;
      IncludedSnoc(stepMap, pool, i);
      TextsOfSnoc(init, x, text, acc.0);
      if stepMap[x.wid][x.name] == x {
        assert x !in Keys(init) by {
          assert Keys(pool)[i] == x && Keys(pool)[..i] == Keys(init);
        }
        TextsOfAdd(init, x, text, acc.0);
      }
    }
  }

  /** An `Ok` result on the whole pool has one on every prefix. */
  lemma {:induction false} IncludedOkLater(stepMap: map<nat, StepMap>, pool: seq<(Pair, string)>, i: nat)
    requires i < |pool| && Included(stepMap, pool).Ok?
    ensures Included(stepMap, pool[..i]).Ok?
  {
    assert forall x :: x in Keys(pool[..i]) ==> x in Keys(pool) by {
      forall x | x in Keys(pool[..i]) ensures x in Keys(pool) {
        var j :| 0 <= j < i && Keys(pool[..i])[j] == x;
        assert Keys(pool)[j] == x;
      }
    }
  }

  /** A new key at the end of the pool contributes its own text. */
  lemma TextsOfAdd(init: seq<(Pair, string)>, x: Pair, text: string, xs: seq<Pair>)
    requires x !in Keys(init) && forall y :: y in xs ==> y in Keys(init)
    requires forall y :: y in xs + [x] ==> y in Keys(init + [(x, text)])
    ensures TextsOf(init + [(x, text)], xs + [x]) == TextsOf(init + [(x, text)], xs) + "\n" + text
  {
    var pool := init + [(x, text)];
    assert Keys(pool) == Keys(init) + [x];
    IndexOfSnoc(Keys(init), x, x);
    assert (xs + [x])[..|xs|] == xs;
  }

  lemma IncludedSnoc(stepMap: map<nat, StepMap>, pool: seq<(Pair, string)>, i: nat)
    requires i < |pool| && Included(stepMap, pool[..i]).Ok?
    ensures var acc := Included(stepMap, pool[..i]).value;
      var x := pool[i].0;
      Included(stepMap, pool[..i + 1]) ==
        if x.wid !in stepMap then Err(KeyError(IntToString(x.wid)))
        else if x.name !in stepMap[x.wid] then Err(KeyError(x.name))
        else if stepMap[x.wid][x.name] == x then Ok((acc.0 + [x], acc.1 + "\n" + pool[i].1))
        else Ok(acc)
  {
    assert pool[..i + 1][..i] == pool[..i] && pool[..i + 1][i] == pool[i];
  }

  /** An entry added to the end of the pool leaves the texts of the keys
      already present alone. */
  lemma {:induction false} TextsOfSnoc(init: seq<(Pair, string)>, x: Pair, text: string, xs: seq<Pair>)
    requires forall y :: y in xs ==> y in Keys(init)
    ensures forall y :: y in xs ==> y in Keys(init + [(x, text)])
    ensures TextsOf(init + [(x, text)], xs) == TextsOf(init, xs)
    decreases |xs|
  {
    var pool := init + [(x, text)];
    assert Keys(pool) == Keys(init) + [x];
    if |xs| > 0 {
      var y := xs[|xs| - 1];
      TextsOfSnoc(init, x, text, xs[..|xs| - 1]);
      IndexOfSnoc(Keys(init), x, y);
      assert PoolText(pool, y) == PoolText(init, y);
    }
  }

  /** `[x for x in self.last_steps if x in included_steps]`. */
  function KeepIncluded(lastSteps: seq<Pair>, included: seq<Pair>): (r: seq<Pair>)
    ensures forall x :: x in r <==> x in lastSteps && x in included
    ensures IsSubseq(r, lastSteps)
  {
    if |lastSteps| == 0 then []
    else
      var init := lastSteps[..|lastSteps| - 1];
      var x := lastSteps[|lastSteps| - 1];
      var r := KeepIncluded(init, included);
      assert lastSteps == init + [x];
      IsSubseqAppend(r, init, x);
      if x in included then r + [x] else r
  }

  /** The closing `[DSC]` section, waiting for the given last steps. */
  function DscSection(lastSteps: seq<Pair>): string
  {
    var steps := seq(|lastSteps|, i requires 0 <= i < |lastSteps| =>
      "sos_step('" + Lower(N2a(lastSteps[i].wid)) + "_" + lastSteps[i].name + "')");
    var outputs := seq(|lastSteps|, i requires 0 <= i < |lastSteps| =>
      IoEntry(lastSteps[i].wid, lastSteps[i].name) + "['output']");
    "\n[DSC]\ndepends: " + Join(", ", steps) + "\noutput: " + Join(", ", outputs)
  }

  /** `filter_execution`: the new `self.job_str` and `self.last_steps`. It
      keeps the last steps whose pool entry is canonical, in order, appends
      the texts of the canonical entries in pool order and the `[DSC]`
      section to `job_str`, and fails only on a pool key the step map does
      not hold. */
  function FilterExecution(stepMap: map<nat, StepMap>, jobPool: seq<(Pair, string)>, lastSteps: seq<Pair>,
                           jobStr: string): (r: Result<(string, seq<Pair>)>)
    ensures r.Ok? <==> forall x :: x in Keys(jobPool) ==> x.wid in stepMap && x.name in stepMap[x.wid]
    ensures r.Ok? ==> IsSubseq(r.value.1, lastSteps)
    ensures r.Ok? ==> forall x :: x in r.value.1 <==> x in lastSteps && x in Keys(jobPool) && Canonical(stepMap, x)
    ensures r.Ok? ==> jobStr <= r.value.0
    ensures r.Ok? && NoDup(Keys(jobPool)) ==>
      var inc := Included(stepMap, jobPool).value.0;
      r.value.0 == jobStr + TextsOf(jobPool, inc) + DscSection(r.value.1)
  {
    match Included(stepMap, jobPool)
    case Err(e) => Err(e)
    case Ok(inc) =>
      var last := KeepIncluded(lastSteps, inc.0);
      assert NoDup(Keys(jobPool)) ==> inc.1 == TextsOf(jobPool, inc.0) by {
        if NoDup(Keys(jobPool)) {
          IncludedText(stepMap, jobPool);
        }
      }
      Ok((jobStr + inc.1 + DscSection(last), last))
  }

  /** After the passes of `__init__`, `filter_execution` cannot fail, it
      keeps exactly the last steps whose pair is canonical, and the pool's
      keys being distinct, it appends the canonical entries' texts. */
  lemma FilterAfterInit(db: string, workflows: seq<seq<Step>>, sequences: seq<seq<string>>, cs: Compilers,
                        jobStr: string)
    requires forall i :: 0 <= i < |workflows| ==> NoDup(Names(workflows[i]))
    requires forall i :: 0 <= i < |sequences| ==> NoDup(sequences[i])
    requires Resolve(workflows, cs).Ok? && Execute(db, sequences, Resolve(workflows, cs).value).Ok?
    ensures var r := Resolve(workflows, cs).value;
      var e := Execute(db, sequences, r).value;
      var f := FilterExecution(r.stepMap, e.jobPool, e.lastSteps, jobStr);
      f.Ok? && (forall x :: x in f.value.1 <==> x in LastPairs(sequences) && Canonical(r.stepMap, x)) &&
      f.value.0 == jobStr + TextsOf(e.jobPool, Included(r.stepMap, e.jobPool).value.0) + DscSection(f.value.1)
  {
    var r := Resolve(workflows, cs).value;
    ResolveKeeps(workflows, cs);
    assert NamedEntries(r.stepMap);
    ExecuteKeeps(db, sequences, r);
    var e := Execute(db, sequences, r).value;
    LastPairsInPool(sequences);
  }

  lemma {:induction false} LastPairsInPool(sequences: seq<seq<string>>)
    ensures forall x :: x in LastPairs(sequences) ==> 1 <= x.wid <= |sequences| && x.name in sequences[x.wid - 1]
    decreases |sequences|
  {
    var n := |sequences|;
    if n > 0 {
      var init := sequences[..n - 1];
      LastPairsInPool(init);
      assert forall i :: 0 <= i < |init| ==> init[i] == sequences[i];
    }
  }
}
