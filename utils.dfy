/** The helpers of `src/dsc/utils.py` the translator relies on: the
    recursive key lower-casing of configuration values, and the runtime
    environment object with its guarded settings and its lock-file list. */
module Utils {
  import opened Common

  /** A configuration value as read from a DSC file: scalars, lists and
      dictionaries with string keys, the entries in insertion order. */
  datatype Value =
    | VNone
    | VBool(b: bool)
    | VInt(i: int)
    | VStr(s: string)
    | VList(items: seq<Value>)
    | VDict(entries: seq<(string, Value)>)

  // ---------------------------------------------------------------------
  // Dictionaries as insertion-ordered entry lists

  function Keys<K(==), V>(d: seq<(K, V)>): (r: seq<K>)
    ensures |r| == |d| && forall i :: 0 <= i < |d| ==> r[i] == d[i].0
  {
    seq(|d|, i requires 0 <= i < |d| => d[i].0)
  }

  /** The mapping a sequence of `(key, value)` pairs denotes when they are
      stored one after the other: a later pair overrides an earlier one. */
  function MapOf<K(==), V>(ps: seq<(K, V)>): map<K, V>
  {
    if |ps| == 0 then map[] else MapOf(ps[..|ps| - 1])[ps[|ps| - 1].0 := ps[|ps| - 1].1]
  }

  /** `d[k] = v` on a dictionary: an existing key keeps its position and
      gets the new value, a new key goes to the end. */
  function Insert<K(==), V>(d: seq<(K, V)>, k: K, v: V): (r: seq<(K, V)>)
    ensures Keys(r) == if k in Keys(d) then Keys(d) else Keys(d) + [k]
    ensures forall p :: p in r ==> p in d || p == (k, v)
  {
    if k in Keys(d) then
      var i := IndexOf(Keys(d), k);
      var r := d[i := (k, v)];
      assert Keys(r) == Keys(d);
      r
    else
      var r := d + [(k, v)];
      assert Keys(r) == Keys(d) + [k];
      r
  }

  /** After `d[k] = v` the dictionary holds the entry `(k, v)`, at the old
      position of `k` when it had one. */
  lemma InsertStores<K, V>(d: seq<(K, V)>, k: K, v: V)
    ensures (k, v) in Insert(d, k, v)
    ensures k in Keys(d) ==> Insert(d, k, v)[IndexOf(Keys(d), k)] == (k, v)
  {
    if k !in Keys(d) {
      assert Insert(d, k, v)[|d|] == (k, v);
    }
  }

  /** Storing into an existing key of a dictionary whose keys are distinct
      changes the mapping at that key only. */
  lemma {:induction false} MapOfReplace<K, V>(d: seq<(K, V)>, i: nat, v: V)
    requires i < |d| && NoDup(Keys(d))
    ensures MapOf(d[i := (d[i].0, v)]) == MapOf(d)[d[i].0 := v]
    decreases |d|
  {
    var d' := d[i := (d[i].0, v)];
    var init := d[..|d| - 1];
    assert d'[..|d| - 1] == if i == |d| - 1 then init else init[i := (d[i].0, v)];
    if i < |d| - 1 {
      assert Keys(init) == Keys(d)[..|d| - 1];
      assert d[i].0 != d[|d| - 1].0 by {
        assert Keys(d)[i] != Keys(d)[|d| - 1];
      }
      MapOfReplace(init, i, v);
    }
  }

  /** `dict(pairs)`: the pairs stored in order into an empty dictionary. */
  function DictFromPairs<K(==,!new), V>(ps: seq<(K, V)>): (r: seq<(K, V)>)
    ensures Keys(r) == UniqList(Keys(ps))
    ensures MapOf(r) == MapOf(ps)
    ensures forall p :: p in r ==> p in ps
  {
    if |ps| == 0 then []
    else
      var init := ps[..|ps| - 1];
      var (k, v) := ps[|ps| - 1];
      var d := DictFromPairs(init);
      assert Keys(ps) == Keys(init) + [k];
      UniqListSnoc(Keys(init), k);
      var r := Insert(d, k, v);
      InsertMapOf(d, k, v);
      assert MapOf(ps) == MapOf(init)[k := v];
      assert forall p :: p in r ==> p in ps by {
        forall p | p in r ensures p in ps {
          assert p in d || p == ps[|ps| - 1];
        }
      }
      r
  }

  lemma InsertMapOf<K, V>(d: seq<(K, V)>, k: K, v: V)
    requires NoDup(Keys(d))
    ensures MapOf(Insert(d, k, v)) == MapOf(d)[k := v]
  {
    if k in Keys(d) {
      var i := IndexOf(Keys(d), k);
      MapOfReplace(d, i, v);
    } else {
      assert (d + [(k, v)])[..|d|] == d;
    }
  }

  /** A dictionary is rebuilt unchanged from its own entries. */
  lemma {:induction false} DictFromPairsOfDistinct<K(!new), V>(d: seq<(K, V)>)
    requires NoDup(Keys(d))
    ensures DictFromPairs(d) == d
  {
    if |d| > 0 {
      var init := d[..|d| - 1];
      assert Keys(init) == Keys(d)[..|d| - 1];
      DictFromPairsOfDistinct(init);
      assert d[|d| - 1].0 !in Keys(init) by {
        assert Keys(d)[|d| - 1] == d[|d| - 1].0;
      }
      assert init + [d[|d| - 1]] == d;
    }
  }

  // ---------------------------------------------------------------------
  // lower_keys

  /** The entries of a dictionary with their keys lower-cased and their
      values transformed, in order, before they are stored again. */
  function LoweredPairs(d: Value): (r: seq<(string, Value)>)
    requires d.VDict?
    decreases d, 0
    ensures |r| == |d.entries|
  {
    seq(|d.entries|, i requires 0 <= i < |d.entries| => (Lower(d.entries[i].0), LowerKeys(d.entries[i].1)))
  }

  /** `lower_keys(x)`: every dictionary key, at any depth, lower-cased.
      Two keys that become equal collapse into one entry at the position of
      the first, holding the value of the last, as `dict()` stores them. */
  function LowerKeys(v: Value): (r: Value)
    decreases v, 1
    ensures v.VList? ==> (r.VList? && |r.items| == |v.items| &&
      forall i :: 0 <= i < |v.items| ==> r.items[i] == LowerKeys(v.items[i]))
    ensures v.VDict? ==> (r.VDict? &&
      Keys(r.entries) == UniqList(seq(|v.entries|, i requires 0 <= i < |v.entries| => Lower(v.entries[i].0))) &&
      MapOf(r.entries) == MapOf(LoweredPairs(v)))
    ensures !v.VList? && !v.VDict? ==> r == v
  {
    match v
    case VList(items) => VList(seq(|items|, i requires 0 <= i < |items| => LowerKeys(items[i])))
    case VDict(es) =>
      var lowered := LoweredPairs(v);
      assert Keys(lowered) == seq(|es|, i requires 0 <= i < |es| => Lower(es[i].0));
      VDict(DictFromPairs(lowered))
    case _ => v
  }

  /** The keys of a lower-cased dictionary are exactly the lower-case forms
      of the original keys, each once, and are themselves lower case. */
  lemma LowerKeysDictKeys(v: Value)
    requires v.VDict?
    ensures NoDup(Keys(LowerKeys(v).entries))
    ensures forall k :: k in Keys(LowerKeys(v).entries) <==>
      exists j :: 0 <= j < |v.entries| && k == Lower(v.entries[j].0)
    ensures forall k :: k in Keys(LowerKeys(v).entries) ==> Lower(k) == k
  {
    UniqLowered(v.entries, Keys(LowerKeys(v).entries));
  }

  lemma UniqLowered(es: seq<(string, Value)>, ks: seq<string>)
    requires ks == UniqList(seq(|es|, i requires 0 <= i < |es| => Lower(es[i].0)))
    ensures NoDup(ks)
    ensures forall k :: k in ks <==> exists j :: 0 <= j < |es| && k == Lower(es[j].0)
    ensures forall k :: k in ks ==> Lower(k) == k
  {
    var lowered := seq(|es|, i requires 0 <= i < |es| => Lower(es[i].0));
    forall k
      ensures k in lowered <==> exists j :: 0 <= j < |es| && k == Lower(es[j].0)
    {
      if k in lowered {
        var j :| 0 <= j < |lowered| && lowered[j] == k;
        assert k == Lower(es[j].0);
      }
      if exists j :: 0 <= j < |es| && k == Lower(es[j].0) {
        var j :| 0 <= j < |es| && k == Lower(es[j].0);
        assert lowered[j] == k;
      }
    }
    forall k | k in ks
      ensures Lower(k) == k
    {
      var j :| 0 <= j < |es| && k == lowered[j];
      LowerIdempotent(es[j].0);
    }
  }

  /** Lower-casing the keys twice is the same as once. */
  lemma LowerKeysIdempotent(v: Value)
    decreases v
    ensures LowerKeys(LowerKeys(v)) == LowerKeys(v)
  {
    match v
    case VList(items) =>
      forall i | 0 <= i < |items|
        ensures LowerKeys(LowerKeys(items[i])) == LowerKeys(items[i])
      {
        LowerKeysIdempotent(items[i]);
      }
      assert LowerKeys(LowerKeys(v)).items == LowerKeys(v).items;
    case VDict(es) =>
      var r := LowerKeys(v);
      var lp := LoweredPairs(v);
      assert r.entries == DictFromPairs(lp);
      forall j | 0 <= j < |es|
        ensures LowerKeys(LowerKeys(es[j].1)) == LowerKeys(es[j].1)
        ensures Lower(Lower(es[j].0)) == Lower(es[j].0)
      {
        LowerKeysIdempotent(es[j].1);
        LowerIdempotent(es[j].0);
      }
      assert LoweredPairs(r) == r.entries by {
        forall i | 0 <= i < |r.entries|
          ensures LoweredPairs(r)[i] == r.entries[i]
        {
          assert r.entries[i] in lp;
          var j :| 0 <= j < |lp| && lp[j] == r.entries[i];
        }
      }
      LowerKeysDictKeys(v);
      DictFromPairsOfDistinct(r.entries);
    case _ =>
  }

  // ---------------------------------------------------------------------
  // RuntimeEnvironments

  /** Python's `int(v)`: ints as they are, booleans as 0 and 1, strings
      through decimal parsing; anything else raises, here `None`. */
  function PyInt(v: Value): (r: Option<int>)
    ensures v.VInt? ==> r == Some(v.i)
    ensures v.VNone? || v.VList? || v.VDict? ==> r.None?
  {
    match v
    case VInt(i) => Some(i)
    case VBool(b) => Some(if b then 1 else 0)
    case VStr(s) => ParseInt(s)
    case _ => None
  }

  /** A width written out in decimal reads back as the same number. */
  lemma PyIntOfString(i: int)
    ensures PyInt(VStr(IntToString(i))) == Some(i)
  {
    ParseIntOfString(i);
  }

  /** The settings `verbosity` accepts. */
  const VerbosityLevels: seq<Value> := [VStr("0"), VStr("1"), VStr("2"), VStr("3")]
  /** The settings `logfile_verbosity` accepts. */
  const LogfileVerbosityLevels: seq<Value> := [VStr("0"), VStr("1"), VStr("2")]

  /** A value the `search_path` and `user_stash` setters ignore. */
  predicate IsNoneLike(v: Value) {
    v == VNone || v == VStr("None")
  }

  /** The run-time settings of a DSC session and the lock files it holds.
      The file system is the map `files` from path to content, handed to
      the lock operations and returned by them. */
  class RuntimeEnvironments {
    var searchPath: Value
    var logfileVerbosity: Value
    var verbosity: Value
    var lockFiles: seq<string>
    var termWidth: Option<int>
    var userStash: Option<Value>

    /** The verbosity settings only ever hold their initial value or one
        of the accepted levels. */
    predicate Valid()
      reads this
    {
      (verbosity == VInt(1) || verbosity in VerbosityLevels) &&
      (logfileVerbosity == VInt(0) || logfileVerbosity in LogfileVerbosityLevels)
    }

    /** `__init__`, with the current directory given as `cwd`. */
    constructor(cwd: string)
      ensures searchPath == VStr(cwd) && logfileVerbosity == VInt(0) && verbosity == VInt(1)
      ensures lockFiles == [] && termWidth == None && userStash == None
      ensures Valid()
    {
      searchPath := VStr(cwd);
      logfileVerbosity := VInt(0);
      verbosity := VInt(1);
      lockFiles := [];
      termWidth := None;
      userStash := None;
    }

    /** The `term_width` setter: `int(v)`, or `None` when that fails. */
    method SetTermWidth(v: Value)
      requires Valid()
      modifies this
      ensures termWidth == PyInt(v)
      ensures searchPath == old(searchPath) && logfileVerbosity == old(logfileVerbosity)
      ensures verbosity == old(verbosity) && lockFiles == old(lockFiles) && userStash == old(userStash)
      ensures Valid()
    {
      termWidth := PyInt(v);
    }

    /** The `logfile_verbosity` setter: only `'0'`, `'1'` or `'2'` is
        taken, anything else leaves the setting as it was. */
    method SetLogfileVerbosity(v: Value)
      requires Valid()
      modifies this
      ensures v in LogfileVerbosityLevels ==> logfileVerbosity == v
      ensures v !in LogfileVerbosityLevels ==> logfileVerbosity == old(logfileVerbosity)
      ensures searchPath == old(searchPath) && verbosity == old(verbosity) && termWidth == old(termWidth)
      ensures lockFiles == old(lockFiles) && userStash == old(userStash)
      ensures Valid()
    {
      if v in LogfileVerbosityLevels {
        logfileVerbosity := v;
      }
    }

    /** The `verbosity` setter: only `'0'` to `'3'` is taken. */
    method SetVerbosity(v: Value)
      requires Valid()
      modifies this
      ensures v in VerbosityLevels ==> verbosity == v
      ensures v !in VerbosityLevels ==> verbosity == old(verbosity)
      ensures searchPath == old(searchPath) && logfileVerbosity == old(logfileVerbosity)
      ensures termWidth == old(termWidth) && lockFiles == old(lockFiles) && userStash == old(userStash)
      ensures Valid()
    {
      if v in VerbosityLevels {
        verbosity := v;
      }
    }

    /** The `search_path` setter: `None` and `'None'` are ignored. */
    method SetSearchPath(v: Value)
      requires Valid()
      modifies this
      ensures searchPath == if IsNoneLike(v) then old(searchPath) else v
      ensures logfileVerbosity == old(logfileVerbosity) && verbosity == old(verbosity)
      ensures termWidth == old(termWidth) && lockFiles == old(lockFiles) && userStash == old(userStash)
      ensures Valid()
    {
      if !IsNoneLike(v) {
        searchPath := v;
      }
    }

    /** The `user_stash` setter: `None` and `'None'` are ignored. */
    method SetUserStash(v: Value)
      requires Valid()
      modifies this
      ensures userStash == if IsNoneLike(v) then old(userStash) else Some(v)
      ensures searchPath == old(searchPath) && logfileVerbosity == old(logfileVerbosity)
      ensures verbosity == old(verbosity) && termWidth == old(termWidth) && lockFiles == old(lockFiles)
      ensures Valid()
    {
      if !IsNoneLike(v) {
        userStash := Some(v);
      }
    }

    /** `lock(filename, content)`: writes the lock file and remembers it. */
    method Lock(files: map<string, string>, filename: string, content: string)
      returns (files': map<string, string>)
      modifies this
      ensures files' == files[filename := content]
      ensures lockFiles == old(lockFiles) + [filename]
      ensures searchPath == old(searchPath) && logfileVerbosity == old(logfileVerbosity)
      ensures verbosity == old(verbosity) && termWidth == old(termWidth) && userStash == old(userStash)
    {
      files' := files[filename := content];
      lockFiles := lockFiles + [filename];
    }

    /** `unlock(filename, content)`: forgets the lock file (its first
        entry), then removes it when it still holds `content`. A missing
        file is no error; a file whose content has changed is left in
        place and reported as inconsistent. */
    method Unlock(files: map<string, string>, filename: string, content: string)
      returns (outcome: Outcome, files': map<string, string>)
      modifies this
      ensures lockFiles == RemoveFirst(old(lockFiles), filename)
      ensures filename !in files ==> outcome == Pass && files' == files
      ensures filename in files && files[filename] != content ==>
        outcome == Fail(RuntimeError(InconsistentLock)) && files' == files
      ensures filename in files && files[filename] == content ==>
        outcome == Pass && files' == files - {filename}
      ensures searchPath == old(searchPath) && logfileVerbosity == old(logfileVerbosity)
      ensures verbosity == old(verbosity) && termWidth == old(termWidth) && userStash == old(userStash)
    {
      if filename in lockFiles {
        lockFiles := RemoveFirst(lockFiles, filename);
      }
      if filename !in files {
        return Pass, files;
      }
      if files[filename] != content {
        return Fail(RuntimeError(InconsistentLock)), files;
      }
      outcome, files' := Pass, files - {filename};
    }

    /** `lock` followed by `unlock` with the same content, for a file not
        locked yet: it succeeds, the lock list is as before and the file is
        gone. */
    method LockUnlock(files: map<string, string>, filename: string, content: string)
      returns (outcome: Outcome, files': map<string, string>)
      requires filename !in lockFiles
      modifies this
      ensures outcome == Pass
      ensures lockFiles == old(lockFiles) && files' == files - {filename}
      ensures searchPath == old(searchPath) && logfileVerbosity == old(logfileVerbosity)
      ensures verbosity == old(verbosity) && termWidth == old(termWidth) && userStash == old(userStash)
    {
      LockThenUnlock(lockFiles, files, filename, content);
      var locked := Lock(files, filename, content);
      outcome, files' := Unlock(locked, filename, content);
    }

    /** `unlock_all()`: removes every remembered lock file (a file already
        gone is skipped) and forgets them all. */
    method UnlockAll(files: map<string, string>) returns (files': map<string, string>)
      modifies this
      ensures files' == files - (set f | f in old(lockFiles))
      ensures lockFiles == []
      ensures searchPath == old(searchPath) && logfileVerbosity == old(logfileVerbosity)
      ensures verbosity == old(verbosity) && termWidth == old(termWidth) && userStash == old(userStash)
    {
      files' := files;
      var i := 0;
      while i < |lockFiles|
        invariant 0 <= i <= |lockFiles|
        invariant files' == files - (set j | 0 <= j < i :: lockFiles[j])
      {
        files' := files' - {lockFiles[i]};
        i := i + 1;
      }
      assert (set j | 0 <= j < |lockFiles| :: lockFiles[j]) == (set f | f in lockFiles);
      lockFiles := [];
    }
  }

  /** Locking a file not yet held and then unlocking it with the content
      it was written with gives back the lock list and drops the file. */
  lemma LockThenUnlock(locks: seq<string>, files: map<string, string>, f: string, c: string)
    requires f !in locks
    ensures RemoveFirst(locks + [f], f) == locks
    ensures f in files[f := c] && files[f := c][f] == c
    ensures files[f := c] - {f} == files - {f}
  {
    var s := locks + [f];
    assert s[|locks|] == f;
    assert IndexOf(s, f) == |locks| by {
      var i := IndexOf(s, f);
      assert s[..i] == locks[..i] || i == |locks|;
    }
    assert s[..|locks|] == locks;
  }

  const InconsistentLock: string :=
    "Inconsistent lock file. The output file might have been changed by another process."
}
