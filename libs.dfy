/** `DSC_Translator.install_libs` of `src/dsc_translator.py`: the cache of
    installed libraries. The cache is a set of files `.sos/.dsc/<db>.<hash>.lib-info`,
    one per list of libraries, each holding a line `<type> <library>` per
    library whose installation succeeded. The file system is a map from
    path to content; the hash and the installers are parameters. */
module LibCache {
  import opened Common

  /** The two library types `install_libs` accepts. */
  datatype LibType = RLibrary | PythonModule

  /** The name of a library type, as the caller spells it and as the cache
      records it. */
  function TypeName(t: LibType): string
  {
    match t
    case RLibrary => "R_library"
    case PythonModule => "Python_Module"
  }

  /** The check `lib_type not in ["R_library", "Python_Module"]`. */
  function ParseLibType(s: string): (r: Result<LibType>)
    ensures r.Ok? <==> s == "R_library" || s == "Python_Module"
    ensures r.Ok? ==> TypeName(r.value) == s
    ensures r.Err? ==> r.error == ValueError("Invalid library type ``" + s + "``.")
  {
    if s == "R_library" then Ok(RLibrary)
    else if s == "Python_Module" then Ok(PythonModule)
    else Err(ValueError("Invalid library type ``" + s + "``."))
  }

  lemma ParseTypeName(t: LibType)
    ensures ParseLibType(TypeName(t)) == Ok(t)
  {
    assert "Python_Module"[0] != "R_library"[0];
  }

  const CacheDir := ".sos/.dsc/"
  const Suffix := ".lib-info"
  /** The message of the `IndexError` of a list index past the end. */
  const OutOfRange := "list index out of range"

  /** `xxh32` of a string; not part of this model. */
  const Xxh32: string -> nat

  /** The lowest `k` hexadecimal digits of `n`, lowercase. */
  function Hex(n: nat, k: nat): (r: string)
    ensures |r| == k && forall i :: 0 <= i < k ==> r[i] != '/'
  {
    if k == 0 then "" else Hex(n / 16, k - 1) + [HexDigit(n % 16)]
  }

  /** `xxh(s).hexdigest()`. */
  function HexDigest(s: string): (r: string)
    ensures |r| == 8 && forall i :: 0 <= i < 8 ==> r[i] != '/'
  {
    Hex(Xxh32(s), 8)
  }

  /** Where the cache files of a database live. As written (`typed` false)
      all library types share one family of files; with `typed` each type
      has its own, named after it. */
  function Prefix(db: string, t: LibType, typed: bool): string
  {
    CacheDir + db + "." + if typed then TypeName(t) + "." else ""
  }

  /** `fn`: the cache file of a de-duplicated list of libraries. */
  function CacheFile(db: string, t: LibType, libs: seq<string>, typed: bool): string
  {
    Prefix(db, t, typed) + HexDigest(Join("", libs)) + Suffix
  }

  /** The paths `glob.glob('.sos/.dsc/<db>.*.lib-info')` matches: the
      prefix, then anything without `/`, then the suffix. */
  predicate InGlob(db: string, t: LibType, typed: bool, path: string)
  {
    var p := Prefix(db, t, typed);
    |path| >= |p| + |Suffix| && path[..|p|] == p && path[|path| - |Suffix|..] == Suffix &&
    '/' !in path[|p|..|path| - |Suffix|]
  }

  lemma CacheFileInGlob(db: string, t: LibType, libs: seq<string>, typed: bool)
    ensures InGlob(db, t, typed, CacheFile(db, t, libs, typed))
  {
    var p := Prefix(db, t, typed);
    var path := CacheFile(db, t, libs, typed);
    var h := HexDigest(Join("", libs));
    assert path == p + h + Suffix;
    assert path[..|p|] == p;
    assert path[|path| - |Suffix|..] == Suffix;
    assert path[|p|..|path| - |Suffix|] == h;
  }

  /** Two lists of the same layout whose hashes differ have different files. */
  lemma CacheFilesDiffer(db: string, t: LibType, a: seq<string>, u: LibType, b: seq<string>, typed: bool)
    requires Prefix(db, t, typed) == Prefix(db, u, typed)
    requires HexDigest(Join("", a)) != HexDigest(Join("", b))
    ensures CacheFile(db, t, a, typed) != CacheFile(db, u, b, typed)
  {
    var p := Prefix(db, t, typed);
    var fa := CacheFile(db, t, a, typed);
    var fb := CacheFile(db, u, b, typed);
    assert fa[|p|..|p| + 8] == HexDigest(Join("", a));
    assert fb[|p|..|p| + 8] == HexDigest(Join("", b));
  }

  /** As written, the two types share one glob. */
  lemma UntypedGlobShared(db: string, t: LibType, u: LibType, path: string)
    ensures InGlob(db, t, false, path) == InGlob(db, u, false, path)
  {
    assert Prefix(db, t, false) == Prefix(db, u, false);
  }

  /** In the typed layout the files of one type are not in the glob of the
      other. */
  lemma TypedGlobsDisjoint(db: string, t: LibType, u: LibType, path: string)
    requires t != u && InGlob(db, t, true, path)
    ensures !InGlob(db, u, true, path)
  {
    var n := |CacheDir + db + "."|;
    assert Prefix(db, t, true)[n] == TypeName(t)[0];
    assert Prefix(db, u, true)[n] == TypeName(u)[0];
    assert path[n] == Prefix(db, t, true)[n];
  }

  // ---------------------------------------------------------------------
  // Reading a cache file

  /** `open(fn).readlines()`, each line without its newline (the newline is
      white space, which the `strip()` applied to every line removes). */
  function ReadLines(content: string): (r: seq<string>)
    ensures forall i :: 0 <= i < |r| ==> '\n' !in r[i]
  {
    var ps := Split(content, '\n');
    if ps[|ps| - 1] == "" then ps[..|ps| - 1] else ps
  }

  /** `[x.strip() for x in lines]`. */
  function StripAll(lines: seq<string>): (r: seq<string>)
    ensures |r| == |lines| && forall i :: 0 <= i < |lines| ==> r[i] == Strip(lines[i])
  {
    seq(|lines|, i requires 0 <= i < |lines| => Strip(lines[i]))
  }

  /** `t.split(' ', 1)[1]`: what follows the first space, if there is one. */
  function AfterFirstSpace(t: string): (r: Option<string>)
    ensures r.Some? <==> ' ' in t
    decreases |t|
  {
    if |t| == 0 then None
    else
      assert t == [t[0]] + t[1..];
      if t[0] == ' ' then Some(t[1..]) else AfterFirstSpace(t[1..])
  }

  /** The recorded installations still wanted: the lines (stripped) whose
      library is in `libs`; a line without a space makes the `split`
      raise. */
  function Recorded(lines: seq<string>, libs: seq<string>): (r: Result<seq<string>>)
    ensures r.Ok? <==> forall i :: 0 <= i < |lines| ==> ' ' in lines[i]
    ensures r.Err? ==> r.error == IndexError(OutOfRange)
  {
    if |lines| == 0 then Ok([])
    else
      var init := lines[..|lines| - 1];
      var t := lines[|lines| - 1];
      assert forall i :: 0 <= i < |init| ==> init[i] == lines[i];
      match Recorded(init, libs)
      case Err(e) => Err(e)
      case Ok(acc) =>
        if ' ' !in t then Err(IndexError(OutOfRange))
        else if AfterFirstSpace(t).value in libs then Ok(acc + [t])
        else Ok(acc)
  }

  /** The recorded installations of a cache file, if the file exists. */
  function RecordedOf(store: map<string, string>, fn: string, libs: seq<string>): Result<seq<string>>
  {
    if fn in store then Recorded(StripAll(ReadLines(store[fn])), libs) else Ok([])
  }

  /** The kept records are lines of a wanted library. */
  lemma {:induction false} RecordedLines(lines: seq<string>, libs: seq<string>)
    requires Recorded(lines, libs).Ok?
    ensures forall t :: t in Recorded(lines, libs).value ==>
      t in lines && AfterFirstSpace(t).Some? && AfterFirstSpace(t).value in libs
    decreases |lines|
  {
    if |lines| > 0 {
      var init := lines[..|lines| - 1];
      assert forall i :: 0 <= i < |init| ==> init[i] == lines[i];
      RecordedLines(init, libs);
    }
  }

  /** Conversely, every record of a wanted library is kept, and the kept
      records keep their order in the file. */
  lemma {:induction false} RecordedKeepsWanted(lines: seq<string>, libs: seq<string>)
    requires Recorded(lines, libs).Ok?
    ensures forall t :: t in lines && AfterFirstSpace(t).Some? && AfterFirstSpace(t).value in libs ==>
      t in Recorded(lines, libs).value
    ensures IsSubseq(Recorded(lines, libs).value, lines)
    decreases |lines|
  {
    if |lines| == 0 {
      IsSubseqRefl(lines);
    } else {
      var init := lines[..|lines| - 1];
      var x := lines[|lines| - 1];
      assert forall i :: 0 <= i < |init| ==> init[i] == lines[i];
      assert lines == init + [x];
      RecordedKeepsWanted(init, libs);
      var acc := Recorded(init, libs).value;
      IsSubseqAppend(acc, init, x);
      assert forall t :: t in lines ==> t in init || t == x;
    }
  }

  /** Lines that are all records of wanted libraries are all kept. */
  lemma {:induction false} RecordedKeepsAll(lines: seq<string>, libs: seq<string>)
    requires forall t :: t in lines ==> AfterFirstSpace(t).Some? && AfterFirstSpace(t).value in libs
    ensures Recorded(lines, libs) == Ok(lines)
    decreases |lines|
  {
    if |lines| > 0 {
      var init := lines[..|lines| - 1];
      var x := lines[|lines| - 1];
      assert forall t :: t in init ==> t in lines;
      RecordedKeepsAll(init, libs);
      assert x in lines;
      assert init + [x] == lines;
    }
  }

  // ---------------------------------------------------------------------
  // Installing

  /** The record `'<type> <lib>'` of an installed library. */
  function Entry(t: LibType, l: string): string
  {
    TypeName(t) + " " + l
  }

  /** The libraries the installer is called for: those without a record. */
  function Calls(libs: seq<string>, t: LibType, recorded: seq<string>): (r: seq<string>)
    ensures forall l :: l in r <==> l in libs && Entry(t, l) !in recorded
    ensures IsSubseq(r, libs)
  {
    if |libs| == 0 then []
    else
      var init := libs[..|libs| - 1];
      var l := libs[|libs| - 1];
      var r := Calls(init, t, recorded);
      assert libs == init + [l];
      IsSubseqAppend(r, init, l);
      if Entry(t, l) in recorded then r else r + [l]
  }

  /** The records of the installations that succeeded, in call order.
      `installer(t, l)` is whether installing `l` of type `t` succeeds. */
  function Installed(calls: seq<string>, t: LibType, installer: (LibType, string) -> bool): (r: seq<string>)
    ensures |r| <= |calls|
  {
    if |calls| == 0 then []
    else
      var r := Installed(calls[..|calls| - 1], t, installer);
      var l := calls[|calls| - 1];
      if installer(t, l) then r + [Entry(t, l)] else r
  }

  /** Exactly the successful installations are recorded. */
  lemma {:induction false} InstalledMembers(calls: seq<string>, t: LibType, installer: (LibType, string) -> bool)
    ensures forall l :: l in calls && installer(t, l) ==> Entry(t, l) in Installed(calls, t, installer)
    ensures forall x :: x in Installed(calls, t, installer) ==>
      exists l :: l in calls && installer(t, l) && x == Entry(t, l)
    decreases |calls|
  {
    if |calls| > 0 {
      var init := calls[..|calls| - 1];
      InstalledMembers(init, t, installer);
      assert calls == init + [calls[|calls| - 1]];
    }
  }

  /** The store once the stale cache files are removed: every file of the
      glob except `fn`. */
  function Collect(store: map<string, string>, db: string, t: LibType, typed: bool, fn: string)
    : (r: map<string, string>)
    ensures forall f :: f in r <==> f in store && (f == fn || !InGlob(db, t, typed, f))
    ensures forall f :: f in r ==> r[f] == store[f]
  {
    map f | f in store && (f == fn || !InGlob(db, t, typed, f)) :: store[f]
  }

  /** The cache update for the de-duplicated, non-empty list `u`: the new
      store and the libraries the installer is called for, in order. */
  function Update(store: map<string, string>, db: string, u: seq<string>, t: LibType,
                  installer: (LibType, string) -> bool, typed: bool): Result<(map<string, string>, seq<string>)>
  {
    var fn := CacheFile(db, t, u, typed);
    match RecordedOf(store, fn, u)
    case Err(e) => Err(e)
    case Ok(recorded) =>
      var calls := Calls(u, t, recorded);
      Ok((Collect(store, db, t, typed, fn)[fn := Join("\n", recorded + Installed(calls, t, installer))], calls))
  }

  /** `install_libs(libs, lib_type)`. */
  function InstallLibs(store: map<string, string>, db: string, libs: seq<string>, libType: string,
                       installer: (LibType, string) -> bool, typed: bool)
    : Result<(map<string, string>, seq<string>)>
  {
    match ParseLibType(libType)
    case Err(e) => Err(e)
    case Ok(t) => if |libs| == 0 then Ok((store, [])) else Update(store, db, UniqList(libs), t, installer, typed)
  }

  /** Any type but the two is an error, before anything else happens; an
      empty list changes nothing. */
  lemma InstallLibsChecks(store: map<string, string>, db: string, libs: seq<string>, libType: string,
                          installer: (LibType, string) -> bool, typed: bool)
    ensures var r := InstallLibs(store, db, libs, libType, installer, typed);
      (r == Err(ValueError("Invalid library type ``" + libType + "``.")) <==>
         libType != "R_library" && libType != "Python_Module") &&
      (|libs| == 0 && r.Ok? ==> r == Ok((store, [])))
  {
  }

  // ---------------------------------------------------------------------
  // What `install_libs` guarantees

  /** Stale cache files are removed, the cache file of `libs` is written,
      and no file outside the glob is touched. */
  lemma InstallLibsCollects(store: map<string, string>, db: string, libs: seq<string>, t: LibType,
                            installer: (LibType, string) -> bool, typed: bool)
    requires |libs| > 0
    ensures var r := InstallLibs(store, db, libs, TypeName(t), installer, typed);
      var fn := CacheFile(db, t, UniqList(libs), typed);
      r.Ok? ==>
        InGlob(db, t, typed, fn) &&
        (forall f :: f in r.value.0 <==> f == fn || (f in store && !InGlob(db, t, typed, f))) &&
        (forall f :: f in store && !InGlob(db, t, typed, f) ==> r.value.0[f] == store[f])
  {
    InstallLibsUpdate(store, db, libs, t, installer, typed);
    UpdateCollects(store, db, UniqList(libs), t, installer, typed);
  }

  lemma UpdateCollects(store: map<string, string>, db: string, u: seq<string>, t: LibType,
                       installer: (LibType, string) -> bool, typed: bool)
    ensures var r := Update(store, db, u, t, installer, typed);
      var fn := CacheFile(db, t, u, typed);
      r.Ok? ==>
        InGlob(db, t, typed, fn) &&
        (forall f :: f in r.value.0 <==> f == fn || (f in store && !InGlob(db, t, typed, f))) &&
        (forall f :: f in store && !InGlob(db, t, typed, f) ==> r.value.0[f] == store[f])
  {
    CacheFileInGlob(db, t, u, typed);
  }

  /** Only the libraries without a record are installed, each once, and
      the file records the recorded ones still wanted and the successful
      new installations. It fails only on a malformed record. */
  lemma InstallLibsDelta(store: map<string, string>, db: string, libs: seq<string>, t: LibType,
                         installer: (LibType, string) -> bool, typed: bool)
    requires |libs| > 0
    ensures var r := InstallLibs(store, db, libs, TypeName(t), installer, typed);
      var fn := CacheFile(db, t, UniqList(libs), typed);
      var rec := RecordedOf(store, fn, UniqList(libs));
      (r.Err? <==> rec.Err?) &&
      (r.Ok? ==>
         NoDup(r.value.1) && IsSubseq(r.value.1, UniqList(libs)) &&
         (forall l :: l in r.value.1 <==> l in libs && Entry(t, l) !in rec.value) &&
         r.value.0[fn] == Join("\n", rec.value + Installed(r.value.1, t, installer)))
  {
    InstallLibsUpdate(store, db, libs, t, installer, typed);
    var u := UniqList(libs);
    var rec := RecordedOf(store, CacheFile(db, t, u, typed), u);
    if rec.Ok? {
      SubseqNoDup(Calls(u, t, rec.value), u);
    }
  }

  lemma {:induction false} SubseqNoDup<T>(a: seq<T>, b: seq<T>)
    requires IsSubseq(a, b) && NoDup(b)
    ensures NoDup(a)
    decreases |b|
  {
    if |a| > 0 && |b| > 0 {
      var b' := b[..|b| - 1];
      assert NoDup(b');
      if a[|a| - 1] == b[|b| - 1] {
        SubseqNoDup(a[..|a| - 1], b');
        IsSubseqMembers(a[..|a| - 1], b');
        assert b[|b| - 1] !in b';
        assert a == a[..|a| - 1] + [a[|a| - 1]];
      } else {
        SubseqNoDup(a, b');
      }
    }
  }

  // ---------------------------------------------------------------------
  // Re-running

  /** A name as a cache line can hold it: not empty, no white space. */
  ghost predicate PlainName(l: string)
  {
    |l| > 0 && forall i :: 0 <= i < |l| ==> !IsSpace(l[i])
  }

  /** A line as the cache reads it back unchanged and keeps for `libs`. */
  ghost predicate GoodRecord(x: string, libs: seq<string>)
  {
    |x| > 0 && !IsSpace(x[0]) && !IsSpace(x[|x| - 1]) && '\n' !in x &&
    AfterFirstSpace(x).Some? && AfterFirstSpace(x).value in libs
  }

  lemma StripIdempotent(s: string)
    ensures Strip(Strip(s)) == Strip(s)
  {
    StripNoop(Strip(s));
  }

  lemma StripKeepsOut(s: string, c: char)
    requires c !in s
    ensures c !in Strip(s)
  {
    var l := StripLeft(s);
    assert l == s[|s| - |l|..];
    assert Strip(s) == StripRight(l);
    assert StripRight(l) == l[..|StripRight(l)|];
  }

  lemma {:induction false} AfterSpaceOf(a: string, b: string)
    requires ' ' !in a
    ensures AfterFirstSpace(a + " " + b) == Some(b)
    decreases |a|
  {
    var s := a + " " + b;
    if |a| == 0 {
      assert s == " " + b;
      assert s[1..] == b;
    } else {
      assert s[1..] == a[1..] + " " + b;
      assert ' ' !in a[1..] by {
        forall i | 0 <= i < |a[1..]| ensures a[1..][i] != ' ' {
          assert a[1..][i] == a[i + 1];
        }
      }
      AfterSpaceOf(a[1..], b);
    }
  }

  lemma TypeNamePlain(t: LibType)
    ensures PlainName(TypeName(t))
  {
  }

  lemma PlainNoChar(s: string, c: char)
    requires PlainName(s) && IsSpace(c)
    ensures c !in s
  {
    forall i | 0 <= i < |s| ensures s[i] != c {
      assert !IsSpace(s[i]);
    }
  }

  /** The record of a plain library name is a good record. */
  lemma EntryGood(t: LibType, l: string, libs: seq<string>)
    requires PlainName(l) && l in libs
    ensures GoodRecord(Entry(t, l), libs)
  {
    var a := TypeName(t);
    var x := Entry(t, l);
    TypeNamePlain(t);
    PlainNoChar(a, ' ');
    PlainNoChar(a, '\n');
    PlainNoChar(l, '\n');
    AfterSpaceOf(a, l);
    assert x[0] == a[0] && x[|x| - 1] == l[|l| - 1];
    assert forall i :: 0 <= i < |x| ==> x[i] != '\n' by {
      forall i | 0 <= i < |x| ensures x[i] != '\n' {
        if i < |a| {
          assert x[i] == a[i];
        } else if i > |a| {
          assert x[i] == l[i - |a| - 1];
        }
      }
    }
  }

  /** The records kept from stripped lines without newlines are good. */
  lemma KeptGood(raw: seq<string>, libs: seq<string>)
    requires forall i :: 0 <= i < |raw| ==> '\n' !in raw[i]
    requires Recorded(StripAll(raw), libs).Ok?
    ensures forall x :: x in Recorded(StripAll(raw), libs).value ==> GoodRecord(x, libs)
  {
    var lines := StripAll(raw);
    RecordedLines(lines, libs);
    KeptGoodOf(lines, raw, libs, Recorded(lines, libs).value);
  }

  lemma KeptGoodOf(lines: seq<string>, raw: seq<string>, libs: seq<string>, rec: seq<string>)
    requires |lines| == |raw| && forall i :: 0 <= i < |raw| ==> '\n' !in raw[i] && lines[i] == Strip(raw[i])
    requires forall t :: t in rec ==> t in lines && AfterFirstSpace(t).Some? && AfterFirstSpace(t).value in libs
    ensures forall x :: x in rec ==> GoodRecord(x, libs)
  {
    forall x | x in rec ensures GoodRecord(x, libs) {
      var i :| 0 <= i < |lines| && lines[i] == x;
      StrippedGood(raw[i], libs);
    }
  }

  /** A stripped line without newlines whose library is in `libs` is good. */
  lemma StrippedGood(line: string, libs: seq<string>)
    requires '\n' !in line
    requires var x := Strip(line); x != "" && AfterFirstSpace(x).Some? && AfterFirstSpace(x).value in libs
    ensures GoodRecord(Strip(line), libs)
  {
    StripKeepsOut(line, '\n');
  }

  /** The records kept from a file are good records. */
  lemma RecordsGood(content: string, libs: seq<string>)
    requires Recorded(StripAll(ReadLines(content)), libs).Ok?
    ensures forall x :: x in Recorded(StripAll(ReadLines(content)), libs).value ==> GoodRecord(x, libs)
  {
    KeptGood(ReadLines(content), libs);
  }

  /** The records of successful installations of plain names are good. */
  lemma AddedGood(calls: seq<string>, libs: seq<string>, t: LibType, installer: (LibType, string) -> bool)
    requires forall l :: l in calls ==> l in libs && PlainName(l)
    ensures forall x :: x in Installed(calls, t, installer) ==> GoodRecord(x, libs)
  {
    InstalledMembers(calls, t, installer);
    forall x | x in Installed(calls, t, installer) ensures GoodRecord(x, libs) {
      var l :| l in calls && installer(t, l) && x == Entry(t, l);
      EntryGood(t, l, libs);
    }
  }

  lemma GoodLines(lines: seq<string>, libs: seq<string>)
    requires forall x :: x in lines ==> GoodRecord(x, libs)
    ensures forall i :: 0 <= i < |lines| ==> '\n' !in lines[i] && |lines[i]| > 0
    ensures forall i :: 0 <= i < |lines| ==> Strip(lines[i]) == lines[i]
  {
    forall i | 0 <= i < |lines|
      ensures '\n' !in lines[i] && |lines[i]| > 0 && Strip(lines[i]) == lines[i]
    {
      var x := lines[i];
      assert x in lines;
      assert GoodRecord(x, libs);
      StripNoop(x);
    }
  }

  lemma StripAllNoop(lines: seq<string>)
    requires forall i :: 0 <= i < |lines| ==> Strip(lines[i]) == lines[i]
    ensures StripAll(lines) == lines
  {
  }

  /** Good records written to a file are read back and all kept. */
  lemma Reread(lines: seq<string>, libs: seq<string>)
    requires forall x :: x in lines ==> GoodRecord(x, libs)
    ensures Recorded(StripAll(ReadLines(Join("\n", lines))), libs) == Ok(lines)
  {
    GoodLines(lines, libs);
    ReadWritten(lines);
    StripAllNoop(lines);
    RecordedKeepsAll(lines, libs);
  }

  /** `Split` at a separator closes an empty last piece. */
  lemma SplitAtSep(s: string, c: char)
    requires |s| > 0 && s[|s| - 1] == c
    ensures Split(s, c) == Split(s[..|s| - 1], c) + [""]
  {
  }

  /** `Split` at any other character extends the last piece. */
  lemma SplitAtOther(s: string, c: char)
    requires |s| > 0 && s[|s| - 1] != c
    ensures var prev := Split(s[..|s| - 1], c);
      Split(s, c) == prev[..|prev| - 1] + [prev[|prev| - 1] + [s[|s| - 1]]]
  {
  }

  lemma {:induction false} SplitExtend(a: string, b: string, c: char)
    requires c !in b
    ensures Split(a + [c] + b, c) == Split(a, c) + [b]
    decreases |b|
  {
    var s := a + [c] + b;
    if |b| == 0 {
      assert s[..|s| - 1] == a;
      SplitAtSep(s, c);
    } else {
      var b' := b[..|b| - 1];
      assert c !in b' by {
        forall i | 0 <= i < |b'| ensures b'[i] != c {
          assert b'[i] == b[i];
        }
      }
      var s' := a + [c] + b';
      assert s[..|s| - 1] == s';
      SplitExtend(a, b', c);
      SplitAtOtherOf(s, s', c);
      ExtendLastOf(Split(s, c), Split(s', c), Split(a, c), b, b[|b| - 1]);
    }
  }

  lemma SplitAtOtherOf(s: string, s': string, c: char)
    requires |s| > 0 && s[|s| - 1] != c && s[..|s| - 1] == s'
    ensures var prev := Split(s', c);
      Split(s, c) == prev[..|prev| - 1] + [prev[|prev| - 1] + [s[|s| - 1]]]
  {
    SplitAtOther(s, c);
  }

  lemma ExtendLastOf(r: seq<string>, prev: seq<string>, p: seq<string>, b: string, x: char)
    requires |prev| > 0 && |b| > 0 && x == b[|b| - 1]
    requires prev == p + [b[..|b| - 1]] && r == prev[..|prev| - 1] + [prev[|prev| - 1] + [x]]
    ensures r == p + [b]
  {
    assert prev[..|prev| - 1] == p;
    assert b[..|b| - 1] + [x] == b;
  }

  lemma {:induction false} SplitNoSep(s: string, c: char)
    requires c !in s
    ensures Split(s, c) == [s]
    decreases |s|
  {
    if |s| > 0 {
      var s' := s[..|s| - 1];
      assert c !in s' by {
        forall i | 0 <= i < |s'| ensures s'[i] != c {
          assert s'[i] == s[i];
        }
      }
      SplitNoSep(s', c);
      assert s' + [s[|s| - 1]] == s;
    }
  }

  lemma {:induction false} SplitJoin(parts: seq<string>, c: char)
    requires |parts| > 0 && forall i :: 0 <= i < |parts| ==> c !in parts[i]
    ensures Split(Join([c], parts), c) == parts
    decreases |parts|
  {
    if |parts| == 1 {
      SplitNoSep(parts[0], c);
    } else {
      var init := parts[..|parts| - 1];
      var p := parts[|parts| - 1];
      assert parts == init + [p];
      assert forall i :: 0 <= i < |init| ==> init[i] == parts[i];
      SplitJoin(init, c);
      JoinSnoc([c], init, p);
      SplitExtend(Join([c], init), p, c);
    }
  }

  /** Lines written with `'\n'.join(lines)` are read back as written. */
  lemma ReadWritten(lines: seq<string>)
    requires forall i :: 0 <= i < |lines| ==> '\n' !in lines[i] && |lines[i]| > 0
    ensures ReadLines(Join("\n", lines)) == lines
  {
    if |lines| > 0 {
      SplitJoin(lines, '\n');
    } else {
      assert Split("", '\n') == [""];
    }
  }

  /** Every library with a record needs no call. */
  lemma {:induction false} CallsCovered(libs: seq<string>, t: LibType, recorded: seq<string>)
    requires forall l :: l in libs ==> Entry(t, l) in recorded
    ensures Calls(libs, t, recorded) == []
    decreases |libs|
  {
    if |libs| > 0 {
      var init := libs[..|libs| - 1];
      assert libs[|libs| - 1] in libs;
      assert forall l :: l in init ==> l in libs;
      CallsCovered(init, t, recorded);
    }
  }

  /** What an update writes to the cache file is good records. */
  lemma WrittenGood(store: map<string, string>, fn: string, u: seq<string>, t: LibType,
                    installer: (LibType, string) -> bool)
    requires forall l :: l in u ==> PlainName(l)
    requires RecordedOf(store, fn, u).Ok?
    ensures var rec := RecordedOf(store, fn, u).value;
      forall x :: x in rec + Installed(Calls(u, t, rec), t, installer) ==> GoodRecord(x, u)
  {
    var rec := RecordedOf(store, fn, u).value;
    var added := Installed(Calls(u, t, rec), t, installer);
    if fn in store {
      RecordsGood(store[fn], u);
    }
    AddedGood(Calls(u, t, rec), u, t, installer);
    forall x | x in rec + added ensures GoodRecord(x, u) {
      if x !in rec {
        assert x in added;
      }
    }
  }

  /** When every call succeeds, what an update writes records every library. */
  lemma WrittenCovers(u: seq<string>, t: LibType, rec: seq<string>, installer: (LibType, string) -> bool)
    requires forall l :: l in Calls(u, t, rec) ==> installer(t, l)
    ensures forall l :: l in u ==> Entry(t, l) in rec + Installed(Calls(u, t, rec), t, installer)
  {
    var calls := Calls(u, t, rec);
    InstalledMembers(calls, t, installer);
    forall l | l in u ensures Entry(t, l) in rec + Installed(calls, t, installer) {
      if Entry(t, l) !in rec {
        assert l in calls;
      }
    }
  }

  /** The cache file an update writes is read back as written. */
  lemma RereadWritten(store: map<string, string>, store2: map<string, string>, fn: string, u: seq<string>,
                      t: LibType, installer: (LibType, string) -> bool)
    requires forall l :: l in u ==> PlainName(l)
    requires RecordedOf(store, fn, u).Ok?
    requires var rec := RecordedOf(store, fn, u).value;
      fn in store2 && store2[fn] == Join("\n", rec + Installed(Calls(u, t, rec), t, installer))
    ensures var rec := RecordedOf(store, fn, u).value;
      RecordedOf(store2, fn, u) == Ok(rec + Installed(Calls(u, t, rec), t, installer))
  {
    var rec := RecordedOf(store, fn, u).value;
    WrittenGood(store, fn, u, t, installer);
    Reread(rec + Installed(Calls(u, t, rec), t, installer), u);
  }

  /** When every call succeeds, an update on what was written calls nothing. */
  lemma NoCallsAgain(u: seq<string>, t: LibType, rec: seq<string>, installer: (LibType, string) -> bool)
    requires forall l :: l in Calls(u, t, rec) ==> installer(t, l)
    ensures Calls(u, t, rec + Installed(Calls(u, t, rec), t, installer)) == []
  {
    WrittenCovers(u, t, rec, installer);
    CallsCovered(u, t, rec + Installed(Calls(u, t, rec), t, installer));
  }

  /** An update that calls nothing and finds the records the file holds
      only removes the other files of the glob. */
  lemma UpdateUnchanged(store: map<string, string>, db: string, u: seq<string>, t: LibType,
                        installer: (LibType, string) -> bool, typed: bool, lines: seq<string>)
    requires var fn := CacheFile(db, t, u, typed);
      RecordedOf(store, fn, u) == Ok(lines) && Calls(u, t, lines) == [] &&
      fn in store && store[fn] == Join("\n", lines)
    ensures Update(store, db, u, t, installer, typed) ==
      Ok((Collect(store, db, t, typed, CacheFile(db, t, u, typed)), []))
  {
    var fn := CacheFile(db, t, u, typed);
    assert lines + Installed([], t, installer) == lines;
    var c := Collect(store, db, t, typed, fn);
    assert fn in c && c[fn] == store[fn];
    MapUpdateSame(c, fn);
  }

  lemma MapUpdateSame<K, V>(m: map<K, V>, k: K)
    requires k in m
    ensures m[k := m[k]] == m
  {
  }

  /** After an update whose installations all succeeded, an update with the
      same libraries on a store with the same cache file calls the installer
      for no library and rewrites the file as it was. */
  lemma UpdateRerun(store: map<string, string>, store2: map<string, string>, db: string, u: seq<string>,
                    t: LibType, installer: (LibType, string) -> bool, installer2: (LibType, string) -> bool,
                    typed: bool)
    requires forall l :: l in u ==> PlainName(l)
    requires Update(store, db, u, t, installer, typed).Ok?
    requires forall l :: l in Update(store, db, u, t, installer, typed).value.1 ==> installer(t, l)
    requires var fn := CacheFile(db, t, u, typed);
      fn in store2 && store2[fn] == Update(store, db, u, t, installer, typed).value.0[fn]
    ensures Update(store2, db, u, t, installer2, typed).Ok?
    ensures Update(store2, db, u, t, installer2, typed).value.1 == []
    ensures Update(store2, db, u, t, installer2, typed).value.0 ==
      Collect(store2, db, t, typed, CacheFile(db, t, u, typed))
  {
    var fn := CacheFile(db, t, u, typed);
    var rec := RecordedOf(store, fn, u).value;
    var lines := rec + Installed(Calls(u, t, rec), t, installer);
    RereadWritten(store, store2, fn, u, t, installer);
    NoCallsAgain(u, t, rec, installer);
    UpdateUnchanged(store2, db, u, t, installer2, typed, lines);
  }

  /** A second run with the same libraries, after the first one succeeded
      entirely, installs nothing and leaves the store as it was. */
  lemma InstallLibsIdempotent(store: map<string, string>, db: string, libs: seq<string>, t: LibType,
                              installer: (LibType, string) -> bool, typed: bool)
    requires |libs| > 0 && forall i :: 0 <= i < |libs| ==> PlainName(libs[i])
    requires InstallLibs(store, db, libs, TypeName(t), installer, typed).Ok?
    requires forall l :: l in InstallLibs(store, db, libs, TypeName(t), installer, typed).value.1 ==> installer(t, l)
    ensures var store' := InstallLibs(store, db, libs, TypeName(t), installer, typed).value.0;
      InstallLibs(store', db, libs, TypeName(t), installer, typed) == Ok((store', []))
  {
    InstallLibsUpdate(store, db, libs, t, installer, typed);
    var u := UniqList(libs);
    var fn := CacheFile(db, t, u, typed);
    var store' := Update(store, db, u, t, installer, typed).value.0;
    InstallLibsUpdate(store', db, libs, t, installer, typed);
    InstallLibsCollects(store, db, libs, t, installer, typed);
    UpdateRerun(store, store', db, u, t, installer, installer, typed);
    CollectNoop(store', db, t, typed, fn);
  }

  /** A store with no other file of the glob loses nothing. */
  lemma CollectNoop(store: map<string, string>, db: string, t: LibType, typed: bool, fn: string)
    requires forall f :: f in store ==> f == fn || !InGlob(db, t, typed, f)
    ensures Collect(store, db, t, typed, fn) == store
  {
  }

  // ---------------------------------------------------------------------
  // The two calls of `__init__` on a local host

  /** `install_libs(rlib, "R_library")`, then
      `install_libs(pymodule, "Python_Module")`: the store and the calls of
      each installer. */
  function LocalLibs(store: map<string, string>, db: string, rlibs: seq<string>, pymodules: seq<string>,
                     installer: (LibType, string) -> bool, typed: bool)
    : Result<(map<string, string>, seq<string>, seq<string>)>
  {
    match InstallLibs(store, db, rlibs, "R_library", installer, typed)
    case Err(e) => Err(e)
    case Ok(r) =>
      match InstallLibs(r.0, db, pymodules, "Python_Module", installer, typed)
      case Err(e) => Err(e)
      case Ok(p) => Ok((p.0, r.1, p.1))
  }

  lemma {:induction false} CallsNone(libs: seq<string>, t: LibType)
    ensures Calls(libs, t, []) == libs
    decreases |libs|
  {
    if |libs| > 0 {
      var init := libs[..|libs| - 1];
      assert libs == init + [libs[|libs| - 1]];
      CallsNone(init, t);
      assert Calls(libs, t, []) == Calls(init, t, []) + [libs[|libs| - 1]];
    }
  }

  /** As written, the Python call removes the R cache file (both share one
      glob), so every later run reinstalls every R library. */
  lemma SharedGlobReinstalls(store: map<string, string>, db: string, rlibs: seq<string>, pymodules: seq<string>,
                             installer: (LibType, string) -> bool)
    requires |rlibs| > 0 && |pymodules| > 0
    requires HexDigest(Join("", UniqList(rlibs))) != HexDigest(Join("", UniqList(pymodules)))
    requires LocalLibs(store, db, rlibs, pymodules, installer, false).Ok?
    ensures var again := LocalLibs(LocalLibs(store, db, rlibs, pymodules, installer, false).value.0, db, rlibs,
                                   pymodules, installer, false);
      again.Ok? ==> again.value.1 == UniqList(rlibs)
  {
    ParseTypeName(RLibrary);
    var r := InstallLibs(store, db, rlibs, "R_library", installer, false).value;
    PythonCallRemovesR(r.0, db, rlibs, pymodules, installer);
    var s1 := LocalLibs(store, db, rlibs, pymodules, installer, false).value.0;
    MissingCacheCallsAll(s1, db, rlibs, RLibrary, installer, false);
  }

  /** As written, the Python call removes the cache file of any other list. */
  lemma PythonCallRemovesR(store: map<string, string>, db: string, rlibs: seq<string>, pymodules: seq<string>,
                           installer: (LibType, string) -> bool)
    requires |pymodules| > 0
    requires HexDigest(Join("", UniqList(rlibs))) != HexDigest(Join("", UniqList(pymodules)))
    requires InstallLibs(store, db, pymodules, "Python_Module", installer, false).Ok?
    ensures CacheFile(db, RLibrary, UniqList(rlibs), false) !in
      InstallLibs(store, db, pymodules, "Python_Module", installer, false).value.0
  {
    ParseTypeName(PythonModule);
    var fnR := CacheFile(db, RLibrary, UniqList(rlibs), false);
    CacheFilesDiffer(db, RLibrary, UniqList(rlibs), PythonModule, UniqList(pymodules), false);
    CacheFileInGlob(db, RLibrary, UniqList(rlibs), false);
    UntypedGlobShared(db, RLibrary, PythonModule, fnR);
    InstallLibsCollects(store, db, pymodules, PythonModule, installer, false);
  }

  /** Without its cache file, every library is installed again. */
  lemma MissingCacheCallsAll(store: map<string, string>, db: string, libs: seq<string>, t: LibType,
                             installer: (LibType, string) -> bool, typed: bool)
    requires |libs| > 0 && CacheFile(db, t, UniqList(libs), typed) !in store
    ensures var r := InstallLibs(store, db, libs, TypeName(t), installer, typed);
      r.Ok? && r.value.1 == UniqList(libs)
  {
    var u := UniqList(libs);
    InstallLibsUpdate(store, db, libs, t, installer, typed);
    UpdateMissing(store, db, u, t, installer, typed);
  }

  /** For either type and a non-empty list, `install_libs` is the update
      of the de-duplicated list. */
  lemma InstallLibsUpdate(store: map<string, string>, db: string, libs: seq<string>, t: LibType,
                          installer: (LibType, string) -> bool, typed: bool)
    requires |libs| > 0
    ensures InstallLibs(store, db, libs, TypeName(t), installer, typed) ==
      Update(store, db, UniqList(libs), t, installer, typed)
  {
    ParseTypeName(t);
  }

  lemma UpdateMissing(store: map<string, string>, db: string, u: seq<string>, t: LibType,
                      installer: (LibType, string) -> bool, typed: bool)
    requires CacheFile(db, t, u, typed) !in store
    ensures Update(store, db, u, t, installer, typed).Ok?
    ensures Update(store, db, u, t, installer, typed).value.1 == u
  {
    assert RecordedOf(store, CacheFile(db, t, u, typed), u) == Ok([]);
    CallsNone(u, t);
  }

  /** With one family of cache files per type, a second run after a first
      one whose installations all succeeded installs nothing. */
  lemma TypedCacheKeeps(store: map<string, string>, db: string, rlibs: seq<string>, pymodules: seq<string>,
                        installer: (LibType, string) -> bool)
    requires |rlibs| > 0 && forall i :: 0 <= i < |rlibs| ==> PlainName(rlibs[i])
    requires |pymodules| > 0 && forall i :: 0 <= i < |pymodules| ==> PlainName(pymodules[i])
    requires LocalLibs(store, db, rlibs, pymodules, installer, true).Ok?
    requires var first := LocalLibs(store, db, rlibs, pymodules, installer, true).value;
      (forall l :: l in first.1 ==> installer(RLibrary, l)) &&
      (forall l :: l in first.2 ==> installer(PythonModule, l))
    ensures var first := LocalLibs(store, db, rlibs, pymodules, installer, true).value;
      var again := LocalLibs(first.0, db, rlibs, pymodules, installer, true);
      again.Ok? && again.value.1 == [] && again.value.2 == []
  {
    ParseTypeName(RLibrary);
    ParseTypeName(PythonModule);
    var uR := UniqList(rlibs);
    var uP := UniqList(pymodules);
    var r := Update(store, db, uR, RLibrary, installer, true).value;
    var s1 := Update(r.0, db, uP, PythonModule, installer, true).value.0;
    var fnR := CacheFile(db, RLibrary, uR, true);
    var fnP := CacheFile(db, PythonModule, uP, true);
    // The Python call keeps the R cache file, so the R call finds its records.
    InstallLibsCollects(store, db, rlibs, RLibrary, installer, true);
    InstallLibsCollects(r.0, db, pymodules, PythonModule, installer, true);
    TypedGlobsDisjoint(db, RLibrary, PythonModule, fnR);
    assert fnR in s1 && s1[fnR] == r.0[fnR];
    UpdateRerun(store, s1, db, uR, RLibrary, installer, installer, true);
    // The second R call keeps the Python cache file, so the Python call does too.
    var s2 := Update(s1, db, uR, RLibrary, installer, true).value.0;
    CacheFileInGlob(db, PythonModule, uP, true);
    TypedGlobsDisjoint(db, PythonModule, RLibrary, fnP);
    assert fnP in s2 && s2[fnP] == s1[fnP];
    UpdateRerun(r.0, s2, db, uP, PythonModule, installer, installer, true);
  }
}
