/**
 * Which type-checker outputs the last bundle still uses (`cleanupMemoryFile` in
 * script/targets/client.ts): the module paths of the bundle, the files that are unused, and
 * the removal of those files one by one from the shared file list.
 */
module MemoryCleanup {
  import opened Wrappers
  import opened JsText
  import opened JsArray
  import opened BuildTools

  /** A module of the bundle statistics; a concatenated module lists its submodules. */
  datatype ModuleStat = ModuleStat(name: string, submodules: Option<seq<string>>)

  /** "+ ", at least one decimal digit, then " modules", at the start of `s`. */
  predicate MarkerAt(s: string) {
    "+ " <= s && var n := DigitRun(s[2..], 10); n >= 1 && " modules" <= s[2..][n..]
  }

  /** `/\+ \d+ modules/.test(name)`: the marker occurs somewhere in the name. */
  predicate IsConcatenated(name: string) {
    exists i | 0 <= i <= |name| :: MarkerAt(name[i..])
  }

  /** The names a module contributes: its submodules when it is concatenated, else itself. */
  function Candidates(m: ModuleStat): seq<string> {
    if IsConcatenated(m.name) && m.submodules.Some? then m.submodules.value else [m.name]
  }

  /** The resolved names that lie under `root`, in order. */
  function OwnPaths(names: seq<string>, resolve: string -> string, root: string): seq<string>
    decreases |names|
  {
    if names == [] then []
    else
      var last := resolve(names[|names| - 1]);
      OwnPaths(names[..|names| - 1], resolve, root) + (if StartsWith(last, root) then [last] else [])
  }

  /** `mycodeModules`: the own paths of every module of the bundle, module by module. */
  function LiveModules(modules: seq<ModuleStat>, resolve: string -> string, root: string): seq<string>
    decreases |modules|
  {
    if modules == [] then []
    else LiveModules(modules[..|modules| - 1], resolve, root)
         + OwnPaths(Candidates(modules[|modules| - 1]), resolve, root)
  }

  lemma {:induction false} OwnPathsMembers(names: seq<string>, resolve: string -> string, root: string, p: string)
    ensures p in OwnPaths(names, resolve, root) <==>
              StartsWith(p, root) && exists n | n in names :: resolve(n) == p
    decreases |names|
  {
    if names != [] {
      var front := names[..|names| - 1];
      OwnPathsMembers(front, resolve, root, p);
      assert names == front + [names[|names| - 1]];
      assert forall n | n in names :: n in front || n == names[|names| - 1];
    }
  }

  /** The candidate names of each module, module by module. */
  function CandidateLists(modules: seq<ModuleStat>): (r: seq<seq<string>>)
    ensures |r| == |modules|
  {
    seq(|modules|, k requires 0 <= k < |modules| => Candidates(modules[k]))
  }

  /** Whether some list holds a name that resolves to `p`. */
  predicate Contributed(lists: seq<seq<string>>, resolve: string -> string, p: string) {
    exists k, n | 0 <= k < |lists| && n in lists[k] :: resolve(n) == p
  }

  /** A contribution comes from the lists before the last, or from the last. */
  lemma ContributedSnoc(lists: seq<seq<string>>, resolve: string -> string, p: string)
    requires lists != []
    ensures Contributed(lists, resolve, p) <==>
              Contributed(lists[..|lists| - 1], resolve, p) ||
              exists n | n in lists[|lists| - 1] :: resolve(n) == p
  {
    var front := lists[..|lists| - 1];
    var last := lists[|lists| - 1];
    if Contributed(lists, resolve, p) {
      var k, n :| 0 <= k < |lists| && n in lists[k] && resolve(n) == p;
      if k < |front| {
        assert front[k] == lists[k];
        assert 0 <= k < |front| && n in front[k] && resolve(n) == p;
      } else {
        assert n in last && resolve(n) == p;
      }
    }
    if Contributed(front, resolve, p) {
      var k, n :| 0 <= k < |front| && n in front[k] && resolve(n) == p;
      assert lists[k] == front[k];
    }
    if exists n | n in last :: resolve(n) == p {
      var n :| n in last && resolve(n) == p;
      assert 0 <= |lists| - 1 < |lists| && n in lists[|lists| - 1] && resolve(n) == p;
    }
  }

  /**
   * A path is live iff it lies under `root` and is the resolution of a name some module
   * contributes.
   */
  lemma {:induction false} LiveModulesMembers(modules: seq<ModuleStat>, resolve: string -> string, root: string, p: string)
    ensures p in LiveModules(modules, resolve, root) <==>
              StartsWith(p, root) && Contributed(CandidateLists(modules), resolve, p)
    decreases |modules|
  {
    if modules != [] {
      var front := modules[..|modules| - 1];
      var last := modules[|modules| - 1];
      LiveModulesMembers(front, resolve, root, p);
      OwnPathsMembers(Candidates(last), resolve, root, p);
      CandidateListsSnoc(modules);
      ContributedSnoc(CandidateLists(modules), resolve, p);
      LiveModulesSnoc(modules, resolve, root, p);
    }
  }

  /** The candidate lists of all modules but the last, then the last module's. */
  lemma CandidateListsSnoc(modules: seq<ModuleStat>)
    requires modules != []
    ensures var lists := CandidateLists(modules);
      lists[..|lists| - 1] == CandidateLists(modules[..|modules| - 1]) &&
      lists[|lists| - 1] == Candidates(modules[|modules| - 1])
  {
  }

  /** A live path comes from the modules before the last, or from the last. */
  lemma LiveModulesSnoc(modules: seq<ModuleStat>, resolve: string -> string, root: string, p: string)
    requires modules != []
    ensures p in LiveModules(modules, resolve, root) <==>
              p in LiveModules(modules[..|modules| - 1], resolve, root) ||
              p in OwnPaths(Candidates(modules[|modules| - 1]), resolve, root)
  {
  }

  /**
   * The nested loops building `mycodeModules`: for each module, each candidate name is
   * resolved and kept when it lies under `root`.
   */
  method CollectLiveModules(modules: seq<ModuleStat>, resolve: string -> string, root: string) returns (live: seq<string>)
    ensures live == LiveModules(modules, resolve, root)
  {
    live := [];
    for i := 0 to |modules|
      invariant live == LiveModules(modules[..i], resolve, root)
    {
      live := PushOwnPaths(live, Candidates(modules[i]), resolve, root);
      assert modules[..i + 1][..i] == modules[..i];
    }
    assert modules[..|modules|] == modules;
  }

  /** The inner loop: each name of one module is resolved and pushed when it lies under `root`. */
  method PushOwnPaths(live: seq<string>, names: seq<string>, resolve: string -> string, root: string)
    returns (pushed: seq<string>)
    ensures pushed == live + OwnPaths(names, resolve, root)
  {
    pushed := live;
    for j := 0 to |names|
      invariant pushed == live + OwnPaths(names[..j], resolve, root)
    {
      var full := resolve(names[j]);
      if StartsWith(full, root) {
        pushed := pushed + [full];
      }
      assert names[..j + 1][..j] == names[..j];
    }
    assert names[..|names|] == names;
  }

  /** Whether `name` is a live path followed by ".map", tested on the name's own stem. */
  predicate MapOfLive(name: string, live: seq<string>) {
    EndsWith(name, ".map") && name[..|name| - 4] in live
  }

  /** The stem test agrees with `live.some(m => m + '.map' == name)`. */
  lemma MapOfLiveMeaning(name: string, live: seq<string>)
    ensures MapOfLive(name, live) <==> exists m | m in live :: m + ".map" == name
  {
    if MapOfLive(name, live) {
      var m := name[..|name| - 4];
      assert m + ".map" == name;
    }
    if exists m | m in live :: m + ".map" == name {
      var m :| m in live && m + ".map" == name;
      assert name[..|name| - 4] == m;
      assert name[|name| - 4..] == ".map";
    }
  }

  /** A file is unused when neither it nor the file it is the source map of is live. */
  predicate IsUnused(f: SourceFile, live: seq<string>) {
    f.name !in live && !MapOfLive(f.name, live)
  }

  /** `unusedFiles`, in list order. */
  function Unused(files: seq<SourceFile>, live: seq<string>): (r: seq<SourceFile>)
    ensures |r| <= |files|
  {
    if files == [] then []
    else (if IsUnused(files[0], live) then [files[0]] else []) + Unused(files[1..], live)
  }

  /** The files kept, in list order. */
  function Retained(files: seq<SourceFile>, live: seq<string>): seq<SourceFile> {
    if files == [] then []
    else (if IsUnused(files[0], live) then [] else [files[0]]) + Retained(files[1..], live)
  }

  /** Exactly the unused files of the list are in `unusedFiles`. */
  lemma {:induction false} UnusedMembers(files: seq<SourceFile>, live: seq<string>)
    ensures forall f :: f in Unused(files, live) <==> f in files && IsUnused(f, live)
    decreases |files|
  {
    if files != [] {
      UnusedMembers(files[1..], live);
      assert files == [files[0]] + files[1..];
    }
  }

  /** Exactly the other files of the list are kept. */
  lemma {:induction false} RetainedMembers(files: seq<SourceFile>, live: seq<string>)
    ensures forall f :: f in Retained(files, live) <==> f in files && !IsUnused(f, live)
    decreases |files|
  {
    if files != [] {
      RetainedMembers(files[1..], live);
      assert files == [files[0]] + files[1..];
    }
  }

  /** A kept file's name is live, or is a live path followed by ".map". */
  lemma RetainedNamesAreLive(files: seq<SourceFile>, live: seq<string>, f: SourceFile)
    requires f in Retained(files, live)
    ensures f.name in live || exists m | m in live :: m + ".map" == f.name
  {
    RetainedMembers(files, live);
    MapOfLiveMeaning(f.name, live);
  }

  /** `files` with its first `n` unused files taken out. */
  function DropUnused(files: seq<SourceFile>, live: seq<string>, n: nat): seq<SourceFile>
    decreases |files|
  {
    if files == [] then []
    else if n > 0 && IsUnused(files[0], live) then DropUnused(files[1..], live, n - 1)
    else [files[0]] + DropUnused(files[1..], live, n)
  }

  lemma {:induction false} DropNone(files: seq<SourceFile>, live: seq<string>)
    ensures DropUnused(files, live, 0) == files
    decreases |files|
  {
    if files != [] {
      DropNone(files[1..], live);
    }
  }

  /** `indexOf` on a list with a different head looks in the tail. */
  lemma PositionOfCons(a: SourceFile, rest: seq<SourceFile>, x: SourceFile)
    requires a != x && x in rest
    ensures PositionOf([a] + rest, x) == PositionOf(rest, x) + 1
  {
    assert ([a] + rest)[1..] == rest;
  }

  /** Splicing past the head of a list splices its tail. */
  lemma SpliceOneCons(a: SourceFile, rest: seq<SourceFile>, j: int)
    requires 0 <= j < |rest|
    ensures SpliceOne([a] + rest, j + 1) == [a] + SpliceOne(rest, j)
  {
    assert ([a] + rest)[..j + 1] == [a] + rest[..j];
    assert ([a] + rest)[j + 2..] == rest[j + 1..];
  }

  /**
   * Whether, with `n` unused files taken out, the next one is found at its first position
   * and splicing it out leaves one more taken out.
   */
  predicate DropsNext(files: seq<SourceFile>, live: seq<string>, n: nat)
    requires n < |Unused(files, live)|
  {
    var t := DropUnused(files, live, n);
    var i := PositionOf(t, Unused(files, live)[n]);
    0 <= i && SpliceOne(t, i) == DropUnused(files, live, n + 1)
  }

  /** The first unused file, when it heads the list, is found at once. */
  lemma DropsFirst(files: seq<SourceFile>, live: seq<string>)
    requires files != [] && IsUnused(files[0], live)
    ensures 0 < |Unused(files, live)| && DropsNext(files, live, 0)
  {
    assert Unused(files, live) == [files[0]] + Unused(files[1..], live);
    DropNone(files, live);
    DropNone(files[1..], live);
    assert PositionOf(files, files[0]) == 0;
  }

  /** Past an unused head already taken out, the turn is the tail's turn. */
  lemma DropsPastUnusedHead(files: seq<SourceFile>, live: seq<string>, n: nat)
    requires files != [] && IsUnused(files[0], live) && 0 < n < |Unused(files, live)|
    requires DropsNext(files[1..], live, n - 1)
    ensures DropsNext(files, live, n)
  {
    var u := Unused(files, live);
    assert u == [files[0]] + Unused(files[1..], live);
    assert u[n] == Unused(files[1..], live)[n - 1];
  }

  /** Past a kept head, the turn is the tail's turn, one position further on. */
  lemma DropsPastKeptHead(files: seq<SourceFile>, live: seq<string>, n: nat)
    requires files != [] && !IsUnused(files[0], live) && n < |Unused(files, live)|
    requires Unused(files, live) == Unused(files[1..], live)
    requires DropsNext(files[1..], live, n)
    ensures DropsNext(files, live, n)
  {
    var u := Unused(files, live);
    var rest := DropUnused(files[1..], live, n);
    UnusedMembers(files, live);
    assert u[n] in u;
    var j := PositionOf(rest, u[n]);
    PositionOfCons(files[0], rest, u[n]);
    SpliceOneCons(files[0], rest, j);
  }

  /** One turn of the removal loop, for every turn. */
  lemma {:induction false} DropNext(files: seq<SourceFile>, live: seq<string>, n: nat)
    requires n < |Unused(files, live)|
    ensures DropsNext(files, live, n)
    decreases |files|
  {
    if IsUnused(files[0], live) {
      if n == 0 {
        DropsFirst(files, live);
      } else {
        assert Unused(files, live) == [files[0]] + Unused(files[1..], live);
        DropNext(files[1..], live, n - 1);
        DropsPastUnusedHead(files, live, n);
      }
    } else {
      assert Unused(files, live) == Unused(files[1..], live);
      DropNext(files[1..], live, n);
      DropsPastKeptHead(files, live, n);
    }
  }

  /** Taking out every unused file leaves exactly the retained files. */
  lemma {:induction false} DropAll(files: seq<SourceFile>, live: seq<string>)
    ensures DropUnused(files, live, |Unused(files, live)|) == Retained(files, live)
    decreases |files|
  {
    if files != [] {
      DropAll(files[1..], live);
      var rest := files[1..];
      if IsUnused(files[0], live) {
        assert Unused(files, live) == [files[0]] + Unused(rest, live);
        assert Retained(files, live) == Retained(rest, live);
        assert DropUnused(files, live, |Unused(files, live)|) == DropUnused(rest, live, |Unused(rest, live)|);
      } else {
        assert Unused(files, live) == Unused(rest, live);
        assert Retained(files, live) == [files[0]] + Retained(rest, live);
        assert DropUnused(files, live, |Unused(files, live)|) == [files[0]] + DropUnused(rest, live, |Unused(rest, live)|);
      }
    }
  }

  /** The removal lines printed: one per unused file that is not a source map. */
  function RemovedLog(unused: seq<SourceFile>): seq<string>
    decreases |unused|
  {
    if unused == [] then []
    else
      var last := unused[|unused| - 1];
      RemovedLog(unused[..|unused| - 1]) + (if EndsWith(last.name, ".map") then [] else [last.name])
  }

  /** The names of a list of files, as a set. */
  function NameSet(files: seq<SourceFile>): set<string> {
    set k | 0 <= k < |files| :: files[k].name
  }

  /** Files with distinct names: `unlinkSync` never meets a name already unlinked. */
  predicate DistinctNames(files: seq<SourceFile>) {
    forall i, j | 0 <= i < j < |files| :: files[i].name != files[j].name
  }

  /** The unused files of a list with distinct names have distinct names. */
  lemma {:induction false} UnusedDistinct(files: seq<SourceFile>, live: seq<string>)
    requires DistinctNames(files)
    ensures DistinctNames(Unused(files, live))
    ensures forall f | f in Unused(files, live) :: f.name in NameSet(files)
    decreases |files|
  {
    if files != [] {
      var rest := files[1..];
      assert DistinctNames(rest) by {
        forall i, j | 0 <= i < j < |rest| ensures rest[i].name != rest[j].name {
          assert rest[i] == files[i + 1] && rest[j] == files[j + 1];
        }
      }
      UnusedDistinct(rest, live);
      forall f | f in Unused(rest, live) ensures f.name != files[0].name && f.name in NameSet(files) {
        var k :| 0 <= k < |rest| && rest[k].name == f.name;
        assert files[k + 1].name == f.name;
      }
      var u := Unused(files, live);
      if IsUnused(files[0], live) {
        assert u == [files[0]] + Unused(rest, live);
        forall i, j | 0 <= i < j < |u| ensures u[i].name != u[j].name {
          if i == 0 { assert u[j] in Unused(rest, live); }
        }
      }
    }
  }

  /** The kept files of a list with distinct names have distinct names, none of them unused. */
  lemma {:induction false} RetainedDistinct(files: seq<SourceFile>, live: seq<string>)
    requires DistinctNames(files)
    ensures DistinctNames(Retained(files, live))
    ensures forall f, g | f in Retained(files, live) && g in Unused(files, live) :: f.name != g.name
    decreases |files|
  {
    if files != [] {
      var rest := files[1..];
      assert DistinctNames(rest) by {
        forall i, j | 0 <= i < j < |rest| ensures rest[i].name != rest[j].name {
          assert rest[i] == files[i + 1] && rest[j] == files[j + 1];
        }
      }
      RetainedDistinct(rest, live);
      RetainedMembers(rest, live);
      RetainedMembers(files, live);
      UnusedMembers(files, live);
      forall f | f in rest ensures f.name != files[0].name {
        var k :| 0 <= k < |rest| && rest[k] == f;
        assert files[k + 1] == f;
      }
      var r := Retained(files, live);
      if !IsUnused(files[0], live) {
        assert r == [files[0]] + Retained(rest, live);
        forall i, j | 0 <= i < j < |r| ensures r[i].name != r[j].name {
          if i == 0 { assert r[j] in Retained(rest, live); }
        }
      }
    }
  }

  /** The volume after unlinking the files of a list, one after the other. */
  function Unlink(volume: map<string, string>, files: seq<SourceFile>): (r: map<string, string>)
    ensures forall x :: x in r <==> x in volume && x !in NameSet(files)
    ensures forall x | x in r :: r[x] == volume[x]
    decreases |files|
  {
    if files == [] then volume
    else
      var front := files[..|files| - 1];
      assert NameSet(files) == NameSet(front) + {files[|files| - 1].name};
      Unlink(volume, front) - {files[|files| - 1].name}
  }

  /** Unlinking the unused files leaves every kept file in the volume. */
  lemma KeptStayInVolume(files: seq<SourceFile>, volume: map<string, string>, live: seq<string>)
    requires DistinctNames(files)
    requires forall f | f in files :: f.name in volume
    ensures forall f | f in Retained(files, live) :: f.name in Unlink(volume, Unused(files, live))
  {
    RetainedDistinct(files, live);
    RetainedMembers(files, live);
    var u := Unused(files, live);
    forall f | f in Retained(files, live) ensures f.name !in NameSet(u) {
      forall k | 0 <= k < |u| ensures u[k].name != f.name {
        assert u[k] in u;
      }
    }
  }

  /** One more file of a list unlinked and reported. */
  lemma PrefixStep(volume: map<string, string>, files: seq<SourceFile>, k: nat)
    requires k < |files|
    ensures Unlink(volume, files[..k + 1]) == Unlink(volume, files[..k]) - {files[k].name}
    ensures RemovedLog(files[..k + 1]) ==
            RemovedLog(files[..k]) + (if EndsWith(files[k].name, ".map") then [] else [files[k].name])
  {
    assert files[..k + 1][..k] == files[..k];
  }

  /** Before the `k`-th unlink, the file it names is still in the volume. */
  lemma NextStillInVolume(volume: map<string, string>, files: seq<SourceFile>, k: nat)
    requires DistinctNames(files)
    requires forall f | f in files :: f.name in volume
    requires k < |files|
    ensures files[k].name in Unlink(volume, files[..k])
  {
    assert files[k] in files;
    forall i | 0 <= i < k ensures files[..k][i].name != files[k].name {
      assert files[..k][i] == files[i];
    }
  }

  /**
   * One pass of the removal loop: the `k`-th unused file is spliced out at its first position,
   * unlinked (it is still in the volume) and reported unless it is a source map.
   */
  method RemoveNext(files: seq<SourceFile>, volume: map<string, string>, live: seq<string>, k: nat,
                    kept: seq<SourceFile>, rest: map<string, string>, removed: seq<string>)
    returns (kept': seq<SourceFile>, rest': map<string, string>, removed': seq<string>)
    requires DistinctNames(files)
    requires forall f | f in files :: f.name in volume
    requires k < |Unused(files, live)|
    requires kept == DropUnused(files, live, k)
    requires rest == Unlink(volume, Unused(files, live)[..k])
    requires removed == RemovedLog(Unused(files, live)[..k])
    ensures kept' == DropUnused(files, live, k + 1)
    ensures rest' == Unlink(volume, Unused(files, live)[..k + 1])
    ensures removed' == RemovedLog(Unused(files, live)[..k + 1])
  {
    var unused := Unused(files, live);
    UnusedDistinct(files, live);
    DropNext(files, live, k);
    kept' := SpliceOne(kept, PositionOf(kept, unused[k]));
    var name := unused[k].name;
    NextStillInVolume(volume, unused, k);
    assert name in rest;
    PrefixStep(volume, unused, k);
    rest' := rest - {name};
    removed' := if EndsWith(name, ".map") then removed else removed + [name];
  }

  /**
   * The removal loop of `cleanupMemoryFile`: each unused file is spliced out of the list at
   * its first position, unlinked from the in-memory volume, and reported unless it is a
   * source map. The caller wrote every file to the volume, so no unlink fails.
   */
  method RemoveUnused(files: seq<SourceFile>, volume: map<string, string>, live: seq<string>)
    returns (kept: seq<SourceFile>, rest: map<string, string>, removed: seq<string>)
    requires DistinctNames(files)
    requires forall f | f in files :: f.name in volume
    ensures kept == Retained(files, live)
    ensures rest == Unlink(volume, Unused(files, live))
    ensures removed == RemovedLog(Unused(files, live))
    ensures forall f | f in kept :: f.name in rest
  {
    var unused := Unused(files, live);
    kept := files;
    rest := volume;
    removed := [];
    DropNone(files, live);
    for k := 0 to |unused|
      invariant kept == DropUnused(files, live, k)
      invariant rest == Unlink(volume, unused[..k])
      invariant removed == RemovedLog(unused[..k])
    {
      kept, rest, removed := RemoveNext(files, volume, live, k, kept, rest, removed);
    }
    assert unused[..|unused|] == unused;
    DropAll(files, live);
    KeptStayInVolume(files, volume, live);
  }
}
