/**
 * The watch mode of the client target (`buildWatch` in script/targets/client.ts): the state
 * its watcher callbacks share and what each callback does to it. The type checker, the
 * bundler, the stylesheet compiler, the uploader and the admin channel are outside the model:
 * their results arrive as parameters. `requestRender` is an abstract trigger, counted in
 * `renderRequests`; each execution of the render action is the method `Render`.
 */
module ClientWatch {
  import opened Wrappers
  import opened JsText
  import opened BuildTools
  import opened ClientAssets
  import opened MemoryCleanup

  /** The console and logger lines the callbacks produce, in order. */
  datatype LogLine =
    | Added(name: string)       // "+ name": a new non-map file in the volume
    | Removed(name: string)     // "- name": an unused non-map file unlinked
    | Discarded                 // "already repacking, discard"
    | Repack                    // "repack"
    | FatalError                // "webpack fatal error"
    | NoChange                  // "completed with no change"

  /** What a bundler run reports to its callback. */
  datatype BundleResult =
    | Fatal
    | Compiled(hash: string, errorsCount: nat, modules: seq<ModuleStat>)

  /** The calls made to the admin channel after an upload. */
  datatype AdminCall = ReloadStatic(key: string) | DevPage(command: string)

  /** The volume after writing the files one after the other. */
  function WriteAll(volume: map<string, string>, files: seq<SourceFile>): map<string, string>
    decreases |files|
  {
    if files == [] then volume
    else WriteAll(volume, files[..|files| - 1])[files[|files| - 1].name := files[|files| - 1].content]
  }

  /** Every file's name is among the names of the list. */
  lemma NamesInNameSet(files: seq<SourceFile>)
    ensures forall f | f in files :: f.name in NameSet(files)
  {
    forall f | f in files ensures f.name in NameSet(files) {
      var k :| 0 <= k < |files| && files[k] == f;
    }
  }

  /** Writing adds exactly the files' paths, and every file's path ends up in the volume. */
  lemma {:induction false} WriteAllDomain(volume: map<string, string>, files: seq<SourceFile>)
    ensures forall x :: x in WriteAll(volume, files) <==> x in volume || x in NameSet(files)
    ensures forall f | f in files :: f.name in WriteAll(volume, files)
    decreases |files|
  {
    if files != [] {
      var front := files[..|files| - 1];
      WriteAllDomain(volume, front);
      assert NameSet(files) == NameSet(front) + {files[|files| - 1].name};
    }
    NamesInNameSet(files);
  }

  /** Writing leaves the content at every other path alone. */
  lemma {:induction false} WriteAllKeepsOthers(volume: map<string, string>, files: seq<SourceFile>)
    ensures forall x | x in volume && x !in NameSet(files) ::
              x in WriteAll(volume, files) && WriteAll(volume, files)[x] == volume[x]
    decreases |files|
  {
    if files != [] {
      var front := files[..|files| - 1];
      WriteAllDomain(volume, front);
      WriteAllKeepsOthers(volume, front);
      assert NameSet(files) == NameSet(front) + {files[|files| - 1].name};
    }
  }

  /** With distinct paths, each file's content ends up at its path. */
  lemma {:induction false} WriteAllContents(volume: map<string, string>, files: seq<SourceFile>)
    requires DistinctNames(files)
    ensures forall k | 0 <= k < |files| ::
              files[k].name in WriteAll(volume, files) && WriteAll(volume, files)[files[k].name] == files[k].content
    decreases |files|
  {
    WriteAllDomain(volume, files);
    if files != [] {
      var front := files[..|files| - 1];
      var last := files[|files| - 1];
      assert DistinctNames(front);
      WriteAllContents(volume, front);
      WriteAllDomain(volume, front);
      forall k | 0 <= k < |front| ensures front[k].name != last.name {
        assert files[k] == front[k];
      }
    }
  }

  /** The "+ name" lines of writing the files: for each file, a line if its path is new and not a source map. */
  function AddedLog(volume: map<string, string>, files: seq<SourceFile>): seq<LogLine>
    decreases |files|
  {
    if files == [] then []
    else
      var front := files[..|files| - 1];
      var last := files[|files| - 1];
      AddedLog(volume, front) +
      (if last.name !in WriteAll(volume, front) && !EndsWith(last.name, ".map") then [Added(last.name)] else [])
  }

  /** Every "+" line names a file of the event whose path was new and is not a source map. */
  lemma {:induction false} AddedLogSound(volume: map<string, string>, files: seq<SourceFile>)
    ensures forall l | l in AddedLog(volume, files) ::
              l.Added? && l.name in NameSet(files) && l.name !in volume && !EndsWith(l.name, ".map")
    decreases |files|
  {
    if files != [] {
      var front := files[..|files| - 1];
      AddedLogSound(volume, front);
      WriteAllDomain(volume, front);
      assert NameSet(files) == NameSet(front) + {files[|files| - 1].name};
    }
  }

  /** Every file of the event whose path was new and is not a source map gets a "+" line. */
  lemma {:induction false} AddedLogComplete(volume: map<string, string>, files: seq<SourceFile>)
    ensures forall f | f in files && f.name !in volume && !EndsWith(f.name, ".map") ::
              Added(f.name) in AddedLog(volume, files)
    decreases |files|
  {
    if files != [] {
      var front := files[..|files| - 1];
      var last := files[|files| - 1];
      AddedLogComplete(volume, front);
      WriteAllDomain(volume, front);
      forall f | f in files && f.name !in volume && !EndsWith(f.name, ".map")
        ensures Added(f.name) in AddedLog(volume, files)
      {
        var k :| 0 <= k < |files| && files[k] == f;
        if k < |front| {
          assert front[k] == f;
        } else if f.name in WriteAll(volume, front) {
          var j :| 0 <= j < |front| && front[j].name == f.name;
          assert front[j] in front;
        }
      }
    }
  }

  /** The "- name" lines of the removal loop. */
  function RemovedLines(names: seq<string>): (r: seq<LogLine>)
    ensures |r| == |names| && forall i | 0 <= i < |names| :: r[i] == Removed(names[i])
  {
    seq(|names|, i requires 0 <= i < |names| => Removed(names[i]))
  }

  /** The development-page command: a full reload when scripts changed, else a stylesheet reload. */
  function DevPageCommand(jsChanged: bool): string {
    if jsChanged then "reload-all" else "reload-css"
  }

  class WatchSession {
    /** `config.appname` */
    const app: string
    /** The script assets to upload, from the last bundle with a new hash. */
    var jsAssets: seq<Asset>
    /** The stylesheet assets to upload, from the last stylesheet build. */
    var cssAssets: seq<Asset>
    /** Whether a render is pending for a script change rather than a stylesheet change. */
    var jsHasChange: bool
    /** The hash of the last bundle whose assets were taken; `null` at first. */
    var webpackLastHash: Option<string>
    /** The type checker's last output files (shared with the checker in script/targets/client.ts). */
    var typescriptResultFiles: seq<SourceFile>
    /** The in-memory volume the bundler reads: path to content. */
    var volume: map<string, string>
    /** `compiler.running` */
    var running: bool
    /** `additional.assets`: every asset the bundler emitted, by name, in first-emit order. */
    var emitted: AssetTable
    var log: seq<LogLine>
    /** How many times `requestRender` was triggered. */
    var renderRequests: nat

    ghost predicate Valid()
      reads this
    {
      && ValidTable(emitted)
      && DistinctNames(typescriptResultFiles)
      && (forall f | f in typescriptResultFiles :: f.name in volume)
    }

    constructor (app: string)
      ensures Valid() && this.app == app
      ensures jsAssets == [] && cssAssets == [] && !jsHasChange && webpackLastHash == None
      ensures typescriptResultFiles == [] && volume == map[] && !running && emitted == EmptyTable
      ensures log == [] && renderRequests == 0
    {
      this.app := app;
      jsAssets := [];
      cssAssets := [];
      jsHasChange := false;
      webpackLastHash := None;
      typescriptResultFiles := [];
      volume := map[];
      running := false;
      emitted := EmptyTable;
      log := [];
      renderRequests := 0;
    }

    /**
     * The type checker's watch callback: every file is written to the volume (a "+" line for
     * a new non-map path), the file list is replaced, and a bundler run starts only when none
     * is running; otherwise the event is discarded and nothing is retried.
     */
    method OnTypeScriptEvent(files: seq<SourceFile>) returns (started: bool)
      requires Valid() && DistinctNames(files)
      modifies this`volume, this`log, this`typescriptResultFiles, this`running
      ensures Valid()
      ensures volume == WriteAll(old(volume), files)
      ensures typescriptResultFiles == files
      ensures started <==> !old(running)
      ensures running
      ensures log == old(log) + AddedLog(old(volume), files) + [if started then Repack else Discarded]
    {
      WriteFiles(files);
      WriteAllDomain(old(volume), files);
      typescriptResultFiles := files;
      if running {
        log := log + [Discarded];
        started := false;
        return;
      }
      log := log + [Repack];
      running := true;
      started := true;
    }

    /** The loop of the type checker's callback: each file is written, with a "+" line for a new non-map path. */
    method WriteFiles(files: seq<SourceFile>)
      modifies this`volume, this`log
      ensures volume == WriteAll(old(volume), files)
      ensures log == old(log) + AddedLog(old(volume), files)
    {
      for i := 0 to |files|
        invariant volume == WriteAll(old(volume), files[..i])
        invariant log == old(log) + AddedLog(old(volume), files[..i])
      {
        var f := files[i];
        assert files[..i + 1][..i] == files[..i];
        if f.name !in volume && !EndsWith(f.name, ".map") {
          log := log + [Added(f.name)];
        }
        volume := volume[f.name := f.content];
      }
      assert files[..|files|] == files;
    }

    /** The bundler's emit hook: each emitted asset is recorded under its name. */
    method OnEmit(assets: seq<(string, Bytes)>)
      requires Valid()
      modifies this`emitted
      ensures Valid()
      ensures emitted == PutAll(old(emitted), assets)
    {
      for i := 0 to |assets|
        invariant ValidTable(emitted)
        invariant emitted == PutAll(old(emitted), assets[..i])
      {
        assert assets[..i + 1][..i] == assets[..i];
        emitted := Put(emitted, assets[i].0, assets[i].1);
      }
      assert assets[..|assets|] == assets;
    }

    /**
     * The bundler run's callback. A fatal error only logs. Otherwise the unused files are
     * removed first; then a run with errors stops, and a run with errors is never taken;
     * a new hash takes the emitted assets and requests a render, an equal hash logs "no
     * change" and touches nothing.
     */
    method OnBundleDone(result: BundleResult, resolve: string -> string, root: string)
      requires Valid() && running
      modifies this`running, this`log, this`typescriptResultFiles, this`volume
      modifies this`webpackLastHash, this`jsAssets, this`jsHasChange, this`renderRequests
      ensures Valid() && !running
      ensures result.Fatal? ==>
                && log == old(log) + [FatalError]
                && typescriptResultFiles == old(typescriptResultFiles) && volume == old(volume)
      ensures result.Compiled? ==>
                var live := LiveModules(result.modules, resolve, root);
                var unused := Unused(old(typescriptResultFiles), live);
                && typescriptResultFiles == Retained(old(typescriptResultFiles), live)
                && volume == Unlink(old(volume), unused)
                && log == old(log) + RemovedLines(RemovedLog(unused)) +
                          (if result.errorsCount == 0 && old(webpackLastHash) == Some(result.hash) then [NoChange] else [])
      ensures var taken := result.Compiled? && result.errorsCount == 0 && old(webpackLastHash) != Some(result.hash);
              && (taken ==>
                    && webpackLastHash == Some(result.hash)
                    && jsAssets == UploadJsAssets(app, emitted)
                    && jsHasChange
                    && renderRequests == old(renderRequests) + 1)
              && (!taken ==>
                    && webpackLastHash == old(webpackLastHash)
                    && jsAssets == old(jsAssets)
                    && jsHasChange == old(jsHasChange)
                    && renderRequests == old(renderRequests))
    {
      running := false;
      if result.Fatal? {
        log := log + [FatalError];
      } else {
        var live := CollectLiveModules(result.modules, resolve, root);
        CleanupMemoryFiles(live);
        if result.errorsCount == 0 {
          TakeBundle(result.hash);
        }
      }
    }

    /**
     * The end of a run without errors: a hash other than the last one taken replaces the
     * script assets with the emitted ones and requests a render; the same hash only logs.
     */
    method TakeBundle(hash: string)
      requires ValidTable(emitted)
      modifies this`webpackLastHash, this`jsAssets, this`jsHasChange, this`renderRequests, this`log
      ensures old(webpackLastHash) != Some(hash) ==>
                && webpackLastHash == Some(hash)
                && jsAssets == UploadJsAssets(app, emitted)
                && jsHasChange
                && renderRequests == old(renderRequests) + 1
                && log == old(log)
      ensures old(webpackLastHash) == Some(hash) ==>
                && webpackLastHash == old(webpackLastHash)
                && jsAssets == old(jsAssets)
                && jsHasChange == old(jsHasChange)
                && renderRequests == old(renderRequests)
                && log == old(log) + [NoChange]
    {
      if webpackLastHash != Some(hash) {
        webpackLastHash := Some(hash);
        jsAssets := UploadJsAssets(app, emitted);
        jsHasChange := true;
        renderRequests := renderRequests + 1;
      } else {
        log := log + [NoChange];
      }
    }

    /** `cleanupMemoryFile` applied to the session's file list and volume. */
    method CleanupMemoryFiles(live: seq<string>)
      requires Valid()
      modifies this`typescriptResultFiles, this`volume, this`log
      ensures Valid()
      ensures typescriptResultFiles == Retained(old(typescriptResultFiles), live)
      ensures volume == Unlink(old(volume), Unused(old(typescriptResultFiles), live))
      ensures log == old(log) + RemovedLines(RemovedLog(Unused(old(typescriptResultFiles), live)))
    {
      var kept, rest, removed := RemoveUnused(typescriptResultFiles, volume, live);
      RetainedDistinct(typescriptResultFiles, live);
      typescriptResultFiles := kept;
      volume := rest;
      log := log + RemovedLines(removed);
    }

    /** The stylesheet watcher's callback: the one stylesheet asset replaces the old ones. */
    method OnStylesheet(css: Bytes)
      modifies this`cssAssets, this`renderRequests
      ensures cssAssets == [Asset(StaticPath(app, "index.css"), Raw(css))]
      ensures renderRequests == old(renderRequests) + 1
    {
      cssAssets := [Asset(StaticPath(app, "index.css"), Raw(css))];
      renderRequests := renderRequests + 1;
    }

    /**
     * One execution of the render action: the script-change flag is read and cleared, the
     * page is rendered for watch mode, and, when there are script assets, the scripts, the
     * stylesheets and the page are uploaded together; only a successful upload is followed
     * by `reload-static` and then the development-page reload. `uploadOk` is the uploader's
     * answer.
     */
    method Render(template: string, devUrl: string, uploadOk: bool)
      returns (html: Asset, uploaded: Option<seq<Asset>>, adminCalls: seq<AdminCall>)
      modifies this`jsHasChange
      ensures !jsHasChange
      ensures html == RenderHtmlTemplate(template, JsNamesForRender(jsAssets), BaseNames(cssAssets), true, devUrl, app)
      ensures uploaded.Some? <==> |jsAssets| > 0
      ensures uploaded.Some? ==> uploaded.value == jsAssets + cssAssets + [html]
      ensures adminCalls == if uploaded.Some? && uploadOk
                            then [ReloadStatic(app), DevPage(DevPageCommand(old(jsHasChange)))]
                            else []
    {
      var thisRenderJsHasChange := jsHasChange;
      jsHasChange := false;
      html := RenderHtmlTemplate(template, JsNamesForRender(jsAssets), BaseNames(cssAssets), true, devUrl, app);
      uploaded := None;
      adminCalls := [];
      if |jsAssets| > 0 {
        uploaded := Some(jsAssets + cssAssets + [html]);
        if uploadOk {
          adminCalls := [ReloadStatic(app), DevPage(DevPageCommand(thisRenderJsHasChange))];
        }
      }
    }
  }
}
