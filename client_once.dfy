/**
 * The one-shot client build (`buildOnce` in script/targets/client.ts): the script chain
 * (code generation, type check, bundle), the stylesheet build, the page render, the upload
 * and the reload, each stopping the build with a critical log when it fails. The tools are
 * outside the model: their results are inputs. The script chain and the stylesheet build run
 * concurrently in script/targets/client.ts; here the script chain runs first.
 */
module ClientOnce {
  import opened Wrappers
  import opened BuildTools
  import opened ClientAssets

  /** The stages of the build, in the order this model runs them. */
  datatype Stage = Lint | Codegen | Check | Pack | Transpile | Render | Upload | Reload

  const AllStages: seq<Stage> := [Lint, Codegen, Check, Pack, Transpile, Render, Upload, Reload]

  /** What a bundler run reports: a fatal error, or its error count and the emitted assets. */
  datatype PackRun = PackFatal | PackDone(errorsCount: nat, emitted: seq<(string, Bytes)>)

  datatype BuildOutcome = Critical(failedAt: Stage) | Completed

  /** Whether the bundle can be used: no fatal error and no compilation errors. */
  predicate PackOk(run: PackRun) {
    run.PackDone? && run.errorsCount == 0
  }

  /** The script assets of a good bundle: every emitted asset, under the app's static path. */
  function ScriptAssets(app: string, run: PackRun): seq<Asset>
    requires run.PackDone?
  {
    UploadJsAssets(app, PutAll(EmptyTable, run.emitted))
  }

  /** The stylesheet asset of a successful transpile. */
  function StylesheetAssets(app: string, css: Bytes): seq<Asset> {
    [Asset(StaticPath(app, "index.css"), Raw(css))]
  }

  /** The page of a one-shot build: the script names, then the stylesheet names, no dev script. */
  function OncePage(template: string, app: string, js: seq<Asset>, css: seq<Asset>): Asset {
    RenderHtmlTemplate(template, JsNamesForRender(js), BaseNames(css), false, "", app)
  }

  /** The upload batch: the script assets, the stylesheet assets, then the page. */
  function Batch(app: string, template: string, run: PackRun, css: Bytes): seq<Asset>
    requires run.PackDone?
  {
    var js := ScriptAssets(app, run);
    var sheets := StylesheetAssets(app, css);
    js + sheets + [OncePage(template, app, js, sheets)]
  }

  /**
   * The script chain of `buildOnce`: code generation, type check and bundle, each failure
   * ending the build at that stage; a good bundle yields its script assets.
   */
  method ScriptChain(app: string, codegenOk: bool, check: CheckResult, run: PackRun)
    returns (stages: seq<Stage>, js: Result<seq<Asset>, Stage>)
    ensures 2 <= |stages| <= 4 && stages == AllStages[..|stages|]
    ensures js.Ok? <==> codegenOk && check.success && PackOk(run)
    ensures js.Ok? ==> js.value == ScriptAssets(app, run) && stages == AllStages[..4]
    ensures js.Err? ==> js.error == stages[|stages| - 1]
    ensures !codegenOk ==> js == Err(Codegen)
    ensures codegenOk && !check.success ==> js == Err(Check)
    ensures codegenOk && check.success && !PackOk(run) ==> js == Err(Pack)
  {
    stages := AllStages[..2];
    if !codegenOk {
      return stages, Err(Codegen);
    }
    stages := AllStages[..3];
    if !check.success {
      return stages, Err(Check);
    }
    stages := AllStages[..4];
    if run.PackFatal? || run.errorsCount > 0 {
      return stages, Err(Pack);
    }
    js := Ok(ScriptAssets(app, run));
  }

  /**
   * The asset half of `buildOnce`, after a good bundle: stylesheet transpile, page render,
   * upload and the `reload-static` call; `stages` are the stages it entered and `batch` is
   * what the render stage produces once the stylesheet is there.
   */
  method Deliver(transpiled: bool, batch: seq<Asset>, uploadOk: bool, reloadOk: bool)
    returns (stages: seq<Stage>, uploaded: Option<seq<Asset>>, reloadSent: bool, outcome: BuildOutcome)
    ensures 1 <= |stages| <= 4 && stages == AllStages[4..4 + |stages|]
    ensures outcome.Critical? ==> outcome.failedAt == stages[|stages| - 1]
    ensures outcome == Completed <==> transpiled && uploadOk && reloadOk
    ensures outcome == Completed ==> |stages| == 4
    ensures !transpiled ==> outcome == Critical(Transpile)
    ensures transpiled && !uploadOk ==> outcome == Critical(Upload)
    ensures transpiled && uploadOk && !reloadOk ==> outcome == Critical(Reload)
    ensures uploaded.Some? <==> transpiled
    ensures uploaded.Some? ==> uploaded.value == batch
    ensures reloadSent <==> uploaded.Some? && uploadOk
  {
    uploaded := None;
    reloadSent := false;
    stages := AllStages[4..5];
    if !transpiled {
      outcome := Critical(Transpile);
      return;
    }
    stages := AllStages[4..7];
    uploaded := Some(batch);
    if !uploadOk {
      outcome := Critical(Upload);
      return;
    }
    stages := AllStages[4..8];
    reloadSent := true;
    if !reloadOk {
      outcome := Critical(Reload);
      return;
    }
    outcome := Completed;
  }

  /**
   * The stages of `buildOnce` with the upload batch already rendered: `transpiled` says
   * whether the stylesheet build succeeded and `batch` is what gets uploaded then.
   */
  method RunStages(app: string, codegenOk: bool, check: CheckResult, run: PackRun,
                   transpiled: bool, batch: seq<Asset>, uploadOk: bool, reloadOk: bool)
    returns (stages: seq<Stage>, uploaded: Option<seq<Asset>>, reloadSent: bool, outcome: BuildOutcome)
    ensures 2 <= |stages| <= |AllStages| && stages == AllStages[..|stages|]
    ensures outcome.Critical? ==> outcome.failedAt == stages[|stages| - 1]
    ensures outcome == Completed <==>
              codegenOk && check.success && PackOk(run) && transpiled && uploadOk && reloadOk
    ensures outcome == Completed ==> stages == AllStages
    ensures !codegenOk ==> outcome == Critical(Codegen)
    ensures codegenOk && !check.success ==> outcome == Critical(Check)
    ensures codegenOk && check.success && !PackOk(run) ==> outcome == Critical(Pack)
    ensures codegenOk && check.success && PackOk(run) && !transpiled ==> outcome == Critical(Transpile)
    ensures codegenOk && check.success && PackOk(run) && transpiled && !uploadOk ==> outcome == Critical(Upload)
    ensures codegenOk && check.success && PackOk(run) && transpiled && uploadOk && !reloadOk ==>
              outcome == Critical(Reload)
    ensures uploaded.Some? <==> codegenOk && check.success && PackOk(run) && transpiled
    ensures uploaded.Some? ==> uploaded.value == batch
    ensures reloadSent <==> uploaded.Some? && uploadOk
  {
    var js;
    stages, js := ScriptChain(app, codegenOk, check, run);
    if js.Err? {
      return stages, None, false, Critical(js.error);
    }
    var rest;
    rest, uploaded, reloadSent, outcome := Deliver(transpiled, batch, uploadOk, reloadOk);
    stages := AllStages[..4 + |rest|];
    assert stages[|stages| - 1] == AllStages[3 + |rest|] == rest[|rest| - 1];
    if outcome == Completed {
      assert |stages| == |AllStages|;
      assert stages == AllStages;
    }
  }

  /**
   * `buildOnce`. `run` is what the bundler reports for the checked files, consulted only
   * when the check passed; `transpile` is the stylesheet result (`None` when it failed);
   * `uploadOk` and `reloadOk` are the answers of the uploader and of the `reload-static`
   * admin call.
   */
  method BuildOnce(app: string, template: string, codegenOk: bool, check: CheckResult,
                   run: PackRun, transpile: Option<Bytes>, uploadOk: bool, reloadOk: bool)
    returns (stages: seq<Stage>, uploaded: Option<seq<Asset>>, reloadSent: bool, outcome: BuildOutcome)
    ensures 2 <= |stages| <= |AllStages| && stages == AllStages[..|stages|]
    ensures outcome.Critical? ==> outcome.failedAt == stages[|stages| - 1]
    ensures outcome == Completed <==>
              codegenOk && check.success && PackOk(run) && transpile.Some? && uploadOk && reloadOk
    ensures outcome == Completed ==> stages == AllStages
    ensures !codegenOk ==> outcome == Critical(Codegen)
    ensures codegenOk && !check.success ==> outcome == Critical(Check)
    ensures codegenOk && check.success && !PackOk(run) ==> outcome == Critical(Pack)
    ensures codegenOk && check.success && PackOk(run) && !transpile.Some? ==> outcome == Critical(Transpile)
    ensures codegenOk && check.success && PackOk(run) && transpile.Some? && !uploadOk ==> outcome == Critical(Upload)
    ensures codegenOk && check.success && PackOk(run) && transpile.Some? && uploadOk && !reloadOk ==>
              outcome == Critical(Reload)
    ensures uploaded.Some? <==> codegenOk && check.success && PackOk(run) && transpile.Some?
    ensures uploaded.Some? ==> uploaded.value == Batch(app, template, run, transpile.value)
    ensures reloadSent <==> uploaded.Some? && uploadOk
  {
    var batch := [];
    if run.PackDone? && transpile.Some? {
      batch := Batch(app, template, run, transpile.value);
    }
    stages, uploaded, reloadSent, outcome := RunStages(app, codegenOk, check, run, transpile.Some?, batch, uploadOk, reloadOk);
  }

  /** The names recorded by the emit hook are names that were emitted. */
  lemma EmittedNamesArePlain(emitted: seq<(string, Bytes)>)
    requires forall k | 0 <= k < |emitted| :: emitted[k].0 != [] && '/' !in emitted[k].0
    ensures forall i | 0 <= i < |PutAll(EmptyTable, emitted).names| ::
              PutAll(EmptyTable, emitted).names[i] != [] && '/' !in PutAll(EmptyTable, emitted).names[i]
  {
    var t := PutAll(EmptyTable, emitted);
    PutAllContents(EmptyTable, emitted);
    forall i | 0 <= i < |t.names| ensures t.names[i] != [] && '/' !in t.names[i] {
      assert t.names[i] in t.data;
      var k :| 0 <= k < |emitted| && emitted[k] == (t.names[i], LastEmitted(emitted, t.names[i]).value);
    }
  }

  /** The page of a one-shot build names every emitted script, in first-emit order. */
  lemma OnceScriptNames(app: string, run: PackRun)
    requires run.PackDone?
    requires forall k | 0 <= k < |run.emitted| :: run.emitted[k].0 != [] && '/' !in run.emitted[k].0
    ensures JsNamesForRender(ScriptAssets(app, run)) == OnlyJs(PutAll(EmptyTable, run.emitted).names)
  {
    EmittedNamesArePlain(run.emitted);
    RenderedNamesAreEmittedScripts(app, PutAll(EmptyTable, run.emitted));
  }

  /** The page of a one-shot build names the one stylesheet. */
  lemma OnceStylesheetNames(app: string, css: Bytes)
    ensures BaseNames(StylesheetAssets(app, css)) == ["index.css"]
  {
    BasenameOfStaticPath(app, "index.css");
  }

  /**
   * The page of a one-shot build: the emitted scripts and the one stylesheet, with no
   * development script.
   */
  lemma OncePageContents(template: string, app: string, run: PackRun, css: Bytes)
    requires run.PackDone?
    requires forall k | 0 <= k < |run.emitted| :: run.emitted[k].0 != [] && '/' !in run.emitted[k].0
    ensures OncePage(template, app, ScriptAssets(app, run), StylesheetAssets(app, css)) ==
            RenderHtmlTemplate(template, OnlyJs(PutAll(EmptyTable, run.emitted).names), ["index.css"], false, "", app)
  {
    OnceScriptNames(app, run);
    OnceStylesheetNames(app, css);
  }
}
