/**
 * The server target of the build script (script/targets/server.ts): the option records,
 * the uploaded assets, the one-shot stage chain and the watch-mode upload rule. The tools
 * themselves (linter, code generator, type checker, packer, uploader) are not modelled:
 * their results are inputs.
 */
module ServerBuild {
  import opened Wrappers
  import opened BuildTools

  datatype TypeScriptOptions = TypeScriptOptions(base: string, entry: string, sourceMap: string, watch: bool)

  datatype PackOptions = PackOptions(kind: string, entry: string, files: seq<SourceFile>, sourceMap: bool,
                                     output: string, printModules: bool, minify: bool)

  /** What the packer reports; the source map is always produced with these options. */
  datatype PackResult = PackResult(success: bool, hasChange: bool, resultJs: Bytes, resultMap: Bytes)

  /** `getTypeScriptOptions(watch)` */
  function TypeScriptOptionsFor(watch: bool): (o: TypeScriptOptions)
    ensures o.watch == watch && o.entry == "src/core/index.ts"
    ensures o.base == "normal" && o.sourceMap == "normal"
  {
    TypeScriptOptions("normal", "src/core/index.ts", "normal", watch)
  }

  /** `getMyPackOptions(files)`: everything is fixed except the files, which pass through. */
  function PackOptionsFor(files: seq<SourceFile>): (o: PackOptions)
    ensures o.files == files
    ensures o.kind == "app" && o.entry == "/vbuild/core/index.js" && o.output == "index.js"
    ensures o.sourceMap && o.printModules && o.minify
  {
    PackOptions("app", "/vbuild/core/index.js", files, true, "index.js", true, true)
  }

  /** The options differ only in their files: the packer is configured the same every time. */
  lemma PackOptionsDependOnlyOnFiles(a: seq<SourceFile>, b: seq<SourceFile>)
    ensures PackOptionsFor(a) == PackOptionsFor(b) <==> a == b
    ensures PackOptionsFor(a).(files := b) == PackOptionsFor(b)
  {
  }

  /** `getUploadAssets(packResult)`: the script, then its source map. */
  function UploadAssets(p: PackResult): (assets: seq<Asset>)
    ensures |assets| == 2
    ensures assets[0] == Asset("index.js", Raw(p.resultJs))
    ensures assets[1] == Asset("index.js.map", Raw(p.resultMap))
  {
    [Asset("index.js", Raw(p.resultJs)), Asset("index.js.map", Raw(p.resultMap))]
  }

  /** The stages of a one-shot build, in the order they run. */
  datatype Stage = Lint | Codegen | Check | Pack | Upload

  const AllStages: seq<Stage> := [Lint, Codegen, Check, Pack, Upload]

  datatype BuildOutcome = Critical(failedAt: Stage) | Completed

  /**
   * `buildOnce`: each stage runs only when every stage before it succeeded, and the first
   * failure ends the build with a critical log naming it. Lint results do not stop the
   * build. `pack` is the packer run on its options; `uploadOk` is the uploader's answer.
   */
  method BuildOnce(codegenOk: bool, check: CheckResult, pack: PackOptions -> PackResult, uploadOk: bool)
    returns (stages: seq<Stage>, packed: Option<PackOptions>, uploaded: Option<seq<Asset>>, outcome: BuildOutcome)
    ensures 2 <= |stages| <= |AllStages| && stages == AllStages[..|stages|]
    ensures outcome == Completed <==> codegenOk && check.success && pack(PackOptionsFor(check.files)).success && uploadOk
    ensures outcome.Critical? ==> outcome.failedAt == stages[|stages| - 1]
    ensures outcome == Completed ==> stages == AllStages
    ensures !codegenOk ==> outcome == Critical(Codegen)
    ensures codegenOk && !check.success ==> outcome == Critical(Check)
    ensures codegenOk && check.success && !pack(PackOptionsFor(check.files)).success ==> outcome == Critical(Pack)
    ensures codegenOk && check.success && pack(PackOptionsFor(check.files)).success && !uploadOk ==>
              outcome == Critical(Upload)
    ensures packed.Some? <==> codegenOk && check.success
    ensures packed.Some? ==> packed.value == PackOptionsFor(check.files)
    ensures uploaded.Some? <==> packed.Some? && pack(packed.value).success
    ensures uploaded.Some? ==> uploaded.value == UploadAssets(pack(packed.value))
  {
    stages := [Lint, Codegen];
    packed := None;
    uploaded := None;
    if !codegenOk {
      outcome := Critical(Codegen);
      return;
    }
    stages := stages + [Check];
    if !check.success {
      outcome := Critical(Check);
      return;
    }
    var options := PackOptionsFor(check.files);
    packed := Some(options);
    stages := stages + [Pack];
    var result := pack(options);
    if !result.success {
      outcome := Critical(Pack);
      return;
    }
    uploaded := Some(UploadAssets(result));
    stages := stages + [Upload];
    if !uploadOk {
      outcome := Critical(Upload);
      return;
    }
    outcome := Completed;
  }

  /**
   * `buildWatch`: one packer is created with no files and reused; every type-check event
   * replaces its files and runs it, and only a successful run that changed the output is
   * uploaded.
   */
  class ServerWatch {
    /** The packer's current inputs. */
    var packerFiles: seq<SourceFile>
    /** The asset batches uploaded so far, in order. */
    var uploads: seq<seq<Asset>>

    constructor ()
      ensures packerFiles == [] && uploads == []
    {
      packerFiles := [];
      uploads := [];
    }

    /** A type-check event with the checker's emitted files. */
    method OnCheck(files: seq<SourceFile>, pack: PackOptions -> PackResult) returns (result: PackResult)
      modifies this
      ensures packerFiles == files
      ensures result == pack(PackOptionsFor(files))
      ensures uploads == old(uploads) + (if result.success && result.hasChange then [UploadAssets(result)] else [])
    {
      packerFiles := files;
      result := pack(PackOptionsFor(packerFiles));
      if result.success && result.hasChange {
        uploads := uploads + [UploadAssets(result)];
      }
    }
  }
}
