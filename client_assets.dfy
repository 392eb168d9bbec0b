/**
 * The pure helpers of the client target (script/targets/client.ts): the table the emit hook
 * fills, the uploaded script assets, base names, the HTML page rendering and the size
 * optimisation level read from the environment.
 */
module ClientAssets {
  import opened Wrappers
  import opened JsText
  import opened JsArray
  import opened BuildTools

  /** The remote path of a static file of the application. */
  function StaticPath(app: string, name: string): string {
    "static/" + app + "/" + name
  }

  /**
   * `additional.assets`: the bundler's emitted files by name. Object keys keep their
   * insertion order, which `names` records.
   */
  datatype AssetTable = AssetTable(names: seq<string>, data: map<string, Bytes>)

  const EmptyTable: AssetTable := AssetTable([], map[])

  predicate ValidTable(t: AssetTable) {
    && Distinct(t.names)
    && (forall i | 0 <= i < |t.names| :: t.names[i] in t.data)
    && (forall n | n in t.data :: n in t.names)
  }

  /** `assets[name] = ...`: a new name goes last, an existing one keeps its place. */
  function Put(t: AssetTable, name: string, bytes: Bytes): (r: AssetTable)
    requires ValidTable(t)
    ensures ValidTable(r)
    ensures r.data == t.data[name := bytes]
    ensures name in t.data ==> r.names == t.names
    ensures name !in t.data ==> r.names == t.names + [name]
  {
    if name in t.data then AssetTable(t.names, t.data[name := bytes])
    else AssetTable(t.names + [name], t.data[name := bytes])
  }

  /** The table after a list of emitted files is stored in order. */
  function PutAll(t: AssetTable, emitted: seq<(string, Bytes)>): (r: AssetTable)
    requires ValidTable(t)
    ensures ValidTable(r)
    decreases |emitted|
  {
    if emitted == [] then t
    else
      var last := emitted[|emitted| - 1];
      Put(PutAll(t, emitted[..|emitted| - 1]), last.0, last.1)
  }

  /** The data emitted last under `name`, if any. */
  function LastEmitted(emitted: seq<(string, Bytes)>, name: string): (r: Option<Bytes>)
    ensures r.None? <==> forall k | 0 <= k < |emitted| :: emitted[k].0 != name
    ensures r.Some? ==> exists k | 0 <= k < |emitted| :: emitted[k] == (name, r.value)
                          && forall l | k < l < |emitted| :: emitted[l].0 != name
    decreases |emitted|
  {
    if emitted == [] then None
    else
      var front := emitted[..|emitted| - 1];
      var last := emitted[|emitted| - 1];
      assert forall k | 0 <= k < |front| :: front[k] == emitted[k];
      if last.0 == name then Some(last.1) else LastEmitted(front, name)
  }

  /**
   * After storing, the earlier names keep their order at the front, a name is present iff
   * it was before or was emitted, and each emitted name holds the data emitted last under it.
   */
  lemma {:induction false} PutAllContents(t: AssetTable, emitted: seq<(string, Bytes)>)
    requires ValidTable(t)
    ensures t.names <= PutAll(t, emitted).names
    ensures forall n :: n in PutAll(t, emitted).data <==> n in t.data || LastEmitted(emitted, n).Some?
    ensures forall n | LastEmitted(emitted, n).Some? :: PutAll(t, emitted).data[n] == LastEmitted(emitted, n).value
    ensures forall n | LastEmitted(emitted, n).None? && n in t.data :: PutAll(t, emitted).data[n] == t.data[n]
    decreases |emitted|
  {
    if emitted != [] {
      PutAllContents(t, emitted[..|emitted| - 1]);
    }
  }

  /** `getUploadJsAssets`: one asset per table entry, in key order, under the static path. */
  function UploadJsAssets(app: string, t: AssetTable): (assets: seq<Asset>)
    requires ValidTable(t)
    ensures |assets| == |t.names|
    ensures forall i | 0 <= i < |t.names| ::
      assets[i] == Asset(StaticPath(app, t.names[i]), Raw(t.data[t.names[i]]))
  {
    seq(|t.names|, i requires 0 <= i < |t.names| => Asset(StaticPath(app, t.names[i]), Raw(t.data[t.names[i]])))
  }

  /** `p` without its trailing slashes. */
  function TrimTrailingSlashes(p: string): string {
    if p != [] && p[|p| - 1] == '/' then TrimTrailingSlashes(p[..|p| - 1]) else p
  }

  /** The text after the last slash. */
  function LastSegment(p: string): (r: string)
    ensures '/' !in r
    ensures |r| <= |p| && r == p[|p| - |r|..]
  {
    if p == [] || p[|p| - 1] == '/' then []
    else LastSegment(p[..|p| - 1]) + [p[|p| - 1]]
  }

  /** `path.basename(p)` on POSIX paths. */
  function Basename(p: string): string {
    LastSegment(TrimTrailingSlashes(p))
  }

  lemma {:induction false} LastSegmentAfterSlash(prefix: string, name: string)
    requires prefix != [] && prefix[|prefix| - 1] == '/' && '/' !in name
    ensures LastSegment(prefix + name) == name
    decreases |name|
  {
    if name != [] {
      var p := prefix + name;
      assert p[..|p| - 1] == prefix + name[..|name| - 1];
      assert '/' !in name[..|name| - 1];
      LastSegmentAfterSlash(prefix, name[..|name| - 1]);
    } else {
      assert prefix + name == prefix;
    }
  }

  /** The base name of an uploaded asset is the emitted name it was made from. */
  lemma BasenameOfStaticPath(app: string, name: string)
    requires name != [] && '/' !in name
    ensures Basename(StaticPath(app, name)) == name
  {
    var p := StaticPath(app, name);
    assert p == ("static/" + app + "/") + name;
    assert p[|p| - 1] == name[|name| - 1];
    assert TrimTrailingSlashes(p) == p;
    LastSegmentAfterSlash("static/" + app + "/", name);
  }

  /** The names of a list that end in ".js", in order. */
  function OnlyJs(names: seq<string>): seq<string> {
    if names == [] then []
    else (if EndsWith(names[0], ".js") then [names[0]] else []) + OnlyJs(names[1..])
  }

  /** The filter keeps exactly the names that end in ".js". */
  lemma {:induction false} OnlyJsMembers(names: seq<string>)
    ensures forall n | n in OnlyJs(names) :: EndsWith(n, ".js") && n in names
    ensures forall n | n in names && EndsWith(n, ".js") :: n in OnlyJs(names)
  {
    if names != [] {
      OnlyJsMembers(names[1..]);
      assert names == [names[0]] + names[1..];
    }
  }

  /** The base names of assets' remote paths. */
  function BaseNames(assets: seq<Asset>): (r: seq<string>)
    ensures |r| == |assets|
    ensures forall i | 0 <= i < |assets| :: r[i] == Basename(assets[i].remote)
  {
    seq(|assets|, i requires 0 <= i < |assets| => Basename(assets[i].remote))
  }

  /** The script names a render is given: the `.js` base names of the script assets. */
  function JsNamesForRender(jsAssets: seq<Asset>): seq<string> {
    OnlyJs(BaseNames(jsAssets))
  }

  /**
   * Rendering from the uploaded script assets lists exactly the emitted `.js` names, in
   * emit order; source maps are not listed.
   */
  lemma RenderedNamesAreEmittedScripts(app: string, t: AssetTable)
    requires ValidTable(t)
    requires forall i | 0 <= i < |t.names| :: t.names[i] != [] && '/' !in t.names[i]
    ensures JsNamesForRender(UploadJsAssets(app, t)) == OnlyJs(t.names)
  {
    var assets := UploadJsAssets(app, t);
    forall i | 0 <= i < |t.names| ensures BaseNames(assets)[i] == t.names[i] {
      BasenameOfStaticPath(app, t.names[i]);
    }
    assert BaseNames(assets) == t.names;
  }

  /** The script sources of the page: '/' before each name, and the dev script when watching. */
  function ScriptSources(jsNames: seq<string>, watching: bool, devUrl: string): (srcs: seq<string>)
    ensures |srcs| == |jsNames| + (if watching then 1 else 0)
    ensures forall i | 0 <= i < |jsNames| :: srcs[i] == "/" + jsNames[i]
    ensures watching ==> srcs[|jsNames|] == devUrl
  {
    seq(|jsNames|, i requires 0 <= i < |jsNames| => "/" + jsNames[i]) + (if watching then [devUrl] else [])
  }

  function ScriptTag(src: string): string {
    "<script type=\"text/javascript\" src=\"" + src + "\"></script>"
  }

  function LinkTag(cssName: string): string {
    "<link rel=\"stylesheet\" type=\"text/css\" href=\"/" + cssName + "\">"
  }

  const ScriptPlaceholder: string := "<script-placeholder />"
  const StylesheetPlaceholder: string := "<stylesheet-placeholder />"
  const Separator: string := "\n  "

  function ScriptsHtml(jsNames: seq<string>, watching: bool, devUrl: string): string {
    var srcs := ScriptSources(jsNames, watching, devUrl);
    Join(seq(|srcs|, i requires 0 <= i < |srcs| => ScriptTag(srcs[i])), Separator)
  }

  function LinksHtml(cssNames: seq<string>): string {
    Join(seq(|cssNames|, i requires 0 <= i < |cssNames| => LinkTag(cssNames[i])), Separator)
  }

  /** The page text: each placeholder's first occurrence is replaced, scripts first. */
  function RenderHtml(template: string, jsNames: seq<string>, cssNames: seq<string>, watching: bool, devUrl: string): string {
    ReplaceFirst(ReplaceFirst(template, ScriptPlaceholder, ScriptsHtml(jsNames, watching, devUrl)),
                 StylesheetPlaceholder, LinksHtml(cssNames))
  }

  /** `renderHtmlTemplate`: the page asset, uploaded as `static/<app>/index.html`. */
  function RenderHtmlTemplate(template: string, jsNames: seq<string>, cssNames: seq<string>, watching: bool, devUrl: string, app: string): (html: Asset)
    ensures html.remote == StaticPath(app, "index.html")
    ensures html.data == Utf8Text(RenderHtml(template, jsNames, cssNames, watching, devUrl))
  {
    Asset(StaticPath(app, "index.html"), Utf8Text(RenderHtml(template, jsNames, cssNames, watching, devUrl)))
  }

  /**
   * Only the first occurrence of each placeholder is replaced: for a template
   * `a <script> b <stylesheet> c`, where the two shown are the first occurrences, the page
   * is `a scripts b links c`, and later placeholders in `b` and `c` stay as they are.
   */
  lemma RenderReplacesFirstPlaceholders(a: string, b: string, c: string, jsNames: seq<string>, cssNames: seq<string>, watching: bool, devUrl: string)
    requires forall j | 0 <= j < |a| :: !(ScriptPlaceholder <= (a + ScriptPlaceholder + (b + StylesheetPlaceholder + c))[j..])
    requires var front := a + ScriptsHtml(jsNames, watching, devUrl) + b;
      forall j | 0 <= j < |front| :: !(StylesheetPlaceholder <= (front + StylesheetPlaceholder + c)[j..])
    requires '$' !in ScriptsHtml(jsNames, watching, devUrl) && '$' !in LinksHtml(cssNames)
    ensures RenderHtml(a + ScriptPlaceholder + b + StylesheetPlaceholder + c, jsNames, cssNames, watching, devUrl)
         == a + ScriptsHtml(jsNames, watching, devUrl) + b + LinksHtml(cssNames) + c
  {
    TwoFirstReplacements(a, ScriptPlaceholder, b, StylesheetPlaceholder, c, ScriptsHtml(jsNames, watching, devUrl), LinksHtml(cssNames));
  }

  /** Two first-occurrence replacements in a row, for any two patterns. */
  lemma TwoFirstReplacements(a: string, p: string, b: string, q: string, c: string, x: string, y: string)
    requires forall j | 0 <= j < |a| :: !(p <= (a + p + (b + q + c))[j..])
    requires forall j | 0 <= j < |a + x + b| :: !(q <= ((a + x + b) + q + c)[j..])
    requires '$' !in x && '$' !in y
    ensures ReplaceFirst(ReplaceFirst(a + p + b + q + c, p, x), q, y) == a + x + b + y + c
  {
    assert a + p + b + q + c == a + p + (b + q + c);
    ReplaceFirstAt(a, p, b + q + c, x);
    assert a + x + (b + q + c) == (a + x + b) + q + c;
    ReplaceFirstAt(a + x + b, q, c, y);
  }

  /**
   * `AKARIN_APP_CLIENT_OSIZE`: absent is 2; exactly "0" is 0; otherwise `parseInt(v) || 2`,
   * so text that is not a number, or that reads as zero in another spelling, is 2.
   */
  function SizeOptimizeLevel(env: Option<string>): (level: int)
    ensures level == 0 <==> env == Some("0")
    ensures env.None? ==> level == 2
    ensures env.Some? && env.value != "0" && ParseInt(env.value).Some? && ParseInt(env.value).value != 0 ==>
              level == ParseInt(env.value).value
    ensures env.Some? && env.value != "0" && (ParseInt(env.value).None? || ParseInt(env.value) == Some(0)) ==>
              level == 2
  {
    if env.None? then 2
    else if env.value == "0" then 0
    else match ParseInt(env.value)
      case None => 2
      case Some(n) => if n == 0 then 2 else n
  }

  /** The bundler minimizes unless the level is 0, and compresses only at level 2. */
  predicate Minimize(level: int) { level != 0 }
  predicate Compress(level: int) { level == 2 }

  /** Minimizing is switched off by the exact text "0" alone; "00" still gets full minifying. */
  lemma OnlyExactZeroDisablesMinify(env: Option<string>)
    ensures Minimize(SizeOptimizeLevel(env)) <==> env != Some("0")
    ensures Compress(SizeOptimizeLevel(Some("00")))
    ensures Minimize(SizeOptimizeLevel(Some("1"))) && !Compress(SizeOptimizeLevel(Some("1")))
  {
    ParseIntOfIntToString(1);
    assert IntToString(1) == "1";
    assert ParseInt("00") == Some(0) by {
      assert TrimStart("00") == "00";
      assert DigitRun("00", 10) == 2;
      assert "00"[..2] == "00";
      assert DigitsValue("00", 10) == 0 by {
        assert "00"[..1] == "0";
      }
    }
  }
}
