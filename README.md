# wacq core, modelled in Dafny

wacq is a chat-bot service with a small web interface, and with the build script that builds
and deploys it. This project models the parts of both halves that make decisions:

- **Client target of the build script.**
  - The one-shot build: code generation, type check, bundle, stylesheet, page render, upload
    and reload, stopping at the first stage that fails.
  - The watch mode: the state its watcher callbacks share, the in-memory volume the bundler
    reads, the removal of type-checker outputs the last bundle no longer uses, and the
    render-and-publish action.
  - The pure helpers: the emitted-asset table, the uploaded script assets, the page template
    rendering and the size optimisation level.
- **Server target and command line of the build script.** The option records, the uploaded
  assets, the stage chain, the upload-on-change rule of watch mode, the command table, the
  joined argument string, the admin exit code and the confirmation gate.
- **Chat backend.** The classification of one event from the chat service, the reduced copy
  written to the event log, the bot-group filter and the stored row. It also covers the
  two-connection registration that resolves or times out the backend setup, and the escapes
  of the CQ-code message format (`&amp;`, `&#91;`, `&#93;`, `&#44;`).
- **Buffered logger.** Flush by count and by timer, roll-over to a new file on a new UTC date,
  the level table, and the deletion of expired log files.
- **API plumbing.**
  - Parameter validators and the reply shaping of the Unix-socket API server.
  - The version and namespace router and the `FineError` record.
  - Request construction and response classification in the browser client.
  - The web-interface handlers and the echo plugin.

External tools, I/O and the clock are outside the model. The following arrive as parameters
or inputs:

- the type checker, bundler, stylesheet compiler, uploader and admin channel;
- the database, sockets and `fetch`;
- the current date.

The source's callbacks and classes that update state in place are Dafny classes:

- `ClientWatch.WatchSession`;
- `LogFiles.Logger`;
- `ApiServer.ApiServer`;
- `BackendSetup.SetupServer`;
- `ServerBuild.ServerWatch`.

Each of their methods states the whole new state. The loops become methods with invariants,
proved against specification functions:

- `WriteFiles`, `OnEmit`;
- `CollectLiveModules`, `PushOwnPaths`, `RemoveUnused`;
- `Logger.Cleanup`.

Shared JavaScript semantics live in their own modules:

- `JsText`: `indexOf`, `replace`, `replaceAll`, `parseInt`, `String(n)`;
- `JsArray`: `indexOf`, `splice`;
- `Json`: parsed values, truthiness and loose equality.

## Model

| member | source | states |
|---|---|---|
| ClientWatch.WatchSession.constructor | script/targets/client.ts:311-337 | no assets, no change pending, no hash taken, empty file list and volume, bundler idle |
| ClientWatch.WatchSession.OnTypeScriptEvent | script/targets/client.ts:338-356 | every file is written to the volume before the busy check; the file list becomes the event's files; a bundler run starts iff none was running; otherwise "discard" is logged and nothing is retried |
| ClientWatch.WatchSession.WriteFiles | script/targets/client.ts:340-346 | the volume after the loop is the files written in order, and the log gains exactly the "+" lines of new non-map paths |
| ClientWatch.WriteAllDomain | script/targets/client.ts:340-346 | a path is in the volume after writing iff it was before or is a file's name |
| ClientWatch.WriteAllKeepsOthers | script/targets/client.ts:340-346 | paths no file names keep their content |
| ClientWatch.WriteAllContents | script/targets/client.ts:340-346 | with distinct names, each file's content is at its path |
| ClientWatch.AddedLogSound | script/targets/client.ts:341-343 | every "+" line names a file of the event whose path was new and does not end in ".map" |
| ClientWatch.AddedLogComplete | script/targets/client.ts:341-343 | every file of the event with a new non-map path gets its "+" line |
| ClientWatch.RemovedLines | script/targets/client.ts:212-213 | one "-" line per removal name, in order |
| ClientWatch.WatchSession.OnEmit | script/targets/client.ts:111-117 | the emitted-asset table becomes the old table with each emitted asset stored under its name |
| ClientWatch.WatchSession.OnBundleDone | script/targets/client.ts:357-377 | a fatal error only logs and leaves files and volume; otherwise cleanup runs first; a run with errors, or one whose hash equals the last, leaves hash, script assets, change flag and render count unchanged; a new hash without errors sets the hash, takes the emitted assets, sets the change flag and requests one render; the bundler is idle afterwards |
| ClientWatch.WatchSession.TakeBundle | script/targets/client.ts:369-376 | a new hash updates hash, assets and flag and requests a render; an equal hash only logs "no change" |
| ClientWatch.WatchSession.CleanupMemoryFiles | script/targets/client.ts:365 | the file list keeps exactly the retained files, the volume loses exactly the unused files, one "-" line per unused non-map file |
| ClientWatch.WatchSession.OnStylesheet | script/targets/client.ts:383-386 | the stylesheet assets become exactly `static/<app>/index.css` with the compiled bytes, and one render is requested; nothing else changes |
| ClientWatch.WatchSession.Render | script/targets/client.ts:313-327 | the change flag is read and cleared; the page is rendered for watch mode; nothing is uploaded without script assets; the batch is scripts, stylesheets, page; only a successful upload sends `reload-static`, then `reload-all` if scripts changed, else `reload-css` |
| MemoryCleanup.CandidateLists | script/targets/client.ts:192-194 | one candidate list per module |
| MemoryCleanup.OwnPathsMembers | script/targets/client.ts:194-204 | a path is kept iff it is the resolution of a name of the list and lies under the root |
| MemoryCleanup.LiveModulesMembers | script/targets/client.ts:190-206 | a path is live iff it lies under the root and resolves a name some module contributes (a concatenated module contributes its submodules instead of itself) |
| MemoryCleanup.LiveModules | script/targets/client.ts:190-206 | `mycodeModules`, module by module; `LiveModulesMembers` characterises its members |
| MemoryCleanup.CollectLiveModules | script/targets/client.ts:190-206 | the nested push loops compute exactly the live paths, in order |
| MemoryCleanup.PushOwnPaths | script/targets/client.ts:194-199 | the inner loop appends exactly the own paths of one module |
| MemoryCleanup.MapOfLiveMeaning | script/targets/client.ts:208 | the source-map test holds iff the name is some live path followed by ".map" |
| MemoryCleanup.Unused | script/targets/client.ts:208 | the unused files are no more than the files |
| MemoryCleanup.UnusedMembers | script/targets/client.ts:208 | a file is unused iff it is in the list and neither it nor the file it maps is live |
| MemoryCleanup.RetainedMembers | script/targets/client.ts:208-210 | a file is kept iff it is in the list and is not unused |
| MemoryCleanup.Retained | script/targets/client.ts:208-210 | the files the cleanup keeps, in list order; `RetainedMembers` and `DropAll` characterise them |
| MemoryCleanup.RetainedNamesAreLive | script/targets/client.ts:208 | every kept name is live or is a live path followed by ".map" |
| MemoryCleanup.DropNext | script/targets/client.ts:210 | each turn finds the next unused file at its first position, and splicing it leaves one more removed |
| MemoryCleanup.DropAll | script/targets/client.ts:209-210 | splicing out every unused file leaves exactly the retained files, in their order |
| MemoryCleanup.UnusedDistinct | script/targets/client.ts:208-211 | unused files of a list with distinct names have distinct names from the list |
| MemoryCleanup.RetainedDistinct | script/targets/client.ts:208-210 | kept files have distinct names, none shared with an unused file |
| MemoryCleanup.Unlink | script/targets/client.ts:211 | unlinking removes exactly the files' names and keeps every other entry's content |
| MemoryCleanup.KeptStayInVolume | script/targets/client.ts:209-211 | every kept file is still in the volume after the unused ones are unlinked |
| MemoryCleanup.NextStillInVolume | script/targets/client.ts:211 | the file each unlink names is still present, so no unlink fails |
| MemoryCleanup.RemoveNext | script/targets/client.ts:209-214 | one pass splices, unlinks and reports the next unused file |
| MemoryCleanup.RemoveUnused | script/targets/client.ts:209-215 | the list ends as the retained files, the volume loses exactly the unused files, one report per unused non-map file, and every kept file is still in the volume |
| ClientAssets.Put | script/targets/client.ts:111-117 | storing under a name sets its data; a new name goes last in key order, an existing one keeps its place |
| ClientAssets.PutAll | script/targets/client.ts:111-117 | storing a list keeps the table well formed |
| ClientAssets.LastEmitted | script/targets/client.ts:112-113 | the data emitted last under a name, absent iff the name was never emitted |
| ClientAssets.PutAllContents | script/targets/client.ts:111-117 | old names keep their order at the front; a name is present iff it was before or was emitted; each emitted name holds its last data, and the others keep theirs |
| ClientAssets.UploadJsAssets | script/targets/client.ts:30-33 | one asset per table key, in key order, at `static/<app>/<name>` with that key's data |
| ClientAssets.LastSegment | script/targets/client.ts:286 | the result has no slash and is a suffix of the path |
| ClientAssets.LastSegmentAfterSlash | script/targets/client.ts:286 | the text after a final slash is read back whole |
| ClientAssets.BasenameOfStaticPath | script/targets/client.ts:286 | the base name of an uploaded asset's path is the emitted name it was made from |
| ClientAssets.OnlyJsMembers | script/targets/client.ts:286 | the `.js` filter keeps exactly the names ending in ".js" |
| ClientAssets.OnlyJs | script/targets/client.ts:286 | the `.js` filter, in order; `OnlyJsMembers` characterises it |
| ClientAssets.BaseNames | script/targets/client.ts:286-287 | one base name per asset, in order |
| ClientAssets.RenderedNamesAreEmittedScripts | script/targets/client.ts:286 | the names given to a render are exactly the emitted `.js` names in emit order, with no source maps |
| ClientAssets.ScriptSources | script/targets/client.ts:225 | '/' before each script name in order, and one development script appended only in watch mode |
| ClientAssets.RenderHtmlTemplate | script/targets/client.ts:219-234 | the page is uploaded as `static/<app>/index.html` with the UTF-8 bytes of the rendered text |
| ClientAssets.RenderReplacesFirstPlaceholders | script/targets/client.ts:228-230 | only the first script and stylesheet placeholders are replaced; everything else, later placeholders included, stays |
| ClientAssets.RenderHtml | script/targets/client.ts:225-230 | the two first-occurrence replaces, scripts first; `RenderReplacesFirstPlaceholders` states what they leave |
| ClientAssets.TwoFirstReplacements | script/targets/client.ts:228-230 | two first-occurrence `replace` calls in a row replace exactly the two first occurrences |
| ClientAssets.SizeOptimizeLevel | script/targets/client.ts:35-38 | the level is 0 iff the variable is exactly "0"; absent is 2; a non-zero parse is its value; unparsable or zero in another spelling is 2 |
| ClientAssets.OnlyExactZeroDisablesMinify | script/targets/client.ts:38-67 | minimizing is off iff the variable is exactly "0"; "00" still compresses; "1" minimizes without compressing |
| ClientAssets.Minimize | script/targets/client.ts:64 | minimizing is on unless the level is 0; see `OnlyExactZeroDisablesMinify` |
| ClientAssets.Compress | script/targets/client.ts:67 | compressing only at level 2; see `OnlyExactZeroDisablesMinify` |
| ClientOnce.ScriptChain | script/targets/client.ts:242-273 | codegen, check and bundle in order; the first failure is the last stage entered; a good bundle yields its script assets |
| ClientOnce.Deliver | script/targets/client.ts:276-302 | transpile, render, upload and reload in order; a failed stylesheet ends the build at Transpile, a failed upload at Upload and a failed reload at Reload; the batch is uploaded iff the stylesheet built; reload is sent iff the upload succeeded |
| ClientOnce.RunStages | script/targets/client.ts:236-305 | the stages entered are a prefix of the fixed order; each failure ends the build at its own stage (Codegen, Check, Pack, Transpile, Upload, Reload), the last one entered; completion iff every stage succeeds; upload and reload conditions |
| ClientOnce.BuildOnce | script/targets/client.ts:236-305 | as `RunStages`, each failure pinned to its own stage, with the uploaded batch being the script assets, the stylesheet and the rendered page |
| ClientOnce.EmittedNamesArePlain | script/targets/client.ts:111-117 | the table's names are names that were emitted |
| ClientOnce.OnceScriptNames | script/targets/client.ts:285-286 | the one-shot page lists every emitted `.js` name in first-emit order |
| ClientOnce.OnceStylesheetNames | script/targets/client.ts:281-287 | the one-shot page lists the single stylesheet "index.css" |
| ClientOnce.OncePageContents | script/targets/client.ts:285-287 | the one-shot page is rendered from the emitted scripts and the stylesheet, with no development script |
| ServerBuild.TypeScriptOptionsFor | script/targets/server.ts:11-16 | the options are fixed except the watch flag, which passes through |
| ServerBuild.PackOptionsFor | script/targets/server.ts:17-25 | app type, entry `/vbuild/core/index.js`, output `index.js`, source map, module list and minify on; the files pass through |
| ServerBuild.PackOptionsDependOnlyOnFiles | script/targets/server.ts:17-25 | two option records are equal iff their files are |
| ServerBuild.UploadAssets | script/targets/server.ts:26-29 | exactly `index.js` with the script, then `index.js.map` with the map |
| ServerBuild.BuildOnce | script/targets/server.ts:35-60 | codegen, check, pack and upload in order; each failure ends the build at its own stage (Codegen, Check, Pack, Upload); the packer gets the checked files; the packer's assets are uploaded iff packing succeeded |
| ServerBuild.ServerWatch.constructor | script/targets/server.ts:67 | the reused packer starts with no files, nothing uploaded |
| ServerBuild.ServerWatch.OnCheck | script/targets/server.ts:68-74 | the event's files replace the packer's inputs before it runs; an upload happens iff the run succeeded and changed something |
| Cli.JoinArgs | script/index.ts:37 | empty and missing arguments are dropped; two present ones are joined by one space |
| Cli.Dispatch | script/index.ts:16-35 | the literal commands select their fixed actions; `reload-static <key>` carries the text after the prefix; anything else is "unknown command" |
| Cli.FixedCommandsAreNotReloads | script/index.ts:17-32 | no literal command matches the reload pattern, so the test order does not matter |
| Cli.ReloadStaticRoundTrip | script/index.ts:27 | `reload-static <key>` is accepted iff the key is one or more of `[\w\\.]`, and it carries exactly that key |
| Cli.BothStartsClientThenServer | script/index.ts:21-24 | "both" and "watch both" start the client with header "c" and then the server with header "s" |
| Cli.AdminExitCode | script/index.ts:12-14 | exit code 0 iff the admin command succeeded, else 1 |
| Cli.Start | script/index.ts:39-51 | exit 2 iff the question is asked and the answer is neither "y" nor "Y"; otherwise the command is dispatched |
| Cli.SelfNeverAsks | script/index.ts:40 | building the script itself is dispatched without a question |
| BackendEvents.ClassifyOrder | src/core/backend.ts:120-134 | anything with `retcode` is a response whatever its `post_type`; a message never has one; a primitive throws |
| BackendEvents.Classify | src/core/backend.ts:120-134 | the branch taken, tested in the source's order; `ClassifyOrder` states the consequences of that order |
| BackendEvents.FromBotInMainGroup | src/core/backend.ts:165-167 | `self_id == botoid && group_id == groupid` under loose equality; `HandleEvent` states that such messages are not stored |
| BackendEvents.IndexMap | src/core/backend.ts:141 | spreading an array or string gives its items under their index keys |
| BackendEvents.SenderCopy | src/core/backend.ts:150-161 | falsy age, area, level, card and title are dropped; role only if "member", sex only if "unknown"; every other key is kept with its value |
| BackendEvents.LogCopy | src/core/backend.ts:141-161 | post_type, self_id, time and message are never logged; every logged key but the sender comes unchanged from the event |
| BackendEvents.LogCopyConditionalKeys | src/core/backend.ts:146-147 | message_type is logged iff not "group", sub_type iff not "normal" |
| BackendEvents.LogCopyFlagKeys | src/core/backend.ts:148-149 | anonymous and font are logged iff truthy |
| BackendEvents.LogCopySenderKeys | src/core/backend.ts:150-160 | user_id is dropped iff it equals the sender's; a truthy sender is replaced by its copy |
| BackendEvents.LogCopyKeepsOtherFields | src/core/backend.ts:141-145 | every other key of the event is logged with its value |
| BackendEvents.RowOf | src/core/backend.ts:169-196 | content is the message decoded by the given decoding (`FourPasses` as written, `OnePass` as intended); raw content is null iff the decoded texts are equal, and otherwise the decoded raw text; user and nick names come from the sender |
| BackendEvents.HandleEvent | src/core/backend.ts:116-202 | tagged lines for responses, requests, notices and unknown kinds; nothing for heartbeats and guild events; a message logs its reduced copy; the bot account's message in the main group is logged but not stored; any other message stores its row iff both texts are strings, and otherwise throws after its line is logged; with `FourPasses` the texts are decoded as written |
| BackendEvents.StoredTextsAreSentTexts | src/core/backend.ts:169-195 | with the intended one-pass decoding, a message sent as escaped texts is stored as those texts, and raw content is null iff the two texts agree |
| BackendEvents.FourPassesStoresBracket | src/core/backend.ts:169-170 | with the four passes as written, the sent text `&#91;` (received as `&amp;#91;`) is stored as "[" |
| BackendSetup.UntilTimeout | src/core/backend.ts:219 | the events before the timer's expiry form a prefix with no expiry |
| BackendSetup.SlotsFollowUrls | src/core/backend.ts:227-231 | a slot is filled iff a connection with its URL arrived; other URLs fill neither |
| BackendSetup.ResolvesIffBothBeforeTimeout | src/core/backend.ts:217-235 | the setup resolves iff both "/main/" and "/boto/" connected before the timer expired; it is rejected iff the timer expired first; otherwise it is pending |
| BackendSetup.Step | src/core/backend.ts:219-237 | one connection or timer expiry; `SlotsFollowUrls` and `BackendUsesFilledSlots` state what a connection fills and builds |
| BackendSetup.Run | src/core/backend.ts:216-239 | the events in arrival order; `ResolvesIffBothBeforeTimeout` characterises the promise it ends with |
| BackendSetup.BackendUsesFilledSlots | src/core/backend.ts:232-233 | a backend exists iff both slots are filled, and the latest one is built from them |
| BackendSetup.SetupServer.constructor | src/core/backend.ts:211-214 | no connections, no backend, a pending promise |
| BackendSetup.SetupServer.OnConnection | src/core/backend.ts:225-237 | the state moves by one connection step |
| BackendSetup.SetupServer.OnTimeout | src/core/backend.ts:219 | the state moves by the timer's expiry |
| CqCode.Escape | src/core/backend.ts:169-170 | the escaping of a CQ-code parameter: an escaped text has no bracket or comma |
| CqCode.UnescapeEscapeChar | src/core/backend.ts:169-170 | decoding reads one escaped character back |
| CqCode.UnescapeEscape | src/core/backend.ts:169-170 | the one-pass decoding undoes the escaping for every text |
| CqCode.EscapeText | src/core/backend.ts:169-170 | the plain-text escaping, which keeps commas: an escaped text has no bracket |
| CqCode.UnescapeEscapeText | src/core/backend.ts:169-170 | the one-pass decoding also undoes the plain-text escaping for every text |
| CqCode.ReplaceAllWithoutStart | src/core/backend.ts:169-170 | a pass whose pattern's first character is absent changes nothing |
| CqCode.EscapedEntityText | src/core/backend.ts:169-170 | the text `&#91;` is sent as `&amp;#91;` |
| CqCode.DecodeAsWrittenCollapsesEntities | src/core/backend.ts:169-170 | the four passes as written turn the sent `&amp;#91;` into "[", where the one-pass decoding gives back `&#91;` |
| CqCode.DecodeAsWritten | src/core/backend.ts:169-170 | the four `replaceAll` passes in the source's order, `&amp;` first; `DecodeAsWrittenCollapsesEntities` shows an `&` it produces starting another entity |
| CqCode.Unescape | src/core/backend.ts:169-170 | the decoding evidently intended, each entity read once; `UnescapeEscape` proves it inverts the escaping for every text |
| LogFiles.Stamp | src/core/logger.ts:43-44 | the date stamp has eight characters |
| LogFiles.FileName | src/core/logger.ts:43-44 | the name is the stamp, the postfix and ".log" |
| LogFiles.FileNameStamped | src/core/logger.ts:43-44 | a file name starts with its date's eight digits |
| LogFiles.EventLogName | src/core/logger.ts:43-44 | the event log of 2022-09-01 is "20220901E.log" |
| LogFiles.StampDay | src/core/logger.ts:73 | a name is dated iff its first eight characters are digits |
| LogFiles.StampDayOfFileName | src/core/logger.ts:73 | the date read from a log file's name is the day it was written |
| LogFiles.ExpiredOwnFile | src/core/logger.ts:71-82 | a logger's own file is deleted iff its date plus the retention is before today |
| LogFiles.OtherLoggersFilesKept | src/core/logger.ts:12-16 | with the corrected test, a logger never deletes another level's files |
| LogFiles.InfoCleanupTakesEventLogs | src/core/logger.ts:71-82 | as written, the info cleanup deletes event logs older than seven days; the corrected test keeps them |
| LogFiles.ExpiredAsWritten | src/core/logger.ts:73-74 | a dated name whose day plus the retention is before today; `InfoCleanupTakesEventLogs` shows it taking other loggers' files |
| LogFiles.Expired | src/core/logger.ts:73-74 | the corrected test: own postfix and past retention; `ExpiredOwnFile` and `OtherLoggersFilesKept` characterise it |
| LogFiles.ExpiredEntries | src/core/logger.ts:71-82 | the names deleted under a test, in directory order; `ExpiredEntriesMembers` characterises them |
| LogFiles.EventLogDeletedEarly | src/core/logger.ts:71-82 | on 2022-09-30 the info cleanup as written deletes "20220901E.log", the event cleanup keeps it, and the corrected test keeps it |
| LogFiles.ExpiredEntriesMembers | src/core/logger.ts:71-82 | exactly the entries the test selects are deleted: as written, every dated file past the logger's retention whatever its postfix; corrected, only the logger's own such files |
| LogFiles.OwnFilesWithinAsWritten | src/core/logger.ts:72-74 | the corrected cleanup deletes only names the written one deletes too |
| LogFiles.InfoCleanupUnlinksEventLog | src/core/logger.ts:71-82 | on 2022-09-30 the info cleanup as written unlinks "20220901E.log"; the corrected one unlinks nothing |
| LogFiles.AfterWrite | src/core/logger.ts:84-94 | after any write at most `flushByCount` writes are unsynced, and a timer is pending iff some are |
| LogFiles.WritesFromSynced | src/core/logger.ts:84-94 | after q·(flushByCount+1)+r writes from a synced state there were q syncs and r writes are unsynced |
| LogFiles.ZeroCountFlushesEveryWrite | src/core/logger.ts:86-87 | with `flushByCount` 0 every write syncs at once |
| LogFiles.LevelTable | src/core/logger.ts:98-105 | the postfixes are distinct; the error level syncs every write; info syncs on the twelfth write; event logs are kept longer |
| LogFiles.RollOverRunAppend | src/core/logger.ts:64-66 | the roll-over's events may be run in pieces: running one trace and then another is running them joined |
| LogFiles.WritesOnClosedHandle | src/core/logger.ts:84-85 | while the handle is closed, every write rejects and no line is recorded |
| LogFiles.CloseThenOpenRejectsWindow | src/core/logger.ts:39-45 | as written, every write between the unawaited `close` and the awaited `open` of a roll-over rejects and is lost, and the new file is in use afterwards |
| LogFiles.OpenThenSwapKeepsEveryWrite | src/core/logger.ts:64-66 | with the new file opened before the handles are swapped, no write of any interleaving rejects, and the texts are recorded in the order written after the earlier lines |
| LogFiles.Logger.constructor | src/core/logger.ts:30-37 | the clock's date, no file open, nothing unsynced, no timer |
| LogFiles.Logger.Init | src/core/logger.ts:39-45 | any open file is closed first; then the file named for the current date is open |
| LogFiles.Logger.Flush | src/core/logger.ts:54-69 | one sync, the counter is 0, no timer; a new UTC date moves the date and reopens today's file |
| LogFiles.Logger.Write | src/core/logger.ts:84-94 | the line goes to the open file; a write past `flushByCount` flushes (rolling over on a new date, no timer armed, closed files as `Flush` leaves them); any other counts, leaves date, file and closed files alone, and only the write from 0 to 1 arms a new timer |
| LogFiles.Logger.FireTimeout | src/core/logger.ts:91 | the timer's expiry flushes: synced, nothing pending, rolled over on a new date with the old file closed; lines and timers untouched |
| LogFiles.Logger.Deinit | src/core/logger.ts:47-52 | with a file open: flush (rolling over on a new date), then close the file now open, so every file opened is closed; otherwise nothing changes; lines and timers untouched |
| LogFiles.Logger.Cleanup | src/core/logger.ts:71-82 | the loop deletes exactly the entries the written test selects, in directory order |
| ApiServer.ValidateNumber | src/adk/api-server.ts:27-33 | fails iff `parseInt` gives NaN, with the invalid-parameter error; otherwise the parsed number |
| ApiServer.ValidateId | src/adk/api-server.ts:35-41 | succeeds iff the parse is a number above 0 |
| ApiServer.ValidateNumberAcceptsNumerals | src/adk/api-server.ts:27-33 | every decimal numeral is accepted as its own value |
| ApiServer.ValidateIdOfNumerals | src/adk/api-server.ts:35-41 | a decimal numeral is a valid id iff it is positive |
| ApiServer.ValidateIdRefinesNumber | src/adk/api-server.ts:27-41 | an id is a number with the same value, and a non-number is no id |
| ApiServer.ValidateBody | src/adk/api-server.ts:59-64 | refused iff falsy or without keys, with "invalid empty body"; otherwise returned unchanged |
| ApiServer.ValidateBodyByKeys | src/adk/api-server.ts:59-64 | a present body is refused iff it has no keys |
| ApiServer.ErrorOf | src/adk/api-server.ts:101-107 | a thrown `FineError` is kept as is; anything else becomes an internal error with its message |
| ApiServer.Reply | src/adk/api-server.ts:99-112 | for an object context: the reply lacks path, state and method, keeps every other field of the dispatcher's context, and a throw adds the error |
| ApiServer.HandleData | src/adk/api-server.ts:89-113 | an unparsable payload is answered as the empty object and an object payload by `Reply`; `null` gets no reply and the handler rejects; any other non-object is written back unchanged, with no error, and the handler rejects iff it is a primitive |
| ApiServer.ObjectRepliesDropRequestFields | src/adk/api-server.ts:92-112 | an object or unparsable payload always gets an object reply without path, state and method, and the handler resolves |
| ApiServer.ArrayReplyHasNoError | src/adk/api-server.ts:104-112 | the payload `[]` is answered with `[]`: the error set on the array is not serialised |
| ApiServer.ApiServer.constructor | src/adk/api-server.ts:66-67 | no connections, no replies and no rejected handlers |
| ApiServer.ApiServer.OnConnection | src/adk/api-server.ts:80-81 | a new socket is appended |
| ApiServer.ApiServer.OnClose | src/adk/api-server.ts:83-85 | `splice(indexOf)`: a tracked socket is removed; an untracked one drops the last |
| ApiServer.ApiServer.OnData | src/adk/api-server.ts:89-113 | the reply `HandleData` writes, if any, is appended on the same socket, and a rejecting handler is counted |
| ApiServer.ApiServer.Shutdown | src/adk/api-server.ts:122-125 | every tracked socket is destroyed, in order |
| JsArray.PositionOf | src/adk/api-server.ts:84 | `indexOf` gives the first position of the element, or -1 iff absent |
| JsArray.SpliceOne | src/adk/api-server.ts:84 | `splice(i, 1)` removes position i; -1 removes the last |
| JsArray.RemovePresent | src/adk/api-server.ts:84 | removing a present element of a list without repeats removes exactly it |
| JsArray.RemoveAbsent | src/adk/api-server.ts:84 | removing an absent element drops the last one |
| ApiRouter.RouteOf | src/api/server/index.ts:13-18 | a non-string path throws; a path not starting "/v1" is "invalid invocation version"; the default group is chosen iff the path starts "/v1/default/"; the rest is "invalid invocation" |
| ApiRouter.NearMissPaths | src/api/server/index.ts:14-18 | "/v1x/default/…" and "/v12/default/…" are refused as invalid invocations |
| ApiRouter.Dispatch | src/api/server/index.ts:13-18 | the default handler gets the context unchanged, full path included; otherwise nothing is called and the route's error is thrown; a path that is not a string throws a plain error carrying the engine's `TypeError` message |
| ApiRouter.PathTypeError | src/api/server/index.ts:15 | a message exists exactly when `ctx.path` is not a string |
| ApiRouter.MissingPathReply | src/api/server/index.ts:15 | a request without a path (every unparsable payload) is answered with an internal error carrying the `TypeError` message |
| ApiRouter.WrongVersionReply | src/api/server/index.ts:14 | a wrong-version request is answered with its own fields, minus path, state and method, plus the not-found error |
| FineErrors.KindFromName | src/adk/error.ts:5-14 | a kind is read only from its own literal |
| FineErrors.KindNameRoundTrip | src/adk/error.ts:5-14 | each of the nine literals reads back as its kind, so they are distinct |
| FineErrors.NewFineError | src/adk/error.ts:18-23 | kind and message are stored as given |
| FineErrors.JsonRoundTrip | src/adk/error.ts:16-23 | name, kind and message survive JSON serialisation |
| ApiClient.MakeRequest | src/adk/api-client.ts:3-11 | URL is the origin plus the path; the verb's own method name; the body is serialised iff truthy; Content-Type is JSON iff the body is truthy, else `application/octec-stream` |
| ApiClient.UrlNamesPath | src/adk/api-client.ts:4 | the path is read back from the URL |
| ApiClient.VerbNameInjective | src/adk/api-client.ts:21-25 | different wrappers send different method names |
| ApiClient.SettleByStatus | src/adk/api-client.ts:14-19 | 200-299 resolve with the data; 4xx reject with it; 5xx reject with "internal error"; everything else rejects with "unknown error"; a body not announced as JSON reads as `{}` |
| ApiClient.Settle | src/adk/api-client.ts:13-19 | the response classification; `SettleByStatus` characterises it status range by status range |
| ApiClient.Call | src/adk/api-client.ts:3-20 | `impl`: the request built by `MakeRequest`, answered by `fetch`, settled by `Settle` |
| ApiClient.NoContentResolvesEmpty | src/adk/api-client.ts:14-16 | a success without a JSON body resolves with `{}` |
| ApiClient.ErrorBodies | src/adk/api-client.ts:16-18 | client-error bodies reach the caller; server-error bodies do not |
| WebInterface.RecentGroups | src/core/web-interface.ts:19-22 | each row's group, in row order |
| WebInterface.SenderText | src/core/web-interface.ts:31 | "<nick or user name> (<user id>, <user name>) at <time>" |
| WebInterface.SenderFallsBackToUserName | src/core/web-interface.ts:31 | the line starts with the nickname unless it is empty, else with the user name |
| WebInterface.ToApiMessage | src/core/web-interface.ts:31 | id, content and sender line from the row |
| WebInterface.GroupRecentMessages | src/core/web-interface.ts:26-32 | one message per row, in row order |
| WebInterface.RecentPrivates | src/core/web-interface.ts:23-25 | the fixed list [2] |
| WebInterface.PrivateRecentMessages | src/core/web-interface.ts:33-35 | no messages |
| WebInterface.SendGroupMessage | src/core/web-interface.ts:36-39 | `send_group_msg` with the group and the content; the message is returned unchanged |
| WebInterface.SendPrivateMessage | src/core/web-interface.ts:40-42 | the message is returned unchanged |
| Echo.OnMessage | src/plugins/echo.ts:8-13 | a reply iff the message was received by the bot account (`self_id`), the group is the main group and the text starts with "[CQ:at,qq=<self>] "; it goes to the main group, mentions the sender and carries the rest of the text |
| Echo.NumeralHasNoBracket | src/plugins/echo.ts:8 | a number's text never holds "]" |
| Echo.MentionPrefix | src/plugins/echo.ts:10 | two mentions agree as prefixes only when they name the same number |
| Echo.EchoRetriggersOnlyForSelf | src/plugins/echo.ts:9-13 | an echo, seen again as the bot's message, triggers the rule iff the original sender was the bot |
| JsText.IndexOfFirst | script/targets/client.ts:228-230 | `indexOf` reports the first occurrence, or -1 iff there is none |
| JsText.ReplaceFirstAt | script/targets/client.ts:228-230 | `replace` with a string pattern replaces only the first occurrence |
| JsText.ReplaceFirstAbsent | script/targets/client.ts:228-230 | an absent pattern leaves the text unchanged |
| JsText.SubstitutePlain | script/targets/client.ts:228-230 | a replacement without `$` is inserted as it is |
| JsText.ParseIntOfIntToString | src/adk/api-server.ts:28 | `parseInt(String(n))` is n |
| JsText.ParseInt | src/adk/api-server.ts:28 | `parseInt` with no radix: white space, sign, `0x` prefix and the longest digit run; `ParseIntOfIntToString` proves it reads back every printed integer |
| JsText.IntToStringInjective | src/plugins/echo.ts:8 | different numbers are written differently |

## Left out

- I/O is not modelled: files, sockets, the database, `fetch`, `localStorage` and the console. The tools are inputs: the linter, code generator, type checker, bundler, stylesheet compiler, uploader and admin channel. So are the hash of the script sources and the clock.
- `requestRender` is an abstract trigger, counted in `renderRequests`. The coalescing helper that builds it is not part of this model, so `Render` models one execution of the action.
- Bundler configuration and internals, compressed sizes, the bundle report printing, `AKARIN_OUTPUT_LOCAL` and the log texts are not modelled, because they are foreign libraries and formatting.
- ClientOnce.BuildOnce: the script chain and the stylesheet build run concurrently in the source and one after the other here. `run` is the bundler's one report for the checked files rather than a function of them.
- ClientWatch.WatchSession: each callback runs to completion before the next one starts. In script/targets/client.ts the callbacks await, so others can run in between. The page render reads `jsAssets` before its `await` and the upload reads it again afterwards (client.ts:317-322): a bundle finishing in between is uploaded with a page naming the previous scripts. The type-check callback awaits each file write and tests whether the bundler is running only after the loop (client.ts:344-345). The model does not capture these interleavings.
- ClientWatch.WatchSession: the file list is the type checker's own array in the source. The model holds it as a sequence field, so the aliasing with the checker is not captured.
- ClientWatch.WatchSession.OnTypeScriptEvent: requires distinct file names in one event, because a repeated name would make the second `unlinkSync` of the cleanup throw.
- The `mkdir` calls of the memory volume are not modelled; the volume is a map from path to content.
- LogFiles: dates are civil UTC dates numbered by days, from year 100 to 9999. dayjs's lenient parsing dates some names whose first eight characters are not all digits; here those names, and names shorter than eight characters, are undated.
- LogFiles.Logger.Flush: the flush runs as one step here; in the source it awaits `sync`, and on a new date it awaits `init`, and `write` can run in between. The roll-over's window is modelled apart by `RollOverRun` (see "## Findings"): `close` at src/core/logger.ts:41 is not awaited, so a write before `fs.open` resolves (logger.ts:43) calls `write` on a closed handle, which rejects unhandled at logger.ts:85 and ends the process with code 104 (logger.ts:136-143). That model takes the close to take effect at once, as it does when no other operation on the handle is in flight. The second effect is not modelled: a write during `await this.handle.sync()` (logger.ts:56) that finds the counter at 0 arms a new timer, which the resumed flush then clears (logger.ts:58-63), leaving an unsynced write and no timer, against the comment at logger.ts:34 and against `Valid`.
- ServerBuild.ServerWatch.OnCheck: each type-check callback runs to completion before the next one starts. In script/targets/server.ts:68-74 the callback awaits `packer.run()` and `upload`, with nothing like the bundler's busy flag, so a later event can call `updateFiles` while a run is in flight, two runs of the one packer can overlap, and two uploads can finish out of order, leaving the older bundle deployed. `uploads` is always in event order; these overlaps are not captured.
- ApiServer.ApiServer.OnData: each data handler runs to completion before the next one starts. The handler awaits `dispatch(ctx)` (src/adk/api-server.ts:100), so a later payload on the same socket can be answered first. `replies` is in arrival order; replies out of order are not captured.
- LogFiles.Logger.Write: the flush that `write` starts is not awaited in the source; the model runs it at once. The `HH:mm:ss` prefix of each line is not modelled.
- LogFiles.Logger.Cleanup: unlink errors are ignored in the source; the result lists the names attempted. The method applies the test as written; the corrected cleanup is `ExpiredEntries` with `OwnFiles`.
- LogFiles.Logger.Deinit: the handle is closed but, as in the source, not cleared.
- The module-level logger wiring is not modelled, because it is process plumbing: the hourly cleanup timer, the setup and shutdown of the three loggers, the directory creation and the exit handlers.
- ApiClient: the verb wrappers `get`, `post`, `put`, `patch` and `del` are the functions `Get` … `Delete`. Each calls `Call` with its own verb and carries no contract of its own; `MakeRequest` and `VerbNameInjective` state what they send.
- `validateDate` and `validateTime` are not modelled, because they rest on dayjs format parsing. The time formatting of the stored row is left out for the same reason, and the row keeps the Unix time.
- `Backend.call`, `shutdownBackend`, `shutdownAPIServer`'s close callback and the removal of a stale socket file are left out as socket I/O.
- ApiServer.ValidateNumber: `parseInt` returns a double in the source, rounded above 2^53 and `Infinity` for very long numerals; the model reads every numeral exactly, so those inputs differ.
- ApiServer.ValidateId: the same exact reading as `ValidateNumber`.
- ApiServer.HandleData: for a context that is not an object, the dispatcher is taken to throw, as the router does when it reads `ctx.path`. Setting `error` on a boolean, number or string is taken to throw, as it does in strict-mode code. A rejected handler is only counted: the process-wide handler of src/core/logger.ts:136-143 then ends the process with code 104, which is not modelled. The `onerror` logging is not modelled.
- JsText: string offsets count characters where JavaScript counts UTF-16 code units; every offset the core takes comes from an ASCII prefix, where the two agree.
- ApiRouter.PathTypeError: the messages are those of the V8 engine under Node.js; another engine words them differently.
- Json: numbers are integers. Loose `==` between values of different types is taken as false.
- Cli: `process.on('unhandledRejection')` and the commands' own targets are outside the model. `uploadConfig` is one of the dispatched actions.

## Findings

| source | as written | input that shows it | evidently intended | confidence | as-written member | corrected member |
|---|---|---|---|---|---|---|
| src/core/backend.ts:169-170 | `&amp;` is decoded first, so an `&` it produces starts an entity for the later passes | the text `&#91;`, sent as `&amp;#91;`, is stored as `[` | each entity is decoded once from the received text, giving back what was sent | not executed | CqCode.DecodeAsWrittenCollapsesEntities | CqCode.UnescapeEscape |
| src/core/logger.ts:71-82 | every logger's cleanup deletes any dated file in the shared logs directory by its own retention, whatever the postfix | "20220901E.log" on 2022-09-30: the info cleanup (7 days) deletes the event log, which should be kept 30 days (src/core/logger.ts:12-16, 104) | each logger deletes only its own files, by its own retention | not executed | LogFiles.EventLogDeletedEarly | LogFiles.ExpiredOwnFile |
| src/core/logger.ts:39-45 | on a new date `flush` awaits `init`, which closes the old handle without waiting and then awaits `fs.open`; `this.handle` is a closed handle until the open resolves | a write landing between the close and the open of the roll-over, e.g. the next event-log line just after midnight UTC: `handle.write` rejects with "file closed" (EBADF), the line is lost, and the unhandled rejection ends the process with code 104 (logger.ts:85, 136-143) | the new file is opened first, then the handles are swapped and the old one closed, so every write finds an open handle | not executed | LogFiles.CloseThenOpenRejectsWindow | LogFiles.OpenThenSwapKeepsEveryWrite |
