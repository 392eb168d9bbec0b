/**
 * The handling of one event from the chat service (`handleBackendEvent` in
 * src/core/backend.ts): the classification, the reduced copy written to the event log, the
 * bot-group filter and the row stored for a message. The payload arrives parsed; the log
 * and the database are outputs of the function rather than effects.
 */
module BackendEvents {
  import opened Wrappers
  import opened JsText
  import opened Json
  import opened CqCode

  /** The configuration bound as `this`. */
  datatype BackendConfig = BackendConfig(port: int, mainId: int, botoId: int, groupId: int)

  /** The branch an event takes. `NotAnObject` is a primitive or `null`, where `in` throws. */
  datatype EventKind =
    | Response | Meta | Request | Notice | GuildNotice | Message | GuildMessage | Unknown | NotAnObject

  /** A line of the event log: a tag with the payload text, or a message's reduced copy. */
  datatype EventLine = Tagged(tag: string, payload: string) | MessageCopy(copy: map<string, Json>)

  /**
   * A row for the message table. `time` is the event's Unix time as received; the
   * formatting into a date-time string is not modelled.
   */
  datatype StoredRow = StoredRow(id: Option<Json>, time: Option<Json>, subType: Option<Json>,
                                 userId: Option<Json>, userName: Option<Json>, nickName: Option<Json>,
                                 content: string, rawContent: Option<string>, groupId: Option<Json>)

  /** What handling one event did: the log line written and the row stored, or a throw after the line. */
  datatype Handling =
    | Handled(line: Option<EventLine>, row: Option<StoredRow>)
    | Threw(line: Option<EventLine>)

  /** `'key' in v` on an object or an array (an array has only index keys). */
  predicate HasKey(v: Json, key: string)
    requires v.JObj? || v.JArr?
  {
    v.JObj? && key in v.fields
  }

  /** `v.key` on an object or an array. */
  function Field(v: Json, key: string): Option<Json> {
    Prop(Some(v), key)
  }

  /** The branch of `handleBackendEvent` an event takes, checked in the source's order. */
  function Classify(event: Json): EventKind {
    if !(event.JObj? || event.JArr?) then NotAnObject
    else if HasKey(event, "retcode") then Response
    else if IsString(Field(event, "post_type"), "meta_event") then Meta
    else if IsString(Field(event, "post_type"), "request") then Request
    else if IsString(Field(event, "post_type"), "notice") then
      (if HasKey(event, "guild_id") then GuildNotice else Notice)
    else if IsString(Field(event, "post_type"), "message") || IsString(Field(event, "post_type"), "message_sent") then
      (if IsString(Field(event, "message_type"), "guild") then GuildMessage else Message)
    else Unknown
  }

  /** A response is recognised by its `retcode` whatever its `post_type`; a message never has one. */
  lemma ClassifyOrder(event: Json)
    ensures Classify(event) == Response <==> event.JObj? && "retcode" in event.fields
    ensures Classify(event) == NotAnObject <==> !(event.JObj? || event.JArr?)
    ensures Classify(event) in {Message, GuildMessage} ==> event.JObj? && "retcode" !in event.fields
    ensures event.JArr? ==> Classify(event) == Unknown
  {
  }

  /** The keys and values of an array or a string, as spread into an object: `{...v}`. */
  function IndexMap(items: seq<Json>): (m: map<string, Json>)
    ensures forall i | 0 <= i < |items| :: IntToString(i) in m && m[IntToString(i)] == items[i]
    decreases |items|
  {
    if items == [] then map[]
    else
      var front := items[..|items| - 1];
      var m := IndexMap(front);
      forall i | 0 <= i < |front| ensures IntToString(i) != IntToString(|front|) {
        if IntToString(i) == IntToString(|front|) {
          IntToStringInjective(i, |front|);
        }
      }
      m[IntToString(|front|) := items[|items| - 1]]
  }

  /** `{...v}` for a truthy value. */
  function Spread(v: Json): map<string, Json> {
    match v
    case JObj(fields) => fields
    case JArr(items) => IndexMap(items)
    case JStr(s) => IndexMap(seq(|s|, i requires 0 <= i < |s| => JStr([s[i]])))
    case _ => map[]
  }

  /**
   * Whether the sender copy keeps a key: falsy `age`, `area`, `level`, `card` and `title`,
   * `role` equal to 'member' and `sex` equal to 'unknown' are deleted. Each deletion looks
   * only at its own key, so the order of the deletions does not matter.
   */
  predicate SenderKeeps(sender: map<string, Json>, k: string)
    requires k in sender
  {
    if k in {"age", "area", "level", "card", "title"} then Truthy(Some(sender[k]))
    else if k == "role" then !IsString(Some(sender[k]), "member")
    else if k == "sex" then !IsString(Some(sender[k]), "unknown")
    else true
  }

  /** The sender copy `logsender`. */
  function SenderCopy(sender: map<string, Json>): (r: map<string, Json>)
    ensures forall k | k in {"age", "area", "level", "card", "title"} :: k in r <==> Truthy(Get(sender, k))
    ensures "role" in r <==> "role" in sender && !IsString(Get(sender, "role"), "member")
    ensures "sex" in r <==> "sex" in sender && !IsString(Get(sender, "sex"), "unknown")
    ensures forall k | k in r :: k in sender && r[k] == sender[k]
    ensures forall k | k in sender && k !in {"age", "area", "level", "card", "title", "role", "sex"} :: k in r
  {
    map k | k in sender && SenderKeeps(sender, k) :: sender[k]
  }

  /** The keys removed from every logged message. */
  const AlwaysDropped: set<string> := {"post_type", "self_id", "time", "message"}

  /** The keys whose removal depends on their value. */
  const SometimesDropped: set<string> := {"message_type", "sub_type", "anonymous", "font", "user_id", "sender"}

  /** Whether the top-level `user_id` is dropped: it equals the sender copy's `user_id`. */
  predicate UserIdDropped(fields: map<string, Json>) {
    Truthy(Get(fields, "sender")) && LooseEquals(Get(SenderCopy(Spread(fields["sender"])), "user_id"), Get(fields, "user_id"))
  }

  /**
   * Whether the log copy keeps a key of the event. As with the sender, each deletion looks
   * at its own key only (the `user_id` test reads the sender, which is never deleted).
   */
  predicate EventKeeps(fields: map<string, Json>, k: string)
    requires k in fields
  {
    if k in AlwaysDropped then false
    else if k == "message_type" then !IsString(Some(fields[k]), "group")
    else if k == "sub_type" then !IsString(Some(fields[k]), "normal")
    else if k == "anonymous" || k == "font" then Truthy(Some(fields[k]))
    else if k == "user_id" then !UserIdDropped(fields)
    else true
  }

  /** The reduced copy of a message event written to the event log, `logevent`. */
  function LogCopy(fields: map<string, Json>): (copy: map<string, Json>)
    ensures forall k | k in AlwaysDropped :: k !in copy
    ensures forall k | k in copy && k != "sender" :: k in fields && copy[k] == fields[k]
    ensures "sender" in copy <==> "sender" in fields
  {
    var kept := map k | k in fields && EventKeeps(fields, k) :: fields[k];
    if Truthy(Get(fields, "sender")) then kept["sender" := JObj(SenderCopy(Spread(fields["sender"])))]
    else kept
  }

  /** The message of the bot account in the main group, which the bot also sees there. */
  predicate FromBotInMainGroup(fields: map<string, Json>, config: BackendConfig) {
    LooseEquals(Get(fields, "self_id"), Some(JNum(config.botoId))) &&
    LooseEquals(Get(fields, "group_id"), Some(JNum(config.groupId)))
  }

  /**
   * The row stored for a message whose `message` and `raw_message` are the given texts, both
   * decoded with `decoding`.
   */
  function RowOf(fields: map<string, Json>, message: string, rawMessage: string, decoding: Decoding): (row: StoredRow)
    ensures row.content == Decode(decoding, message)
    ensures row.rawContent.None? <==> Decode(decoding, rawMessage) == Decode(decoding, message)
    ensures row.rawContent.Some? ==> row.rawContent.value == Decode(decoding, rawMessage)
    ensures row.userName == Prop(Get(fields, "sender"), "nickname") && row.nickName == Prop(Get(fields, "sender"), "card")
  {
    var content := Decode(decoding, message);
    var raw := Decode(decoding, rawMessage);
    StoredRow(Get(fields, "message_id"), Get(fields, "time"), Get(fields, "sub_type"), Get(fields, "user_id"),
              Prop(Get(fields, "sender"), "nickname"), Prop(Get(fields, "sender"), "card"),
              content, if raw == content then None else Some(raw), Get(fields, "group_id"))
  }

  /** Both texts of a message are strings, the precondition of decoding them. */
  predicate HasTexts(fields: map<string, Json>) {
    && Get(fields, "message").Some? && Get(fields, "message").value.JStr?
    && Get(fields, "raw_message").Some? && Get(fields, "raw_message").value.JStr?
  }

  /**
   * `handleBackendEvent` on a payload text and its parse (`None` when `JSON.parse` throws).
   * A message's texts are decoded with `decoding`: `FourPasses` is the decoding written at
   * src/core/backend.ts:169-170, `OnePass` the one it evidently intends.
   */
  function HandleEvent(payload: string, parsed: Option<Json>, config: BackendConfig, decoding: Decoding): (h: Handling)
    ensures parsed.None? ==> h == Threw(None)
    ensures parsed.Some? ==>
              var kind := Classify(parsed.value);
              && (kind == NotAnObject ==> h == Threw(None))
              && (kind == Response ==> h == Handled(Some(Tagged("RESPONSE", payload)), None))
              && (kind == Request ==> h == Handled(Some(Tagged("REQUEST", payload)), None))
              && (kind == Notice ==> h == Handled(Some(Tagged("NOTICE", payload)), None))
              && (kind == Unknown ==> h == Handled(Some(Tagged("UNKNOWN", payload)), None))
              && (kind in {Meta, GuildNotice, GuildMessage} ==> h == Handled(None, None))
              && (kind == Message ==> h.line == Some(MessageCopy(LogCopy(parsed.value.fields))))
    ensures h.Handled? && h.row.Some? ==>
              && parsed.Some? && Classify(parsed.value) == Message
              && !FromBotInMainGroup(parsed.value.fields, config)
              && HasTexts(parsed.value.fields)
              && h.row.value == RowOf(parsed.value.fields, parsed.value.fields["message"].s, parsed.value.fields["raw_message"].s, decoding)
    ensures parsed.Some? && Classify(parsed.value) == Message && FromBotInMainGroup(parsed.value.fields, config) ==>
              h.Handled? && h.row.None?
    ensures parsed.Some? && Classify(parsed.value) == Message && !FromBotInMainGroup(parsed.value.fields, config) ==>
              var fields := parsed.value.fields;
              && (HasTexts(fields) ==>
                    h == Handled(Some(MessageCopy(LogCopy(fields))),
                                 Some(RowOf(fields, fields["message"].s, fields["raw_message"].s, decoding))))
              && (!HasTexts(fields) ==> h == Threw(Some(MessageCopy(LogCopy(fields)))))
  {
    if parsed.None? then Threw(None)
    else
      var event := parsed.value;
      match Classify(event)
      case NotAnObject => Threw(None)
      case Response => Handled(Some(Tagged("RESPONSE", payload)), None)
      case Meta => Handled(None, None)
      case Request => Handled(Some(Tagged("REQUEST", payload)), None)
      case GuildNotice => Handled(None, None)
      case Notice => Handled(Some(Tagged("NOTICE", payload)), None)
      case GuildMessage => Handled(None, None)
      case Unknown => Handled(Some(Tagged("UNKNOWN", payload)), None)
      case Message =>
        var fields := event.fields;
        var line := Some(MessageCopy(LogCopy(fields)));
        if FromBotInMainGroup(fields, config) then Handled(line, None)
        else match (Get(fields, "message"), Get(fields, "raw_message"))
          case (Some(JStr(message)), Some(JStr(rawMessage))) => Handled(line, Some(RowOf(fields, message, rawMessage, decoding)))
          case _ => Threw(line)
  }

  /**
   * With the intended one-pass decoding, a message sent as escaped texts is stored as those
   * texts: the content is the text of `message`, and the raw content is left out exactly when
   * the two texts agree.
   */
  lemma StoredTextsAreSentTexts(payload: string, fields: map<string, Json>, config: BackendConfig, text: string, rawText: string)
    requires Classify(JObj(fields)) == Message && !FromBotInMainGroup(fields, config)
    requires Get(fields, "message") == Some(JStr(Escape(text)))
    requires Get(fields, "raw_message") == Some(JStr(Escape(rawText)))
    ensures var h := HandleEvent(payload, Some(JObj(fields)), config, OnePass);
      && h.Handled? && h.row.Some?
      && h.row.value.content == text
      && (h.row.value.rawContent.None? <==> rawText == text)
      && (h.row.value.rawContent.Some? ==> h.row.value.rawContent.value == rawText)
  {
    UnescapeEscape(text);
    UnescapeEscape(rawText);
  }

  /**
   * With the four passes as written, a message whose text is `&#91;`, received escaped as
   * `&amp;#91;`, is stored as `[`.
   */
  lemma FourPassesStoresBracket(payload: string, fields: map<string, Json>, config: BackendConfig)
    requires Classify(JObj(fields)) == Message && !FromBotInMainGroup(fields, config)
    requires Get(fields, "message") == Some(JStr("&amp;#91;"))
    requires Get(fields, "raw_message") == Some(JStr("&amp;#91;"))
    ensures var h := HandleEvent(payload, Some(JObj(fields)), config, FourPasses);
      && h.Handled? && h.row.Some? && h.row.value.content == "[" && h.row.value.rawContent.None?
  {
    DecodeAsWrittenCollapsesEntities();
    assert Decode(FourPasses, "&amp;#91;") == "[";
    assert HasTexts(fields);
    var row := RowOf(fields, "&amp;#91;", "&amp;#91;", FourPasses);
    assert HandleEvent(payload, Some(JObj(fields)), config, FourPasses) == Handled(Some(MessageCopy(LogCopy(fields))), Some(row));
  }

  /**
   * The type keys a log copy drops depending on their value: `message_type` only when
   * 'group', `sub_type` only when 'normal'.
   */
  lemma LogCopyConditionalKeys(fields: map<string, Json>)
    ensures "message_type" in LogCopy(fields) <==> "message_type" in fields && !IsString(Get(fields, "message_type"), "group")
    ensures "sub_type" in LogCopy(fields) <==> "sub_type" in fields && !IsString(Get(fields, "sub_type"), "normal")
  {
  }

  /** `anonymous` and `font` are logged only when truthy. */
  lemma LogCopyFlagKeys(fields: map<string, Json>)
    ensures "anonymous" in LogCopy(fields) <==> Truthy(Get(fields, "anonymous"))
    ensures "font" in LogCopy(fields) <==> Truthy(Get(fields, "font"))
  {
  }

  /** `user_id` is dropped when it repeats the sender's; a truthy sender is replaced by its copy. */
  lemma LogCopySenderKeys(fields: map<string, Json>)
    ensures "user_id" in LogCopy(fields) <==> "user_id" in fields && !UserIdDropped(fields)
    ensures Truthy(Get(fields, "sender")) ==> LogCopy(fields)["sender"] == JObj(SenderCopy(Spread(fields["sender"])))
  {
  }

  /** Every other key of the event is logged with its value. */
  lemma LogCopyKeepsOtherFields(fields: map<string, Json>)
    ensures forall k | k in fields && k !in AlwaysDropped && k !in SometimesDropped ::
              k in LogCopy(fields) && LogCopy(fields)[k] == fields[k]
  {
  }
}
