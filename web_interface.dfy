/**
 * The handlers behind the web interface (src/core/web-interface.ts): projections of stored
 * message rows into API messages, the group send, and the private-chat stubs. The database
 * query is left out; its result rows are the inputs.
 */
module WebInterface {
  import opened Wrappers
  import opened JsText
  import opened Json

  /** A row of the message table, as the query returns it. */
  datatype DbMessage = DbMessage(id: int, time: string, userId: int, userName: string, nickName: string, content: string)

  /** A row of the distinct-group query. */
  datatype GroupRow = GroupRow(groupId: int)

  /** The API message record; the optional fields are absent when `None`. */
  datatype Message = Message(id: Option<int>, groupId: Option<int>, sender: Option<string>, content: string)

  /** `getRecentGroups`: the group of each row, in row order. */
  function RecentGroups(rows: seq<GroupRow>): (ids: seq<int>)
    ensures |ids| == |rows|
    ensures forall i | 0 <= i < |rows| :: ids[i] == rows[i].groupId
  {
    if rows == [] then [] else [rows[0].groupId] + RecentGroups(rows[1..])
  }

  /** `NickName || UserName`: the nickname unless it is empty. */
  function DisplayName(m: DbMessage): string {
    if m.nickName != "" then m.nickName else m.userName
  }

  /** The sender line of a message: display name, then user id and user name, then time. */
  function SenderText(m: DbMessage): (s: string)
    ensures StartsWith(s, DisplayName(m) + " (" + IntToString(m.userId) + ", " + m.userName + ")")
    ensures EndsWith(s, ") at " + m.time)
  {
    var head := DisplayName(m) + " (" + IntToString(m.userId) + ", " + m.userName + ")";
    var s := head + " at " + m.time;
    assert s == DisplayName(m) + " (" + IntToString(m.userId) + ", " + m.userName + ") at " + m.time;
    assert s[|s| - |") at " + m.time|..] == ") at " + m.time;
    s
  }

  /** With a nickname the line starts with it; without one it starts with the user name. */
  lemma SenderFallsBackToUserName(m: DbMessage)
    ensures m.nickName != "" ==> StartsWith(SenderText(m), m.nickName + " (")
    ensures m.nickName == "" ==> StartsWith(SenderText(m), m.userName + " (")
  {
    var s := SenderText(m);
    var p := DisplayName(m) + " (";
    assert p <= DisplayName(m) + " (" + IntToString(m.userId) + ", " + m.userName + ")";
  }

  /** One message of `getGroupRecentMessages`. */
  function ToApiMessage(m: DbMessage): (r: Message)
    ensures r.id == Some(m.id) && r.content == m.content && r.sender == Some(SenderText(m))
    ensures r.groupId.None?
  {
    Message(Some(m.id), None, Some(SenderText(m)), m.content)
  }

  /** `getGroupRecentMessages`: one message per row, in row order. */
  function GroupRecentMessages(rows: seq<DbMessage>): (msgs: seq<Message>)
    ensures |msgs| == |rows|
    ensures forall i | 0 <= i < |rows| ::
      msgs[i].id == Some(rows[i].id) && msgs[i].content == rows[i].content
      && msgs[i].sender == Some(SenderText(rows[i])) && msgs[i].groupId.None?
  {
    if rows == [] then [] else [ToApiMessage(rows[0])] + GroupRecentMessages(rows[1..])
  }

  /** `getRecentPrivates`: a fixed list. */
  function RecentPrivates(): (ids: seq<int>)
    ensures ids == [2]
  {
    [2]
  }

  /** `getPrivateRecentMessages`: nothing is stored for private chats. */
  function PrivateRecentMessages(): (msgs: seq<Message>)
    ensures msgs == []
  {
    []
  }

  /** A backend action call: its name and its parameter object. */
  datatype BackendCall = BackendCall(action: string, params: map<string, Json>)

  /**
   * `sendGroupMessage`: the group send is handed to the backend and the message is
   * returned. An absent `groupId` is dropped from the serialised parameters.
   */
  function SendGroupMessage(message: Message): (r: (BackendCall, Message))
    ensures r.0.action == "send_group_msg" && r.1 == message
    ensures "message" in r.0.params && r.0.params["message"] == JStr(message.content)
    ensures "group_id" in r.0.params <==> message.groupId.Some?
    ensures message.groupId.Some? ==> r.0.params["group_id"] == JNum(message.groupId.value)
    ensures r.0.params.Keys <= {"group_id", "message"}
  {
    var params := map["message" := JStr(message.content)]
      + (if message.groupId.Some? then map["group_id" := JNum(message.groupId.value)] else map[]);
    (BackendCall("send_group_msg", params), message)
  }

  /** `sendPrivateMessage`: nothing is sent; the message is returned. */
  function SendPrivateMessage(message: Message): (r: Message)
    ensures r == message
  {
    message
  }
}
