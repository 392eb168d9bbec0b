/**
 * The echo plugin (src/plugins/echo.ts): a group message that mentions the bot first is
 * sent back to the group with the mention replaced by one of the sender.
 */
module Echo {
  import opened Wrappers
  import opened JsText

  /** The fields of a message event the rule reads. `groupId` is absent for private messages. */
  datatype MessageEvent = MessageEvent(selfId: int, groupId: Option<int>, userId: int, message: string)

  /** A group message to send. */
  datatype GroupSend = GroupSend(groupId: int, text: string)

  const AtHead: string := "[CQ:at,qq="

  /** The CQ code mentioning `qq`, followed by one space. */
  function AtCode(qq: int): string {
    AtHead + IntToString(qq) + "] "
  }

  /** The reply to one message event, if any. */
  function OnMessage(selfId: int, groupId: int, ev: MessageEvent): (r: Option<GroupSend>)
    ensures r.Some? <==> ev.selfId == selfId && ev.groupId == Some(groupId) && StartsWith(ev.message, AtCode(selfId))
    ensures r.Some? ==> r.value.groupId == groupId
    ensures r.Some? ==> StartsWith(r.value.text, AtCode(ev.userId))
    ensures r.Some? ==> r.value.text[|AtCode(ev.userId)|..] == ev.message[|AtCode(selfId)|..]
  {
    var atMe := AtCode(selfId);
    if ev.selfId == selfId && ev.groupId == Some(groupId) && StartsWith(ev.message, atMe) then
      var text := AtCode(ev.userId) + ev.message[|atMe|..];
      assert text[|AtCode(ev.userId)|..] == ev.message[|atMe|..];
      Some(GroupSend(groupId, text))
    else None
  }

  /** The text of a number never holds the closing bracket of a CQ code. */
  lemma NumeralHasNoBracket(n: int)
    ensures forall k | 0 <= k < |IntToString(n)| :: IntToString(n)[k] != ']'
  {
    if n < 0 {
      var digits := NatToString(-n);
      assert forall k | 1 <= k < |IntToString(n)| :: IntToString(n)[k] == digits[k - 1];
    }
  }

  /**
   * Two mentions, each closed by a bracket that does not occur in the numbers, agree as
   * prefixes only when they mention the same number.
   */
  lemma {:induction false} MentionPrefix(a: int, b: int, rest: string)
    requires StartsWith(AtCode(a) + rest, AtCode(b))
    ensures a == b
  {
    var x := IntToString(a);
    var y := IntToString(b);
    NumeralHasNoBracket(a);
    NumeralHasNoBracket(b);
    var s := AtCode(a) + rest;
    var p := AtCode(b);
    var h := |AtHead|;
    assert s[h + |x|] == ']';
    assert p[h + |y|] == ']';
    assert s[h + |y|] == ']';
    assert forall k | 0 <= k < |y| :: s[h + k] == y[k];
    assert forall k | 0 <= k < |x| :: s[h + k] == x[k];
    assert |x| == |y|;
    assert x == y by {
      forall k | 0 <= k < |x| ensures x[k] == y[k] {
        assert s[h + k] == x[k] && s[h + k] == y[k];
      }
    }
    IntToStringInjective(a, b);
  }

  /**
   * The echo of a message sent by user `u` triggers the rule again, when it comes back as a
   * message of the bot in the same group, exactly when `u` is the bot itself.
   */
  lemma EchoRetriggersOnlyForSelf(selfId: int, groupId: int, ev: MessageEvent)
    requires OnMessage(selfId, groupId, ev).Some?
    ensures var echo := MessageEvent(selfId, Some(groupId), selfId, OnMessage(selfId, groupId, ev).value.text);
      OnMessage(selfId, groupId, echo).Some? <==> ev.userId == selfId
  {
    var text := OnMessage(selfId, groupId, ev).value.text;
    var rest := ev.message[|AtCode(selfId)|..];
    assert text == AtCode(ev.userId) + rest;
    if StartsWith(text, AtCode(selfId)) {
      MentionPrefix(ev.userId, selfId, rest);
    }
  }
}
