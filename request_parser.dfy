/**
 * The older request records: a `NapcatRequestData` whose params start as
 * the JSON string "" rather than null, and the message-send records whose
 * target id is a string.
 */
module RequestParser {
  import opened Ints
  import opened Json
  import MessageParser
  import ActionType

  /**
   * The same three-field record as the action type's, with the same
   * by-value setters; only `new` differs.
   */
  type NapcatRequestData = ActionType.NapcatRequestData

  /** `PrivateMessage { user_id: String, message }`. */
  datatype PrivateMessage = PrivateMessage(userId: string, message: MessageParser.Message)

  /** `GroupMessage { group_id: String, message }`. */
  datatype GroupMessage = GroupMessage(groupId: string, message: MessageParser.Message)

  /** `PrivateMessage::new`: the user id as its decimal string, the message unchanged. */
  function NewPrivateMessage(userId: int, message: MessageParser.Message): (r: PrivateMessage)
    ensures r.message == message
    ensures userId >= 0 ==> r.userId == NatToString(userId)
    ensures userId < 0 ==> r.userId == "-" + NatToString(-userId)
  {
    PrivateMessage(IntToString(userId), message)
  }

  /** Different user ids give different records, so the id is recoverable from the string. */
  lemma NewPrivateMessageInjective(a: int, b: int, m: MessageParser.Message)
    requires NewPrivateMessage(a, m) == NewPrivateMessage(b, m)
    ensures a == b
  {
    IntToStringInjective(a, b);
  }

  /** `GroupMessage::new`: the group id string and the message, both unchanged. */
  function NewGroupMessage(groupId: string, message: MessageParser.Message): (r: GroupMessage)
    ensures r.groupId == groupId && r.message == message
  {
    GroupMessage(groupId, message)
  }

  /** `new`: empty action and echo; params is the JSON string "", not null. */
  function New(): (d: NapcatRequestData)
    ensures d.action == "" && d.echo == ""
    ensures d.params == Str("") && d.params != Null
  {
    ActionType.NapcatRequestData("", "", Str(""))
  }

  /** Setting all three fields from `new` yields exactly the chosen record, in any order. */
  lemma BuilderReachesEveryRecord(d: NapcatRequestData)
    ensures ActionType.WithParams(ActionType.WithEcho(ActionType.WithAction(New(), d.action), d.echo), d.params) == d
    ensures ActionType.WithAction(ActionType.WithParams(ActionType.WithEcho(New(), d.echo), d.params), d.action) == d
  {
  }
}
