/**
 * The action manager: every request gets a fresh echo key from a wrapping
 * 64-bit counter, goes out through the action port, and parks a one-shot
 * channel under its key; the response loop hands each response to the
 * channel whose key its echo names, removing the entry.
 *
 * The caller's wait is split in two steps, `Issue` and `Await`, between
 * which any number of `HandleResponse` steps may run: that interleaving is
 * what the asynchronous runtime provides. A request's one-shot channel is
 * identified by the request's sequence number.
 */
module Action {
  import opened Wrappers
  import opened Ints
  import opened Json
  import opened ActionType
  import MessageParser
  import opened SignalType

  const TimeOutError: string := "Time Out Error"
  const SendLikeError: string := "Send Like Error."

  /** `send_private_message`'s request: action "send_private_msg", params `{user_id, message}`. */
  function SendPrivateMessageData(userId: I64, message: MessageParser.Message): (d: NapcatRequestData)
    ensures d.action == "send_private_msg" && d.echo == ""
    ensures d.params.Obj? && d.params.fields.Keys == {"user_id", "message"}
    ensures I64Field(d.params.fields, "user_id") == Ok(userId)
    ensures MessageParser.DecodeMessage(d.params.fields["message"]) == Ok(message)
  {
    MessageParser.MessageRoundTrip(message);
    WithParams(WithAction(New(), "send_private_msg"),
      Obj(map["user_id" := Number(userId), "message" := MessageParser.EncodeMessage(message)]))
  }

  /** `send_group_message`'s request: action "send_group_msg", params `{group_id, message}`. */
  function SendGroupMessageData(groupId: I64, message: MessageParser.Message): (d: NapcatRequestData)
    ensures d.action == "send_group_msg" && d.echo == ""
    ensures d.params.Obj? && d.params.fields.Keys == {"group_id", "message"}
    ensures I64Field(d.params.fields, "group_id") == Ok(groupId)
    ensures MessageParser.DecodeMessage(d.params.fields["message"]) == Ok(message)
  {
    MessageParser.MessageRoundTrip(message);
    WithParams(WithAction(New(), "send_group_msg"),
      Obj(map["group_id" := Number(groupId), "message" := MessageParser.EncodeMessage(message)]))
  }

  /** `send_like`'s request: action "send_like", params `{user_id, times}`. */
  function SendLikeData(userId: I64, times: I32): (d: NapcatRequestData)
    ensures d.action == "send_like" && d.echo == ""
    ensures d.params.Obj? && d.params.fields.Keys == {"user_id", "times"}
    ensures I64Field(d.params.fields, "user_id") == Ok(userId)
    ensures I32Field(d.params.fields, "times") == Ok(times)
  {
    WithParams(WithAction(New(), "send_like"),
      Obj(map["user_id" := Number(userId), "times" := Number(times)]))
  }

  /** `send_private_poke`'s request: action "friend_poke", params `{user_id}`. */
  function SendPrivatePokeData(userId: I64): (d: NapcatRequestData)
    ensures d.action == "friend_poke" && d.echo == ""
    ensures d.params.Obj? && d.params.fields.Keys == {"user_id"}
    ensures I64Field(d.params.fields, "user_id") == Ok(userId)
  {
    WithParams(WithAction(New(), "friend_poke"), Obj(map["user_id" := Number(userId)]))
  }

  /** `send_group_poke`'s request: action "group_poke", params `{user_id, group_id}`. */
  function SendGroupPokeData(groupId: I64, userId: I64): (d: NapcatRequestData)
    ensures d.action == "group_poke" && d.echo == ""
    ensures d.params.Obj? && d.params.fields.Keys == {"user_id", "group_id"}
    ensures I64Field(d.params.fields, "user_id") == Ok(userId)
    ensures I64Field(d.params.fields, "group_id") == Ok(groupId)
  {
    WithParams(WithAction(New(), "group_poke"),
      Obj(map["user_id" := Number(userId), "group_id" := Number(groupId)]))
  }

  /** `value.get("message").and_then(|m| m.get("message"))`. */
  function NestedMessage(v: Json): Option<Json> {
    match Get(v, "message")
    case None => None
    case Some(m) => Get(m, "message")
  }

  /**
   * What `send_like` makes of its request's outcome: the string at
   * `message.message` of the response, and one fixed error otherwise,
   * whatever the request's own error was.
   */
  function SendLikeReply(r: Result<Json, string>): (s: Result<string, string>)
    ensures s.Ok? <==> r.Ok? && NestedMessage(r.value).Some? && NestedMessage(r.value).value.Str?
    ensures s.Ok? ==> r.value.Obj? && "message" in r.value.fields
                      && r.value.fields["message"].Obj?
                      && "message" in r.value.fields["message"].fields
                      && r.value.fields["message"].fields["message"] == Str(s.value)
    ensures s.Err? ==> s.error == SendLikeError
  {
    if r.Err? then Err(SendLikeError)
    else
      match NestedMessage(r.value)
      case Some(Str(t)) => Ok(t)
      case _ => Err(SendLikeError)
  }

  /** The key a response names: its `echo` field when that is a string. */
  function EchoKey(res: Json): (k: Option<string>)
    ensures k.Some? <==> res.Obj? && "echo" in res.fields && res.fields["echo"].Str?
    ensures k.Some? ==> res.fields["echo"] == Str(k.value)
  {
    match Get(res, "echo")
    case None => None
    case Some(e) => AsStr(e)
  }

  /**
   * The pending table's invariant: each entry belongs to an issued request,
   * under the decimal key of that request's number modulo 2^64.
   */
  ghost predicate KeysOfIssued(pending: map<string, nat>, issued: nat) {
    forall k :: k in pending ==> pending[k] < issued && k == NatToString(WrapU64(pending[k]))
  }

  /** Until the counter wraps, the next key is not yet in the pending table. */
  lemma NextKeyIsFresh(pending: map<string, nat>, issued: nat)
    requires KeysOfIssued(pending, issued)
    requires issued < U64Modulus
    ensures NatToString(issued) !in pending
  {
    forall k | k in pending
      ensures k != NatToString(issued)
    {
      assert WrapU64(pending[k]) == pending[k] != issued;
      NatToStringDistinct(pending[k], issued);
    }
  }

  /** Parking request `issued` under its key keeps the invariant. */
  lemma KeysOfIssuedExtend(pending: map<string, nat>, issued: nat)
    requires KeysOfIssued(pending, issued)
    ensures KeysOfIssued(pending[NatToString(WrapU64(issued)) := issued], issued + 1)
  {
  }

  /** Two entries never share a request: the key is a function of the request number. */
  lemma KeysOfIssuedInjective(pending: map<string, nat>, issued: nat, k1: string, k2: string)
    requires KeysOfIssued(pending, issued)
    requires k1 in pending && k2 in pending && pending[k1] == pending[k2]
    ensures k1 == k2
  {
  }

  /**
   * One response handled by the response loop: a response whose echo names
   * a pending key takes that entry out and is sent on its channel, which
   * holds it only while its caller still waits; any other response changes
   * nothing.
   */
  function Settle(pending: map<string, nat>, inbox: map<nat, Json>, waiting: set<nat>, res: Json)
    : (r: (map<string, nat>, map<nat, Json>))
    ensures EchoKey(res).None? || EchoKey(res).value !in pending ==> r == (pending, inbox)
    ensures EchoKey(res).Some? ==> EchoKey(res).value !in r.0
    ensures forall k :: k in r.0 <==> k in pending && Some(k) != EchoKey(res)
    ensures forall k :: k in r.0 ==> r.0[k] == pending[k]
    ensures forall n :: n in r.1 && (n !in inbox || r.1[n] != inbox[n]) ==>
              n in waiting && EchoKey(res).Some? && EchoKey(res).value in pending
              && pending[EchoKey(res).value] == n && r.1[n] == res
    ensures inbox.Keys <= r.1.Keys
    ensures forall n :: n in inbox && n !in pending.Values ==> r.1[n] == inbox[n]
    ensures EchoKey(res).Some? && EchoKey(res).value in pending && pending[EchoKey(res).value] in waiting ==>
              pending[EchoKey(res).value] in r.1 && r.1[pending[EchoKey(res).value]] == res
  {
    match EchoKey(res)
    case None => (pending, inbox)
    case Some(k) =>
      if k !in pending then (pending, inbox)
      else
        var n := pending[k];
        (pending - {k}, if n in waiting then inbox[n := res] else inbox)
  }

  /** A response is taken at most once: handling it again changes nothing. */
  lemma SettleOnce(pending: map<string, nat>, inbox: map<nat, Json>, waiting: set<nat>, res: Json)
    ensures var r := Settle(pending, inbox, waiting, res);
            Settle(r.0, r.1, waiting, res) == r
  {
  }

  /** Every response in `responses` settled in turn, oldest first. */
  function SettleAll(pending: map<string, nat>, inbox: map<nat, Json>, waiting: set<nat>, responses: seq<Json>)
    : (map<string, nat>, map<nat, Json>)
    decreases |responses|
  {
    if responses == [] then (pending, inbox)
    else
      var (p, i) := Settle(pending, inbox, waiting, responses[0]);
      SettleAll(p, i, waiting, responses[1..])
  }

  /**
   * `passes` passes of the response loop on a port at `cursor` over the
   * action hub's log: each `recv` as `Deliver` gives it, a lag skipped and
   * a response settled. The result is the new table, the new channel
   * contents and the final cursor.
   */
  function ResponseLoop(log: seq<Json>, cursor: nat, passes: nat,
                        pending: map<string, nat>, inbox: map<nat, Json>, waiting: set<nat>)
    : (map<string, nat>, map<nat, Json>, nat)
    requires cursor <= |log|
    decreases passes
  {
    if passes == 0 then (pending, inbox, cursor)
    else
      var (r, next) := Deliver(log, cursor);
      var (p, i) := if r.Received? then Settle(pending, inbox, waiting, r.value) else (pending, inbox);
      ResponseLoop(log, next, passes - 1, p, i, waiting)
  }

  /**
   * A response loop at most `Capacity` behind that runs at least once per
   * unread response settles every one of them, in order, and catches up
   * with the tail.
   */
  lemma {:induction false} ResponseLoopSettlesAll(log: seq<Json>, cursor: nat, passes: nat,
                                                  pending: map<string, nat>, inbox: map<nat, Json>, waiting: set<nat>)
    requires cursor <= |log| && |log| - cursor <= Capacity && passes >= |log| - cursor
    ensures var s := SettleAll(pending, inbox, waiting, log[cursor..]);
            ResponseLoop(log, cursor, passes, pending, inbox, waiting) == (s.0, s.1, |log|)
    decreases passes
  {
    if cursor == |log| {
      if passes > 0 {
        ResponseLoopSettlesAll(log, cursor, passes - 1, pending, inbox, waiting);
      }
    } else {
      var (p, i) := Settle(pending, inbox, waiting, log[cursor]);
      ResponseLoopSettlesAll(log, cursor + 1, passes - 1, p, i, waiting);
      assert log[cursor..][1..] == log[cursor + 1..];
    }
  }

  class ActionManager {
    /** The port on the action hub: requests go out on its queue, responses come in on its broadcast. */
    const wsPort: SignalPort<Json>
    /** `pending_requestions`: echo key to the number of the request whose channel sender it holds. */
    var pending: map<string, nat>
    /** `pending_atomic`: the next key, a 64-bit counter that wraps. */
    var counter: U64
    /** How many requests were issued; request `n` is the `n`-th one. */
    var issued: nat
    /** The requests whose caller is still waiting on its channel. */
    var waiting: set<nat>
    /** The responses sent on a waiting request's channel and not yet taken. */
    var inbox: map<nat, Json>

    ghost predicate Valid()
      reads this, wsPort, wsPort.hub
    {
      && wsPort.Valid()
      && counter == WrapU64(issued)
      && KeysOfIssued(pending, issued)
      && inbox.Keys <= waiting
      && pending.Values !! inbox.Keys
      && (forall n :: n in waiting ==> n < issued)
    }

    /** `ActionManager::new`: an empty table and the counter at 0. */
    constructor (wsPort: SignalPort<Json>)
      requires wsPort.Valid()
      ensures Valid()
      ensures this.wsPort == wsPort
      ensures pending == map[] && counter == 0 && issued == 0 && waiting == {} && inbox == map[]
    {
      this.wsPort := wsPort;
      pending, counter, issued, waiting, inbox := map[], 0, 0, {}, map[];
    }

    /**
     * The first half of `request`: take the next key (the counter wraps),
     * stamp it into the echo, send the request on the action port, then
     * park the request's channel under the key. Until the counter wraps the
     * key is fresh, so no earlier request's channel is displaced.
     */
    method Issue(data: NapcatRequestData) returns (n: nat, key: string, payload: Json)
      requires Valid()
      modifies this, wsPort.hub`queue
      ensures Valid()
      ensures n == old(issued) && issued == n + 1
      ensures key == NatToString(old(counter)) && counter == WrapU64(old(counter) + 1)
      ensures payload == ToValue(WithEcho(data, key)) && EchoKey(payload) == Some(key)
      ensures wsPort.hub.queue == old(wsPort.hub.queue) + [payload]
      ensures pending == old(pending)[key := n]
      ensures old(issued) < U64Modulus ==> key !in old(pending)
      ensures waiting == old(waiting) + {n} && inbox == old(inbox)
    {
      if issued < U64Modulus {
        NextKeyIsFresh(pending, issued);
      }
      KeysOfIssuedExtend(pending, issued);
      WrapU64Succ(issued);
      key := NatToString(counter);
      counter := WrapU64(counter + 1);
      payload := ToValue(WithEcho(data, key));
      wsPort.Send(payload);
      n := issued;
      pending := pending[key := n];
      waiting := waiting + {n};
      issued := issued + 1;
    }

    /**
     * The second half of `request`: the response if one arrived on the
     * channel, and the time-out error otherwise. The pending entry is not
     * removed on time-out.
     */
    method Await(n: nat) returns (r: Result<Json, string>)
      requires Valid() && n in waiting
      modifies this`waiting, this`inbox
      ensures Valid()
      ensures r == if n in old(inbox) then Ok(old(inbox)[n]) else Err(TimeOutError)
      ensures waiting == old(waiting) - {n} && inbox == old(inbox) - {n}
    {
      if n in inbox {
        r := Ok(inbox[n]);
      } else {
        r := Err(TimeOutError);
      }
      waiting := waiting - {n};
      inbox := inbox - {n};
    }

    /**
     * One pass of the response loop: a lag error is skipped; a response is
     * settled against the pending table.
     */
    method HandleResponse() returns (r: RecvResult<Json>)
      requires Valid()
      modifies this`pending, this`inbox, wsPort`cursor
      ensures Valid()
      ensures (r, wsPort.cursor) == Deliver(wsPort.hub.log, old(wsPort.cursor))
      ensures r.Received? ==> (pending, inbox) == Settle(old(pending), old(inbox), waiting, r.value)
      ensures !r.Received? ==> pending == old(pending) && inbox == old(inbox)
    {
      r := wsPort.Recv();
      if r.Received? {
        var settled := Settle(pending, inbox, waiting, r.value);
        pending, inbox := settled.0, settled.1;
      }
    }

    /**
     * `run`: the response loop, here for a given number of passes. The
     * table, the channels and the port's cursor end as `ResponseLoop` says;
     * the pending table only shrinks and a response, once on a channel,
     * stays there until its caller takes it.
     */
    method Run(passes: nat)
      requires Valid()
      modifies this`pending, this`inbox, wsPort`cursor
      ensures Valid()
      ensures pending.Keys <= old(pending).Keys
      ensures forall k :: k in pending ==> pending[k] == old(pending)[k]
      ensures forall n :: n in old(inbox) ==> n in inbox && inbox[n] == old(inbox)[n]
      ensures (pending, inbox, wsPort.cursor) ==
              ResponseLoop(wsPort.hub.log, old(wsPort.cursor), passes, old(pending), old(inbox), waiting)
    {
      var i := 0;
      while i < passes
        invariant i <= passes
        invariant Valid()
        invariant ResponseLoop(wsPort.hub.log, old(wsPort.cursor), passes, old(pending), old(inbox), waiting) ==
                  ResponseLoop(wsPort.hub.log, wsPort.cursor, passes - i, pending, inbox, waiting)
        invariant pending.Keys <= old(pending).Keys
        invariant forall k :: k in pending ==> pending[k] == old(pending)[k]
        invariant forall n :: n in old(inbox) ==> n in inbox && inbox[n] == old(inbox)[n]
      {
        var _ := HandleResponse();
        i := i + 1;
      }
    }
  }
}
