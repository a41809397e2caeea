/**
 * The typed event taxonomy the gateway pushes, decoded from JSON by a
 * top-level "post_type" discriminator and nested "message_type" and
 * "meta_event_type" discriminators. Only the top level has a catch-all
 * (`Other`); an unknown nested discriminator fails to decode.
 */
module EventType {
  import opened Wrappers
  import opened Ints
  import opened Json
  import MessageParser

  datatype SenderInfo = SenderInfo(userId: I64, nickname: string, card: string)

  datatype PrivateMessageEvent = PrivateMessageEvent(
    messageId: I64, selfId: I64, time: I64, rawMessage: string,
    sender: SenderInfo, message: seq<MessageParser.MessageSegment>)

  datatype GroupMessageEvent = GroupMessageEvent(
    groupId: I64, messageId: I64, selfId: I64, time: I64, groupName: string, rawMessage: string,
    sender: SenderInfo, message: seq<MessageParser.MessageSegment>)

  /** The fields every message event shares. */
  datatype BaseMessageEvent = BaseMessageEvent(
    messageId: I64, selfId: I64, time: I64, rawMessage: string,
    sender: SenderInfo, message: seq<MessageParser.MessageSegment>)

  datatype MessageEvent = Group(group: GroupMessageEvent) | Private(private: PrivateMessageEvent)

  datatype LifeCycleEvent = LifeCycleEvent(selfId: I64, subType: string, time: I64)

  datatype HeartBeatStatus = HeartBeatStatus(good: bool, online: bool)

  datatype HeartBeatEvent = HeartBeatEvent(interval: I64, selfId: I64, status: HeartBeatStatus, time: I64)

  datatype MetaEvent = LifeCycle(lifeCycle: LifeCycleEvent) | HeartBeat(heartBeat: HeartBeatEvent)

  datatype NoticeEvent = NoticeEvent(
    groupId: U64, noticeType: string, selfId: U64, statusText: string, time: U64, userId: U64)

  datatype AnyEvent =
    | Message(msg: MessageEvent)
    | Meta(meta: MetaEvent)
    | Notice(notice: NoticeEvent)
    | Other

  // ---- From conversions ---------------------------------------------------

  /** `From<PrivateMessageEvent> for MessageEvent`. */
  function FromPrivate(p: PrivateMessageEvent): (r: MessageEvent)
    ensures r.Private? && r.private == p
  {
    Private(p)
  }

  /** `From<GroupMessageEvent> for MessageEvent`. */
  function FromGroup(g: GroupMessageEvent): (r: MessageEvent)
    ensures r.Group? && r.group == g
  {
    Group(g)
  }

  /** `From<PrivateMessageEvent> for BaseMessageEvent`: all six fields carried over. */
  function PrivateToBase(p: PrivateMessageEvent): (b: BaseMessageEvent)
    ensures b.messageId == p.messageId && b.selfId == p.selfId && b.time == p.time
    ensures b.rawMessage == p.rawMessage && b.sender == p.sender && b.message == p.message
  {
    BaseMessageEvent(p.messageId, p.selfId, p.time, p.rawMessage, p.sender, p.message)
  }

  /** `From<GroupMessageEvent> for BaseMessageEvent`: the shared six fields; the group id and name are dropped. */
  function GroupToBase(g: GroupMessageEvent): (b: BaseMessageEvent)
    ensures b.messageId == g.messageId && b.selfId == g.selfId && b.time == g.time
    ensures b.rawMessage == g.rawMessage && b.sender == g.sender && b.message == g.message
  {
    BaseMessageEvent(g.messageId, g.selfId, g.time, g.rawMessage, g.sender, g.message)
  }

  /** The private conversion loses nothing: the base determines the private event. */
  lemma PrivateToBaseInjective(p: PrivateMessageEvent, q: PrivateMessageEvent)
    requires PrivateToBase(p) == PrivateToBase(q)
    ensures p == q
  {
  }

  /** The group conversion forgets exactly the group id and name. */
  lemma GroupToBaseForgetsGroup(g: GroupMessageEvent, h: GroupMessageEvent)
    ensures GroupToBase(g) == GroupToBase(h) <==> g.(groupId := h.groupId, groupName := h.groupName) == h
  {
  }

  // ---- encoding (the derived serialiser) ----------------------------------

  function EncodeSender(s: SenderInfo): Json {
    Obj(map["user_id" := Number(s.userId), "nickname" := Str(s.nickname), "card" := Str(s.card)])
  }

  function EncodeSegmentArray(segs: seq<MessageParser.MessageSegment>): Json {
    MessageParser.EncodeMessage(MessageParser.Message(segs))
  }

  function PrivateFields(p: PrivateMessageEvent): map<string, Json> {
    map["message_id" := Number(p.messageId), "self_id" := Number(p.selfId), "time" := Number(p.time),
        "raw_message" := Str(p.rawMessage), "sender" := EncodeSender(p.sender),
        "message" := EncodeSegmentArray(p.message)]
  }

  function GroupFields(g: GroupMessageEvent): map<string, Json> {
    map["group_id" := Number(g.groupId), "message_id" := Number(g.messageId), "self_id" := Number(g.selfId),
        "time" := Number(g.time), "group_name" := Str(g.groupName), "raw_message" := Str(g.rawMessage),
        "sender" := EncodeSender(g.sender), "message" := EncodeSegmentArray(g.message)]
  }

  function EncodeMessageEvent(m: MessageEvent): map<string, Json> {
    match m
    case Group(g) => GroupFields(g)["message_type" := Str("group")]
    case Private(p) => PrivateFields(p)["message_type" := Str("private")]
  }

  function EncodeMetaEvent(m: MetaEvent): map<string, Json> {
    match m
    case LifeCycle(l) =>
      map["self_id" := Number(l.selfId), "sub_type" := Str(l.subType), "time" := Number(l.time),
          "meta_event_type" := Str("lifecycle")]
    case HeartBeat(h) =>
      map["interval" := Number(h.interval), "self_id" := Number(h.selfId),
          "status" := Obj(map["good" := Bool(h.status.good), "online" := Bool(h.status.online)]),
          "time" := Number(h.time), "meta_event_type" := Str("heartbeat")]
  }

  function NoticeFields(n: NoticeEvent): map<string, Json> {
    map["group_id" := Number(n.groupId), "notice_type" := Str(n.noticeType), "self_id" := Number(n.selfId),
        "status_text" := Str(n.statusText), "time" := Number(n.time), "user_id" := Number(n.userId)]
  }

  /** The internally tagged form: the variant's fields plus its "post_type". */
  function EncodeAnyEvent(e: AnyEvent): Json {
    match e
    case Message(m) => Obj(EncodeMessageEvent(m)["post_type" := Str("message")])
    case Meta(m) => Obj(EncodeMetaEvent(m)["post_type" := Str("meta_event")])
    case Notice(n) => Obj(NoticeFields(n)["post_type" := Str("notice")])
    case Other => Obj(map["post_type" := Str("Other")])
  }

  // ---- decoding (the derived deserialiser) --------------------------------

  function DecodeSender(v: Json): Result<SenderInfo, DecodeError> {
    if !v.Obj? then Err(NotAnObject)
    else
      var userId :- I64Field(v.fields, "user_id");
      var nickname :- StrField(v.fields, "nickname");
      var card :- StrField(v.fields, "card");
      Ok(SenderInfo(userId, nickname, card))
  }

  function DecodeSegmentArray(f: map<string, Json>, name: string): Result<seq<MessageParser.MessageSegment>, DecodeError> {
    var v :- Field(f, name);
    var m :- MessageParser.DecodeMessage(v);
    Ok(m.segments)
  }

  function DecodePrivate(f: map<string, Json>): Result<PrivateMessageEvent, DecodeError> {
    var messageId :- I64Field(f, "message_id");
    var selfId :- I64Field(f, "self_id");
    var time :- I64Field(f, "time");
    var rawMessage :- StrField(f, "raw_message");
    var senderJson :- Field(f, "sender");
    var sender :- DecodeSender(senderJson);
    var message :- DecodeSegmentArray(f, "message");
    Ok(PrivateMessageEvent(messageId, selfId, time, rawMessage, sender, message))
  }

  function DecodeGroup(f: map<string, Json>): Result<GroupMessageEvent, DecodeError> {
    var groupId :- I64Field(f, "group_id");
    var messageId :- I64Field(f, "message_id");
    var selfId :- I64Field(f, "self_id");
    var time :- I64Field(f, "time");
    var groupName :- StrField(f, "group_name");
    var rawMessage :- StrField(f, "raw_message");
    var senderJson :- Field(f, "sender");
    var sender :- DecodeSender(senderJson);
    var message :- DecodeSegmentArray(f, "message");
    Ok(GroupMessageEvent(groupId, messageId, selfId, time, groupName, rawMessage, sender, message))
  }

  /** "message_type" must be "group" or "private"; there is no fallback. */
  function DecodeMessageEvent(v: Json): (r: Result<MessageEvent, DecodeError>)
    ensures r.Ok? ==> Tag(v, "message_type") == Ok(if r.value.Group? then "group" else "private")
  {
    var tag :- Tag(v, "message_type");
    if tag == "group" then
      var g :- DecodeGroup(v.fields);
      Ok(Group(g))
    else if tag == "private" then
      var p :- DecodePrivate(v.fields);
      Ok(Private(p))
    else Err(UnknownVariant(tag))
  }

  function DecodeLifeCycle(f: map<string, Json>): Result<LifeCycleEvent, DecodeError> {
    var selfId :- I64Field(f, "self_id");
    var subType :- StrField(f, "sub_type");
    var time :- I64Field(f, "time");
    Ok(LifeCycleEvent(selfId, subType, time))
  }

  function DecodeStatus(v: Json): Result<HeartBeatStatus, DecodeError> {
    if !v.Obj? then Err(NotAnObject)
    else
      var good :- BoolField(v.fields, "good");
      var online :- BoolField(v.fields, "online");
      Ok(HeartBeatStatus(good, online))
  }

  /** A heartbeat needs a "status" object carrying boolean "good" and "online". */
  function DecodeHeartBeat(f: map<string, Json>): (r: Result<HeartBeatEvent, DecodeError>)
    ensures r.Ok? ==> "status" in f && f["status"].Obj?
    ensures r.Ok? ==> BoolField(f["status"].fields, "good") == Ok(r.value.status.good)
    ensures r.Ok? ==> BoolField(f["status"].fields, "online") == Ok(r.value.status.online)
  {
    var interval :- I64Field(f, "interval");
    var selfId :- I64Field(f, "self_id");
    var statusJson :- Field(f, "status");
    var status :- DecodeStatus(statusJson);
    var time :- I64Field(f, "time");
    Ok(HeartBeatEvent(interval, selfId, status, time))
  }

  /** "meta_event_type" must be "lifecycle" or "heartbeat"; there is no fallback. */
  function DecodeMetaEvent(v: Json): (r: Result<MetaEvent, DecodeError>)
    ensures r.Ok? ==> Tag(v, "meta_event_type") == Ok(if r.value.LifeCycle? then "lifecycle" else "heartbeat")
  {
    var tag :- Tag(v, "meta_event_type");
    if tag == "lifecycle" then
      var l :- DecodeLifeCycle(v.fields);
      Ok(LifeCycle(l))
    else if tag == "heartbeat" then
      var h :- DecodeHeartBeat(v.fields);
      Ok(HeartBeat(h))
    else Err(UnknownVariant(tag))
  }

  function DecodeNotice(f: map<string, Json>): Result<NoticeEvent, DecodeError> {
    var groupId :- U64Field(f, "group_id");
    var noticeType :- StrField(f, "notice_type");
    var selfId :- U64Field(f, "self_id");
    var statusText :- StrField(f, "status_text");
    var time :- U64Field(f, "time");
    var userId :- U64Field(f, "user_id");
    Ok(NoticeEvent(groupId, noticeType, selfId, statusText, time, userId))
  }

  /** The tag of each top-level variant as it appears in "post_type". */
  function PostType(e: AnyEvent): string {
    match e
    case Message(_) => "message"
    case Meta(_) => "meta_event"
    case Notice(_) => "notice"
    case Other => "Other"
  }

  /**
   * `serde_json::from_value::<AnyEvent>`: "message", "meta_event" and
   * "notice" select their variant; any other string selects `Other`.
   */
  function DecodeAnyEvent(v: Json): (r: Result<AnyEvent, DecodeError>)
    ensures Tag(v, "post_type").Err? ==> r.Err?
    ensures Tag(v, "post_type").Ok? && Tag(v, "post_type").value !in {"message", "meta_event", "notice"} ==>
      r == Ok(Other)
    ensures r.Ok? && !r.value.Other? ==> Tag(v, "post_type") == Ok(PostType(r.value))
    ensures r.Ok? && r.value.Other? ==> Tag(v, "post_type").value !in {"message", "meta_event", "notice"}
  {
    var tag :- Tag(v, "post_type");
    if tag == "message" then
      var m :- DecodeMessageEvent(v);
      Ok(Message(m))
    else if tag == "meta_event" then
      var m :- DecodeMetaEvent(v);
      Ok(Meta(m))
    else if tag == "notice" then
      var n :- DecodeNotice(v.fields);
      Ok(Notice(n))
    else Ok(Other)
  }

  /** Inside a message, an unrecognised "message_type" is an error, never `Other`. */
  lemma UnknownMessageTypeFails(v: Json)
    requires Tag(v, "post_type") == Ok("message")
    requires Tag(v, "message_type").Ok? && Tag(v, "message_type").value !in {"group", "private"}
    ensures DecodeAnyEvent(v).Err?
  {
  }

  /** Inside a meta event, an unrecognised "meta_event_type" is an error, never `Other`. */
  lemma UnknownMetaTypeFails(v: Json)
    requires Tag(v, "post_type") == Ok("meta_event")
    requires Tag(v, "meta_event_type").Ok? && Tag(v, "meta_event_type").value !in {"lifecycle", "heartbeat"}
    ensures DecodeAnyEvent(v).Err?
  {
  }

  // ---- round trips ------------------------------------------------------

  lemma SenderRoundTrip(s: SenderInfo)
    ensures DecodeSender(EncodeSender(s)) == Ok(s)
  {
  }

  lemma SegmentArrayRoundTrip(f: map<string, Json>, name: string, segs: seq<MessageParser.MessageSegment>)
    requires name in f && f[name] == EncodeSegmentArray(segs)
    ensures DecodeSegmentArray(f, name) == Ok(segs)
  {
    MessageParser.MessageRoundTrip(MessageParser.Message(segs));
  }

  lemma PrivateRoundTrip(p: PrivateMessageEvent, extra: map<string, Json>)
    requires extra.Keys !! PrivateFields(p).Keys
    ensures DecodePrivate(extra + PrivateFields(p)) == Ok(p)
  {
    var f := extra + PrivateFields(p);
    assert I64Field(f, "message_id") == Ok(p.messageId) && I64Field(f, "self_id") == Ok(p.selfId);
    assert I64Field(f, "time") == Ok(p.time) && StrField(f, "raw_message") == Ok(p.rawMessage);
    assert Field(f, "sender") == Ok(EncodeSender(p.sender));
    SenderRoundTrip(p.sender);
    SegmentArrayRoundTrip(f, "message", p.message);
  }

  lemma GroupRoundTrip(g: GroupMessageEvent, extra: map<string, Json>)
    requires extra.Keys !! GroupFields(g).Keys
    ensures DecodeGroup(extra + GroupFields(g)) == Ok(g)
  {
    var f := extra + GroupFields(g);
    assert I64Field(f, "group_id") == Ok(g.groupId) && I64Field(f, "message_id") == Ok(g.messageId);
    assert I64Field(f, "self_id") == Ok(g.selfId) && I64Field(f, "time") == Ok(g.time);
    assert StrField(f, "group_name") == Ok(g.groupName) && StrField(f, "raw_message") == Ok(g.rawMessage);
    assert Field(f, "sender") == Ok(EncodeSender(g.sender));
    SenderRoundTrip(g.sender);
    SegmentArrayRoundTrip(f, "message", g.message);
  }

  lemma MessageEventRoundTrip(m: MessageEvent, tag: string)
    requires tag !in EncodeMessageEvent(m).Keys
    ensures DecodeMessageEvent(Obj(EncodeMessageEvent(m)[tag := Str(PostType(Message(m)))])) == Ok(m)
  {
    match m
    case Group(g) => GroupEventRoundTrip(g, tag, Str(PostType(Message(m))));
    case Private(p) => PrivateEventRoundTrip(p, tag, Str(PostType(Message(m))));
  }

  lemma GroupEventRoundTrip(g: GroupMessageEvent, tag: string, t: Json)
    requires tag !in EncodeMessageEvent(Group(g)).Keys
    ensures DecodeMessageEvent(Obj(EncodeMessageEvent(Group(g))[tag := t])) == Ok(Group(g))
  {
    var extra := map[tag := t, "message_type" := Str("group")];
    var f := EncodeMessageEvent(Group(g))[tag := t];
    assert f == extra + GroupFields(g);
    assert Tag(Obj(f), "message_type") == Ok("group");
    GroupRoundTrip(g, extra);
  }

  lemma PrivateEventRoundTrip(p: PrivateMessageEvent, tag: string, t: Json)
    requires tag !in EncodeMessageEvent(Private(p)).Keys
    ensures DecodeMessageEvent(Obj(EncodeMessageEvent(Private(p))[tag := t])) == Ok(Private(p))
  {
    var extra := map[tag := t, "message_type" := Str("private")];
    var f := EncodeMessageEvent(Private(p))[tag := t];
    assert f == extra + PrivateFields(p);
    assert Tag(Obj(f), "message_type") == Ok("private");
    PrivateRoundTrip(p, extra);
  }

  lemma MetaEventRoundTrip(m: MetaEvent)
    ensures DecodeMetaEvent(Obj(EncodeMetaEvent(m)["post_type" := Str("meta_event")])) == Ok(m)
  {
    var f := EncodeMetaEvent(m)["post_type" := Str("meta_event")];
    match m
    case LifeCycle(l) =>
      assert DecodeLifeCycle(f) == Ok(l);
    case HeartBeat(h) =>
      assert DecodeStatus(f["status"]) == Ok(h.status);
      assert DecodeHeartBeat(f) == Ok(h);
  }

  lemma NoticeRoundTrip(n: NoticeEvent)
    ensures DecodeNotice(NoticeFields(n)["post_type" := Str("notice")]) == Ok(n)
  {
  }

  /** Encoding an event and decoding it again gives an equal event. */
  lemma AnyEventRoundTrip(e: AnyEvent)
    ensures DecodeAnyEvent(EncodeAnyEvent(e)) == Ok(e)
  {
    var v := EncodeAnyEvent(e);
    assert Tag(v, "post_type") == Ok(PostType(e));
    match e
    case Message(m) =>
      MessageEventRoundTrip(m, "post_type");
    case Meta(m) =>
      MetaEventRoundTrip(m);
    case Notice(n) =>
      NoticeRoundTrip(n);
    case Other =>
  }
}
