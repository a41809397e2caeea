/**
 * The older event taxonomy: the same message and meta structures, but no
 * `Notice` variant, so a "notice" event decodes to `Other` here.
 */
module EventParser {
  import opened Wrappers
  import opened Json
  import EventType

  datatype AnyEvent =
    | Message(msg: EventType.MessageEvent)
    | Meta(meta: EventType.MetaEvent)
    | Other

  /**
   * Only "message" and "meta_event" are recognised; every other "post_type"
   * string, "notice" included, selects `Other`.
   */
  function DecodeAnyEvent(v: Json): (r: Result<AnyEvent, DecodeError>)
    ensures Tag(v, "post_type").Err? ==> r.Err?
    ensures Tag(v, "post_type").Ok? && Tag(v, "post_type").value !in {"message", "meta_event"} ==>
      r == Ok(Other)
    ensures r.Ok? && r.value.Message? ==> Tag(v, "post_type") == Ok("message")
    ensures r.Ok? && r.value.Meta? ==> Tag(v, "post_type") == Ok("meta_event")
    ensures r.Ok? && r.value.Other? ==> Tag(v, "post_type").value !in {"message", "meta_event"}
  {
    var tag :- Tag(v, "post_type");
    if tag == "message" then
      var m :- EventType.DecodeMessageEvent(v);
      Ok(Message(m))
    else if tag == "meta_event" then
      var m :- EventType.DecodeMetaEvent(v);
      Ok(Meta(m))
    else Ok(Other)
  }

  /** The newer taxonomy seen through the older one, where a notice has no variant of its own. */
  function FromCurrent(e: EventType.AnyEvent): (r: AnyEvent)
    ensures e.Message? <==> r.Message?
    ensures e.Meta? <==> r.Meta?
    ensures r.Message? ==> r.msg == e.msg
    ensures r.Meta? ==> r.meta == e.meta
  {
    match e
    case Message(m) => Message(m)
    case Meta(m) => Meta(m)
    case Notice(_) => Other
    case Other => Other
  }

  /**
   * The two decoders agree on everything but notices: a "notice" always
   * decodes to `Other` here, even where the newer decoder rejects its fields.
   */
  lemma AgreesWithCurrent(v: Json)
    ensures Tag(v, "post_type") == Ok("notice") ==> DecodeAnyEvent(v) == Ok(Other)
    ensures Tag(v, "post_type") != Ok("notice") ==>
      match EventType.DecodeAnyEvent(v)
      case Ok(e) => DecodeAnyEvent(v) == Ok(FromCurrent(e))
      case Err(_) => DecodeAnyEvent(v).Err?
  {
  }
}
