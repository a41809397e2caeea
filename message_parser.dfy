/**
 * Outgoing message bodies: a `Message` is a sequence of segments, built by
 * appending one segment per builder call, and serialised as a bare array of
 * adjacently tagged objects `{"type": <tag>, "data": {...}}`.
 */
module MessageParser {
  import opened Wrappers
  import opened Ints
  import opened Json

  /** The untagged payload of a music segment: a built-in track or a custom card. */
  datatype MusicData =
    | BuiltIn(kind: string, id: string)
    | Custom(kind: string, url: string, audio: string, title: string, image: Option<string>)

  /** One segment; `JsonCard` is the variant the source names `Json` (tag "json"). */
  datatype MessageSegment =
    | Text(text: string)
    | At(qq: string)
    | Image(file: string)
    | Face(id: I32)
    | JsonCard(data: string)
    | Record(file: string)
    | Video(file: string)
    | Reply(id: I32)
    | Dice
    | Rps
    | File(file: string)
    | Music(music: MusicData)

  /** A message body; serialised transparently as its segment array. */
  datatype Message = Message(segments: seq<MessageSegment>)

  // ---- builders --------------------------------------------------------

  function New(): (m: Message)
    ensures m.segments == []
  {
    Message([])
  }

  /** Appending `s`: one more segment at the end, the earlier ones untouched. */
  predicate Appended(m: Message, r: Message, s: MessageSegment) {
    |r.segments| == |m.segments| + 1 && r.segments[..|m.segments|] == m.segments &&
    r.segments[|m.segments|] == s
  }

  function WithText(m: Message, text: string): (r: Message)
    ensures Appended(m, r, Text(text))
  {
    Message(m.segments + [Text(text)])
  }

  function WithAt(m: Message, qq: string): (r: Message)
    ensures Appended(m, r, At(qq))
  {
    Message(m.segments + [At(qq)])
  }

  function WithImage(m: Message, file: string): (r: Message)
    ensures Appended(m, r, Image(file))
  {
    Message(m.segments + [Image(file)])
  }

  function WithFace(m: Message, id: I32): (r: Message)
    ensures Appended(m, r, Face(id))
  {
    Message(m.segments + [Face(id)])
  }

  function WithReply(m: Message, messageId: I32): (r: Message)
    ensures Appended(m, r, Reply(messageId))
  {
    Message(m.segments + [Reply(messageId)])
  }

  function WithRecord(m: Message, file: string): (r: Message)
    ensures Appended(m, r, Record(file))
  {
    Message(m.segments + [Record(file)])
  }

  function WithVideo(m: Message, file: string): (r: Message)
    ensures Appended(m, r, Video(file))
  {
    Message(m.segments + [Video(file)])
  }

  function WithDice(m: Message): (r: Message)
    ensures Appended(m, r, Dice)
  {
    Message(m.segments + [Dice])
  }

  function WithRps(m: Message): (r: Message)
    ensures Appended(m, r, Rps)
  {
    Message(m.segments + [Rps])
  }

  function WithFile(m: Message, path: string): (r: Message)
    ensures Appended(m, r, File(path))
  {
    Message(m.segments + [File(path)])
  }

  // ---- serialisation -----------------------------------------------------

  /** The renamed tag of each variant. */
  function TagName(s: MessageSegment): string {
    match s
    case Text(_) => "text"
    case At(_) => "at"
    case Image(_) => "image"
    case Face(_) => "face"
    case JsonCard(_) => "json"
    case Record(_) => "record"
    case Video(_) => "video"
    case Reply(_) => "reply"
    case Dice => "dice"
    case Rps => "rps"
    case File(_) => "file"
    case Music(_) => "music"
  }

  function EncodeMusic(m: MusicData): Json {
    match m
    case BuiltIn(kind, id) => Obj(map["type" := Str(kind), "id" := Str(id)])
    case Custom(kind, url, audio, title, image) =>
      Obj(map["type" := Str(kind), "url" := Str(url), "audio" := Str(audio), "title" := Str(title),
              "image" := (if image.Some? then Str(image.value) else Null)])
  }

  function EncodeData(s: MessageSegment): Json {
    match s
    case Text(t) => Obj(map["text" := Str(t)])
    case At(qq) => Obj(map["qq" := Str(qq)])
    case Image(f) => Obj(map["file" := Str(f)])
    case Face(id) => Obj(map["id" := Number(id)])
    case JsonCard(d) => Obj(map["data" := Str(d)])
    case Record(f) => Obj(map["file" := Str(f)])
    case Video(f) => Obj(map["file" := Str(f)])
    case Reply(id) => Obj(map["id" := Number(id)])
    case Dice => Obj(map[])
    case Rps => Obj(map[])
    case File(f) => Obj(map["file" := Str(f)])
    case Music(m) => EncodeMusic(m)
  }

  /** A segment serialises as an object with exactly the keys "type" and "data". */
  function EncodeSegment(s: MessageSegment): (v: Json)
    ensures v.Obj? && v.fields.Keys == {"type", "data"}
    ensures v.fields["type"] == Str(TagName(s))
  {
    Obj(map["type" := Str(TagName(s)), "data" := EncodeData(s)])
  }

  /** The untagged music payload: the built-in shape is tried first, then the custom one. */
  function DecodeMusic(v: Json): Result<MusicData, DecodeError> {
    if !v.Obj? then Err(NotAnObject)
    else
      var f := v.fields;
      match (StrField(f, "type"), StrField(f, "id"))
      case (Ok(kind), Ok(id)) => Ok(BuiltIn(kind, id))
      case _ =>
        match (StrField(f, "type"), StrField(f, "url"), StrField(f, "audio"), StrField(f, "title"), OptStrField(f, "image"))
        case (Ok(kind), Ok(url), Ok(audio), Ok(title), Ok(image)) => Ok(Custom(kind, url, audio, title, image))
        case _ => Err(InvalidType("music"))
  }

  /** The struct content of a variant; serde's sequence form of a struct is not modelled. */
  function DecodeData(tag: string, data: Json): Result<MessageSegment, DecodeError> {
    if tag == "music" then
      match DecodeMusic(data)
      case Ok(m) => Ok(Music(m))
      case Err(e) => Err(e)
    else if !data.Obj? then Err(NotAnObject)
    else
      var f := data.fields;
      if tag == "text" then (match StrField(f, "text") case Ok(t) => Ok(Text(t)) case Err(e) => Err(e))
      else if tag == "at" then (match StrField(f, "qq") case Ok(q) => Ok(At(q)) case Err(e) => Err(e))
      else if tag == "image" then (match StrField(f, "file") case Ok(x) => Ok(Image(x)) case Err(e) => Err(e))
      else if tag == "face" then (match I32Field(f, "id") case Ok(i) => Ok(Face(i)) case Err(e) => Err(e))
      else if tag == "json" then (match StrField(f, "data") case Ok(d) => Ok(JsonCard(d)) case Err(e) => Err(e))
      else if tag == "record" then (match StrField(f, "file") case Ok(x) => Ok(Record(x)) case Err(e) => Err(e))
      else if tag == "video" then (match StrField(f, "file") case Ok(x) => Ok(Video(x)) case Err(e) => Err(e))
      else if tag == "reply" then (match I32Field(f, "id") case Ok(i) => Ok(Reply(i)) case Err(e) => Err(e))
      else if tag == "dice" then Ok(Dice)
      else if tag == "rps" then Ok(Rps)
      else if tag == "file" then (match StrField(f, "file") case Ok(x) => Ok(File(x)) case Err(e) => Err(e))
      else Err(UnknownVariant(tag))
  }

  /** Adjacently tagged decoding: the "type" string picks the variant, "data" holds its content. */
  function DecodeSegment(v: Json): (r: Result<MessageSegment, DecodeError>)
    ensures r.Ok? ==> Tag(v, "type") == Ok(TagName(r.value))
  {
    match Tag(v, "type")
    case Err(e) => Err(e)
    case Ok(tag) =>
      match Field(v.fields, "data")
      case Err(e) => Err(e)
      case Ok(data) =>
        var r := DecodeData(tag, data);
        assert r.Ok? ==> tag == TagName(r.value) by {
          if r.Ok? && tag == "music" { assert r.value.Music?; }
        }
        r
  }

  function EncodeSegments(segs: seq<MessageSegment>): (items: seq<Json>)
    ensures |items| == |segs|
  {
    if segs == [] then [] else [EncodeSegment(segs[0])] + EncodeSegments(segs[1..])
  }

  function DecodeSegments(items: seq<Json>): Result<seq<MessageSegment>, DecodeError> {
    if items == [] then Ok([])
    else
      match DecodeSegment(items[0])
      case Err(e) => Err(e)
      case Ok(s) =>
        match DecodeSegments(items[1..])
        case Err(e) => Err(e)
        case Ok(rest) => Ok([s] + rest)
  }

  /** A `Message` serialises as the bare array of its segments (`#[serde(transparent)]`). */
  function EncodeMessage(m: Message): (v: Json)
    ensures v.Arr? && |v.items| == |m.segments|
  {
    Arr(EncodeSegments(m.segments))
  }

  function DecodeMessage(v: Json): Result<Message, DecodeError> {
    if !v.Arr? then Err(InvalidType("message"))
    else
      match DecodeSegments(v.items)
      case Err(e) => Err(e)
      case Ok(segs) => Ok(Message(segs))
  }

  // ---- round trips -------------------------------------------------------

  lemma MusicRoundTrip(m: MusicData)
    ensures DecodeMusic(EncodeMusic(m)) == Ok(m)
  {
    match m
    case BuiltIn(_, _) =>
    case Custom(kind, url, audio, title, image) =>
      var f := EncodeMusic(m).fields;
      assert "id" !in f;
  }

  /** Every segment decodes back to itself. */
  lemma SegmentRoundTrip(s: MessageSegment)
    ensures DecodeSegment(EncodeSegment(s)) == Ok(s)
  {
    if s.Music? {
      MusicRoundTrip(s.music);
    }
  }

  lemma {:induction false} SegmentsRoundTrip(segs: seq<MessageSegment>)
    ensures DecodeSegments(EncodeSegments(segs)) == Ok(segs)
  {
    if segs != [] {
      SegmentRoundTrip(segs[0]);
      SegmentsRoundTrip(segs[1..]);
      assert EncodeSegments(segs)[1..] == EncodeSegments(segs[1..]);
      assert [segs[0]] + segs[1..] == segs;
    }
  }

  /** Encoding a message and decoding it again gives back the same segment sequence. */
  lemma MessageRoundTrip(m: Message)
    ensures DecodeMessage(EncodeMessage(m)) == Ok(m)
  {
    SegmentsRoundTrip(m.segments);
  }

  /** The encoded array holds each segment's encoding at the same position. */
  lemma {:induction false} EncodeSegmentsAt(segs: seq<MessageSegment>, i: nat)
    requires i < |segs|
    ensures EncodeSegments(segs)[i] == EncodeSegment(segs[i])
  {
    if i > 0 {
      EncodeSegmentsAt(segs[1..], i - 1);
    }
  }

  /** A builder call adds exactly one element, its segment's encoding, at the end of the array. */
  lemma EncodeAppended(m: Message, r: Message, s: MessageSegment)
    requires Appended(m, r, s)
    ensures EncodeMessage(r).items == EncodeMessage(m).items + [EncodeSegment(s)]
  {
    var a := EncodeMessage(r).items;
    var b := EncodeMessage(m).items + [EncodeSegment(s)];
    forall i | 0 <= i < |a| ensures a[i] == b[i] {
      EncodeSegmentsAt(r.segments, i);
      if i < |m.segments| {
        EncodeSegmentsAt(m.segments, i);
      }
    }
  }
}
