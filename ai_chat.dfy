/**
 * The chat plugin without its language model: the mood state and the
 * prompt patch it selects, per-user chat histories bounded to thirty
 * entries, the every-second-reply mood update, the splitting of a reply
 * into one message per ';'-separated piece, and the "/mood" report.
 *
 * The model's replies and mood changes are inputs here.
 */
module AiChat {
  import opened Wrappers
  import opened Ints
  import opened RustStr
  import opened Json
  import opened ActionType
  import MessageParser
  import EventType
  import Action

  // ---------------------------------------------------------------- mood

  /** `AiMoodState`: pleasure, arousal and dominance, each an `i8`. */
  datatype MoodState = MoodState(pleasure: I8, arousal: I8, dominance: I8)

  /** The eight prompt patches. */
  datatype Mood = Neutral | Depressed | Bored | Happy | Excited | Shy | Angry | Arrogant

  /**
   * `select_patch`: anger wins first; then high pleasure splits into shy,
   * excited and happy; low pleasure into depressed and arrogant; middling
   * pleasure into bored and neutral.
   */
  function SelectPatch(s: MoodState): (m: Mood)
    ensures m == Angry <==> s.pleasure < -50 && s.arousal > 30
    ensures m == Shy <==> s.pleasure > 40 && s.dominance < -30
    ensures m == Excited <==> s.pleasure > 40 && s.dominance >= -30 && s.arousal > 50
    ensures m == Happy <==> s.pleasure > 40 && s.dominance >= -30 && s.arousal <= 50
    ensures m == Depressed <==> s.pleasure < -30 && s.arousal < -20
    ensures m == Arrogant <==> s.pleasure < -30 && s.arousal >= -20 && !(s.pleasure < -50 && s.arousal > 30)
    ensures m == Bored <==> -30 <= s.pleasure <= 40 && s.arousal < -50
    ensures m == Neutral <==> -30 <= s.pleasure <= 40 && s.arousal >= -50
  {
    if s.pleasure < -50 && s.arousal > 30 then Angry
    else if s.pleasure > 40 then
      if s.dominance < -30 then Shy
      else if s.arousal > 50 then Excited
      else Happy
    else if s.pleasure < -30 then
      if s.arousal < -20 then Depressed else Arrogant
    else if s.arousal < -50 then Bored
    else Neutral
  }

  /** The state the plugin starts in. */
  function InitialMood(): (s: MoodState)
    ensures SelectPatch(s) == Neutral
  {
    MoodState(0, 0, 0)
  }

  /** `MoodPatChes`: one prompt fragment per mood. */
  datatype MoodPatches = MoodPatches(
    neutral: string, depressed: string, bored: string, happy: string,
    excited: string, shy: string, angry: string, arrogant: string)

  function PatchText(p: MoodPatches, m: Mood): string {
    match m
    case Neutral => p.neutral
    case Depressed => p.depressed
    case Bored => p.bored
    case Happy => p.happy
    case Excited => p.excited
    case Shy => p.shy
    case Angry => p.angry
    case Arrogant => p.arrogant
  }

  datatype Personality = Personality(
    core: string, contextScenario: string, formatRules: string, moodPatches: MoodPatches)

  /**
   * `get_prompt`: core, scenario, rules and the selected patch, in that
   * order, each followed by a line break except the last.
   */
  function GetPrompt(p: Personality, s: MoodState): (r: string)
    ensures |r| >= |p.core| && r[..|p.core|] == p.core
    ensures var patch := PatchText(p.moodPatches, SelectPatch(s));
            |r| >= |patch| && r[|r| - |patch|..] == patch
    ensures var a := |p.core|;
            var b := a + 1 + |p.contextScenario|;
            var c := b + 1 + |p.formatRules|;
            && |r| == c + 1 + |PatchText(p.moodPatches, SelectPatch(s))|
            && r[a] == '\n' && r[a + 1..b] == p.contextScenario
            && r[b] == '\n' && r[b + 1..c] == p.formatRules
            && r[c] == '\n'
  {
    p.core + "\n" + p.contextScenario + "\n" + p.formatRules + "\n"
      + PatchText(p.moodPatches, SelectPatch(s))
  }

  /** The mood enters the prompt only through the patch it selects. */
  lemma PromptDependsOnlyOnMood(p: Personality, s: MoodState, t: MoodState)
    requires SelectPatch(s) == SelectPatch(t)
    ensures GetPrompt(p, s) == GetPrompt(p, t)
  {
  }

  /** `i8 + i8` as a release build computes it: the sum wrapped into the `i8` range. */
  function WrappingAdd(a: I8, b: I8): (r: I8)
    ensures (r - (a + b)) % 256 == 0
    ensures I8Min <= a + b <= I8Max ==> r == a + b
  {
    (a + b - I8Min) % 256 + I8Min
  }

  /** `i8::saturating_add`: the sum clamped to the `i8` range. */
  function SaturatingAdd(a: I8, b: I8): (r: I8)
    ensures I8Min <= a + b <= I8Max ==> r == a + b
    ensures a + b > I8Max ==> r == I8Max
    ensures a + b < I8Min ==> r == I8Min
    ensures (b >= 0 ==> a <= r) && (b <= 0 ==> r <= a)
  {
    if a + b > I8Max then I8Max else if a + b < I8Min then I8Min else a + b
  }

  /** The mood change as written: each component `+=` its delta, wrapping. */
  function ShiftMoodAsWritten(s: MoodState, d: MoodState): (r: MoodState)
    ensures (r.pleasure - (s.pleasure + d.pleasure)) % 256 == 0
    ensures (r.arousal - (s.arousal + d.arousal)) % 256 == 0
    ensures (r.dominance - (s.dominance + d.dominance)) % 256 == 0
  {
    MoodState(WrappingAdd(s.pleasure, d.pleasure), WrappingAdd(s.arousal, d.arousal),
      WrappingAdd(s.dominance, d.dominance))
  }

  /** A very pleased state told to become more pleased turns into a hostile one. */
  lemma WrappingFlipsMood()
    ensures var s := MoodState(120, 0, 0);
            var r := ShiftMoodAsWritten(s, MoodState(15, 0, 0));
            SelectPatch(s) == Happy && r.pleasure == -121 && SelectPatch(r) == Arrogant
  {
  }

  /**
   * The mood change the model uses: each component moves by its delta,
   * stopping at the ends of the `i8` range, so it never moves against
   * the sign of its delta.
   */
  function ShiftMood(s: MoodState, d: MoodState): (r: MoodState)
    ensures d.pleasure >= 0 ==> s.pleasure <= r.pleasure
    ensures d.pleasure <= 0 ==> r.pleasure <= s.pleasure
    ensures d.arousal >= 0 ==> s.arousal <= r.arousal
    ensures d.arousal <= 0 ==> r.arousal <= s.arousal
    ensures d.dominance >= 0 ==> s.dominance <= r.dominance
    ensures d.dominance <= 0 ==> r.dominance <= s.dominance
  {
    MoodState(SaturatingAdd(s.pleasure, d.pleasure), SaturatingAdd(s.arousal, d.arousal),
      SaturatingAdd(s.dominance, d.dominance))
  }

  /** Both mood changes agree whenever no sum leaves the `i8` range. */
  lemma ShiftMoodAgreesInRange(s: MoodState, d: MoodState)
    requires I8Min <= s.pleasure + d.pleasure <= I8Max
    requires I8Min <= s.arousal + d.arousal <= I8Max
    requires I8Min <= s.dominance + d.dominance <= I8Max
    ensures ShiftMood(s, d) == ShiftMoodAsWritten(s, d)
  {
  }

  // ---------------------------------------------------------------- text

  /** The "/mood" report. */
  function MoodText(s: MoodState): string {
    "[Mood]\npleasure: " + (IntToString(s.pleasure) + "\n"
      + ("aeousul: " + (IntToString(s.arousal) + "\n"
      + ("dominance: " + IntToString(s.dominance)))))
  }

  /** The decimal rendering of a number has no line break. */
  lemma IntToStringOneLine(n: int)
    ensures '\n' !in IntToString(n)
  {
    NatToStringDigits(if n < 0 then -n else n);
  }

  /** Text that starts with a line of its own determines that line and the rest. */
  lemma {:induction false} FirstLine(a: string, b: string, c: string, d: string)
    requires '\n' !in a && '\n' !in c
    requires a + "\n" + b == c + "\n" + d
    ensures a == c && b == d
  {
    var s := a + "\n" + b;
    FindAfterLine(a, b);
    FindAfterLine(c, d);
    assert a == s[..|a|];
    assert b == s[|a| + 1..];
    assert d == s[|c| + 1..];
  }

  lemma FindAfterLine(a: string, b: string)
    requires '\n' !in a
    ensures Find(a + "\n" + b, '\n') == |a|
  {
    assert a + "\n" + b == a + ("\n" + b);
    FindPastPrefix(a, "\n" + b, '\n');
  }

  /** Equal text after a common prefix is equal text. */
  lemma StripPrefix(h: string, x: string, y: string)
    requires h + x == h + y
    ensures x == y
  {
    assert x == (h + x)[|h|..];
    assert y == (h + y)[|h|..];
  }

  /** The "/mood" report names the mood state it was made from. */
  lemma MoodTextInjective(s: MoodState, t: MoodState)
    requires MoodText(s) == MoodText(t)
    ensures s == t
  {
    var ps, as_, ds := IntToString(s.pleasure), IntToString(s.arousal), IntToString(s.dominance);
    var pt, at, dt := IntToString(t.pleasure), IntToString(t.arousal), IntToString(t.dominance);
    IntToStringOneLine(s.pleasure);
    IntToStringOneLine(s.arousal);
    IntToStringOneLine(t.pleasure);
    IntToStringOneLine(t.arousal);
    var rs := "aeousul: " + (as_ + "\n" + ("dominance: " + ds));
    var rt := "aeousul: " + (at + "\n" + ("dominance: " + dt));
    StripPrefix("[Mood]\npleasure: ", ps + "\n" + rs, pt + "\n" + rt);
    FirstLine(ps, rs, pt, rt);
    StripPrefix("aeousul: ", as_ + "\n" + ("dominance: " + ds), at + "\n" + ("dominance: " + dt));
    FirstLine(as_, "dominance: " + ds, at, "dominance: " + dt);
    StripPrefix("dominance: ", ds, dt);
    IntToStringInjective(s.pleasure, t.pleasure);
    IntToStringInjective(s.arousal, t.arousal);
    IntToStringInjective(s.dominance, t.dominance);
  }

  /** A private message carrying one text segment, as the plugin sends each reply. */
  function TextReply(userId: I64, text: string): (d: NapcatRequestData)
    ensures d.action == "send_private_msg" && d.params.Obj? && "message" in d.params.fields
    ensures I64Field(d.params.fields, "user_id") == Ok(userId)
    ensures MessageParser.DecodeMessage(d.params.fields["message"])
            == Ok(MessageParser.Message([MessageParser.Text(text)]))
  {
    Action.SendPrivateMessageData(userId, MessageParser.WithText(MessageParser.New(), text))
  }

  /** The chat path runs for text that is not a command, and only with a token configured. */
  predicate ShouldChat(rawMessage: string, token: string) {
    !StartsWith(rawMessage, "/") && token != ""
  }

  /** "/mood" is a command, so it never reaches the chat path. */
  lemma MoodCommandNeverChats(rawMessage: string, token: string)
    requires StartsWith(rawMessage, "/mood")
    ensures !ShouldChat(rawMessage, token)
  {
    assert rawMessage[..1] == rawMessage[..5][..1];
  }

  // ---------------------------------------------------------------- sessions

  /** A history entry: what the user said, or what the model replied. */
  datatype ChatMessage = User(text: string) | Assistant(text: string)

  /** `max_histories`. */
  const MaxHistories: nat := 30

  /**
   * The history after a successful exchange: the user's message and the
   * reply are appended, and when that makes it longer than
   * `MaxHistories` the oldest two entries go.
   */
  function Remember(h: seq<ChatMessage>, user: string, reply: string): (r: seq<ChatMessage>)
    ensures |r| == if |h| + 2 > MaxHistories then |h| else |h| + 2
    ensures |h| <= MaxHistories ==> |r| <= MaxHistories
    ensures |r| >= 2 && r[|r| - 2..] == [User(user), Assistant(reply)]
    ensures r == (h + [User(user), Assistant(reply)])[|h| + 2 - |r|..]
  {
    var a := h + [User(user), Assistant(reply)];
    if |a| > MaxHistories then a[2..] else a
  }

  /** The text the chat path records for a message: its time stamp and its raw text. */
  function UserText(stamp: string, rawMessage: string): string {
    "[" + stamp + "] " + rawMessage
  }

  /** `ChatSession`: one user's conversation. */
  datatype ChatSession = ChatSession(userId: string, history: seq<ChatMessage>)

  /** `ChatSession::new`: an empty history. */
  function NewSession(userId: string): (c: ChatSession)
    ensures c.userId == userId && c.history == []
  {
    ChatSession(userId, [])
  }

  /** The sending loop of `on_private_message`: one text message per ';'-separated piece, in order. */
  method SendPieces(userId: I64, response: string) returns (reqs: seq<NapcatRequestData>)
    ensures var pieces := Split(response);
            |reqs| == |pieces| && forall i :: 0 <= i < |reqs| ==> reqs[i] == TextReply(userId, pieces[i])
  {
    var pieces := Split(response);
    reqs := [];
    for i := 0 to |pieces|
      invariant |reqs| == i && forall j :: 0 <= j < i ==> reqs[j] == TextReply(userId, pieces[j])
    {
      reqs := reqs + [TextReply(userId, pieces[i])];
    }
  }

  /** What wakes the plugin's update: a private message, or a heartbeat. */
  datatype Wakeup = PrivateMessage(event: EventType.PrivateMessageEvent) | HeartBeat

  class AiChatPlugin {
    const token: string
    const personality: Personality
    /**
     * The sessions by user id string. Every handle the source hands out
     * for a user is that user's entry here, so updating through a handle
     * is updating the entry.
     */
    var sessions: map<string, ChatSession>
    var mood: MoodState
    /** Replies since the last mood update. */
    var chatCount: I8

    ghost predicate Valid()
      reads this
    {
      && 0 <= chatCount <= 1
      && forall k :: k in sessions ==> sessions[k].userId == k && |sessions[k].history| <= MaxHistories
    }

    /** `AiChatPlugin::new` with no saved history: no sessions, a neutral mood, no replies yet. */
    constructor (token: string, personality: Personality)
      ensures Valid()
      ensures this.token == token && this.personality == personality
      ensures sessions == map[] && mood == InitialMood() && chatCount == 0
    {
      this.token := token;
      this.personality := personality;
      sessions := map[];
      mood := InitialMood();
      chatCount := 0;
    }

    /**
     * `get_user_state_by_id`: the user's session, created empty on first
     * use; an existing session is returned as it is.
     */
    method GetUserStateById(userId: string) returns (c: ChatSession)
      requires Valid()
      modifies this`sessions
      ensures Valid()
      ensures userId in sessions && c == sessions[userId] && c.userId == userId
      ensures userId in old(sessions) ==> sessions == old(sessions)
      ensures userId !in old(sessions) ==> c.history == [] && sessions == old(sessions)[userId := c]
    {
      if userId in sessions {
        c := sessions[userId];
      } else {
        c := NewSession(userId);
        sessions := sessions[userId := c];
      }
    }

    /**
     * `chat`, given the model's reply or error: on a reply the exchange is
     * remembered and the reply returned; on an error the history is left
     * alone and the error text returned. Other users' sessions stay as
     * they were.
     */
    method Chat(userId: string, user: string, reply: Result<string, string>) returns (response: string)
      requires Valid()
      modifies this`sessions
      ensures Valid()
      ensures response == if reply.Ok? then reply.value else reply.error
      ensures userId in sessions && sessions.Keys == old(sessions.Keys) + {userId}
      ensures forall k :: k in old(sessions) && k != userId ==> sessions[k] == old(sessions[k])
      ensures var before := if userId in old(sessions) then old(sessions[userId].history) else [];
              sessions[userId].history == if reply.Ok? then Remember(before, user, reply.value) else before
    {
      var c := GetUserStateById(userId);
      if reply.Ok? {
        var h := c.history + [User(user)];
        h := h + [Assistant(reply.value)];
        if |h| > MaxHistories {
          h := h[2..];
        }
        assert h == Remember(c.history, user, reply.value);
        sessions := sessions[userId := c.(history := h)];
        response := reply.value;
      } else {
        response := reply.error;
      }
    }

    /**
     * `change_mood`, given the model's suggested change or its failure:
     * the user's session is looked up (and created if missing), then the
     * mood moves by the change.
     */
    method ChangeMood(userId: string, delta: Option<MoodState>) returns (ok: bool)
      requires Valid()
      modifies this`sessions, this`mood
      ensures Valid()
      ensures ok == delta.Some?
      ensures mood == if delta.Some? then ShiftMood(old(mood), delta.value) else old(mood)
      ensures userId in sessions
      ensures userId in old(sessions) ==> sessions == old(sessions)
      ensures userId !in old(sessions) ==> sessions == old(sessions)[userId := NewSession(userId)]
    {
      var _ := GetUserStateById(userId);
      if delta.Some? {
        mood := ShiftMood(mood, delta.value);
        ok := true;
      } else {
        ok := false;
      }
    }

    /**
     * `on_private_message`, given the time stamp, the model's reply and
     * its mood suggestion: chat, count the reply, update the mood on every
     * second reply, then send one message per ';'-separated piece of the
     * response, in order.
     */
    method OnPrivateMessage(msg: EventType.PrivateMessageEvent, stamp: string,
                            reply: Result<string, string>, delta: Option<MoodState>)
      returns (reqs: seq<NapcatRequestData>)
      requires Valid()
      modifies this`sessions, this`chatCount, this`mood
      ensures Valid()
      ensures chatCount == 1 - old(chatCount)
      ensures mood == if old(chatCount) == 1 && delta.Some? then ShiftMood(old(mood), delta.value) else old(mood)
      ensures var id := IntToString(msg.sender.userId);
              var before := if id in old(sessions) then old(sessions[id].history) else [];
              id in sessions
              && sessions[id].history == if reply.Ok? then Remember(before, UserText(stamp, msg.rawMessage), reply.value) else before
      ensures sessions.Keys == old(sessions.Keys) + {IntToString(msg.sender.userId)}
      ensures forall k :: k in old(sessions) && k != IntToString(msg.sender.userId) ==> sessions[k] == old(sessions[k])
      ensures var pieces := Split(if reply.Ok? then reply.value else reply.error);
              |reqs| == |pieces| && forall i :: 0 <= i < |reqs| ==> reqs[i] == TextReply(msg.sender.userId, pieces[i])
    {
      var id := IntToString(msg.sender.userId);
      ghost var before := if id in sessions then sessions[id].history else [];
      var response := Chat(id, UserText(stamp, msg.rawMessage), reply);
      ghost var afterChat := sessions;
      ghost var after := sessions[id].history;
      assert after == if reply.Ok? then Remember(before, UserText(stamp, msg.rawMessage), reply.value) else before;
      chatCount := chatCount + 1;
      if chatCount == 2 {
        chatCount := 0;
        var _ := ChangeMood(id, delta);
      }
      assert sessions == afterChat;
      reqs := SendPieces(msg.sender.userId, response);
    }

    /**
     * `on_update`: on a private message, whether the chat path is spawned
     * for it, and the "/mood" report when asked for; a heartbeat only
     * saves the histories, which is outside this model.
     */
    method OnUpdate(w: Wakeup) returns (spawnChat: bool, reqs: seq<NapcatRequestData>)
      ensures spawnChat <==> w.PrivateMessage? && ShouldChat(w.event.rawMessage, token)
      ensures w.PrivateMessage? && StartsWith(w.event.rawMessage, "/mood") ==>
                reqs == [TextReply(w.event.sender.userId, MoodText(mood))]
      ensures !(w.PrivateMessage? && StartsWith(w.event.rawMessage, "/mood")) ==> reqs == []
    {
      spawnChat := false;
      reqs := [];
      if w.PrivateMessage? {
        var event := w.event;
        spawnChat := ShouldChat(event.rawMessage, token);
        if StartsWith(event.rawMessage, "/mood") {
          reqs := [TextReply(event.sender.userId, MoodText(mood))];
        }
      }
    }
  }
}
