/**
 * The help plugin: on a private message starting with "/help" it replies
 * to the sender with one entry per registered plugin, under a
 * "[PluginList]" heading, with surrounding whitespace trimmed.
 */
module GetHelp {
  import opened Wrappers
  import opened RustStr
  import opened PluginType
  import opened ActionType
  import Ints
  import MessageParser
  import EventType
  import Action
  import Plugin
  import SignalType

  /** One plugin's entry: its info string and a blank line. */
  function Entry(w: PluginWrapper): string {
    GetInfoStr(w) + "\n\n"
  }

  /** The entries of the plugins in list order. */
  function Listing(ps: seq<PluginWrapper>): string
    decreases |ps|
  {
    if ps == [] then "" else Listing(ps[..|ps| - 1]) + Entry(ps[|ps| - 1])
  }

  /** The listing of a prefix of the list is a prefix of the listing. */
  lemma {:induction false} ListingPrefix(ps: seq<PluginWrapper>, i: nat)
    requires i <= |ps|
    ensures |Listing(ps[..i])| <= |Listing(ps)|
    ensures Listing(ps)[..|Listing(ps[..i])|] == Listing(ps[..i])
    decreases |ps|
  {
    if i < |ps| {
      var init := ps[..|ps| - 1];
      assert init[..i] == ps[..i];
      ListingPrefix(init, i);
    } else {
      assert ps[..i] == ps;
    }
  }

  /** The reply text: the heading and the listing, trimmed. */
  function HelpText(ps: seq<PluginWrapper>): string {
    Trim("[PluginList]\n" + Listing(ps))
  }

  /** With nothing registered the reply is the bare heading. */
  lemma HelpTextEmpty()
    ensures HelpText([]) == "[PluginList]"
  {
    var h := "[PluginList]";
    var s := h + "\n";
    assert "[PluginList]\n" + Listing([]) == s;
    assert s[0] == '[';
    TrimStartSolid(s);
    TrimEndSolid(h, "\n");
  }

  /** Whether a description's end survives the trim: empty, or ending in non-whitespace. */
  predicate EndsSolid(description: string) {
    description == [] || !IsWhitespace(description[|description| - 1])
  }

  /**
   * When the last plugin's description does not end in whitespace, the
   * reply is the heading and the listing with only the final blank line
   * removed: every entry appears in full and in order.
   */
  lemma HelpTextExact(ps: seq<PluginWrapper>)
    requires ps != [] && EndsSolid(ps[|ps| - 1].description)
    ensures var l := Listing(ps);
            |l| >= 2 && HelpText(ps) == "[PluginList]\n" + l[..|l| - 2]
  {
    var l := Listing(ps);
    var x := "[PluginList]\n" + Listing(ps[..|ps| - 1]) + GetInfoStr(ps[|ps| - 1]);
    ListingSplit(ps);
    InfoEndsSolid(ps[|ps| - 1]);
    assert x[|x| - 1] == GetInfoStr(ps[|ps| - 1])[|GetInfoStr(ps[|ps| - 1])| - 1];
    TrimEndSolid(x, "\n\n");
    TrimStartSolid("[PluginList]\n" + l);
  }

  /** The listing is the earlier entries, the last info string and a blank line. */
  lemma ListingSplit(ps: seq<PluginWrapper>)
    requires ps != []
    ensures var l := Listing(ps);
            var x := "[PluginList]\n" + Listing(ps[..|ps| - 1]) + GetInfoStr(ps[|ps| - 1]);
            |l| >= 2 && "[PluginList]\n" + l == x + "\n\n" && "[PluginList]\n" + l[..|l| - 2] == x
  {
    BlankLineShape("[PluginList]\n", Listing(ps[..|ps| - 1]), GetInfoStr(ps[|ps| - 1]));
  }

  lemma BlankLineShape(h: string, a: string, info: string)
    ensures var l := a + (info + "\n\n");
            |l| >= 2 && h + l == h + a + info + "\n\n" && h + l[..|l| - 2] == h + a + info
  {
    var l := a + (info + "\n\n");
    assert l[..|l| - 2] == a + info;
  }

  /** An info string ends where its description does, or in '>' when that is empty. */
  lemma InfoEndsSolid(w: PluginWrapper)
    requires EndsSolid(w.description)
    ensures var s := GetInfoStr(w); |s| > 0 && !IsWhitespace(s[|s| - 1])
  {
    var s := GetInfoStr(w);
    if w.description == [] {
      assert s[|s| - 1] == s[3 + |w.name|..8 + |w.name|][4] == '>';
    } else {
      assert s[|s| - 1] == s[8 + |w.name|..][|w.description| - 1];
    }
  }

  /** The loop of `on_private_message` that gathers every plugin's info, then trims. */
  method CollectHelp(ps: seq<PluginWrapper>) returns (info: string)
    ensures info == HelpText(ps)
  {
    info := "[PluginList]\n";
    for i := 0 to |ps|
      invariant info == "[PluginList]\n" + Listing(ps[..i])
    {
      assert ps[..i + 1][..i] == ps[..i];
      info := info + (GetInfoStr(ps[i]) + "\n\n");
    }
    assert ps[..|ps|] == ps;
    info := Trim(info);
  }

  /** The request the help plugin sends: a one-text message to the user. */
  function HelpReply(userId: Ints.I64, ps: seq<PluginWrapper>): (d: NapcatRequestData)
    ensures d.action == "send_private_msg"
    ensures d.params.Obj? && "message" in d.params.fields
    ensures MessageParser.DecodeMessage(d.params.fields["message"])
            == Ok(MessageParser.Message([MessageParser.Text(HelpText(ps))]))
  {
    Action.SendPrivateMessageData(userId, MessageParser.WithText(MessageParser.New(), HelpText(ps)))
  }

  class HelpPlugin {
    /** The manager's own list, shared: plugins added later appear in later replies. */
    const plugins: Plugin.PluginList

    constructor (plugins: Plugin.PluginList)
      ensures this.plugins == plugins
    {
      this.plugins := plugins;
    }

    /**
     * `on_private_message`: a reply to the sender exactly when the raw text
     * starts with "/help", listing the plugins registered at that moment.
     */
    method OnPrivateMessage(msg: EventType.PrivateMessageEvent) returns (req: Option<NapcatRequestData>)
      ensures req.Some? <==> StartsWith(msg.rawMessage, "/help")
      ensures req.Some? ==> req.value == HelpReply(msg.sender.userId, plugins.entries)
    {
      if StartsWith(msg.rawMessage, "/help") {
        var info := CollectHelp(plugins.entries);
        req := Some(Action.SendPrivateMessageData(msg.sender.userId,
          MessageParser.WithText(MessageParser.New(), info)));
      } else {
        req := None;
      }
    }

    /**
     * `on_update`: one message from a private-message port subscribed for
     * this round; a receive error ends the round without a reply.
     */
    method OnUpdate(r: SignalType.RecvResult<EventType.PrivateMessageEvent>) returns (req: Option<NapcatRequestData>)
      ensures req.Some? <==> r.Received? && StartsWith(r.value.rawMessage, "/help")
      ensures req.Some? ==> req.value == HelpReply(r.value.sender.userId, plugins.entries)
    {
      if r.Received? {
        req := OnPrivateMessage(r.value);
      } else {
        req := None;
      }
    }
  }
}
