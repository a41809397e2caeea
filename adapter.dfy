/**
 * The protocol adapter: the one WebSocket connection, split onto two hubs.
 * Inbound frames carrying an "echo" key are action responses and go to the
 * action hub; every other decoded frame goes to the event hub. Outbound, the
 * event hub's queue forwards only JSON strings (their raw content) and the
 * action hub's queue forwards every value as its JSON serialisation.
 */
module Adapter {
  import opened Wrappers
  import opened Json
  import opened SignalType

  /** The outcome of `serde_json::from_str` on a frame's text. */
  datatype TextPayload = Parsed(value: Json) | Malformed

  /**
   * One completion of `ws.recv()`: the stream yielded nothing, a read error,
   * or a message whose `to_text()` either failed (None) or gave text.
   */
  datatype Incoming = NoFrame | ReadFailed | Frame(text: Option<TextPayload>)

  /** A text frame written to the socket: a string as is, or a value serialised. */
  datatype WsText = RawText(s: string) | Serialized(value: Json)

  /** Where one inbound frame goes. */
  datatype Route = Skip | ToActionHub(value: Json) | ToEventHub(value: Json)

  /** Inbound classification of one `ws.recv()` completion. */
  function Classify(frame: Incoming): (r: Route)
    ensures r.Skip? <==> !(frame.Frame? && frame.text.Some? && frame.text.value.Parsed?)
    ensures r.ToActionHub? <==>
      frame.Frame? && frame.text.Some? && frame.text.value.Parsed? &&
      Get(frame.text.value.value, "echo").Some?
    ensures r.ToEventHub? <==>
      frame.Frame? && frame.text.Some? && frame.text.value.Parsed? &&
      Get(frame.text.value.value, "echo").None?
    ensures !r.Skip? ==> r.value == frame.text.value.value
  {
    match frame
    case NoFrame => Skip
    case ReadFailed => Skip
    case Frame(None) => Skip
    case Frame(Some(Malformed)) => Skip
    case Frame(Some(Parsed(v))) =>
      if Get(v, "echo").Some? then ToActionHub(v) else ToEventHub(v)
  }

  /** The event-hub arm: only a JSON string is written, as its raw content. */
  function EventFrame(v: Json): (r: Option<WsText>)
    ensures r.Some? <==> v.Str?
    ensures r.Some? ==> r.value == RawText(v.s)
  {
    match AsStr(v)
    case Some(s) => Some(RawText(s))
    case None => None
  }

  /** The action-hub arm: every value is written, serialised. */
  function ActionFrame(v: Json): (r: WsText)
    ensures r.Serialized? && r.value == v
  {
    Serialized(v)
  }

  /** The state the socket loop touches: both hubs' logs and queues, and what it wrote. */
  datatype Wire = Wire(
    eventLog: seq<Json>, eventQueue: seq<Json>,
    actionLog: seq<Json>, actionQueue: seq<Json>,
    written: seq<WsText>)

  /** One branch of the `select!` in `handle_socket`. */
  datatype Arm = Inbound(frame: Incoming) | EventArm | ActionArm

  /**
   * One loop iteration. An outbound arm whose queue is empty is not ready,
   * so choosing it does nothing. A write's outcome is ignored, so it does
   * not appear here at all.
   */
  function Step(w: Wire, eventReceivers: nat, actionReceivers: nat, arm: Arm): Wire
  {
    match arm
    case Inbound(frame) =>
      (match Classify(frame)
       case Skip => w
       case ToActionHub(v) => w.(actionLog := Broadcast(w.actionLog, actionReceivers, v))
       case ToEventHub(v) => w.(eventLog := Broadcast(w.eventLog, eventReceivers, v)))
    case EventArm =>
      if w.eventQueue == [] then w
      else
        var out := EventFrame(w.eventQueue[0]);
        w.(eventQueue := w.eventQueue[1..],
           written := w.written + (if out.Some? then [out.value] else []))
    case ActionArm =>
      if w.actionQueue == [] then w
      else w.(actionQueue := w.actionQueue[1..], written := w.written + [ActionFrame(w.actionQueue[0])])
  }

  /** A finite prefix of the endless loop: the iterations `arms`, in order. */
  function Run(w: Wire, eventReceivers: nat, actionReceivers: nat, arms: seq<Arm>): Wire
    decreases |arms|
  {
    if arms == [] then w
    else Step(Run(w, eventReceivers, actionReceivers, arms[..|arms| - 1]),
              eventReceivers, actionReceivers, arms[|arms| - 1])
  }

  /** Each inbound frame is published to at most one hub, never both; skipped frames change nothing. */
  lemma InboundExclusive(w: Wire, er: nat, ar: nat, frame: Incoming)
    ensures var w' := Step(w, er, ar, Inbound(frame));
      && w'.eventQueue == w.eventQueue && w'.actionQueue == w.actionQueue && w'.written == w.written
      && (w'.eventLog == w.eventLog || w'.actionLog == w.actionLog)
      && (Classify(frame).Skip? ==> w' == w)
      && (Classify(frame).ToActionHub? && ar > 0 ==>
            w'.actionLog == w.actionLog + [Classify(frame).value] && w'.eventLog == w.eventLog)
      && (Classify(frame).ToEventHub? && er > 0 ==>
            w'.eventLog == w.eventLog + [Classify(frame).value] && w'.actionLog == w.actionLog)
  {
  }

  /** Read errors, absent frames, frames whose `to_text()` fails and unparseable frames leave everything unchanged, so the loop goes on. */
  lemma BadFramesSkipped(w: Wire, er: nat, ar: nat)
    ensures Step(w, er, ar, Inbound(NoFrame)) == w
    ensures Step(w, er, ar, Inbound(ReadFailed)) == w
    ensures Step(w, er, ar, Inbound(Frame(None))) == w
    ensures Step(w, er, ar, Inbound(Frame(Some(Malformed)))) == w
  {
  }

  /** What the event arm writes for the queued values `q`, in order: the strings only, as raw text. */
  function EventOut(q: seq<Json>): seq<WsText>
    decreases |q|
  {
    if q == [] then []
    else EventOut(q[..|q| - 1]) + (if q[|q| - 1].Str? then [RawText(q[|q| - 1].s)] else [])
  }

  /** What the action arm writes for the queued values `q`, in order: each one serialised. */
  function ActionOut(q: seq<Json>): seq<WsText>
  {
    seq(|q|, i requires 0 <= i < |q| => Serialized(q[i]))
  }

  /** The raw-text frames of `ws`, in order. */
  function RawFrames(ws: seq<WsText>): seq<WsText>
    decreases |ws|
  {
    if ws == [] then []
    else RawFrames(ws[..|ws| - 1]) + (if ws[|ws| - 1].RawText? then [ws[|ws| - 1]] else [])
  }

  /** The serialised frames of `ws`, in order. */
  function SerializedFrames(ws: seq<WsText>): seq<WsText>
    decreases |ws|
  {
    if ws == [] then []
    else SerializedFrames(ws[..|ws| - 1]) + (if ws[|ws| - 1].Serialized? then [ws[|ws| - 1]] else [])
  }

  /** Writing one more frame extends the filtered view of its kind by that frame. */
  lemma FramesSnoc(ws: seq<WsText>, x: WsText)
    ensures RawFrames(ws + [x]) == RawFrames(ws) + (if x.RawText? then [x] else [])
    ensures SerializedFrames(ws + [x]) == SerializedFrames(ws) + (if x.Serialized? then [x] else [])
  {
    assert (ws + [x])[..|ws|] == ws;
  }

  /**
   * The state of a run against its start: each queue has lost a prefix,
   * the written frames only grew at the end, and the raw-text frames written
   * are exactly the strings of the consumed event-queue prefix while the
   * serialised frames written are exactly the consumed action-queue prefix,
   * both in queue order. Hub logs never shrink.
   */
  ghost predicate Consumed(w: Wire, w': Wire)
  {
    var ke := |w.eventQueue| - |w'.eventQueue|;
    var ka := |w.actionQueue| - |w'.actionQueue|;
    && 0 <= ke && 0 <= ka && |w.written| <= |w'.written|
    && w.eventQueue[ke..] == w'.eventQueue && w.actionQueue[ka..] == w'.actionQueue
    && w'.written[..|w.written|] == w.written
    && RawFrames(w'.written[|w.written|..]) == EventOut(w.eventQueue[..ke])
    && SerializedFrames(w'.written[|w.written|..]) == ActionOut(w.actionQueue[..ka])
    && |w.eventLog| <= |w'.eventLog| && |w.actionLog| <= |w'.actionLog|
  }

  /** An event-arm iteration keeps `Consumed`. */
  lemma EventStepConsumed(w: Wire, m: Wire, er: nat, ar: nat)
    requires Consumed(w, m)
    ensures Consumed(w, Step(m, er, ar, EventArm))
  {
    if m.eventQueue != [] {
      var m' := Step(m, er, ar, EventArm);
      var ke := |w.eventQueue| - |m.eventQueue|;
      var v := m.eventQueue[0];
      var news := m.written[|w.written|..];
      assert w.eventQueue[ke] == v;
      assert w.eventQueue[..ke + 1] == w.eventQueue[..ke] + [v];
      assert w.eventQueue[..ke + 1][..ke] == w.eventQueue[..ke];
      assert w.eventQueue[ke + 1..] == m'.eventQueue;
      if v.Str? {
        assert m'.written[|w.written|..] == news + [RawText(v.s)];
        FramesSnoc(news, RawText(v.s));
      } else {
        assert m'.written == m.written;
      }
    }
  }

  /** Serialising one more consumed action-queue value extends `ActionOut` by its frame. */
  lemma ActionOutSnoc(q: seq<Json>, v: Json)
    ensures ActionOut(q + [v]) == ActionOut(q) + [Serialized(v)]
  {
  }

  /** An action-arm iteration keeps `Consumed`. */
  lemma ActionStepConsumed(w: Wire, m: Wire, er: nat, ar: nat)
    requires Consumed(w, m)
    ensures Consumed(w, Step(m, er, ar, ActionArm))
  {
    if m.actionQueue != [] {
      var m' := Step(m, er, ar, ActionArm);
      var ka := |w.actionQueue| - |m.actionQueue|;
      var v := m.actionQueue[0];
      var news := m.written[|w.written|..];
      assert m' == m.(actionQueue := m.actionQueue[1..], written := m.written + [Serialized(v)]);
      assert w.actionQueue[ka] == v;
      assert w.actionQueue[..ka + 1] == w.actionQueue[..ka] + [v];
      assert w.actionQueue[ka + 1..] == m'.actionQueue;
      ActionOutSnoc(w.actionQueue[..ka], v);
      assert m'.written[|w.written|..] == news + [Serialized(v)];
      assert m'.written[..|w.written|] == w.written;
      FramesSnoc(news, Serialized(v));
    }
  }

  /** One more loop iteration keeps `Consumed`. */
  lemma StepConsumed(w: Wire, m: Wire, er: nat, ar: nat, arm: Arm)
    requires Consumed(w, m)
    ensures Consumed(w, Step(m, er, ar, arm))
  {
    match arm
    case Inbound(_) =>
    case EventArm => EventStepConsumed(w, m, er, ar);
    case ActionArm => ActionStepConsumed(w, m, er, ar);
  }

  /**
   * Over any run, the written frames are exactly the queued outbound values
   * that pass their arm's filter, in order: the strings from the event queue
   * as raw text and every value from the action queue serialised.
   */
  lemma {:induction false} RunWritesOnlyOutbound(w: Wire, er: nat, ar: nat, arms: seq<Arm>)
    ensures Consumed(w, Run(w, er, ar, arms))
    decreases |arms|
  {
    if arms == [] {
      assert w.eventQueue[..0] == [] && w.actionQueue[..0] == [];
      assert w.written[|w.written|..] == [];
    } else {
      RunWritesOnlyOutbound(w, er, ar, arms[..|arms| - 1]);
      StepConsumed(w, Run(w, er, ar, arms[..|arms| - 1]), er, ar, arms[|arms| - 1]);
    }
  }

  class NapcatAdapter {
    const wsEventHub: SignalHub<Json>
    const wsActionHub: SignalHub<Json>

    ghost predicate Valid()
      reads this
    {
      wsEventHub != wsActionHub
    }

    /** The four pieces of state the loop changes, as one value. */
    ghost function WireState(written: seq<WsText>): Wire
      reads this, wsEventHub, wsActionHub
    {
      Wire(wsEventHub.log, wsEventHub.queue, wsActionHub.log, wsActionHub.queue, written)
    }

    /** `NapcatAdapter::new`: two fresh, empty hubs. */
    constructor ()
      ensures Valid() && fresh(wsEventHub) && fresh(wsActionHub)
      ensures wsEventHub.log == [] && wsEventHub.queue == [] && wsEventHub.receivers == 0
      ensures wsActionHub.log == [] && wsActionHub.queue == [] && wsActionHub.receivers == 0
    {
      wsEventHub := new SignalHub();
      wsActionHub := new SignalHub();
    }

    /** `get_event_port`: a port on the event hub. */
    method GetEventPort() returns (p: SignalPort<Json>)
      modifies wsEventHub
      ensures fresh(p) && p.hub == wsEventHub && p.cursor == |wsEventHub.log| && p.Valid()
      ensures wsEventHub.log == old(wsEventHub.log) && wsEventHub.queue == old(wsEventHub.queue)
      ensures wsEventHub.receivers == old(wsEventHub.receivers) + 1
    {
      p := wsEventHub.GetPort();
    }

    /** `get_action_port`: a port on the action hub. */
    method GetActionPort() returns (p: SignalPort<Json>)
      modifies wsActionHub
      ensures fresh(p) && p.hub == wsActionHub && p.cursor == |wsActionHub.log| && p.Valid()
      ensures wsActionHub.log == old(wsActionHub.log) && wsActionHub.queue == old(wsActionHub.queue)
      ensures wsActionHub.receivers == old(wsActionHub.receivers) + 1
    {
      p := wsActionHub.GetPort();
    }

    /** The inbound arm of `handle_socket` for one frame; a failed hub send is ignored. */
    method HandleInbound(frame: Incoming)
      requires Valid()
      modifies wsEventHub`log, wsActionHub`log
      ensures WireState([]) == Step(old(WireState([])), wsEventHub.receivers, wsActionHub.receivers, Inbound(frame))
    {
      match Classify(frame)
      case Skip =>
      case ToActionHub(v) =>
        var _ := wsActionHub.Send(v);
      case ToEventHub(v) =>
        var _ := wsEventHub.Send(v);
    }

    /** The event-hub arm: take the next queued value; returns the frame written, if any. */
    method ForwardEvent() returns (out: Option<WsText>)
      requires Valid()
      modifies wsEventHub`queue
      ensures WireState(if out.Some? then [out.value] else []) ==
              Step(old(WireState([])), wsEventHub.receivers, wsActionHub.receivers, EventArm)
    {
      var r := wsEventHub.Recv();
      match r
      case Pending =>
        out := None;
      case Ready(v) =>
        out := EventFrame(v);
    }

    /** The action-hub arm: take the next queued value and write it serialised. */
    method ForwardAction() returns (out: Option<WsText>)
      requires Valid()
      modifies wsActionHub`queue
      ensures WireState(if out.Some? then [out.value] else []) ==
              Step(old(WireState([])), wsEventHub.receivers, wsActionHub.receivers, ActionArm)
    {
      var r := wsActionHub.Recv();
      match r
      case Pending =>
        out := None;
      case Ready(v) =>
        out := Some(ActionFrame(v));
    }

    /**
     * `handle_socket`, for the loop iterations `arms` in the order the
     * `select!` chose them; `written` is every frame sent to the socket.
     */
    method HandleSocket(arms: seq<Arm>) returns (written: seq<WsText>)
      requires Valid()
      modifies wsEventHub`log, wsEventHub`queue, wsActionHub`log, wsActionHub`queue
      ensures WireState(written) ==
              Run(old(WireState([])), wsEventHub.receivers, wsActionHub.receivers, arms)
    {
      written := [];
      var i := 0;
      while i < |arms|
        invariant 0 <= i <= |arms|
        invariant WireState(written) ==
                  Run(old(WireState([])), wsEventHub.receivers, wsActionHub.receivers, arms[..i])
      {
        assert arms[..i + 1][..i] == arms[..i];
        match arms[i] {
          case Inbound(frame) =>
            HandleInbound(frame);
          case EventArm =>
            var out := ForwardEvent();
            if out.Some? { written := written + [out.value]; }
          case ActionArm =>
            var out := ForwardAction();
            if out.Some? { written := written + [out.value]; }
        }
        i := i + 1;
      }
      assert arms[..|arms|] == arms;
    }
  }
}
