/**
 * The event manager: reads raw JSON events from its port on the adapter's
 * event hub, decodes each into the event taxonomy and publishes it to the
 * all-events hub and to at most one kind-specific hub.
 */
module Event {
  import opened Wrappers
  import opened Json
  import opened SignalType
  import opened EventType

  /** The five hubs an event can be published to. */
  datatype HubKind = AllEvents | GroupMessages | PrivateMessages | LifeCycles | HeartBeats

  /** The hubs a decoded event is published to, in publishing order. */
  function Targets(e: AnyEvent): (hubs: seq<HubKind>)
    ensures 1 <= |hubs| <= 2 && hubs[0] == AllEvents
    ensures AllEvents !in hubs[1..]
    ensures e.Notice? || e.Other? <==> hubs == [AllEvents]
    ensures GroupMessages in hubs <==> e.Message? && e.msg.Group?
    ensures PrivateMessages in hubs <==> e.Message? && e.msg.Private?
    ensures LifeCycles in hubs <==> e.Meta? && e.meta.LifeCycle?
    ensures HeartBeats in hubs <==> e.Meta? && e.meta.HeartBeat?
  {
    match e
    case Message(Group(_)) => [AllEvents, GroupMessages]
    case Message(Private(_)) => [AllEvents, PrivateMessages]
    case Meta(LifeCycle(_)) => [AllEvents, LifeCycles]
    case Meta(HeartBeat(_)) => [AllEvents, HeartBeats]
    case Notice(_) => [AllEvents]
    case Other => [AllEvents]
  }

  /** What one `handle_event` did. */
  datatype Handled =
    | Idle                              // nothing on the port yet: the await would wait
    | Panicked                          // the port lagged and `unwrap` panicked, ending the loop's task
    | DecodeFailed(error: DecodeError)  // logged, nothing published
    | Published(event: AnyEvent, hubs: seq<HubKind>)

  /** The events a sequence of `handle_event` calls published, in order. */
  function PublishedEvents(hs: seq<Handled>): seq<AnyEvent>
    decreases |hs|
  {
    if hs == [] then []
    else PublishedEvents(hs[..|hs| - 1]) + (if hs[|hs| - 1].Published? then [hs[|hs| - 1].event] else [])
  }

  /** What one `handle_event` makes of one `recv` on its port. */
  function Outcome(r: RecvResult<Json>): (h: Handled)
    ensures h.Idle? <==> r.Empty?
    ensures h.Panicked? <==> r.Lagged?
    ensures h.Published? ==> r.Received? && DecodeAnyEvent(r.value) == Ok(h.event) && h.hubs == Targets(h.event)
    ensures h.DecodeFailed? ==> r.Received? && DecodeAnyEvent(r.value) == Err(h.error)
  {
    match r
    case Empty => Idle
    case Lagged(_) => Panicked
    case Received(raw) =>
      match DecodeAnyEvent(raw)
      case Err(e) => DecodeFailed(e)
      case Ok(ev) => Published(ev, Targets(ev))
  }

  /**
   * At most `passes` more calls of `handle_event` on a port at `cursor` over
   * the raw event log `log`, after the outcomes `done`: every outcome in
   * order, and the final cursor. A lag panics and ends the loop.
   */
  function HandleRun(log: seq<Json>, cursor: nat, passes: nat, done: seq<Handled>): (seq<Handled>, nat)
    requires cursor <= |log|
    decreases passes
  {
    if passes == 0 then (done, cursor)
    else
      var (r, next) := Deliver(log, cursor);
      if r.Lagged? then (done + [Panicked], next)
      else HandleRun(log, next, passes - 1, done + [Outcome(r)])
  }

  /** The outcomes of reading each of `raws` in turn. */
  function ReadOutcomes(raws: seq<Json>): seq<Handled>
  {
    seq(|raws|, i requires 0 <= i < |raws| => Outcome(Received(raws[i])))
  }

  /** `n` calls that found nothing to read. */
  function Idles(n: nat): seq<Handled>
  {
    seq(n, _ => Idle)
  }

  /** A pass on a port within the window and before the tail reads the value at its cursor. */
  lemma HandleRunReads(log: seq<Json>, cursor: nat, passes: nat, done: seq<Handled>)
    requires cursor < |log| && |log| - cursor <= Capacity && passes > 0
    ensures HandleRun(log, cursor, passes, done) ==
            HandleRun(log, cursor + 1, passes - 1, done + [Outcome(Received(log[cursor]))])
  {
  }

  /** A pass on a port at the tail finds nothing. */
  lemma HandleRunIdles(log: seq<Json>, passes: nat, done: seq<Handled>)
    requires passes > 0
    ensures HandleRun(log, |log|, passes, done) == HandleRun(log, |log|, passes - 1, done + [Idle])
  {
  }

  lemma ReadOutcomesCons(log: seq<Json>, cursor: nat, last: nat)
    requires cursor < last <= |log|
    ensures [Outcome(Received(log[cursor]))] + ReadOutcomes(log[cursor + 1..last]) == ReadOutcomes(log[cursor..last])
  {
  }

  lemma IdlesCons(n: nat)
    ensures [Idle] + Idles(n) == Idles(n + 1)
  {
  }

  /** How far a port at most `Capacity` behind gets in `passes` calls: `passes` values on, or the tail. */
  function Reached(log: seq<Json>, cursor: nat, passes: nat): (last: nat)
    requires cursor <= |log|
    ensures cursor <= last <= |log|
  {
    if cursor + passes <= |log| then cursor + passes else |log|
  }

  /** The outcomes of a port at most `Capacity` behind: what it reads, then nothing. */
  function WithinCapacity(log: seq<Json>, cursor: nat, passes: nat, done: seq<Handled>): (seq<Handled>, nat)
    requires cursor <= |log|
  {
    var last := Reached(log, cursor, passes);
    (done + ReadOutcomes(log[cursor..last]) + Idles(passes - (last - cursor)), last)
  }

  lemma IdleStep(log: seq<Json>, passes: nat, done: seq<Handled>)
    requires passes > 0
    ensures WithinCapacity(log, |log|, passes - 1, done + [Idle]) == WithinCapacity(log, |log|, passes, done)
  {
    assert log[|log|..|log|] == [] && ReadOutcomes([]) == [];
    IdlesCons(passes - 1);
    assert done + [Idle] + [] + Idles(passes - 1) == done + [] + Idles(passes);
  }

  lemma ReadStep(log: seq<Json>, cursor: nat, passes: nat, done: seq<Handled>)
    requires cursor < |log| && passes > 0
    ensures WithinCapacity(log, cursor + 1, passes - 1, done + [Outcome(Received(log[cursor]))]) ==
            WithinCapacity(log, cursor, passes, done)
  {
    var last := Reached(log, cursor, passes);
    assert Reached(log, cursor + 1, passes - 1) == last;
    ReadOutcomesCons(log, cursor, last);
    var o := Outcome(Received(log[cursor]));
    assert done + [o] + ReadOutcomes(log[cursor + 1..last]) == done + ReadOutcomes(log[cursor..last]);
  }

  /**
   * A port at most `Capacity` behind never lags: it reads the log in order
   * up to its tail, one outcome per value, and every pass after that finds
   * nothing.
   */
  lemma {:induction false} HandleRunWithinCapacity(log: seq<Json>, cursor: nat, passes: nat, done: seq<Handled>)
    requires cursor <= |log| && |log| - cursor <= Capacity
    ensures HandleRun(log, cursor, passes, done) == WithinCapacity(log, cursor, passes, done)
    decreases passes
  {
    if passes == 0 {
      assert log[cursor..cursor] == [] && ReadOutcomes([]) == [] && Idles(0) == [];
      assert done + [] + [] == done;
    } else if cursor == |log| {
      HandleRunIdles(log, passes, done);
      HandleRunWithinCapacity(log, cursor, passes - 1, done + [Idle]);
      IdleStep(log, passes, done);
    } else {
      HandleRunReads(log, cursor, passes, done);
      HandleRunWithinCapacity(log, cursor + 1, passes - 1, done + [Outcome(Received(log[cursor]))]);
      ReadStep(log, cursor, passes, done);
    }
  }

  class EventHubs {
    const allEventHub: SignalHub<AnyEvent>
    const privateMessageHub: SignalHub<PrivateMessageEvent>
    const groupMessageHub: SignalHub<GroupMessageEvent>
    const heartbeatHub: SignalHub<HeartBeatEvent>
    const lifecycleHub: SignalHub<LifeCycleEvent>

    /** `EventHubs::new`: five fresh, empty hubs. */
    constructor ()
      ensures fresh(allEventHub) && fresh(privateMessageHub) && fresh(groupMessageHub)
      ensures fresh(heartbeatHub) && fresh(lifecycleHub)
      ensures allEventHub.log == [] && privateMessageHub.log == [] && groupMessageHub.log == []
      ensures heartbeatHub.log == [] && lifecycleHub.log == []
    {
      allEventHub := new SignalHub();
      privateMessageHub := new SignalHub();
      groupMessageHub := new SignalHub();
      heartbeatHub := new SignalHub();
      lifecycleHub := new SignalHub();
    }

    /** `get_nexus`: a read handle sharing these very hubs. */
    method GetNexus() returns (n: EventNexus)
      ensures fresh(n)
      ensures n.allEventHub == allEventHub && n.privateMessageHub == privateMessageHub
      ensures n.groupMessageHub == groupMessageHub && n.heartbeatHub == heartbeatHub
      ensures n.lifecycleHub == lifecycleHub
    {
      n := new EventNexus(allEventHub, privateMessageHub, groupMessageHub, heartbeatHub, lifecycleHub);
    }
  }

  /** The subscriber side of the event hubs, handed to plugins. */
  class EventNexus {
    const allEventHub: SignalHub<AnyEvent>
    const privateMessageHub: SignalHub<PrivateMessageEvent>
    const groupMessageHub: SignalHub<GroupMessageEvent>
    const heartbeatHub: SignalHub<HeartBeatEvent>
    const lifecycleHub: SignalHub<LifeCycleEvent>

    constructor (
      allEventHub: SignalHub<AnyEvent>,
      privateMessageHub: SignalHub<PrivateMessageEvent>,
      groupMessageHub: SignalHub<GroupMessageEvent>,
      heartbeatHub: SignalHub<HeartBeatEvent>,
      lifecycleHub: SignalHub<LifeCycleEvent>)
      ensures this.allEventHub == allEventHub && this.privateMessageHub == privateMessageHub
      ensures this.groupMessageHub == groupMessageHub && this.heartbeatHub == heartbeatHub
      ensures this.lifecycleHub == lifecycleHub
    {
      this.allEventHub := allEventHub;
      this.privateMessageHub := privateMessageHub;
      this.groupMessageHub := groupMessageHub;
      this.heartbeatHub := heartbeatHub;
      this.lifecycleHub := lifecycleHub;
    }

    /** `Clone`: another handle on the same five hubs. */
    method Clone() returns (n: EventNexus)
      ensures fresh(n)
      ensures n.allEventHub == allEventHub && n.privateMessageHub == privateMessageHub
      ensures n.groupMessageHub == groupMessageHub && n.heartbeatHub == heartbeatHub
      ensures n.lifecycleHub == lifecycleHub
    {
      n := new EventNexus(allEventHub, privateMessageHub, groupMessageHub, heartbeatHub, lifecycleHub);
    }

    method GetPrivateMessagePort() returns (p: SignalPort<PrivateMessageEvent>)
      modifies privateMessageHub
      ensures fresh(p) && p.hub == privateMessageHub && p.cursor == |privateMessageHub.log| && p.Valid()
      ensures privateMessageHub.log == old(privateMessageHub.log) && privateMessageHub.queue == old(privateMessageHub.queue)
      ensures privateMessageHub.receivers == old(privateMessageHub.receivers) + 1
    {
      p := privateMessageHub.GetPort();
    }

    method GetGroupMessagePort() returns (p: SignalPort<GroupMessageEvent>)
      modifies groupMessageHub
      ensures fresh(p) && p.hub == groupMessageHub && p.cursor == |groupMessageHub.log| && p.Valid()
      ensures groupMessageHub.log == old(groupMessageHub.log) && groupMessageHub.queue == old(groupMessageHub.queue)
      ensures groupMessageHub.receivers == old(groupMessageHub.receivers) + 1
    {
      p := groupMessageHub.GetPort();
    }

    method GetHeartbeatPort() returns (p: SignalPort<HeartBeatEvent>)
      modifies heartbeatHub
      ensures fresh(p) && p.hub == heartbeatHub && p.cursor == |heartbeatHub.log| && p.Valid()
      ensures heartbeatHub.log == old(heartbeatHub.log) && heartbeatHub.queue == old(heartbeatHub.queue)
      ensures heartbeatHub.receivers == old(heartbeatHub.receivers) + 1
    {
      p := heartbeatHub.GetPort();
    }

    method GetLifecyclePort() returns (p: SignalPort<LifeCycleEvent>)
      modifies lifecycleHub
      ensures fresh(p) && p.hub == lifecycleHub && p.cursor == |lifecycleHub.log| && p.Valid()
      ensures lifecycleHub.log == old(lifecycleHub.log) && lifecycleHub.queue == old(lifecycleHub.queue)
      ensures lifecycleHub.receivers == old(lifecycleHub.receivers) + 1
    {
      p := lifecycleHub.GetPort();
    }

    method GetAllEventPort() returns (p: SignalPort<AnyEvent>)
      modifies allEventHub
      ensures fresh(p) && p.hub == allEventHub && p.cursor == |allEventHub.log| && p.Valid()
      ensures allEventHub.log == old(allEventHub.log) && allEventHub.queue == old(allEventHub.queue)
      ensures allEventHub.receivers == old(allEventHub.receivers) + 1
    {
      p := allEventHub.GetPort();
    }
  }

  class EventManager {
    /** The manager's port on the adapter's event hub. */
    const wsPort: SignalPort<Json>
    const hubs: EventHubs

    constructor (wsPort: SignalPort<Json>)
      ensures this.wsPort == wsPort && fresh(hubs)
      ensures fresh(hubs.allEventHub) && fresh(hubs.privateMessageHub) && fresh(hubs.groupMessageHub)
      ensures fresh(hubs.heartbeatHub) && fresh(hubs.lifecycleHub)
      ensures hubs.allEventHub.log == [] && hubs.privateMessageHub.log == [] && hubs.groupMessageHub.log == []
      ensures hubs.heartbeatHub.log == [] && hubs.lifecycleHub.log == []
    {
      this.wsPort := wsPort;
      hubs := new EventHubs();
    }

    /** `get_event_nexus`: subscribers read the hubs this manager publishes to. */
    method GetEventNexus() returns (n: EventNexus)
      ensures fresh(n)
      ensures n.allEventHub == hubs.allEventHub && n.privateMessageHub == hubs.privateMessageHub
      ensures n.groupMessageHub == hubs.groupMessageHub && n.heartbeatHub == hubs.heartbeatHub
      ensures n.lifecycleHub == hubs.lifecycleHub
    {
      n := hubs.GetNexus();
    }

    /** The sends of `handle_event`: to the all-events hub, then to the hub of the event's kind. */
    method Publish(ev: AnyEvent)
      modifies hubs.allEventHub`log, hubs.privateMessageHub`log, hubs.groupMessageHub`log
      modifies hubs.heartbeatHub`log, hubs.lifecycleHub`log
      ensures hubs.allEventHub.log == Broadcast(old(hubs.allEventHub.log), hubs.allEventHub.receivers, ev)
      ensures hubs.groupMessageHub.log ==
        if ev.Message? && ev.msg.Group?
        then Broadcast(old(hubs.groupMessageHub.log), hubs.groupMessageHub.receivers, ev.msg.group)
        else old(hubs.groupMessageHub.log)
      ensures hubs.privateMessageHub.log ==
        if ev.Message? && ev.msg.Private?
        then Broadcast(old(hubs.privateMessageHub.log), hubs.privateMessageHub.receivers, ev.msg.private)
        else old(hubs.privateMessageHub.log)
      ensures hubs.lifecycleHub.log ==
        if ev.Meta? && ev.meta.LifeCycle?
        then Broadcast(old(hubs.lifecycleHub.log), hubs.lifecycleHub.receivers, ev.meta.lifeCycle)
        else old(hubs.lifecycleHub.log)
      ensures hubs.heartbeatHub.log ==
        if ev.Meta? && ev.meta.HeartBeat?
        then Broadcast(old(hubs.heartbeatHub.log), hubs.heartbeatHub.receivers, ev.meta.heartBeat)
        else old(hubs.heartbeatHub.log)
    {
      var _ := hubs.allEventHub.Send(ev);
      match ev {
        case Message(Group(g)) =>
          var _ := hubs.groupMessageHub.Send(g);
        case Message(Private(p)) =>
          var _ := hubs.privateMessageHub.Send(p);
        case Meta(LifeCycle(l)) =>
          var _ := hubs.lifecycleHub.Send(l);
        case Meta(HeartBeat(hb)) =>
          var _ := hubs.heartbeatHub.Send(hb);
        case Notice(_) =>
        case Other =>
      }
    }

    /**
     * One `handle_event`: read the next raw event, decode it, publish it to
     * the all-events hub and then to the hub of its kind. A failed hub send
     * is ignored.
     */
    method HandleEvent() returns (h: Handled)
      requires wsPort.Valid()
      modifies wsPort`cursor
      modifies hubs.allEventHub`log, hubs.privateMessageHub`log, hubs.groupMessageHub`log
      modifies hubs.heartbeatHub`log, hubs.lifecycleHub`log
      ensures wsPort.Valid()
      ensures wsPort.cursor == Deliver(wsPort.hub.log, old(wsPort.cursor)).1
      ensures var r := Deliver(wsPort.hub.log, old(wsPort.cursor)).0;
        && (r.Empty? ==> h == Idle)
        && (r.Lagged? ==> h == Panicked)
        && (r.Received? ==>
              match DecodeAnyEvent(r.value)
              case Err(e) => h == DecodeFailed(e)
              case Ok(ev) => h == Published(ev, Targets(ev)))
      ensures h.Published? ==>
        hubs.allEventHub.log == Broadcast(old(hubs.allEventHub.log), hubs.allEventHub.receivers, h.event)
      ensures !h.Published? ==> hubs.allEventHub.log == old(hubs.allEventHub.log)
      ensures hubs.groupMessageHub.log ==
        if h.Published? && h.event.Message? && h.event.msg.Group?
        then Broadcast(old(hubs.groupMessageHub.log), hubs.groupMessageHub.receivers, h.event.msg.group)
        else old(hubs.groupMessageHub.log)
      ensures hubs.privateMessageHub.log ==
        if h.Published? && h.event.Message? && h.event.msg.Private?
        then Broadcast(old(hubs.privateMessageHub.log), hubs.privateMessageHub.receivers, h.event.msg.private)
        else old(hubs.privateMessageHub.log)
      ensures hubs.lifecycleHub.log ==
        if h.Published? && h.event.Meta? && h.event.meta.LifeCycle?
        then Broadcast(old(hubs.lifecycleHub.log), hubs.lifecycleHub.receivers, h.event.meta.lifeCycle)
        else old(hubs.lifecycleHub.log)
      ensures hubs.heartbeatHub.log ==
        if h.Published? && h.event.Meta? && h.event.meta.HeartBeat?
        then Broadcast(old(hubs.heartbeatHub.log), hubs.heartbeatHub.receivers, h.event.meta.heartBeat)
        else old(hubs.heartbeatHub.log)
    {
      var r := wsPort.Recv();
      match r {
        case Empty =>
          h := Idle;
        case Lagged(_) =>
          h := Panicked;
        case Received(raw) =>
          match DecodeAnyEvent(raw) {
            case Err(e) =>
              h := DecodeFailed(e);
            case Ok(ev) =>
              Publish(ev);
              h := Published(ev, Targets(ev));
          }
      }
    }

    /** One `handle_event`, seen from the all-events hub: at most the one decoded event is added. */
    method HandleOne() returns (h: Handled)
      requires wsPort.Valid()
      modifies wsPort`cursor
      modifies hubs.allEventHub`log, hubs.privateMessageHub`log, hubs.groupMessageHub`log
      modifies hubs.heartbeatHub`log, hubs.lifecycleHub`log
      ensures wsPort.Valid()
      ensures (h, wsPort.cursor) == (Outcome(Deliver(wsPort.hub.log, old(wsPort.cursor)).0),
                                     Deliver(wsPort.hub.log, old(wsPort.cursor)).1)
      ensures hubs.allEventHub.receivers > 0 ==>
                hubs.allEventHub.log == old(hubs.allEventHub.log) + (if h.Published? then [h.event] else [])
    {
      h := HandleEvent();
    }

    /**
     * `run`: `handle_event` again and again, here for at most `passes`
     * calls. A lag panics inside the spawned task and ends the loop for good.
     * The outcomes and the port's final cursor are `HandleRun` over the
     * raw event log. While the all-events hub has subscribers, its log grows
     * by exactly the published events, in the order they were read.
     */
    method Run(passes: nat) returns (handled: seq<Handled>)
      requires wsPort.Valid()
      modifies wsPort`cursor
      modifies hubs.allEventHub`log, hubs.privateMessageHub`log, hubs.groupMessageHub`log
      modifies hubs.heartbeatHub`log, hubs.lifecycleHub`log
      ensures wsPort.Valid()
      ensures |handled| <= passes
      ensures forall i :: 0 <= i < |handled| - 1 ==> !handled[i].Panicked?
      ensures |handled| < passes ==> handled != [] && handled[|handled| - 1].Panicked?
      ensures (handled, wsPort.cursor) == HandleRun(wsPort.hub.log, old(wsPort.cursor), passes, [])
      ensures hubs.allEventHub.receivers > 0 ==>
                hubs.allEventHub.log == old(hubs.allEventHub.log) + PublishedEvents(handled)
    {
      handled := [];
      var stopped := false;
      while |handled| < passes && !stopped
        invariant wsPort.Valid()
        invariant |handled| <= passes
        invariant stopped <==> handled != [] && handled[|handled| - 1].Panicked?
        invariant forall i :: 0 <= i < |handled| - 1 ==> !handled[i].Panicked?
        invariant HandleRun(wsPort.hub.log, old(wsPort.cursor), passes, []) ==
                  if stopped then (handled, wsPort.cursor)
                  else HandleRun(wsPort.hub.log, wsPort.cursor, passes - |handled|, handled)
        invariant hubs.allEventHub.receivers > 0 ==>
                    hubs.allEventHub.log == old(hubs.allEventHub.log) + PublishedEvents(handled)
        decreases passes - |handled|
      {
        var h := HandleOne();
        assert (handled + [h])[..|handled|] == handled;
        handled := handled + [h];
        stopped := h.Panicked?;
      }
    }
  }
}
