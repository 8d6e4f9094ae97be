/**
 * The realtime-channel hook: one room subscription whose lifecycle is driven by the
 * effect run, the channel's status callbacks, an optional reconnect timer and the
 * teardown. The Supabase client is a registry of channels, each an abstract record of
 * its topic, presence configuration and registered listeners.
 */
module RealtimeChannel {
  import opened Wrappers

  /** The filter a postgres-changes handler subscribes with. */
  datatype PgFilter = PgFilter(event: string, schema: string, table: string, filter: Option<string>)

  /** Callbacks are opaque; a `nat` names each one so that a dispatch can say which ran. */
  type CallbackId = nat

  type Payload = map<string, string>

  datatype PostgresHandler = PostgresHandler(filter: PgFilter, onChange: CallbackId)
  datatype BroadcastHandler = BroadcastHandler(event: string, onMessage: CallbackId)
  datatype PresenceHandler = PresenceHandler(
    key: string,
    payload: Option<Payload>,
    onSync: Option<CallbackId>,
    onJoin: Option<CallbackId>,
    onLeave: Option<CallbackId>)

  /** What the hook's refs hold: the latest handlers and callbacks passed by the caller. */
  datatype Refs = Refs(
    postgres: seq<PostgresHandler>,
    broadcast: seq<BroadcastHandler>,
    presence: Option<PresenceHandler>,
    onStatusChange: Option<CallbackId>,
    onSubscribed: Option<CallbackId>,
    onError: Option<CallbackId>)

  /**
   * A listener registered on a channel. Postgres and broadcast listeners remember only
   * their position in the handler list, because the registered callback looks the handler
   * up in the ref when it fires.
   */
  datatype Listener =
    | PostgresListener(index: nat, filter: PgFilter)
    | BroadcastListener(index: nat, event: string)
    | PresenceSync
    | PresenceJoin
    | PresenceLeave

  /** A channel handed out by the client: topic, presence key config, listeners, owning effect run. */
  datatype Channel = Channel(topic: string, presenceKey: Option<string>, listeners: seq<Listener>, run: nat)

  datatype Status = Subscribed | Closed | ChannelError | TimedOut | OtherStatus(name: string)

  datatype Transport = Socket | Http

  /** Observable effects on the caller's callbacks and on the socket. */
  datatype Event =
    | StatusNotified(callback: CallbackId, status: Status)
    | SubscribedNotified(callback: CallbackId)
    | ErrorNotified(callback: CallbackId, status: Status)
    | Tracked(channel: nat, payload: Payload)
    | Sent(channel: nat, via: Transport, event: string, payload: Payload)

  /** The callback a delivered listener event ends up calling, if any. */
  datatype Callback =
    | OnChange(id: CallbackId)
    | OnMessage(id: CallbackId)
    | OnSync(id: CallbackId)
    | OnJoin(id: CallbackId)
    | OnLeave(id: CallbackId)

  // ---------------------------------------------------------------------------
  // Listener registration
  // ---------------------------------------------------------------------------

  function PostgresListeners(pg: seq<PostgresHandler>): seq<Listener> {
    seq(|pg|, k requires 0 <= k < |pg| => PostgresListener(k, pg[k].filter))
  }

  function BroadcastListeners(bc: seq<BroadcastHandler>): seq<Listener> {
    seq(|bc|, k requires 0 <= k < |bc| => BroadcastListener(k, bc[k].event))
  }

  function PresenceListeners(pr: Option<PresenceHandler>): seq<Listener> {
    if pr.Some? then [PresenceSync, PresenceJoin, PresenceLeave] else []
  }

  /**
   * The listeners `subscribe` registers on a fresh channel: one per postgres handler, in
   * order, then one per broadcast handler, then the three presence listeners when a
   * presence handler is set.
   */
  function Listeners(r: Refs): (ls: seq<Listener>)
    ensures |ls| == |r.postgres| + |r.broadcast| + (if r.presence.Some? then 3 else 0)
    ensures forall k :: 0 <= k < |r.postgres| ==> ls[k] == PostgresListener(k, r.postgres[k].filter)
    ensures forall k :: 0 <= k < |r.broadcast| ==>
      ls[|r.postgres| + k] == BroadcastListener(k, r.broadcast[k].event)
    ensures r.presence.Some? ==>
      ls[|r.postgres| + |r.broadcast|..] == [PresenceSync, PresenceJoin, PresenceLeave]
  {
    PostgresListeners(r.postgres) + BroadcastListeners(r.broadcast) + PresenceListeners(r.presence)
  }

  /** The two `forEach` loops and the presence chain of `subscribe`, one `.on` call at a time. */
  method RegisterListeners(r: Refs) returns (ls: seq<Listener>)
    ensures ls == Listeners(r)
  {
    ls := [];
    for index := 0 to |r.postgres|
      invariant |ls| == index
      invariant forall k :: 0 <= k < index ==> ls[k] == PostgresListener(k, r.postgres[k].filter)
    {
      ls := ls + [PostgresListener(index, r.postgres[index].filter)];
    }
    for index := 0 to |r.broadcast|
      invariant |ls| == |r.postgres| + index
      invariant forall k :: 0 <= k < |r.postgres| ==> ls[k] == PostgresListener(k, r.postgres[k].filter)
      invariant forall k :: 0 <= k < index ==>
        ls[|r.postgres| + k] == BroadcastListener(k, r.broadcast[k].event)
    {
      ls := ls + [BroadcastListener(index, r.broadcast[index].event)];
    }
    if r.presence.Some? {
      ls := ls + [PresenceSync, PresenceJoin, PresenceLeave];
    }
    var want := Listeners(r);
    assert |ls| == |want|;
    forall k | 0 <= k < |ls| ensures ls[k] == want[k] {
      if k >= |r.postgres| + |r.broadcast| {
        assert ls[k] == want[|r.postgres| + |r.broadcast|..][k - |r.postgres| - |r.broadcast|];
      } else if k >= |r.postgres| {
        assert ls[|r.postgres| + (k - |r.postgres|)] == want[|r.postgres| + (k - |r.postgres|)];
      }
    }
  }

  /** The channel option built from `presenceRef.current?.key`: a key only when non-empty. */
  function PresenceKey(pr: Option<PresenceHandler>): (k: Option<string>)
    ensures k.Some? <==> pr.Some? && pr.value.key != ""
    ensures k.Some? ==> k.value == pr.value.key
  {
    if pr.Some? && pr.value.key != "" then Some(pr.value.key) else None
  }

  /** The callback a listener calls when its event arrives, looked up in the current refs. */
  function Target(l: Listener, r: Refs): Option<Callback> {
    match l
    case PostgresListener(i, _) =>
      if i < |r.postgres| then Some(OnChange(r.postgres[i].onChange)) else None
    case BroadcastListener(i, _) =>
      if i < |r.broadcast| then Some(OnMessage(r.broadcast[i].onMessage)) else None
    case PresenceSync =>
      if r.presence.Some? && r.presence.value.onSync.Some? then Some(OnSync(r.presence.value.onSync.value)) else None
    case PresenceJoin =>
      if r.presence.Some? && r.presence.value.onJoin.Some? then Some(OnJoin(r.presence.value.onJoin.value)) else None
    case PresenceLeave =>
      if r.presence.Some? && r.presence.value.onLeave.Some? then Some(OnLeave(r.presence.value.onLeave.value)) else None
  }

  /**
   * A postgres or broadcast listener registered from the handlers in `built` calls the
   * handler found at the same position in the CURRENT refs `now`, whatever handler was
   * there at subscribe time, and nothing when the current list has become shorter.
   */
  lemma ListenerUsesCurrentHandler(built: Refs, now: Refs, k: nat)
    requires k < |built.postgres| + |built.broadcast|
    ensures k < |built.postgres| ==>
      Target(Listeners(built)[k], now) ==
        (if k < |now.postgres| then Some(OnChange(now.postgres[k].onChange)) else None)
    ensures |built.postgres| <= k ==>
      var j := k - |built.postgres|;
      Target(Listeners(built)[k], now) ==
        (if j < |now.broadcast| then Some(OnMessage(now.broadcast[j].onMessage)) else None)
  {
    if |built.postgres| <= k {
      var j := k - |built.postgres|;
      assert Listeners(built)[|built.postgres| + j] == BroadcastListener(j, built.broadcast[j].event);
    }
  }

  // ---------------------------------------------------------------------------
  // Status handling
  // ---------------------------------------------------------------------------

  /** What the status callback of an active run decides, before anything is logged. */
  datatype Reaction = Reaction(
    subscribed: bool,
    reconnect: bool,
    notifySubscribed: bool,
    notifyError: bool,
    track: Option<Payload>)

  function StatusReaction(pr: Option<PresenceHandler>, wasSubscribed: bool, status: Status): (x: Reaction)
    ensures status == Subscribed ==> x.subscribed && x.notifySubscribed && !x.reconnect && !x.notifyError
    ensures status == Subscribed ==>
      x.track == (if pr.Some? && pr.value.payload.Some? then pr.value.payload else None)
    ensures status == Closed ==> !x.subscribed && x.reconnect && x.notifyError == wasSubscribed
    ensures status == ChannelError || status == TimedOut ==> !x.subscribed && x.reconnect && x.notifyError
    ensures status.OtherStatus? ==> x == Reaction(wasSubscribed, false, false, false, None)
    ensures x.track.Some? ==> status == Subscribed
    ensures x.notifySubscribed <==> status == Subscribed
  {
    match status
    case Subscribed =>
      var track := if pr.Some? && pr.value.payload.Some? then pr.value.payload else None;
      Reaction(true, false, true, false, track)
    case Closed => Reaction(false, true, false, wasSubscribed, None)
    case ChannelError => Reaction(false, true, false, true, None)
    case TimedOut => Reaction(false, true, false, true, None)
    case OtherStatus(_) => Reaction(wasSubscribed, false, false, false, None)
  }

  /** The callbacks the status callback calls, in order, and the presence track on `gen`. */
  function ReactionEvents(r: Refs, gen: nat, status: Status, x: Reaction): (es: seq<Event>)
    ensures r.onError.Some? ==> (ErrorNotified(r.onError.value, status) in es <==> x.notifyError)
    ensures r.onError.None? || !x.notifyError ==> forall e :: e in es ==> !e.ErrorNotified?
    ensures r.onSubscribed.Some? ==> (SubscribedNotified(r.onSubscribed.value) in es <==> x.notifySubscribed)
    ensures r.onSubscribed.None? || !x.notifySubscribed ==> forall e :: e in es ==> !e.SubscribedNotified?
    ensures r.onStatusChange.Some? ==> |es| > 0 && es[0] == StatusNotified(r.onStatusChange.value, status)
  {
    (if r.onStatusChange.Some? then [StatusNotified(r.onStatusChange.value, status)] else [])
    + (if x.notifySubscribed && r.onSubscribed.Some? then [SubscribedNotified(r.onSubscribed.value)] else [])
    + (if x.notifyError && r.onError.Some? then [ErrorNotified(r.onError.value, status)] else [])
    + (if x.track.Some? then [Tracked(gen, x.track.value)] else [])
  }

  // ---------------------------------------------------------------------------
  // broadcastMessage
  // ---------------------------------------------------------------------------

  /** How `broadcastMessage` sends: over the socket when subscribed, else over HTTP if it can. */
  function Route(hasChannel: bool, subscribed: bool, hasHttpSend: bool): (t: Option<Transport>)
    ensures t == Some(Socket) <==> hasChannel && subscribed
    ensures t == Some(Http) <==> hasChannel && !subscribed && hasHttpSend
    ensures t.None? <==> !hasChannel || (!subscribed && !hasHttpSend)
  {
    if !hasChannel then None
    else if subscribed then Some(Socket)
    else if hasHttpSend then Some(Http)
    else None
  }

  /** `payload ?? {}`. */
  function SafePayload(p: Option<Payload>): (q: Payload)
    ensures p.None? ==> q == map[]
    ensures p.Some? ==> q == p.value
  {
    p.GetOr(map[])
  }

  /** The effect's dependency signature: what decides whether the subscription is rebuilt. */
  datatype PresenceSignature = PresenceSignature(key: string, payload: Option<Payload>, hasSync: bool, hasJoin: bool, hasLeave: bool)
  datatype Deps = Deps(
    enabled: bool,
    key: string,
    postgres: seq<PgFilter>,
    broadcast: seq<string>,
    presence: Option<PresenceSignature>)

  function Signature(enabled: bool, key: string, r: Refs): (d: Deps)
    ensures |d.postgres| == |r.postgres| && |d.broadcast| == |r.broadcast|
    ensures d.presence.Some? <==> r.presence.Some?
  {
    Deps(
      enabled, key,
      seq(|r.postgres|, k requires 0 <= k < |r.postgres| => r.postgres[k].filter),
      seq(|r.broadcast|, k requires 0 <= k < |r.broadcast| => r.broadcast[k].event),
      if r.presence.None? then None
      else
        var p := r.presence.value;
        Some(PresenceSignature(p.key, p.payload, p.onSync.Some?, p.onJoin.Some?, p.onLeave.Some?)))
  }

  // ---------------------------------------------------------------------------
  // The hook
  // ---------------------------------------------------------------------------

  class Hook {
    /** The handler and callback refs. */
    var refs: Refs
    /** `subscribedRef.current`. */
    var subscribed: bool
    /** The live channel's generation: `channelRef.current` and the run's `channel` at once. */
    var channel: Option<nat>
    /** The current effect run's `isActive`; false when no run is set up or after teardown. */
    var isActive: bool
    /** Whether the current run's `reconnectTimer` is pending: there is at most one. */
    var timerArmed: bool
    /** Number of effect runs set up so far; the current run when `isActive`. */
    var run: nat
    /** The key of the current run. */
    var key: string
    /** The dependencies the current effect run was set up with. */
    var deps: Deps
    /** Every channel the client has handed out; a channel's index is its generation. */
    var channels: seq<Channel>
    /** Channels not yet removed from the client. */
    var live: set<nat>
    /** Callbacks called and messages sent, in order. */
    var log: seq<Event>

    ghost predicate Valid()
      reads this
    {
      && (isActive <==> channel.Some?)
      && (subscribed ==> isActive)
      && (timerArmed ==> isActive)
      && (channel.None? ==> live == {})
      && (channel.Some? ==>
            channel.value < |channels| && live == {channel.value} && channels[channel.value].run == run)
    }

    /** The channel `subscribe` creates now. */
    ghost function NextChannel(): Channel
      reads this
    {
      Channel(key, PresenceKey(refs.presence), Listeners(refs), run)
    }

    /** Mount: the refs take the first arguments and the effect runs. */
    constructor(enabled: bool, key0: string, r: Refs)
      ensures Valid() && refs == r && log == [] && !timerArmed && !subscribed
      ensures deps == Signature(enabled, key0, r)
      ensures enabled && key0 != "" ==>
        isActive && channels == [Channel(key0, PresenceKey(r.presence), Listeners(r), 1)] && channel == Some(0)
      ensures !enabled || key0 == "" ==> !isActive && channels == [] && channel == None
    {
      refs := r;
      subscribed := false;
      channel := None;
      isActive := false;
      timerArmed := false;
      run := 0;
      key := "";
      deps := Signature(enabled, key0, r);
      channels := [];
      live := {};
      log := [];
      new;
      Effect(enabled, key0);
    }

    /**
     * The effect body: nothing at all when disabled or the key is empty; otherwise a new
     * active run with no timer, subscribed once.
     */
    method Effect(enabled: bool, k: string)
      requires Valid() && !isActive
      modifies this
      ensures Valid()
      ensures !enabled || k == "" ==> unchanged(this)
      ensures enabled && k != "" ==>
        && isActive && !timerArmed && !subscribed && run == old(run) + 1 && key == k
        && channels == old(channels) + [NextChannel()]
        && channel == Some(|old(channels)|) && live == {|old(channels)|}
        && refs == old(refs) && log == old(log) && deps == old(deps)
    {
      if !enabled || k == "" {
        return;
      }
      run := run + 1;
      key := k;
      isActive := true;
      timerArmed := false;
      Subscribe();
    }

    /** `subscribe`: a brand-new channel carrying the listeners built from the current refs. */
    method Subscribe()
      requires isActive && channel.None? && !subscribed && live == {}
      modifies this
      ensures Valid()
      ensures channels == old(channels) + [NextChannel()]
      ensures channel == Some(|old(channels)|) && live == {|old(channels)|} && !subscribed
      ensures isActive && timerArmed == old(timerArmed) && run == old(run) && key == old(key)
      ensures refs == old(refs) && log == old(log) && deps == old(deps)
    {
      var ls := RegisterListeners(refs);
      var gen := |channels|;
      channels := channels + [Channel(key, PresenceKey(refs.presence), ls, run)];
      live := live + {gen};
      subscribed := false;
      channel := Some(gen);
    }

    /** `cleanup`: clear the timer, remove the channel, forget it and the subscribed flag. */
    method Cleanup()
      requires channel.None? ==> live == {}
      requires channel.Some? ==> live == {channel.value}
      modifies this
      ensures !timerArmed && channel.None? && live == {} && !subscribed
      ensures isActive == old(isActive) && run == old(run) && key == old(key)
      ensures channels == old(channels) && refs == old(refs) && log == old(log) && deps == old(deps)
    {
      timerArmed := false;
      if channel.Some? {
        live := live - {channel.value};
      }
      channel := None;
      subscribed := false;
    }

    /** `scheduleReconnect`: arms the timer only while active and when none is pending. */
    method ScheduleReconnect()
      modifies this
      ensures timerArmed == (old(timerArmed) || isActive)
      ensures isActive == old(isActive) && subscribed == old(subscribed) && channel == old(channel)
      ensures run == old(run) && key == old(key) && channels == old(channels) && live == old(live)
      ensures refs == old(refs) && log == old(log) && deps == old(deps)
    {
      if !isActive || timerArmed {
        return;
      }
      timerArmed := true;
    }

    /**
     * The reconnect timer fires. With no timer pending nothing happens; otherwise the timer
     * is cleared, and an active run cleans up and subscribes again on a new channel.
     */
    method TimerFires()
      requires Valid()
      modifies this
      ensures Valid() && !timerArmed
      ensures !old(timerArmed) ==> unchanged(this)
      ensures old(timerArmed) ==>
        && isActive && !subscribed && run == old(run)
        && channels == old(channels) + [NextChannel()]
        && channel == Some(|old(channels)|) && live == {|old(channels)|}
      ensures refs == old(refs) && log == old(log) && deps == old(deps) && key == old(key)
    {
      // A pending timer implies an active run: teardown clears the timer, so the
      // callback's own `isActive` guard never stops it.
      if timerArmed {
        timerArmed := false;
        Cleanup();
        Subscribe();
      }
    }

    /**
     * The status callback registered on channel `gen`. It does nothing unless that channel
     * belongs to the run that is still active; otherwise it notifies the callbacks and
     * applies the reaction, scheduling a reconnect when the reaction asks for one.
     */
    method OnStatus(gen: nat, status: Status)
      requires Valid() && gen < |channels|
      modifies this
      ensures Valid()
      ensures !(old(isActive) && old(channels)[gen].run == old(run)) ==> unchanged(this)
      ensures old(isActive) && old(channels)[gen].run == old(run) ==>
        var x := StatusReaction(old(refs).presence, old(subscribed), status);
        && subscribed == x.subscribed
        && timerArmed == (old(timerArmed) || x.reconnect)
        && log == old(log) + ReactionEvents(old(refs), old(channel).value, status, x)
        && isActive && channel == old(channel) && channels == old(channels) && live == old(live)
        && refs == old(refs) && run == old(run) && deps == old(deps)
    {
      if !(isActive && channels[gen].run == run) {
        return;
      }
      var x := StatusReaction(refs.presence, subscribed, status);
      log := log + ReactionEvents(refs, channel.value, status, x);
      subscribed := x.subscribed;
      if x.reconnect {
        ScheduleReconnect();
      }
    }

    /** The effect's cleanup function: deactivate the run and clean up. */
    method Teardown()
      requires Valid()
      modifies this
      ensures Valid()
      ensures !isActive && !timerArmed && channel.None? && live == {} && !subscribed
      ensures channels == old(channels) && run == old(run) && key == old(key)
      ensures refs == old(refs) && log == old(log) && deps == old(deps)
    {
      if isActive {
        isActive := false;
        Cleanup();
      }
    }

    /**
     * A re-render with new arguments: the refs always take the new handlers; only a change
     * of the dependency signature tears the run down and sets up a new one.
     */
    method Rerender(enabled: bool, k: string, r: Refs)
      requires Valid()
      modifies this
      ensures Valid() && refs == r && log == old(log)
      ensures Signature(enabled, k, r) == old(deps) ==>
        && isActive == old(isActive) && timerArmed == old(timerArmed) && subscribed == old(subscribed)
        && channel == old(channel) && channels == old(channels) && live == old(live)
      ensures Signature(enabled, k, r) != old(deps) ==>
        && deps == Signature(enabled, k, r) && !timerArmed && !subscribed
        && (!enabled || k == "" ==> !isActive && channel.None? && channels == old(channels))
        && (enabled && k != "" ==>
              && isActive && channels == old(channels) + [Channel(k, PresenceKey(r.presence), Listeners(r), old(run) + 1)]
              && channel == Some(|old(channels)|) && live == {|old(channels)|})
    {
      var d := Signature(enabled, k, r);
      var changed := d != deps;
      if changed {
        Teardown();
      }
      refs := r;
      if changed {
        deps := d;
        Effect(enabled, k);
      }
    }

    /**
     * `broadcastMessage(event, payload)`: false without a channel; true after sending over
     * the socket when subscribed; otherwise true exactly when the channel offers HTTP
     * sending, after sending that way. `hasHttpSend` says whether the client's channel
     * object has `httpSend`.
     */
    method BroadcastMessage(event: string, payload: Option<Payload>, hasHttpSend: bool) returns (ok: bool)
      requires Valid()
      modifies this
      ensures Valid()
      ensures ok <==> Route(old(channel).Some?, old(subscribed), hasHttpSend).Some?
      ensures var t := Route(old(channel).Some?, old(subscribed), hasHttpSend);
        log == old(log) + (if t.Some? then [Sent(old(channel).value, t.value, event, SafePayload(payload))] else [])
      ensures refs == old(refs) && subscribed == old(subscribed) && channel == old(channel)
      ensures isActive == old(isActive) && timerArmed == old(timerArmed) && run == old(run)
      ensures channels == old(channels) && live == old(live) && deps == old(deps) && key == old(key)
    {
      var t := Route(channel.Some?, subscribed, hasHttpSend);
      if t.None? {
        return false;
      }
      log := log + [Sent(channel.value, t.value, event, SafePayload(payload))];
      return true;
    }
  }

}
