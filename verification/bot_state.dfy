/**
 * The forwarding state machine: Idle and Running, the Running state's rotation cursor,
 * one iteration of the periodic rotation task (`Tick`), and the delivery helpers of the
 * running state and of the bot context.
 *
 * Telegram is reached only through oracles: `forward` (one `_forward_specific_message`
 * call), `send` (one `forward_message` call to one target chat) and `probe` (the
 * `get_messages` existence probe). Time is an integer parameter.
 */
module BotState {
  import opened Wrappers
  import opened Text
  import opened Repository
  import opened Lists
  import opened Rotation

  /** The context's map of recently unforwardable messages, with the time each was recorded. */
  class UnavailableCache {
    var entries: map<MsgKey, int>

    constructor ()
      ensures entries == map[]
    {
      entries := map[];
    }

    /** Rebuilds the map keeping only the entries younger than 30 minutes. */
    method SweepExpired(now: int)
      modifies this
      ensures entries == Sweep(old(entries), now)
    {
      entries := Sweep(entries, now);
    }

    method Suppress(key: MsgKey, t: int)
      modifies this
      ensures entries == old(entries)[key := t]
    {
      entries := entries[key := t];
    }
  }

  // ---------------------------------------------------------------------
  // Availability check and delivery

  datatype CheckInfo = CheckInfo(channel: string, messageId: int, checkTime: int)
  datatype CheckResult = CheckResult(available: bool, info: CheckInfo)

  /** `_check_message`: a stub that reports every message as available. */
  function CheckMessage(channel: string, messageId: int, now: int): (r: CheckResult)
    ensures r.available
    ensures r.info.channel == channel && r.info.messageId == messageId
  {
    CheckResult(true, CheckInfo(channel, messageId, now))
  }

  /** The counters and the IDs handed to `forward`, in call order, of one delivery pass. */
  datatype Report = Report(window: seq<int>, delivered: seq<int>, forwarded: nat, skipped: nat, errors: nat)

  const EmptyReport := Report([], [], 0, 0, 0)

  /** One more window ID: it is kept exactly when the map does not hold it. */
  lemma AvailableStep(window: seq<int>, channel: string, suppressed: map<MsgKey, int>, i: nat)
    requires i < |window|
    ensures Available(window[..i + 1], channel, suppressed) == Available(window[..i], channel, suppressed)
              + (if MsgKey(channel, window[i]) in suppressed then [] else [window[i]])
  {
    assert window[..i + 1][..i] == window[..i];
  }

  /**
   * The check phase: every window ID not in the unavailability map is checked, and the
   * IDs reported available are collected in window order.
   */
  method ProbeWindow(channel: string, window: seq<int>, suppressed: map<MsgKey, int>, now: int)
    returns (available: seq<int>)
    ensures available == Available(window, channel, suppressed)
  {
    available := [];
    var i := 0;
    while i < |window|
      invariant 0 <= i <= |window|
      invariant available == Available(window[..i], channel, suppressed)
    {
      var id := window[i];
      AvailableStep(window, channel, suppressed, i);
      if MsgKey(channel, id) !in suppressed {
        var result := CheckMessage(channel, id, now);
        if result.available {
          available := available + [result.info.messageId];
        }
      }
      i := i + 1;
    }
    assert window[..i] == window;
  }

  /**
   * The delivery phase: forwards the available IDs one at a time in list order and counts
   * the outcomes. `skipped` starts at the number of window IDs that were not checked.
   * When `recordFailures` holds (the periodic task), every ID whose forward returned False
   * or raised is entered into the unavailability map with time `now`.
   */
  method DeliverInOrder(channel: string, window: seq<int>, available: seq<int>, cache: UnavailableCache,
                        forward: int -> Delivery, now: int, recordFailures: bool)
    returns (report: Report)
    requires |available| <= |window|
    modifies cache
    ensures report.window == window && report.delivered == available
    ensures report.forwarded == CountOf(available, forward, Delivered)
    ensures report.skipped == |window| - |available| + CountOf(available, forward, NotDelivered)
    ensures report.errors == CountOf(available, forward, Raised)
    ensures report.forwarded + report.skipped + report.errors == |window|
    ensures cache.entries == if recordFailures then Record(old(cache.entries), channel, available, forward, now)
                             else old(cache.entries)
  {
    var forwarded, skipped, errors := 0, |window| - |available|, 0;
    var sent: seq<int> := [];
    var i := 0;
    while i < |available|
      invariant 0 <= i <= |available|
      invariant sent == available[..i]
      invariant forwarded == CountOf(available[..i], forward, Delivered)
      invariant skipped == |window| - |available| + CountOf(available[..i], forward, NotDelivered)
      invariant errors == CountOf(available[..i], forward, Raised)
      invariant cache.entries == if recordFailures then Record(old(cache.entries), channel, available[..i], forward, now)
                                 else old(cache.entries)
    {
      var id := available[i];
      assert available[..i + 1][..i] == available[..i];
      var outcome := forward(id);
      sent := sent + [id];
      match outcome {
        case Delivered =>
          forwarded := forwarded + 1;
        case NotDelivered =>
          if recordFailures {
            cache.Suppress(MsgKey(channel, id), now);
          }
          skipped := skipped + 1;
        case Raised =>
          errors := errors + 1;
          if recordFailures {
            cache.Suppress(MsgKey(channel, id), now);
          }
      }
      i := i + 1;
    }
    assert available[..i] == available;
    CountPartition(available, forward);
    report := Report(window, sent, forwarded, skipped, errors);
  }

  // ---------------------------------------------------------------------
  // Sending one message to every target chat

  /** What one `forward_message` call to one target chat did. */
  datatype SendOutcome = Sent | Unforwardable | Blocked | ChatMissing | SendFailed

  /** A target chat is skipped when its decimal form is the source channel itself. */
  predicate IsOtherChat(chat: int, channel: string) {
    IntToString(chat) != channel
  }

  /** The target chats, in order, that received the message. */
  function SentTo(targets: seq<int>, channel: string, send: int -> SendOutcome): (r: seq<int>)
    ensures |r| <= |targets|
    ensures forall t :: t in r <==> t in targets && IsOtherChat(t, channel) && send(t) == Sent
  {
    if targets == [] then []
    else
      var last := targets[|targets| - 1];
      assert targets == targets[..|targets| - 1] + [last];
      SentTo(targets[..|targets| - 1], channel, send)
        + (if IsOtherChat(last, channel) && send(last) == Sent then [last] else [])
  }

  /** Some target chat other than the source reported the message as unforwardable. */
  predicate AnyUnforwardable(targets: seq<int>, channel: string, send: int -> SendOutcome) {
    exists t :: t in targets && IsOtherChat(t, channel) && send(t) == Unforwardable
  }

  /** One more target: it joins the reached chats or raises the unforwardable flag by its own outcome. */
  lemma SendStep(targets: seq<int>, channel: string, send: int -> SendOutcome, i: nat)
    requires i < |targets|
    ensures SentTo(targets[..i + 1], channel, send) == SentTo(targets[..i], channel, send)
              + (if IsOtherChat(targets[i], channel) && send(targets[i]) == Sent then [targets[i]] else [])
    ensures AnyUnforwardable(targets[..i + 1], channel, send) <==>
              AnyUnforwardable(targets[..i], channel, send)
              || (IsOtherChat(targets[i], channel) && send(targets[i]) == Unforwardable)
  {
    var prefix, chat := targets[..i], targets[i];
    assert targets[..i + 1] == prefix + [chat];
    assert (prefix + [chat])[..i] == prefix;
    assert chat in targets[..i + 1];
  }

  /**
   * The per-target loop shared by both forwarding paths: the source channel itself is
   * skipped, every other chat gets one send, and failures never stop the loop.
   */
  method SendToTargets(channel: string, targets: seq<int>, send: int -> SendOutcome)
    returns (sentTo: seq<int>, unforwardable: bool)
    ensures sentTo == SentTo(targets, channel, send)
    ensures unforwardable <==> AnyUnforwardable(targets, channel, send)
  {
    sentTo, unforwardable := [], false;
    var i := 0;
    while i < |targets|
      invariant 0 <= i <= |targets|
      invariant sentTo == SentTo(targets[..i], channel, send)
      invariant unforwardable <==> AnyUnforwardable(targets[..i], channel, send)
    {
      var chat := targets[i];
      SendStep(targets, channel, send, i);
      if IsOtherChat(chat, channel) {
        var outcome := send(chat);
        if outcome == Sent {
          sentTo := sentTo + [chat];
        } else if outcome == Unforwardable {
          unforwardable := true;
        }
      }
      i := i + 1;
    }
    assert targets[..i] == targets;
  }

  /** Some target chat other than the source received the message. */
  predicate ReachedSomeChat(targets: seq<int>, channel: string, send: int -> SendOutcome) {
    exists t :: t in targets && IsOtherChat(t, channel) && send(t) == Sent
  }

  /** `RunningState._forward_specific_message`: True exactly when some other target chat received it. */
  method ForwardSpecificMessage(channel: string, messageId: int, targets: seq<int>, send: int -> SendOutcome)
    returns (success: bool, sentTo: seq<int>)
    ensures sentTo == SentTo(targets, channel, send)
    ensures success <==> ReachedSomeChat(targets, channel, send)
  {
    if targets == [] {
      assert !ReachedSomeChat(targets, channel, send);
      return false, [];
    }
    var unforwardable;
    sentTo, unforwardable := SendToTargets(channel, targets, send);
    success := sentTo != [];
    if success {
      var t := sentTo[0];
      assert t in sentTo;
      assert t in targets && IsOtherChat(t, channel) && send(t) == Sent;
    } else {
      assert forall t :: t in targets && IsOtherChat(t, channel) && send(t) == Sent ==> t in sentTo;
    }
  }

  /**
   * The window pass shared by the periodic task and the inbound handler: the map is swept
   * at `t`, the window ending at `lastId` is checked, and the available IDs are forwarded
   * in ascending order, failures being recorded only when `recordFailures` holds.
   */
  method SweepAndDeliver(channel: string, lastId: int, cache: UnavailableCache, forward: int -> Delivery,
                         t: int, recordFailures: bool)
    returns (report: Report)
    modifies cache
    ensures var swept := Sweep(old(cache.entries), t);
            && report.window == Window(lastId)
            && report.delivered == Available(Window(lastId), channel, swept)
            && StrictlyAscending(report.delivered)
            && report.forwarded == CountOf(report.delivered, forward, Delivered)
            && report.errors == CountOf(report.delivered, forward, Raised)
            && report.forwarded + report.skipped + report.errors == |report.window|
            && cache.entries == if recordFailures then Record(swept, channel, report.delivered, forward, t) else swept
  {
    var window := Window(lastId);
    cache.SweepExpired(t);
    var available := ProbeWindow(channel, window, cache.entries, t);
    AvailableAscending(window, channel, cache.entries);
    report := DeliverInOrder(channel, window, available, cache, forward, t, recordFailures);
  }

  // ---------------------------------------------------------------------
  // Stamping channels

  /** Every listed channel is stamped with `now`; the other entries are kept. */
  predicate StampedAll(before: map<string, int>, after: map<string, int>, channels: seq<string>, now: int) {
    && after.Keys == before.Keys + (set c | c in channels)
    && (forall c :: c in channels ==> c in after && after[c] == now)
    && (forall c :: c in before && c !in channels ==> c in after && after[c] == before[c])
  }

  /** Sets the last-post time of every listed channel to `now`, one channel at a time. */
  method StampChannels(lastPost: map<string, int>, channels: seq<string>, now: int)
    returns (stamped: map<string, int>)
    ensures StampedAll(lastPost, stamped, channels, now)
  {
    stamped := lastPost;
    var i := 0;
    while i < |channels|
      invariant 0 <= i <= |channels|
      invariant stamped.Keys == lastPost.Keys + set c | c in channels[..i]
      invariant forall c :: c in channels[..i] ==> stamped[c] == now
      invariant forall c :: c in lastPost && c !in channels[..i] ==> stamped[c] == lastPost[c]
    {
      assert channels[..i + 1] == channels[..i] + [channels[i]];
      stamped := stamped[channels[i] := now];
      i := i + 1;
    }
    assert channels[..i] == channels;
  }

  // ---------------------------------------------------------------------
  // Interval helpers of the Running state

  /**
   * A channel may be reposted when the global interval has passed since its last post
   * and that post lies strictly in the past (the oldest-time search starts at `now`).
   */
  predicate DueForRepost(lastPost: map<string, int>, channel: string, interval: int, now: int) {
    now - LastPost(lastPost, channel) >= interval && LastPost(lastPost, channel) < now
  }

  /** `_get_channel_pair_interval`: the seconds of the record of `channel1` when it points at `channel2`. */
  function ChannelPairInterval(intervals: map<string, PairInterval>, channel1: string, channel2: string): (r: Option<int>)
    ensures r.Some? <==> channel1 in intervals && intervals[channel1].next == channel2
    ensures r.Some? ==> r.value == intervals[channel1].seconds
  {
    if channel1 in intervals && intervals[channel1].next == channel2 then Some(intervals[channel1].seconds) else None
  }

  // ---------------------------------------------------------------------
  // The Running state

  /** The rotation cursor of a Running state as one value. */
  datatype Cursor = Cursor(interval: int, autoForward: bool, lastPost: map<string, int>,
                           lastProcessed: Option<string>, lastGlobal: int, pending: map<string, seq<int>>)

  class RunningState {
    var interval: int
    var autoForward: bool
    var channelLastPost: map<string, int>
    var lastProcessed: Option<string>
    var lastGlobalPostTime: int
    var pending: map<string, seq<int>>

    function Snapshot(): Cursor
      reads this
    {
      Cursor(interval, autoForward, channelLastPost, lastProcessed, lastGlobalPostTime, pending)
    }

    /**
     * A cursor as a start leaves it: every configured channel stamped with `now`, so none
     * fires at once, nothing processed yet and nothing pending.
     */
    predicate IsFreshCursor(channels: seq<string>, now: int)
      reads this
    {
      && (forall c :: c in channelLastPost ==> c in channels)
      && (forall c :: c in channels ==> c in channelLastPost && channelLastPost[c] == now)
      && lastProcessed == None && lastGlobalPostTime == now && pending == map[]
    }

    constructor (channels: seq<string>, interval: int, autoForward: bool, now: int)
      ensures this.interval == interval && this.autoForward == autoForward
      ensures IsFreshCursor(channels, now)
    {
      var stamped := StampChannels(map[], channels, now);
      this.interval := interval;
      this.autoForward := autoForward;
      channelLastPost := stamped;
      lastProcessed := None;
      lastGlobalPostTime := now;
      pending := map[];
    }

    /** Restarts the cooldown of one channel at `t`; nothing else changes. */
    method StampChannel(channel: string, t: int)
      modifies this`channelLastPost
      ensures Snapshot() == old(Snapshot()).(lastPost := old(channelLastPost)[channel := t])
    {
      channelLastPost := channelLastPost[channel := t];
    }

    /** Flips whether inbound posts are forwarded at once; nothing else changes. */
    method ToggleAutoForward()
      modifies this`autoForward
      ensures autoForward == !old(autoForward)
    {
      autoForward := !autoForward;
    }

    /**
     * `_get_next_channel_to_repost`: among the channels due for a repost, the one posted
     * longest ago; on a tie the earliest in the list wins. None when no channel is due.
     */
    method NextChannelToRepost(channels: seq<string>, now: int) returns (next: Option<string>)
      ensures next.None? <==> forall c :: c in channels ==> !DueForRepost(channelLastPost, c, interval, now)
      ensures next.Some? ==>
                exists k :: 0 <= k < |channels| && channels[k] == next.value
                  && DueForRepost(channelLastPost, next.value, interval, now)
                  && (forall j :: 0 <= j < |channels| && DueForRepost(channelLastPost, channels[j], interval, now) ==>
                        LastPost(channelLastPost, next.value) <= LastPost(channelLastPost, channels[j]))
                  && (forall j :: 0 <= j < k && DueForRepost(channelLastPost, channels[j], interval, now) ==>
                        LastPost(channelLastPost, next.value) < LastPost(channelLastPost, channels[j]))
    {
      next := None;
      var oldestTime := now;
      ghost var k := 0;
      var i := 0;
      while i < |channels|
        invariant 0 <= i <= |channels|
        invariant next.None? ==> oldestTime == now
        invariant next.None? ==> forall j :: 0 <= j < i ==> !DueForRepost(channelLastPost, channels[j], interval, now)
        invariant next.Some? ==>
                    && 0 <= k < i && channels[k] == next.value
                    && DueForRepost(channelLastPost, next.value, interval, now)
                    && oldestTime == LastPost(channelLastPost, next.value)
                    && (forall j :: 0 <= j < i && DueForRepost(channelLastPost, channels[j], interval, now) ==>
                          oldestTime <= LastPost(channelLastPost, channels[j]))
                    && (forall j :: 0 <= j < k && DueForRepost(channelLastPost, channels[j], interval, now) ==>
                          oldestTime < LastPost(channelLastPost, channels[j]))
      {
        var t := LastPost(channelLastPost, channels[i]);
        if now - t >= interval && t < oldestTime {
          next := Some(channels[i]);
          oldestTime := t;
          k := i;
        }
        i := i + 1;
      }
    }

    /** The channel selection of the periodic task, in the shape of the source's branches. */
    method ChooseCandidate(channels: seq<string>, intervals: map<string, PairInterval>, now: int)
      returns (s: Selection)
      ensures s == SelectCandidate(channels, intervals, lastProcessed, lastGlobalPostTime, interval, now)
    {
      if |channels| == 0 {
        return NoChannels;
      }
      if lastProcessed.None? {
        return Pick(channels[0]);
      }
      var next: Option<string> := None;
      var currentIdx := IndexOf(channels, lastProcessed.value);
      if currentIdx != -1 {
        var last := lastProcessed.value;
        var nextDefined := false;
        if last in intervals && intervals[last].next in channels {
          if now - lastGlobalPostTime >= intervals[last].seconds {
            next := Some(intervals[last].next);
            nextDefined := true;
          } else {
            return Wait;
          }
        }
        if !nextDefined {
          if now - lastGlobalPostTime < interval {
            return Wait;
          }
          next := Some(channels[(currentIdx + 1) % |channels|]);
        }
      }
      if next.None? {
        next := Some(channels[0]);
      }
      return Pick(next.value);
    }

    /**
     * One iteration of the periodic rotation task. `discovered` is what the discovery
     * call yields for a channel without a stored last message (None when it finds nothing
     * or raises); `now` is the time read at the start of the iteration and `doneAt` the
     * time read again after delivery.
     */
    method Tick(channels: seq<string>, stores: Stores, cache: UnavailableCache,
                discovered: Option<int>, forward: int -> Delivery, now: int, doneAt: int)
      returns (decision: Decision, report: Report)
      modifies this, stores`lastMessages, cache
      ensures decision == Decide(channels, stores.channelIntervals, old(lastProcessed), old(lastGlobalPostTime),
                                 old(interval), old(channelLastPost), old(stores.lastMessages), discovered, now)
      ensures interval == old(interval) && autoForward == old(autoForward)
      ensures !decision.Deliver? ==>
                && report == EmptyReport
                && cache.entries == old(cache.entries)
                && stores.lastMessages == old(stores.lastMessages)
                && pending == old(pending)
                && lastProcessed == old(lastProcessed)
                && lastGlobalPostTime == old(lastGlobalPostTime)
      ensures decision.NoSources? || decision.Waiting? || decision.CoolingDown? ==>
                channelLastPost == old(channelLastPost)
      ensures decision.NoMessage? ==> channelLastPost == old(channelLastPost)[decision.channel := now]
      ensures decision.Deliver? ==>
                var c, n := decision.channel, decision.lastId;
                var swept := Sweep(old(cache.entries), now);
                && stores.lastMessages == old(stores.lastMessages)[c := n]
                && report.window == Window(n)
                && report.delivered == Available(Window(n), c, swept)
                && cache.entries == Record(swept, c, report.delivered, forward, now)
                && report.forwarded == CountOf(report.delivered, forward, Delivered)
                && report.errors == CountOf(report.delivered, forward, Raised)
                && pending == ClearPending(old(pending), c)
                && channelLastPost == old(channelLastPost)[c := doneAt]
                && lastGlobalPostTime == doneAt
                && lastProcessed == Some(c)
      ensures StrictlyAscending(report.delivered)
      ensures report.forwarded + report.skipped + report.errors == |report.window|
    {
      report := EmptyReport;
      var intervals := stores.channelIntervals;
      ghost var messages := stores.lastMessages;
      var sel := ChooseCandidate(channels, intervals, now);
      if sel.NoChannels? {
        return NoSources, report;
      }
      if sel.Wait? {
        return Waiting, report;
      }
      var c := sel.channel;
      if now - LastPost(channelLastPost, c) < interval {
        return CoolingDown(c), report;
      }
      var stored := stores.GetLastMessage(c);
      var lastId: int;
      if stored.None? || stored.value == 0 {
        if discovered.Some? && discovered.value != 0 {
          lastId := discovered.value;
          stores.SaveLastMessage(c, lastId);
        } else {
          channelLastPost := channelLastPost[c := now];
          return NoMessage(c), report;
        }
      } else {
        lastId := stored.value;
        assert messages[c := lastId] == messages;
      }
      assert ResolveLastId(messages, c, discovered) == Some(lastId);
      assert stores.channelIntervals == intervals;
      report := DeliverChannel(c, lastId, cache, forward, now, doneAt);
      decision := Deliver(c, lastId);
    }

    /**
     * The delivery half of a tick once channel `c` and its last message ID are known:
     * clears its pending IDs, sweeps the map, checks and forwards the window in ascending
     * order recording every failure, and advances the cursor to `c` at `doneAt`.
     */
    method DeliverChannel(c: string, lastId: int, cache: UnavailableCache, forward: int -> Delivery,
                          now: int, doneAt: int)
      returns (report: Report)
      modifies this, cache
      ensures interval == old(interval) && autoForward == old(autoForward)
      ensures var swept := Sweep(old(cache.entries), now);
                && report.window == Window(lastId)
                && report.delivered == Available(Window(lastId), c, swept)
                && cache.entries == Record(swept, c, report.delivered, forward, now)
                && report.forwarded == CountOf(report.delivered, forward, Delivered)
                && report.errors == CountOf(report.delivered, forward, Raised)
      ensures pending == ClearPending(old(pending), c)
      ensures channelLastPost == old(channelLastPost)[c := doneAt]
      ensures lastGlobalPostTime == doneAt && lastProcessed == Some(c)
      ensures StrictlyAscending(report.delivered)
      ensures report.forwarded + report.skipped + report.errors == |report.window|
    {
      // The pending IDs are merged into a window that the base window then replaces,
      // so they are cleared without being forwarded.
      var waitingIds := if c in pending then pending[c] else [];
      if waitingIds != [] {
        pending := pending[c := []];
      }
      report := SweepAndDeliver(c, lastId, cache, forward, now, true);
      channelLastPost := channelLastPost[c := doneAt];
      lastGlobalPostTime := doneAt;
      lastProcessed := Some(c);
    }
  }

  // ---------------------------------------------------------------------
  // The context and the two states

  datatype Mode = Idle(autoForward: bool) | Running(run: RunningState)

  /** What the existence probe before sending reported. */
  datatype ProbeOutcome = Found | MissingMessage | ProbeFailed

  class BotContext {
    const stores: Stores
    const cache: UnavailableCache
    var state: Mode

    constructor (stores: Stores)
      ensures this.stores == stores && state == Idle(false)
      ensures fresh(cache) && cache.entries == map[]
    {
      this.stores := stores;
      cache := new UnavailableCache();
      state := Idle(false);
    }

    /** The objects a handler may update: the running cursor, if any. */
    function RunningFrame(): set<object>
      reads this
    {
      if state.Running? then {state.run} else {}
    }

    /**
     * `IdleState.start`: parses the configured repost interval and enters Running with a
     * fresh cursor that keeps the idle auto-forward flag. An unparseable interval raises
     * before the state changes. Starting while Running does nothing.
     */
    method Start(channels: seq<string>, now: int) returns (started: bool)
      modifies this`state
      ensures old(state).Running? ==> !started && state == old(state)
      ensures old(state).Idle? ==>
                var parsed := ParseInt(stores.GetConfig(RepostIntervalKey, DefaultRepostInterval));
                && (started <==> parsed.Some?)
                && (!started ==> state == old(state))
                && (started ==>
                      && state.Running? && fresh(state.run)
                      && state.run.interval == parsed.value
                      && state.run.autoForward == old(state).autoForward
                      && state.run.IsFreshCursor(channels, now))
    {
      if state.Running? {
        return false;
      }
      var raw := stores.GetConfig(RepostIntervalKey, DefaultRepostInterval);
      var parsed := ParseInt(raw);
      if parsed.None? {
        return false;
      }
      var run := new RunningState(channels, parsed.value, state.autoForward, now);
      state := Running(run);
      started := true;
      assert stores.GetConfig(RepostIntervalKey, DefaultRepostInterval) == raw;
    }

    /** `RunningState.stop`: clears auto-forward and returns to Idle. Stopping while Idle does nothing. */
    method Stop()
      modifies this`state, RunningFrame()
      ensures old(state).Idle? ==> state == old(state)
      ensures old(state).Running? ==> state == Idle(false) && !old(state).run.autoForward
    {
      if state.Running? {
        state.run.autoForward := false;
        state := Idle(false);
      }
    }

    /**
     * `BotContext._forward_message`: with target chats, sweeps the unavailability map,
     * gives up on a suppressed key or on a probe that finds no message (recording the
     * key), and otherwise sends to every other target chat, recording the key when a
     * chat reports the message unforwardable. True when some chat received it.
     */
    method ForwardMessage(channel: string, messageId: int, targets: seq<int>, probe: ProbeOutcome,
                          send: int -> SendOutcome, now: int)
      returns (success: bool, sentTo: seq<int>)
      modifies cache
      ensures targets == [] ==> !success && sentTo == [] && cache.entries == old(cache.entries)
      ensures targets != [] ==>
                var swept := Sweep(old(cache.entries), now);
                var key := MsgKey(channel, messageId);
                if key in swept then !success && sentTo == [] && cache.entries == swept
                else if probe == MissingMessage then !success && sentTo == [] && cache.entries == swept[key := now]
                else
                  && sentTo == SentTo(targets, channel, send)
                  && (success <==> sentTo != [])
                  && cache.entries == if AnyUnforwardable(targets, channel, send) then swept[key := now] else swept
    {
      if targets == [] {
        return false, [];
      }
      cache.SweepExpired(now);
      var key := MsgKey(channel, messageId);
      if key in cache.entries {
        return false, [];
      }
      if probe == MissingMessage {
        cache.Suppress(key, now);
        return false, [];
      }
      var unforwardable;
      sentTo, unforwardable := SendToTargets(channel, targets, send);
      if unforwardable {
        cache.Suppress(key, now);
      }
      success := sentTo != [];
    }
  }
}
