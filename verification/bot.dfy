/**
 * The bot's handlers that change forwarding state: an inbound channel post, moving a
 * channel up or down the rotation order, setting a pair or global interval, and the
 * bounded downward probe for a channel's latest message.
 *
 * Callback queries are modelled by the sender's user ID and the callback data; the
 * Telegram replies and menus they send are not part of the model.
 */
module Bot {
  import opened Wrappers
  import opened Text
  import opened Lists
  import opened Repository
  import opened Rotation
  import opened BotState
  import opened Configuration
  import opened Keyboards

  // ---------------------------------------------------------------------
  // Recognising a source post

  /** The part of an inbound channel post the handler reads. */
  datatype Post = Post(chatId: int, username: Option<string>, messageId: int)

  /** A configured channel names the post's chat by decimal ID, or by username ignoring case. */
  predicate MatchesSource(channel: string, chatId: string, username: Option<string>) {
    channel == chatId || (username.Some? && username.value != "" && Lower(channel) == Lower(username.value))
  }

  predicate IsSourcePost(channels: seq<string>, chatId: string, username: Option<string>) {
    exists c :: c in channels && MatchesSource(c, chatId, username)
  }

  /** The search over the configured channels, stopping at the first match. */
  method IsSource(channels: seq<string>, chatId: string, username: Option<string>) returns (isSource: bool)
    ensures isSource <==> IsSourcePost(channels, chatId, username)
  {
    isSource := false;
    var i := 0;
    while i < |channels|
      invariant 0 <= i <= |channels|
      invariant forall j :: 0 <= j < i ==> !MatchesSource(channels[j], chatId, username)
    {
      if MatchesSource(channels[i], chatId, username) {
        assert channels[i] in channels;
        isSource := true;
        break;
      }
      i := i + 1;
    }
  }

  /** What the inbound handler did with a post. */
  datatype PostOutcome =
    | NoPost                  // the update carried no message
    | NotFromSource           // the chat is not a configured source channel
    | IgnoredWhileIdle        // stored as last message; forwarding is stopped
    | Queued                  // stored and queued as pending during the cooldown
    | AutoForwardOff          // stored; automatic forwarding is off
    | Forwarded(report: Report)

  // ---------------------------------------------------------------------
  // Callback data

  /** The request a `move_{direction}_{channel}` button carries. */
  datatype MoveRequest = MoveRequest(direction: string, channel: string)

  /** `data.split("_", 2)`: fewer than three parts raise before anything changes. */
  function ParseMoveData(data: string): Option<MoveRequest> {
    var parts := SplitMax(data, '_', 2);
    if |parts| < 3 then None else Some(MoveRequest(parts[1], parts[2]))
  }

  /** The data of the reorder buttons: `f"move_up_{ch}"` and `f"move_down_{ch}"`. */
  function MoveData(direction: string, channel: string): string {
    "move" + ['_'] + direction + ['_'] + channel
  }

  /** At most two splits, so a channel name may itself contain underscores. */
  lemma MoveDataRoundTrip(direction: string, channel: string)
    requires '_' !in direction
    ensures ParseMoveData(MoveData(direction, channel)) == Some(MoveRequest(direction, channel))
  {
    assert MoveData(direction, channel) == "move" + ['_'] + (direction + ['_'] + channel);
    SplitMaxCons("move", '_', direction + ['_'] + channel, 1);
    SplitMaxCons(direction, '_', channel, 0);
  }

  /** The pair branch of `set_interval`, taken unless the data names a pair to choose. */
  datatype PairRequest =
    | NoPairRequest                                          // not a pair-interval request, or too few fields
    | BadPairRequest                                         // `int(parts[4])` raises: the handler stops
    | SetPair(channel1: string, channel2: string, seconds: int)

  function ParsePairRequest(data: string): PairRequest {
    if Contains(data, "interval_between_") || !Contains(data, "set_interval_") then NoPairRequest
    else
      var parts := Split(data, '_');
      if |parts| < 5 then NoPairRequest
      else match ParseInt(parts[4])
        case None => BadPairRequest
        case Some(seconds) => SetPair(parts[2], parts[3], seconds)
  }

  /**
   * The global branch: data `interval_{seconds}`; a malformed number, or a missing second
   * field, raises inside the branch's handler and is ignored.
   */
  function ParseGlobalInterval(data: string): Option<int> {
    if StartsWith(data, "interval_") && !Contains(data, "between") && !Contains(data, "menu")
    then
      var parts := Split(data, '_');
      if |parts| < 2 then None else ParseInt(parts[1])
    else None
  }

  /** The data of the global interval buttons: `f"interval_{seconds}"`. */
  function GlobalIntervalData(seconds: int): string {
    "interval" + ['_'] + IntToString(seconds)
  }

  /** Every global interval button is read back as its own number of seconds. */
  lemma GlobalIntervalRoundTrip(seconds: int)
    ensures ParseGlobalInterval(GlobalIntervalData(seconds)) == Some(seconds)
  {
    GlobalIntervalDataPasses(seconds);
    GlobalIntervalDataSplits(seconds);
    ParseIntRoundTrip(seconds);
  }

  /** The data of a global interval button passes the handler's prefix and keyword filters. */
  lemma GlobalIntervalDataPasses(seconds: int)
    ensures var data := GlobalIntervalData(seconds);
            StartsWith(data, "interval_") && !Contains(data, "between") && !Contains(data, "menu")
  {
    var n := IntToString(seconds);
    var data := GlobalIntervalData(seconds);
    assert data[..9] == "interval_";
    forall i | 0 <= i < |data| ensures data[i] != 'b' && data[i] != 'm' {
      if i >= 9 {
        assert data[i] == n[i - 9];
      }
    }
    NotContains(data, "between");
    NotContains(data, "menu");
  }

  /** The data of a global interval button splits at its one underscore. */
  lemma GlobalIntervalDataSplits(seconds: int)
    ensures Split(GlobalIntervalData(seconds), '_') == ["interval", IntToString(seconds)]
  {
    var n := IntToString(seconds);
    forall i | 0 <= i < |n| ensures n[i] != '_' {}
    SplitCons("interval", '_', n);
    assert Split(n, '_') == [n];
  }

  /**
   * Every pair-interval option button is read back as its own pair and seconds, as long
   * as neither channel contains an underscore and the data does not look like a pair choice.
   */
  lemma PairRequestRoundTrip(channel1: string, channel2: string, seconds: int)
    requires '_' !in channel1 && '_' !in channel2
    requires !Contains(OptionData(channel1, channel2, seconds), "interval_between_")
    ensures ParsePairRequest(OptionData(channel1, channel2, seconds)) == SetPair(channel1, channel2, seconds)
  {
    var fields := ["set", "interval", channel1, channel2, IntToString(seconds)];
    var data := OptionData(channel1, channel2, seconds);
    assert fields[1..][1..] == [channel1, channel2, IntToString(seconds)];
    var tail := Join(fields[1..][1..], '_');
    assert Join(fields[1..], '_') == "interval" + ['_'] + tail;
    assert data == "set" + ['_'] + ("interval" + ['_'] + tail);
    assert data[..13] == "set_interval_";
    assert OccursAt(data, "set_interval_", 0);
    OptionDataSplits(channel1, channel2, seconds);
  }

  // ---------------------------------------------------------------------
  // Moving a channel

  /** A move exists: the channel is listed and has a neighbour in the requested direction. */
  predicate CanMove(channels: seq<string>, direction: string, channel: string) {
    var idx := IndexOf(channels, channel);
    idx != -1 && ((direction == "up" && idx > 0) || (direction == "down" && idx < |channels| - 1))
  }

  /** The position a channel moves to: one up or one down. */
  function Neighbour(channels: seq<string>, direction: string, channel: string): int {
    var idx := IndexOf(channels, channel);
    if direction == "up" then idx - 1 else idx + 1
  }

  // ---------------------------------------------------------------------
  // The latest-message probe

  const ProbeStart := 10000
  const ProbeDepth := 5000

  /** The lowest ID the probe tries: it stops once more than `ProbeDepth` IDs below the start were tried. */
  const ProbeLowest := ProbeStart - ProbeDepth - 1

  /**
   * The forwarding path of the inbound handler, as its report and the unavailability
   * map before and after: the map is swept at `sweptAt` and nothing is recorded; the
   * window IDs it does not hold are delivered in ascending order, and the counters
   * split the window.
   */
  predicate WindowForwarded(report: Report, before: map<MsgKey, int>, after: map<MsgKey, int>, chat: string,
                            id: int, forward: int -> Delivery, sweptAt: int)
  {
    var swept := Sweep(before, sweptAt);
    && report.window == Window(id)
    && report.delivered == Available(Window(id), chat, swept)
    && StrictlyAscending(report.delivered)
    && report.forwarded == CountOf(report.delivered, forward, Delivered)
    && report.errors == CountOf(report.delivered, forward, Raised)
    && report.forwarded + report.skipped + report.errors == |report.window|
    && after == swept
  }

  /** The configuration table after a pair request: only a well-formed option writes its key. */
  function PairConfig(config: map<string, string>, pair: PairRequest): (r: map<string, string>)
    ensures pair.SetPair? ==>
              var key := PairIntervalKey(pair.channel1, pair.channel2);
              r.Keys == config.Keys + {key} && r[key] == IntToString(pair.seconds)
              && forall k :: k in config && k != key ==> r[k] == config[k]
    ensures !pair.SetPair? ==> r == config
  {
    if pair.SetPair? then config[PairIntervalKey(pair.channel1, pair.channel2) := IntToString(pair.seconds)]
    else config
  }

  /** The pair-interval records after a pair request: a well-formed option replaces its first channel's record. */
  function PairRecords(intervals: map<string, PairInterval>, pair: PairRequest): (r: map<string, PairInterval>)
    ensures pair.SetPair? ==>
              r.Keys == intervals.Keys + {pair.channel1}
              && r[pair.channel1] == PairInterval(pair.channel2, pair.seconds)
              && forall c :: c in intervals && c != pair.channel1 ==> r[c] == intervals[c]
    ensures !pair.SetPair? ==> r == intervals
  {
    if pair.SetPair? then intervals[pair.channel1 := PairInterval(pair.channel2, pair.seconds)] else intervals
  }

  /**
   * A cursor after a new global interval is adopted: the interval is replaced, every
   * configured channel's cooldown and the global one restart at `now`, the rest is kept.
   */
  predicate Restarted(before: Cursor, after: Cursor, interval: int, channels: seq<string>, now: int) {
    && after.interval == interval && after.lastGlobal == now
    && StampedAll(before.lastPost, after.lastPost, channels, now)
    && after.autoForward == before.autoForward && after.lastProcessed == before.lastProcessed
    && after.pending == before.pending
  }

  class ForwarderBot {
    const config: Config
    const context: BotContext

    constructor (config: Config, context: BotContext)
      ensures this.config == config && this.context == context
    {
      this.config := config;
      this.context := context;
    }

    /**
     * `handle_channel_post`. A post from a source channel always becomes that channel's
     * stored last message. While Running, a post that arrives during the channel's cooldown
     * and is not the due successor of a pair interval is queued as pending; otherwise, with
     * auto-forward on, the window ending at the post is swept, checked and delivered in
     * ascending order (failures are not recorded here), and the channel's cooldown restarts
     * at `doneAt`. The handler reads the clock three times: `now` for the cooldown and
     * sequence checks, `sweptAt` for the 30-minute clean-up, and `doneAt` for the new stamp.
     */
    method HandleChannelPost(post: Option<Post>, forward: int -> Delivery, now: int, sweptAt: int, doneAt: int)
      returns (outcome: PostOutcome)
      modifies context.stores`lastMessages, context.cache, context.RunningFrame()
      ensures post.None? || !IsSourcePost(config.sourceChannels, IntToString(post.value.chatId), post.value.username) ==>
                && outcome == (if post.None? then NoPost else NotFromSource)
                && context.stores.lastMessages == old(context.stores.lastMessages)
                && context.cache.entries == old(context.cache.entries)
                && (context.state.Running? ==> context.state.run.Snapshot() == old(context.state.run.Snapshot()))
      ensures post.Some? && IsSourcePost(config.sourceChannels, IntToString(post.value.chatId), post.value.username) ==>
                var chat, id := IntToString(post.value.chatId), post.value.messageId;
                && context.stores.lastMessages == old(context.stores.lastMessages)[chat := id]
                && (context.state.Idle? ==> outcome == IgnoredWhileIdle && context.cache.entries == old(context.cache.entries))
                && (context.state.Running? ==>
                      var before, after := old(context.state.run.Snapshot()), context.state.run.Snapshot();
                      var waiting := now - LastPost(before.lastPost, chat) < before.interval;
                      var isNext := IsNextInSequence(before.lastProcessed, context.stores.channelIntervals, chat,
                                                     before.lastGlobal, now);
                      if waiting && !isNext then
                        && outcome == Queued
                        && after == before.(pending := Enqueue(before.pending, chat, id))
                        && context.cache.entries == old(context.cache.entries)
                      else if !before.autoForward then
                        outcome == AutoForwardOff && after == before && context.cache.entries == old(context.cache.entries)
                      else
                        && outcome.Forwarded?
                        && WindowForwarded(outcome.report, old(context.cache.entries), context.cache.entries,
                                           chat, id, forward, sweptAt)
                        && after == before.(lastPost := before.lastPost[chat := doneAt]))
    {
      if post.None? {
        return NoPost;
      }
      var p := post.value;
      var chat := IntToString(p.chatId);
      var isSource := IsSource(config.sourceChannels, chat, p.username);
      if !isSource {
        return NotFromSource;
      }
      context.stores.SaveLastMessage(chat, p.messageId);
      if context.state.Idle? {
        return IgnoredWhileIdle;
      }
      var run := context.state.run;
      ghost var intervals := context.stores.channelIntervals;
      outcome := HandleRunningPost(run, chat, p.messageId, forward, now, sweptAt, doneAt);
      assert context.stores.channelIntervals == intervals;
    }

    /** The sequence check of the inbound handler, in the shape of its nested tests. */
    static method SequenceGate(lastProcessed: Option<string>, intervals: map<string, PairInterval>, chat: string,
                               lastGlobal: int, now: int)
      returns (isNext: bool)
      ensures isNext == IsNextInSequence(lastProcessed, intervals, chat, lastGlobal, now)
    {
      isNext := false;
      if lastProcessed.Some? && lastProcessed.value != "" {
        var last := lastProcessed.value;
        if last in intervals && intervals[last].next == chat {
          if !(now - lastGlobal < intervals[last].seconds) {
            isNext := true;
          }
        }
      }
    }

    /** Appends `id` to the pending list of `chat` unless it is already waiting there. */
    static method QueuePost(run: RunningState, chat: string, id: int)
      modifies run
      ensures run.Snapshot() == old(run.Snapshot()).(pending := Enqueue(old(run.pending), chat, id))
    {
      var current := if chat in run.pending then run.pending[chat] else [];
      if id !in current {
        current := current + [id];
      }
      run.pending := run.pending[chat := current];
    }

    /** The Running half of the inbound handler: queue, ignore, or forward and stamp. */
    method HandleRunningPost(run: RunningState, chat: string, id: int, forward: int -> Delivery,
                              now: int, sweptAt: int, doneAt: int)
      returns (outcome: PostOutcome)
      modifies run, context.cache
      ensures var before, after := old(run.Snapshot()), run.Snapshot();
              var waiting := now - LastPost(before.lastPost, chat) < before.interval;
              var isNext := IsNextInSequence(before.lastProcessed, context.stores.channelIntervals, chat,
                                             before.lastGlobal, now);
              if waiting && !isNext then
                && outcome == Queued
                && after == before.(pending := Enqueue(before.pending, chat, id))
                && context.cache.entries == old(context.cache.entries)
              else if !before.autoForward then
                outcome == AutoForwardOff && after == before && context.cache.entries == old(context.cache.entries)
              else
                && outcome.Forwarded?
                && WindowForwarded(outcome.report, old(context.cache.entries), context.cache.entries,
                                   chat, id, forward, sweptAt)
                && after == before.(lastPost := before.lastPost[chat := doneAt])
    {
      var waiting := now - LastPost(run.channelLastPost, chat) < run.interval;
      var isNext := SequenceGate(run.lastProcessed, context.stores.channelIntervals, chat, run.lastGlobalPostTime, now);
      if waiting && !isNext {
        QueuePost(run, chat, id);
        return Queued;
      }
      if !run.autoForward {
        return AutoForwardOff;
      }
      var report := ForwardWindow(chat, id, forward, sweptAt);
      run.StampChannel(chat, doneAt);
      return Forwarded(report);
    }

    /**
     * The forwarding path of the inbound handler: sweeps the unavailability map, checks
     * the window IDs it does not hold, and forwards them in ascending order without
     * recording failures.
     */
    method ForwardWindow(chat: string, messageId: int, forward: int -> Delivery, sweptAt: int)
      returns (report: Report)
      modifies context.cache
      ensures WindowForwarded(report, old(context.cache.entries), context.cache.entries, chat, messageId,
                              forward, sweptAt)
    {
      report := SweepAndDeliver(chat, messageId, context.cache, forward, sweptAt, false);
    }

    /**
     * `move_channel`: for an admin, swaps the named channel with its predecessor ("up")
     * or successor ("down") when it has one; the order is otherwise left as it was.
     */
    method MoveChannel(userId: int, data: string) returns (moved: bool)
      modifies config`sourceChannels
      ensures moved <==> config.IsAdmin(userId) && ParseMoveData(data).Some?
                         && CanMove(old(config.sourceChannels), ParseMoveData(data).value.direction,
                                    ParseMoveData(data).value.channel)
      ensures !moved ==> config.sourceChannels == old(config.sourceChannels)
      ensures moved ==>
                var before, req := old(config.sourceChannels), ParseMoveData(data).value;
                var idx, other := IndexOf(before, req.channel), Neighbour(before, req.direction, req.channel);
                && 0 <= idx < |before| && 0 <= other < |before| && (other == idx - 1 || other == idx + 1)
                && |config.sourceChannels| == |before|
                && config.sourceChannels[other] == req.channel
                && config.sourceChannels[idx] == before[other]
                && (forall j :: 0 <= j < |before| && j != idx && j != other ==> config.sourceChannels[j] == before[j])
      ensures multiset(config.sourceChannels) == multiset(old(config.sourceChannels))
      ensures old(config.Valid()) ==> config.Valid()
    {
      if !config.IsAdmin(userId) {
        return false;
      }
      var request := ParseMoveData(data);
      if request.None? {
        return false;
      }
      var direction, channel := request.value.direction, request.value.channel;
      var lst := config.sourceChannels;
      var idx := IndexOf(lst, channel);
      if idx == -1 {
        return false;
      }
      var other: int;
      if direction == "up" && idx > 0 {
        other := idx - 1;
      } else if direction == "down" && idx < |lst| - 1 {
        other := idx + 1;
      } else {
        return false;
      }
      Swapped(lst, idx, other);
      config.sourceChannels := lst[idx := lst[other]][other := lst[idx]];
      moved := true;
    }

    /**
     * `set_interval`, for an admin: a pair-interval option stores its number of seconds under
     * the pair's configuration key and as the record of its first channel (a malformed number
     * stops the handler); then a global interval button stores
     * the new repost interval and, while Running, adopts it and restarts every configured
     * channel's cooldown and the global one at `now`.
     */
    method SetInterval(userId: int, data: string, now: int)
      modifies context.stores`config, context.stores`channelIntervals, context.RunningFrame()
      ensures !config.IsAdmin(userId) ==>
                && context.stores.config == old(context.stores.config)
                && context.stores.channelIntervals == old(context.stores.channelIntervals)
                && (context.state.Running? ==> context.state.run.Snapshot() == old(context.state.run.Snapshot()))
      ensures config.IsAdmin(userId) ==>
                var pair := ParsePairRequest(data);
                var global := if pair.BadPairRequest? then None else ParseGlobalInterval(data);
                var paired := PairConfig(old(context.stores.config), pair);
                && context.stores.channelIntervals == PairRecords(old(context.stores.channelIntervals), pair)
                && context.stores.config ==
                     (if global.Some? then paired[RepostIntervalKey := IntToString(global.value)] else paired)
                && (context.state.Running? ==>
                      var before, after := old(context.state.run.Snapshot()), context.state.run.Snapshot();
                      if global.None? then after == before
                      else Restarted(before, after, global.value, config.sourceChannels, now))
    {
      if !config.IsAdmin(userId) {
        return;
      }
      var pair := ParsePairRequest(data);
      if pair.BadPairRequest? {
        return;
      }
      StorePair(pair);
      ghost var intervals := context.stores.channelIntervals;
      var global := ParseGlobalInterval(data);
      if global.Some? {
        SetGlobalInterval(global.value, now);
      }
      assert context.stores.channelIntervals == intervals;
    }

    /** The pair branch of `set_interval`: a well-formed option is stored, anything else is not. */
    method StorePair(pair: PairRequest)
      modifies context.stores`config, context.stores`channelIntervals
      ensures context.stores.config == PairConfig(old(context.stores.config), pair)
      ensures context.stores.channelIntervals == PairRecords(old(context.stores.channelIntervals), pair)
    {
      if pair.SetPair? {
        context.stores.SetChannelInterval(pair.channel1, pair.channel2, pair.seconds);
      }
    }

    /** The global branch once its number is read: store it, and adopt it while Running. */
    method SetGlobalInterval(interval: int, now: int)
      modifies context.stores`config, context.RunningFrame()
      ensures context.stores.config == old(context.stores.config)[RepostIntervalKey := IntToString(interval)]
      ensures context.state.Running? ==>
                Restarted(old(context.state.run.Snapshot()), context.state.run.Snapshot(), interval,
                          config.sourceChannels, now)
    {
      context.stores.SetConfig(RepostIntervalKey, IntToString(interval));
      if context.state.Running? {
        RestartCooldowns(context.state.run, interval, now);
      }
    }

    /** Adopts a new global interval while Running and restarts every cooldown at `now`. */
    method RestartCooldowns(run: RunningState, interval: int, now: int)
      modifies run
      ensures Restarted(old(run.Snapshot()), run.Snapshot(), interval, config.sourceChannels, now)
    {
      run.interval := interval;
      var stamped := StampChannels(run.channelLastPost, config.sourceChannels, now);
      run.channelLastPost := stamped;
      run.lastGlobalPostTime := now;
    }

    /**
     * `find_latest_message`: tries IDs downward from 10000 and returns the first one the
     * probe reports as an existing message; after trying 4999 it gives up.
     */
    method FindLatestMessage(exists_: int -> bool) returns (latest: Option<int>)
      ensures latest.Some? ==>
                && ProbeLowest <= latest.value <= ProbeStart && exists_(latest.value)
                && (forall j :: latest.value < j <= ProbeStart ==> !exists_(j))
      ensures latest.None? <==> forall j :: ProbeLowest <= j <= ProbeStart ==> !exists_(j)
    {
      var testId := ProbeStart;
      while testId > 0
        invariant ProbeLowest <= testId <= ProbeStart
        invariant forall j :: testId < j <= ProbeStart ==> !exists_(j)
        decreases testId
      {
        if exists_(testId) {
          return Some(testId);
        }
        if ProbeStart - testId > ProbeDepth {
          break;
        }
        testId := testId - 1;
      }
      return None;
    }
  }
}
