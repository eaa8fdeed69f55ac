/**
 * The decisions of one rotation tick, as pure functions of the rotation cursor,
 * the channel order and the stores: which channel is due, the message-ID window,
 * the 30-minute unavailability map and the delivery counters.
 * The imperative tick in module BotState is proved against these definitions.
 */
module Rotation {
  import opened Wrappers
  import opened Repository
  import opened Lists

  /** A window reaches this many IDs below the last known message. */
  const WindowSpan := 10
  /** Entries of the unavailability map expire after this many seconds. */
  const UnavailableTtl := 1800

  /** The key `f"{channel}:{message_id}"` of the unavailability map. */
  datatype MsgKey = MsgKey(channel: string, id: int)

  /** What one `_forward_specific_message` call did: returned True, returned False, or raised. */
  datatype Delivery = Delivered | NotDelivered | Raised

  /** `_channel_last_post.get(channel, 0)`. */
  function LastPost(lastPost: map<string, int>, channel: string): int {
    if channel in lastPost then lastPost[channel] else 0
  }

  // ---------------------------------------------------------------------
  // Choosing the channel

  datatype Selection = NoChannels | Wait | Pick(channel: string)

  /** The previous channel is known and still listed, so rotation continues from it. */
  predicate Continues(channels: seq<string>, lastProcessed: Option<string>) {
    lastProcessed.Some? && lastProcessed.value in channels
  }

  /** The previous channel's pair-interval record names a successor that is still listed. */
  predicate HasPairRecord(channels: seq<string>, intervals: map<string, PairInterval>,
                          lastProcessed: Option<string>) {
    && Continues(channels, lastProcessed)
    && lastProcessed.value in intervals
    && intervals[lastProcessed.value].next in channels
  }

  /**
   * The candidate of a tick. With no previous channel, or one that has left the list,
   * rotation restarts at the first channel with no interval check. A pair-interval record
   * of the previous channel whose successor is still listed takes precedence: its own
   * interval decides between that successor and waiting. Otherwise the global interval
   * decides between the round-robin successor (wrapping around) and waiting.
   */
  function SelectCandidate(channels: seq<string>, intervals: map<string, PairInterval>,
                           lastProcessed: Option<string>, lastGlobal: int, interval: int,
                           now: int): (s: Selection)
    ensures s.NoChannels? <==> |channels| == 0
    ensures s.Pick? ==> s.channel in channels
    // restart: no interval is consulted
    ensures |channels| > 0 && !Continues(channels, lastProcessed) ==> s == Pick(channels[0])
    // a pair record of the previous channel decides alone, whatever the global interval says
    ensures HasPairRecord(channels, intervals, lastProcessed) ==>
              var record := intervals[lastProcessed.value];
              && (s.Wait? <==> now - lastGlobal < record.seconds)
              && (s.Pick? <==> now - lastGlobal >= record.seconds)
              && (s.Pick? ==> s.channel == record.next)
    // otherwise the global interval alone decides whether to wait
    ensures Continues(channels, lastProcessed) && !HasPairRecord(channels, intervals, lastProcessed) ==>
              && (s.Wait? <==> now - lastGlobal < interval)
              && (s.Pick? <==> now - lastGlobal >= interval)
  {
    if |channels| == 0 then NoChannels
    else if !Continues(channels, lastProcessed) then Pick(channels[0])
    else
      var p := lastProcessed.value;
      if HasPairRecord(channels, intervals, lastProcessed) then
        (if now - lastGlobal >= intervals[p].seconds then Pick(intervals[p].next) else Wait)
      else if now - lastGlobal < interval then Wait
      else Pick(channels[(IndexOf(channels, p) + 1) % |channels|])
  }

  /** The successor of position `i` in the rotation order, wrapping from the last to the first. */
  lemma RoundRobinSuccessor(channels: seq<string>, intervals: map<string, PairInterval>,
                            i: nat, lastGlobal: int, interval: int, now: int)
    requires i < |channels| && NoDuplicates(channels)
    requires channels[i] !in intervals || intervals[channels[i]].next !in channels
    requires now - lastGlobal >= interval
    ensures SelectCandidate(channels, intervals, Some(channels[i]), lastGlobal, interval, now)
            == Pick(if i + 1 < |channels| then channels[i + 1] else channels[0])
  {
    var k := IndexOf(channels, channels[i]);
    assert k == i by {
      assert 0 <= k && channels[k] == channels[i];
    }
    var n := |channels|;
    if i + 1 < n {
      assert (i + 1) % n == i + 1;
    } else {
      assert i + 1 == n && n % n == 0;
    }
  }

  // ---------------------------------------------------------------------
  // The message-ID window

  function WindowStart(lastId: int): int {
    if lastId - WindowSpan > 1 then lastId - WindowSpan else 1
  }

  /** `list(range(max(1, lastId - 10), lastId + 1))`. */
  function Window(lastId: int): (w: seq<int>)
    ensures |w| <= WindowSpan + 1
    ensures forall i :: 0 <= i < |w| ==> w[i] == WindowStart(lastId) + i
    ensures forall x :: x in w <==> WindowStart(lastId) <= x <= lastId
    ensures StrictlyAscending(w)
  {
    var lo := WindowStart(lastId);
    if lastId < lo then []
    else
      var w := seq(lastId - lo + 1, i => lo + i);
      RangeMembers(lo, lastId, w);
      w
  }

  lemma RangeMembers(lo: int, hi: int, w: seq<int>)
    requires lo <= hi && |w| == hi - lo + 1
    requires forall i :: 0 <= i < |w| ==> w[i] == lo + i
    ensures forall x :: x in w <==> lo <= x <= hi
  {
    forall x | lo <= x <= hi ensures x in w {
      assert w[x - lo] == x;
    }
  }

  // ---------------------------------------------------------------------
  // The unavailability map

  /** Keeps exactly the entries younger than 30 minutes. */
  function Sweep(suppressed: map<MsgKey, int>, now: int): (r: map<MsgKey, int>)
    ensures forall k :: k in r <==> k in suppressed && now - suppressed[k] < UnavailableTtl
    ensures forall k :: k in r ==> r[k] == suppressed[k]
  {
    map k | k in suppressed && now - suppressed[k] < UnavailableTtl :: suppressed[k]
  }

  /** The IDs of `ids`, in order, that the unavailability map does not hold for `channel`. */
  function Available(ids: seq<int>, channel: string, suppressed: map<MsgKey, int>): (r: seq<int>)
    ensures |r| <= |ids|
    ensures forall x :: x in r <==> x in ids && MsgKey(channel, x) !in suppressed
  {
    if ids == [] then []
    else
      var last := ids[|ids| - 1];
      assert ids == ids[..|ids| - 1] + [last];
      Available(ids[..|ids| - 1], channel, suppressed)
        + (if MsgKey(channel, last) in suppressed then [] else [last])
  }

  /** Filtering keeps ascending order, so the delivery order is ascending. */
  lemma {:induction false} AvailableAscending(ids: seq<int>, channel: string, suppressed: map<MsgKey, int>)
    requires StrictlyAscending(ids)
    ensures StrictlyAscending(Available(ids, channel, suppressed))
  {
    if ids != [] {
      var init, last := ids[..|ids| - 1], ids[|ids| - 1];
      AvailableAscending(init, channel, suppressed);
      var a := Available(init, channel, suppressed);
      forall x | x in a ensures x < last {
        var k :| 0 <= k < |init| && init[k] == x;
        assert ids[k] == x;
      }
      var r := Available(ids, channel, suppressed);
      assert r == a + (if MsgKey(channel, last) in suppressed then [] else [last]);
      forall i, j | 0 <= i < j < |r| ensures r[i] < r[j] {
        if j < |a| {
          assert r[i] == a[i] && r[j] == a[j];
        } else {
          assert r[i] == a[i] && a[i] in a && r[j] == last;
        }
      }
    }
  }

  /**
   * The unavailability map after delivering `ids` of `channel`: every ID whose forward
   * returned False or raised is (re)inserted with time `t`; nothing else changes.
   */
  function Record(suppressed: map<MsgKey, int>, channel: string, ids: seq<int>,
                  forward: int -> Delivery, t: int): (r: map<MsgKey, int>)
    ensures forall k :: k in r <==>
              k in suppressed || (k.channel == channel && k.id in ids && forward(k.id) != Delivered)
    ensures forall k :: k in r ==>
              r[k] == if k.channel == channel && k.id in ids && forward(k.id) != Delivered
                      then t else suppressed[k]
  {
    if ids == [] then suppressed
    else
      var last := ids[|ids| - 1];
      assert ids == ids[..|ids| - 1] + [last];
      var before := Record(suppressed, channel, ids[..|ids| - 1], forward, t);
      if forward(last) != Delivered then before[MsgKey(channel, last) := t] else before
  }

  // ---------------------------------------------------------------------
  // Counters

  /** How many of `ids` had delivery outcome `d`. */
  function CountOf(ids: seq<int>, forward: int -> Delivery, d: Delivery): (n: nat)
    ensures n <= |ids|
  {
    if ids == [] then 0
    else CountOf(ids[..|ids| - 1], forward, d) + (if forward(ids[|ids| - 1]) == d then 1 else 0)
  }

  /** Every delivered ID lands in exactly one of the three counters. */
  lemma {:induction false} CountPartition(ids: seq<int>, forward: int -> Delivery)
    ensures CountOf(ids, forward, Delivered) + CountOf(ids, forward, NotDelivered)
            + CountOf(ids, forward, Raised) == |ids|
  {
    if ids != [] {
      CountPartition(ids[..|ids| - 1], forward);
    }
  }

  // ---------------------------------------------------------------------
  // The whole decision of a tick

  /**
   * The stored last message of `channel`, else what discovery produced; a zero ID is
   * treated as missing, as the truthiness tests of the source do.
   */
  function ResolveLastId(lastMessages: map<string, int>, channel: string, discovered: Option<int>): (r: Option<int>)
    ensures r.Some? ==> r.value != 0
    ensures channel in lastMessages && lastMessages[channel] != 0 ==> r == Some(lastMessages[channel])
    ensures !(channel in lastMessages && lastMessages[channel] != 0) ==>
              && (r.None? <==> discovered.None? || discovered.value == 0)
              && (r.Some? ==> r == discovered)
  {
    if channel in lastMessages && lastMessages[channel] != 0 then Some(lastMessages[channel])
    else if discovered.Some? && discovered.value != 0 then discovered
    else None
  }

  datatype Decision =
    | NoSources                          // no source channel configured
    | Waiting                            // the pair or global interval has not elapsed
    | CoolingDown(channel: string)       // the candidate's own cooldown has not elapsed
    | NoMessage(channel: string)         // no stored last message and discovery failed
    | Deliver(channel: string, lastId: int)

  function Decide(channels: seq<string>, intervals: map<string, PairInterval>,
                  lastProcessed: Option<string>, lastGlobal: int, interval: int,
                  lastPost: map<string, int>, lastMessages: map<string, int>,
                  discovered: Option<int>, now: int): (d: Decision)
    ensures d.NoSources? <==> |channels| == 0
    ensures d.CoolingDown? || d.NoMessage? || d.Deliver? ==> d.channel in channels
    ensures d.Deliver? ==> now - LastPost(lastPost, d.channel) >= interval && d.lastId != 0
    ensures d.Waiting? <==> SelectCandidate(channels, intervals, lastProcessed, lastGlobal, interval, now).Wait?
    ensures d.CoolingDown? || d.NoMessage? || d.Deliver? ==>
              SelectCandidate(channels, intervals, lastProcessed, lastGlobal, interval, now) == Pick(d.channel)
    // a picked channel still in its own cooldown is not delivered
    ensures SelectCandidate(channels, intervals, lastProcessed, lastGlobal, interval, now).Pick? ==>
              var c := SelectCandidate(channels, intervals, lastProcessed, lastGlobal, interval, now).channel;
              && (d.CoolingDown? <==> now - LastPost(lastPost, c) < interval)
              && (now - LastPost(lastPost, c) >= interval ==>
                    (d.NoMessage? <==> ResolveLastId(lastMessages, c, discovered).None?)
                    && (d.Deliver? <==> ResolveLastId(lastMessages, c, discovered).Some?)
                    && (d.Deliver? ==> d.lastId == ResolveLastId(lastMessages, c, discovered).value))
  {
    match SelectCandidate(channels, intervals, lastProcessed, lastGlobal, interval, now)
    case NoChannels => NoSources
    case Wait => Waiting
    case Pick(c) =>
      if now - LastPost(lastPost, c) < interval then CoolingDown(c)
      else match ResolveLastId(lastMessages, c, discovered)
        case None => NoMessage(c)
        case Some(n) => Deliver(c, n)
  }

  /** `_pending_messages[channel] = []` when the list for `channel` is non-empty. */
  function ClearPending(pending: map<string, seq<int>>, channel: string): (r: map<string, seq<int>>)
    ensures r.Keys == pending.Keys
    ensures channel in r ==> r[channel] == []
    ensures forall c :: c in r && c != channel ==> r[c] == pending[c]
  {
    if channel in pending && pending[channel] != [] then pending[channel := []] else pending
  }

  /** The two-part gate of the inbound handler: a pair record of the last channel points here and has elapsed. */
  predicate IsNextInSequence(lastProcessed: Option<string>, intervals: map<string, PairInterval>,
                             channel: string, lastGlobal: int, now: int)
  {
    && lastProcessed.Some? && lastProcessed.value != ""
    && lastProcessed.value in intervals
    && intervals[lastProcessed.value].next == channel
    && now - lastGlobal >= intervals[lastProcessed.value].seconds
  }

  /** The pending list of `channel` with `id` appended unless already present. */
  function Enqueue(pending: map<string, seq<int>>, channel: string, id: int): (r: map<string, seq<int>>)
    ensures r.Keys == pending.Keys + {channel}
    ensures id in r[channel]
    ensures forall c :: c in pending && c != channel ==> r[c] == pending[c]
    ensures channel in pending && NoDuplicates(pending[channel]) ==> NoDuplicates(r[channel])
    ensures channel !in pending ==> r[channel] == [id]
    // the waiting IDs stay, in order, and a new ID joins at the end
    ensures channel in pending && id in pending[channel] ==> r[channel] == pending[channel]
    ensures channel in pending && id !in pending[channel] ==> r[channel] == pending[channel] + [id]
  {
    var current := if channel in pending then pending[channel] else [];
    if id in current then pending[channel := current] else pending[channel := current + [id]]
  }
}
