/**
 * The persistent stores the forwarding engine reads and writes, as in-memory maps:
 * the key/value configuration table, the per-channel last-message table
 * (upsert, last write wins) and the channel-pair interval table
 * (one record per source channel, replaced on every set).
 */
module Repository {
  import opened Wrappers
  import opened Text

  /** One `channel_intervals` row: the channel that should follow, and the wait in seconds. */
  datatype PairInterval = PairInterval(next: string, seconds: int)

  const RepostIntervalKey := "repost_interval"
  const DefaultRepostInterval := "3600"

  /** The configuration key `f"channel_interval_{channel1}_{channel2}"`. */
  function PairIntervalKey(channel1: string, channel2: string): string {
    "channel_interval_" + channel1 + "_" + channel2
  }

  class Stores {
    var config: map<string, string>
    var lastMessages: map<string, int>
    var channelIntervals: map<string, PairInterval>

    constructor ()
      ensures config == map[] && lastMessages == map[] && channelIntervals == map[]
    {
      config, lastMessages, channelIntervals := map[], map[], map[];
    }

    /** `get_config(key, default)`: the stored value, or the default when the key is absent. */
    function GetConfig(key: string, default: string): (v: string)
      reads this
      ensures key in config ==> v == config[key]
      ensures key !in config ==> v == default
    {
      if key in config then config[key] else default
    }

    method SetConfig(key: string, value: string)
      modifies this`config
      ensures config == old(config)[key := value]
    {
      config := config[key := value];
    }

    /** `get_last_message`: the stored ID, `None` when the channel has no row. */
    function GetLastMessage(channel: string): (r: Option<int>)
      reads this
      ensures r.Some? <==> channel in lastMessages
      ensures r.Some? ==> r.value == lastMessages[channel]
    {
      if channel in lastMessages then Some(lastMessages[channel]) else None
    }

    /** `save_last_message`: INSERT OR REPLACE keyed by channel. */
    method SaveLastMessage(channel: string, messageId: int)
      modifies this`lastMessages
      ensures lastMessages == old(lastMessages)[channel := messageId]
      ensures GetLastMessage(channel) == Some(messageId)
    {
      lastMessages := lastMessages[channel := messageId];
    }

    /**
     * `set_channel_interval`: the number of seconds is also written to the configuration
     * table under a key naming both channels, then the record of the first channel is
     * inserted or replaced.
     */
    method SetChannelInterval(channel1: string, channel2: string, seconds: int)
      modifies this`config, this`channelIntervals
      ensures config == old(config)[PairIntervalKey(channel1, channel2) := IntToString(seconds)]
      ensures channelIntervals == old(channelIntervals)[channel1 := PairInterval(channel2, seconds)]
    {
      SetConfig(PairIntervalKey(channel1, channel2), IntToString(seconds));
      channelIntervals := channelIntervals[channel1 := PairInterval(channel2, seconds)];
    }
  }
}
