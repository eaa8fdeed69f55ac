/**
 * The button lists of the channel-interval and channel-removal keyboards: adjacent
 * channel pairs, page slicing, page counts, navigation buttons, name shortening and
 * interval labels, plus the callback data of the interval options. A keyboard is the
 * sequence of `(text, callback_data)` buttons in the order they are added; the row
 * layout of the keyboard builder is not part of the model.
 */
module Keyboards {
  import opened Wrappers
  import opened Text
  import opened Repository

  datatype Button = Button(text: string, data: string)

  const Dummy := "dummy"
  const BackToChannels := Button("🔙 К каналам", "channels")

  // ---------------------------------------------------------------------
  // Channel pairs

  /** Each channel paired with the one after it, in list order. */
  function ChannelPairs(channels: seq<string>): (pairs: seq<(string, string)>)
    ensures |pairs| == if |channels| == 0 then 0 else |channels| - 1
    ensures forall i :: 0 <= i < |pairs| ==> pairs[i] == (channels[i], channels[i + 1])
  {
    if |channels| < 2 then []
    else
      var init := channels[..|channels| - 1];
      ChannelPairs(init) + [(channels[|channels| - 2], channels[|channels| - 1])]
  }

  // ---------------------------------------------------------------------
  // Pages

  /** `page * per_page`. */
  function PageStart(page: int, perPage: int): int {
    page * perPage
  }

  /** `min(start + per_page, total)`. */
  function PageEnd(total: nat, page: int, perPage: int): int {
    var start := PageStart(page, perPage);
    if start + perPage < total then start + perPage else total
  }

  /** `items[start:end]` with Python's slice rules, so a negative page is sliced as Python does. */
  function PageItems<T>(items: seq<T>, page: int, perPage: int): (r: seq<T>)
    ensures |r| <= |items|
  {
    PySlice(items, PageStart(page, perPage), PageEnd(|items|, page, perPage))
  }

  /** `(total + per_page - 1) // per_page`. */
  function TotalPages(total: nat, perPage: int): int
    requires perPage > 0
  {
    (total + perPage - 1) / perPage
  }

  /** The page count is the ceiling of `total / perPage`. */
  lemma TotalPagesIsCeiling(total: nat, perPage: int)
    requires perPage > 0
    ensures TotalPages(total, perPage) >= 0
    ensures TotalPages(total, perPage) * perPage >= total
    ensures TotalPages(total, perPage) > 0 ==> (TotalPages(total, perPage) - 1) * perPage < total
  {
    var t := TotalPages(total, perPage);
    var q, r := (total + perPage - 1) / perPage, (total + perPage - 1) % perPage;
    assert total + perPage - 1 == q * perPage + r && 0 <= r < perPage;
  }

  /** A page at or after the start shows the items from `page * perPage` on, at most `perPage` of them. */
  lemma PageSlice<T>(items: seq<T>, page: int, perPage: int)
    requires page >= 0 && perPage > 0
    ensures var start, end := page * perPage, PageEnd(|items|, page, perPage);
            PageItems(items, page, perPage) == if start < |items| then items[start..end] else []
    ensures |PageItems(items, page, perPage)| <= perPage
    ensures page * perPage >= 0
  {
    var start := page * perPage;
    assert start >= 0 by {
      assert page * perPage >= 0 * perPage;
    }
  }

  /** The pages partition the list: item `k` is entry `k % perPage` of page `k / perPage`. */
  lemma PagesCover<T>(items: seq<T>, perPage: int, k: int)
    requires perPage > 0 && 0 <= k < |items|
    ensures k % perPage < |PageItems(items, k / perPage, perPage)|
    ensures PageItems(items, k / perPage, perPage)[k % perPage] == items[k]
  {
    var page := k / perPage;
    assert page >= 0;
    PageSlice(items, page, perPage);
    assert page * perPage + k % perPage == k;
  }

  // ---------------------------------------------------------------------
  // Navigation

  /** The texts and callback prefix one keyboard uses for its navigation buttons. */
  datatype NavStyle = NavStyle(previous: string, indicatorPrefix: string, next: string, pagePrefix: string)

  const IntervalNav := NavStyle("⬅️ Назад", "📄 ", "➡️ Далее", "channel_intervals_page_")
  const RemovalNav := NavStyle("⬅️", "", "➡️", "remove_channel_page_")

  function PreviousButton(style: NavStyle, page: int): Button {
    Button(style.previous, style.pagePrefix + IntToString(page - 1))
  }

  function IndicatorButton(style: NavStyle, page: int, pages: int): Button {
    Button(style.indicatorPrefix + IntToString(page + 1) + "/" + IntToString(pages), Dummy)
  }

  function NextButton(style: NavStyle, page: int): Button {
    Button(style.next, style.pagePrefix + IntToString(page + 1))
  }

  /** The navigation buttons, in order: previous page, page indicator, next page. */
  function Navigation(style: NavStyle, total: nat, page: int, perPage: int): (nav: seq<Button>)
    requires perPage > 0
    ensures |nav| == (if page > 0 then 1 else 0) + (if TotalPages(total, perPage) > 1 then 1 else 0)
                     + (if PageEnd(total, page, perPage) < total then 1 else 0)
  {
    (if page > 0 then [PreviousButton(style, page)] else [])
      + (if TotalPages(total, perPage) > 1 then [IndicatorButton(style, page, TotalPages(total, perPage))] else [])
      + (if PageEnd(total, page, perPage) < total then [NextButton(style, page)] else [])
  }

  /** The callback data of a page button names that page, so the two page buttons differ. */
  lemma PageDataDistinct(style: NavStyle, page: int)
    ensures PreviousButton(style, page).data != NextButton(style, page).data
    ensures PreviousButton(style, page).data != Dummy && NextButton(style, page).data != Dummy
  {
    var p, n := IntToString(page - 1), IntToString(page + 1);
    var prefix := style.pagePrefix;
    if prefix + p == prefix + n {
      assert p == (prefix + p)[|prefix|..];
      ParseIntRoundTrip(page - 1);
      ParseIntRoundTrip(page + 1);
      assert false;
    }
    NoLetters(prefix, p);
    NoLetters(prefix, n);
  }

  /** A page button's data ends in a decimal number, which "dummy" does not. */
  lemma NoLetters(prefix: string, digits: string)
    requires |digits| >= 1 && (IsDigit(digits[0]) || digits[0] == '-')
    requires forall i :: 0 <= i < |digits| ==> IsDigit(digits[i]) || digits[i] == '-'
    ensures prefix + digits != Dummy
  {
    var s := prefix + digits;
    assert s[|s| - 1] == digits[|digits| - 1];
  }

  /**
   * Which navigation buttons appear: "previous" exactly on pages after the first, the
   * indicator exactly when there is more than one page, "next" exactly when items remain
   * after this page.
   */
  lemma NavigationShown(style: NavStyle, total: nat, page: int, perPage: int)
    requires perPage > 0
    ensures PreviousButton(style, page) in Navigation(style, total, page, perPage) <==> page > 0
    ensures NextButton(style, page) in Navigation(style, total, page, perPage)
            <==> PageEnd(total, page, perPage) < total
    ensures (exists b :: b in Navigation(style, total, page, perPage) && b.data == Dummy)
            <==> TotalPages(total, perPage) > 1
  {
    PreviousShown(style, total, page, perPage);
    NextShown(style, total, page, perPage);
    IndicatorShown(style, total, page, perPage);
  }

  lemma PreviousShown(style: NavStyle, total: nat, page: int, perPage: int)
    requires perPage > 0
    ensures PreviousButton(style, page) in Navigation(style, total, page, perPage) <==> page > 0
  {
    PageDataDistinct(style, page);
  }

  lemma NextShown(style: NavStyle, total: nat, page: int, perPage: int)
    requires perPage > 0
    ensures NextButton(style, page) in Navigation(style, total, page, perPage)
            <==> PageEnd(total, page, perPage) < total
  {
    PageDataDistinct(style, page);
  }

  lemma IndicatorShown(style: NavStyle, total: nat, page: int, perPage: int)
    requires perPage > 0
    ensures (exists b :: b in Navigation(style, total, page, perPage) && b.data == Dummy)
            <==> TotalPages(total, perPage) > 1
  {
    PageDataDistinct(style, page);
    var nav := Navigation(style, total, page, perPage);
    if TotalPages(total, perPage) > 1 {
      assert IndicatorButton(style, page, TotalPages(total, perPage)) in nav;
    }
  }

  // ---------------------------------------------------------------------
  // The channel-interval keyboard

  /** The name shown for a channel: its title when one is known, else the channel itself. */
  function NameOf(channel: string, info: map<string, string>): string {
    if channel in info then info[channel] else channel
  }

  /**
   * A channel name in a pair button: a raw `-100…` ID without a title becomes "ID:"
   * and its last six characters; any other name longer than ten characters is cut to ten
   * and followed by "...".
   */
  function PairName(name: string, channel: string): (r: string)
    ensures |r| <= 13
    ensures name == channel && StartsWith(channel, "-100") ==>
              |r| >= 3 && r[..3] == "ID:" && r[3..] == Last(channel, 6) && channel[|channel| - |r[3..]|..] == r[3..]
    ensures !(name == channel && StartsWith(channel, "-100")) && |name| <= 10 ==> r == name
    ensures !(name == channel && StartsWith(channel, "-100")) && |name| > 10 ==>
              |r| == 13 && r[..10] == name[..10] && r[10..] == "..."
  {
    if name == channel && StartsWith(channel, "-100") then "ID:" + Last(channel, 6)
    else if |name| > 10 then Take(name, 10) + "..."
    else name
  }

  const NotSet := " (не уст.)"

  /** `f"{s // 3600}ч"` from one hour on, else `f"{s // 60}м"`. */
  function Duration(seconds: int): string {
    if seconds >= 3600 then IntToString(seconds / 3600) + "ч" else IntToString(seconds / 60) + "м"
  }

  /** The interval label of a pair: shown only when the first channel's record names the second and is positive. */
  function IntervalLabel(intervals: map<string, PairInterval>, channel1: string, channel2: string): (r: string)
    ensures r == NotSet <==> !(channel1 in intervals && intervals[channel1].next == channel2
                               && intervals[channel1].seconds > 0)
    // a set interval is shown in parentheses, in whole hours or minutes
    ensures r != NotSet ==>
              |r| >= 3 && r[..2] == " (" && r[|r| - 1..] == ")"
              && r[2..|r| - 1] == Duration(intervals[channel1].seconds)
  {
    if channel1 in intervals && intervals[channel1].next == channel2 && intervals[channel1].seconds > 0
    then
      var d := Duration(intervals[channel1].seconds);
      assert (" (" + d + ")")[2] == d[0] != NotSet[2];
      " (" + d + ")"
    else NotSet
  }

  /** A duration label rounds down to whole hours from one hour on, and to whole minutes below. */
  lemma DurationRoundsDown(seconds: int)
    requires seconds > 0
    ensures seconds >= 3600 ==>
              exists h: int :: Duration(seconds) == IntToString(h) + "ч" && h * 3600 <= seconds < (h + 1) * 3600
    ensures seconds < 3600 ==>
              exists m: int :: Duration(seconds) == IntToString(m) + "м" && m * 60 <= seconds < (m + 1) * 60
  {
    if seconds >= 3600 {
      var h := seconds / 3600;
      assert Duration(seconds) == IntToString(h) + "ч" && h * 3600 <= seconds < (h + 1) * 3600;
    } else {
      var m := seconds / 60;
      assert Duration(seconds) == IntToString(m) + "м" && m * 60 <= seconds < (m + 1) * 60;
    }
  }

  /** `f"interval_between_{channel1}_{channel2}"`. */
  function PairData(channel1: string, channel2: string): string {
    "interval_between_" + channel1 + "_" + channel2
  }

  function PairText(channel1: string, channel2: string, info: map<string, string>,
                    intervals: map<string, PairInterval>): string
  {
    "⏱️ " + PairName(NameOf(channel1, info), channel1) + " → " + PairName(NameOf(channel2, info), channel2)
      + IntervalLabel(intervals, channel1, channel2)
  }

  function PairButton(pair: (string, string), info: map<string, string>,
                      intervals: map<string, PairInterval>): Button
  {
    Button(PairText(pair.0, pair.1, info, intervals), PairData(pair.0, pair.1))
  }

  function PairButtons(pairs: seq<(string, string)>, info: map<string, string>,
                       intervals: map<string, PairInterval>): seq<Button>
  {
    seq(|pairs|, i requires 0 <= i < |pairs| => PairButton(pairs[i], info, intervals))
  }

  const NoPairs := [Button("Нет доступных пар каналов", Dummy), Button("Назад", "channels")]

  /** `create_channel_interval_keyboard`. */
  function IntervalKeyboard(channels: seq<string>, page: int, info: map<string, string>,
                            intervals: map<string, PairInterval>, perPage: int): (kb: seq<Button>)
    requires perPage > 0
  {
    var pairs := ChannelPairs(channels);
    if pairs == [] then NoPairs
    else
      PairButtons(PageItems(pairs, page, perPage), info, intervals)
        + Navigation(IntervalNav, |pairs|, page, perPage) + [BackToChannels]
  }

  /** Entry `i` of a page of pairs is the pair starting at channel `page * perPage + i`. */
  lemma PairsOnPage(channels: seq<string>, page: int, perPage: int, i: int)
    requires perPage > 0 && page >= 0
    requires 0 <= i < |PageItems(ChannelPairs(channels), page, perPage)|
    ensures page * perPage + i + 1 < |channels|
    ensures PageItems(ChannelPairs(channels), page, perPage)[i]
            == (channels[page * perPage + i], channels[page * perPage + i + 1])
  {
    var pairs := ChannelPairs(channels);
    var start := page * perPage;
    PageSlice(pairs, page, perPage);
    var shown := PageItems(pairs, page, perPage);
    assert start < |pairs| && shown == pairs[start..PageEnd(|pairs|, page, perPage)];
    assert shown[i] == pairs[start + i];
  }

  /**
   * With fewer than two channels the keyboard is only the placeholder and "back"; otherwise
   * it lists one button per pair of the page, whose data names that pair, then the
   * navigation, then "back to channels".
   */
  lemma IntervalKeyboardLayout(channels: seq<string>, page: int, info: map<string, string>,
                               intervals: map<string, PairInterval>, perPage: int)
    requires perPage > 0
    ensures |channels| < 2 ==> IntervalKeyboard(channels, page, info, intervals, perPage) == NoPairs
    ensures |channels| >= 2 ==>
              var kb := IntervalKeyboard(channels, page, info, intervals, perPage);
              var shown := PageItems(ChannelPairs(channels), page, perPage);
              var nav := Navigation(IntervalNav, |channels| - 1, page, perPage);
              && |kb| == |shown| + |nav| + 1
              && (forall i :: 0 <= i < |shown| ==> kb[i].data == PairData(shown[i].0, shown[i].1))
              && kb[|shown|..|shown| + |nav|] == nav
              && kb[|kb| - 1] == BackToChannels
  {
    if |channels| >= 2 {
      var shown := PageItems(ChannelPairs(channels), page, perPage);
      var nav := Navigation(IntervalNav, |channels| - 1, page, perPage);
      var buttons := PairButtons(shown, info, intervals);
      var kb := IntervalKeyboard(channels, page, info, intervals, perPage);
      assert kb == buttons + nav + [BackToChannels];
      forall i | 0 <= i < |shown| ensures kb[i].data == PairData(shown[i].0, shown[i].1) {
        assert kb[i] == buttons[i] == PairButton(shown[i], info, intervals);
      }
    }
  }

  // ---------------------------------------------------------------------
  // The interval options of one pair

  /** The six offered intervals, in seconds, with their labels. */
  const IntervalOptions: seq<(string, int)> :=
    [("1м", 60), ("5м", 300), ("10м", 600), ("15м", 900), ("30м", 1800), ("1ч", 3600)]

  /** `f"set_interval_{channel1}_{channel2}_{seconds}"`, that is the five fields joined by '_'. */
  function OptionData(channel1: string, channel2: string, seconds: int): string {
    Join(["set", "interval", channel1, channel2, IntToString(seconds)], '_')
  }

  /** `create_channel_interval_options`: one button per offered interval, then "back". */
  function IntervalOptionsKeyboard(channel1: string, channel2: string): (kb: seq<Button>)
    ensures |kb| == |IntervalOptions| + 1
    ensures forall i :: 0 <= i < |IntervalOptions| ==>
              kb[i] == Button(IntervalOptions[i].0, OptionData(channel1, channel2, IntervalOptions[i].1))
    ensures kb[|IntervalOptions|] == Button("Назад", "channel_intervals")
  {
    seq(|IntervalOptions|, i requires 0 <= i < |IntervalOptions| =>
          Button(IntervalOptions[i].0, OptionData(channel1, channel2, IntervalOptions[i].1)))
      + [Button("Назад", "channel_intervals")]
  }

  /**
   * When neither channel contains an underscore, splitting the option data on '_' gives
   * exactly five parts, and parts 2, 3 and 4 give back the channels and the seconds.
   */
  lemma OptionDataSplits(channel1: string, channel2: string, seconds: int)
    requires '_' !in channel1 && '_' !in channel2
    ensures var parts := Split(OptionData(channel1, channel2, seconds), '_');
            && |parts| == 5
            && parts[2] == channel1 && parts[3] == channel2
            && ParseInt(parts[4]) == Some(seconds)
  {
    var fields := ["set", "interval", channel1, channel2, IntToString(seconds)];
    forall k | 0 <= k < |fields| ensures '_' !in fields[k] {
      if k == 4 {
        var n := fields[4];
        assert forall i :: 0 <= i < |n| ==> n[i] != '_';
      }
    }
    SplitJoin(fields, '_');
    ParseIntRoundTrip(seconds);
  }

  // ---------------------------------------------------------------------
  // The channel-removal keyboard

  /**
   * A channel name on the removal keyboard: a raw `-100…` ID without a title becomes
   * "ID: " and its last eight characters; any other name longer than 25 characters is cut
   * to 22 and followed by "...".
   */
  function RemovalName(name: string, channel: string): (r: string)
    ensures |r| <= 25
    ensures name == channel && StartsWith(channel, "-100") ==>
              |r| >= 4 && r[..4] == "ID: " && r[4..] == Last(channel, 8) && channel[|channel| - |r[4..]|..] == r[4..]
    ensures !(name == channel && StartsWith(channel, "-100")) && |name| <= 25 ==> r == name
    ensures !(name == channel && StartsWith(channel, "-100")) && |name| > 25 ==>
              |r| == 25 && r[..22] == name[..22] && r[22..] == "..."
  {
    if name == channel && StartsWith(channel, "-100") then "ID: " + Last(channel, 8)
    else if |name| <= 25 then name
    else Take(name, 22) + "..."
  }

  function RemovalButton(channel: string, info: map<string, string>): Button {
    Button("❌ " + RemovalName(NameOf(channel, info), channel), "remove_channel_" + channel)
  }

  function RemovalButtons(channels: seq<string>, info: map<string, string>): seq<Button> {
    seq(|channels|, i requires 0 <= i < |channels| => RemovalButton(channels[i], info))
  }

  const NoChannels := [Button("Нет каналов для удаления", Dummy), BackToChannels]

  /** `create_channel_removal_keyboard`. */
  function RemovalKeyboard(channels: seq<string>, page: int, info: map<string, string>, perPage: int)
    : (kb: seq<Button>)
    requires perPage > 0
  {
    if channels == [] then NoChannels
    else
      var nav := Navigation(RemovalNav, |channels|, page, perPage);
      RemovalButtons(PageItems(channels, page, perPage), info)
        + (if |nav| > 1 then nav else []) + [BackToChannels]
  }

  /**
   * The removal keyboard lists the page's channels, then the navigation buttons only when
   * there are at least two of them, then "back to channels".
   */
  lemma RemovalKeyboardLayout(channels: seq<string>, page: int, info: map<string, string>, perPage: int)
    requires perPage > 0
    ensures channels == [] ==> RemovalKeyboard(channels, page, info, perPage) == NoChannels
    ensures channels != [] ==>
              var kb := RemovalKeyboard(channels, page, info, perPage);
              var shown := PageItems(channels, page, perPage);
              var nav := Navigation(RemovalNav, |channels|, page, perPage);
              && |kb| == |shown| + (if |nav| >= 2 then |nav| else 0) + 1
              && (forall i :: 0 <= i < |shown| ==> kb[i].data == "remove_channel_" + shown[i])
              && (|nav| >= 2 ==> kb[|shown|..|shown| + |nav|] == nav)
              && kb[|kb| - 1] == BackToChannels
  {
    if channels != [] {
      var shown := PageItems(channels, page, perPage);
      var nav := Navigation(RemovalNav, |channels|, page, perPage);
      var kb := RemovalKeyboard(channels, page, info, perPage);
      var buttons := RemovalButtons(shown, info);
      assert kb == buttons + (if |nav| > 1 then nav else []) + [BackToChannels];
      forall i | 0 <= i < |shown| ensures kb[i].data == "remove_channel_" + shown[i] {
        assert kb[i] == buttons[i] == RemovalButton(shown[i], info);
      }
    }
  }
}
