/**
 * The configuration singleton's in-memory bookkeeping: the admin IDs parsed from the
 * environment, the ordered source-channel list, and the per-bot clone admins.
 * The channel file is reduced to the list of entries it holds; the clone-admin file is
 * a field mapping bot IDs to their stored entries. JSON encoding and file errors are
 * not modelled.
 */
module Configuration {
  import opened Wrappers
  import opened Text
  import opened Lists

  /** One stored entry: a value `int()` accepts, with its integer, or one it rejects. */
  datatype RawId = IntLike(value: int) | NotInt

  const MainBotId := "main"
  /** Seconds a chat-info entry stays fresh. */
  const CacheTtl := 300
  /** The most entries the chat-info cache keeps. */
  const MaxCacheSize := 100

  // ---------------------------------------------------------------------
  // Admin IDs from the environment

  /**
   * The list comprehension over the comma-separated pieces: blank pieces are skipped,
   * the others go through `int()`, and one bad piece fails the whole list.
   */
  function ParseIdList(parts: seq<string>): (r: Option<seq<int>>)
    ensures r.Some? ==> |r.value| <= |parts|
    ensures r.None? <==> exists i :: 0 <= i < |parts| && Strip(parts[i]) != "" && ParseDecimal(Strip(parts[i])).None?
  {
    if parts == [] then Some([])
    else
      var init := parts[..|parts| - 1];
      var piece := Strip(parts[|parts| - 1]);
      assert forall i :: 0 <= i < |init| ==> init[i] == parts[i];
      match ParseIdList(init)
      case None => None
      case Some(ids) =>
        if piece == "" then Some(ids)
        else match ParseDecimal(piece)
          case None => None
          case Some(n) => Some(ids + [n])
  }

  /** `ADMIN_IDS` (or `OWNER_ID`) as admin IDs; a parse error gives the empty list. */
  function ParseAdminIds(raw: string): (r: seq<int>)
    ensures raw == "" ==> r == []
    ensures |r| <= |Split(raw, ',')|
    // one piece that is not an integer discards the whole list
    ensures raw != "" && ParseIdList(Split(raw, ',')).None? ==> r == []
    ensures raw != "" && ParseIdList(Split(raw, ',')).Some? ==> r == ParseIdList(Split(raw, ',')).value
  {
    if raw == "" then []
    else match ParseIdList(Split(raw, ','))
      case None => []
      case Some(ids) => ids
  }

  /** The decimal form of each ID, in order. */
  function Formatted(ids: seq<int>): (parts: seq<string>)
    ensures |parts| == |ids|
    ensures forall i :: 0 <= i < |ids| ==> parts[i] == IntToString(ids[i])
  {
    if ids == [] then [] else Formatted(ids[..|ids| - 1]) + [IntToString(ids[|ids| - 1])]
  }

  /** The decimal forms of `ids`, comma-separated. */
  function FormatAdminIds(ids: seq<int>): (s: string)
    requires |ids| >= 1
    ensures s != ""
  {
    Join(Formatted(ids), ',')
  }

  lemma {:induction false} ParseFormattedParts(ids: seq<int>)
    ensures ParseIdList(Formatted(ids)) == Some(ids)
  {
    if ids != [] {
      var init := ids[..|ids| - 1];
      var n := ids[|ids| - 1];
      assert ids == init + [n];
      var parts := Formatted(ids);
      ParseFormattedParts(init);
      assert parts[..|parts| - 1] == Formatted(init);
      var piece := IntToString(n);
      assert parts[|parts| - 1] == piece;
      StripNoSpace(piece);
      DecimalRoundTrip(n);
      assert ParseIdList(parts) == Some(init + [n]);
    }
  }

  /** Admin IDs written out comma-separated are read back exactly. */
  lemma AdminIdsRoundTrip(ids: seq<int>)
    requires |ids| >= 1
    ensures ParseAdminIds(FormatAdminIds(ids)) == ids
  {
    SplitJoin(Formatted(ids), ',');
    ParseFormattedParts(ids);
  }

  // ---------------------------------------------------------------------
  // Source channels

  /** The file's channel entries with leading `@` removed and empty results dropped. */
  function CleanChannels(entries: seq<string>): (r: seq<string>)
    ensures |r| <= |entries|
    ensures "" !in r
  {
    if entries == [] then []
    else
      var c := StripAt(entries[|entries| - 1]);
      CleanChannels(entries[..|entries| - 1]) + (if c != "" then [c] else [])
  }

  /** The entries of one appended channel. */
  lemma CleanChannelsSnoc(entries: seq<string>, e: string)
    ensures CleanChannels(entries + [e]) == CleanChannels(entries) + (if StripAt(e) != "" then [StripAt(e)] else [])
  {
    assert (entries + [e])[..|entries|] == entries;
  }

  /** Merging one more file entry appends its cleaned name when non-empty and not yet listed. */
  lemma MergeStep(start: seq<string>, entries: seq<string>, i: int)
    requires 0 <= i < |entries|
    ensures var merged, c := AppendAbsent(start, CleanChannels(entries[..i])), StripAt(entries[i]);
            c != "" && c !in merged ==> AppendAbsent(start, CleanChannels(entries[..i + 1])) == merged + [c]
    ensures var merged, c := AppendAbsent(start, CleanChannels(entries[..i])), StripAt(entries[i]);
            !(c != "" && c !in merged) ==> AppendAbsent(start, CleanChannels(entries[..i + 1])) == merged
  {
    var prefix, e := entries[..i], entries[i];
    assert entries[..i + 1] == prefix + [e];
    var cleaned, c := CleanChannels(prefix), StripAt(e);
    CleanChannelsSnoc(prefix, e);
    if c != "" {
      AppendAbsentSnoc(start, cleaned, c);
    } else {
      assert cleaned + [] == cleaned;
    }
  }

  /** Every channel is non-empty and listed once. */
  predicate WellFormedChannels(channels: seq<string>) {
    NoDuplicates(channels) && "" !in channels
  }

  /** `SOURCE_CHANNEL` with leading `@` removed, as the initial list; empty when nothing is left. */
  function InitialChannels(sourceChannel: string): (r: seq<string>)
    ensures WellFormedChannels(r)
    ensures |r| <= 1 && (r == [] <==> StripAt(sourceChannel) == "")
    ensures r != [] ==> r[0] == StripAt(sourceChannel)
  {
    var c := StripAt(sourceChannel);
    if c == "" then [] else [c]
  }

  /** The channel list of the file; none when the file is missing or holds no list. */
  function ChannelEntries(fileChannels: Option<seq<string>>): seq<string> {
    if fileChannels.Some? then fileChannels.value else []
  }

  /** The first admin is the owner; 0 when there is none. */
  function OwnerOf(admins: seq<int>): (owner: int)
    ensures admins != [] ==> owner == admins[0]
    ensures admins == [] ==> owner == 0
  {
    if admins == [] then 0 else admins[0]
  }

  /** Merging file entries keeps the list well formed and only adds channels at the end. */
  lemma MergeKeepsWellFormed(channels: seq<string>, entries: seq<string>)
    requires WellFormedChannels(channels)
    ensures var r := AppendAbsent(channels, CleanChannels(entries));
            WellFormedChannels(r) && r[..|channels|] == channels
  {
    var r := AppendAbsent(channels, CleanChannels(entries));
    AppendAbsentMembers(channels, CleanChannels(entries));
  }

  /** The clone admins the file holds for `botId`, or none. */
  function FileEntries(file: map<string, seq<RawId>>, botId: string): seq<RawId> {
    if botId in file then file[botId] else []
  }

  /** The entries `int()` accepts, as integers, in file order (duplicates kept). */
  function IntsOf(entries: seq<RawId>): (r: seq<int>)
    ensures |r| <= |entries|
    ensures forall x :: x in r <==> IntLike(x) in entries
  {
    if entries == [] then []
    else
      var init := entries[..|entries| - 1];
      var last := entries[|entries| - 1];
      assert entries == init + [last];
      IntsOf(init) + (if last.IntLike? then [last.value] else [])
  }

  /** The integers as stored entries, in order. */
  function AsRaw(ids: seq<int>): (r: seq<RawId>)
    ensures |r| == |ids|
  {
    if ids == [] then [] else AsRaw(ids[..|ids| - 1]) + [IntLike(ids[|ids| - 1])]
  }

  /** Reading one more entry appends its integer, if it has one. */
  lemma IntsOfSnoc(entries: seq<RawId>, e: RawId)
    ensures IntsOf(entries + [e]) == IntsOf(entries) + (if e.IntLike? then [e.value] else [])
  {
    assert (entries + [e])[..|entries|] == entries;
  }

  /** Stored integers are all read back, in order. */
  lemma {:induction false} IntsOfAsRaw(ids: seq<int>)
    ensures IntsOf(AsRaw(ids)) == ids
  {
    if ids != [] {
      var init, last := ids[..|ids| - 1], ids[|ids| - 1];
      calc {
        IntsOf(AsRaw(ids));
        IntsOf(AsRaw(init) + [IntLike(last)]);
        { IntsOfSnoc(AsRaw(init), IntLike(last)); }
        IntsOf(AsRaw(init)) + [last];
        { IntsOfAsRaw(init); }
        init + [last];
      }
      assert ids == init + [last];
    }
  }

  /** The admin list with every ID of `removed` filtered out, order kept. */
  function Without(ids: seq<int>, removed: set<int>): (r: seq<int>)
    ensures removed == {} ==> r == ids
    ensures forall x :: x in r <==> x in ids && x !in removed
    ensures NoDuplicates(ids) ==> NoDuplicates(r)
  {
    if ids == [] then []
    else
      var init := ids[..|ids| - 1];
      var last := ids[|ids| - 1];
      assert ids == init + [last];
      Without(init, removed) + (if last in removed then [] else [last])
  }

  /**
   * What saving the clone admins stores for one bot: the file's integer entries plus the
   * cached IDs not among them, sorted.
   */
  predicate IsSortedMerge(saved: seq<int>, fileIds: seq<int>, cache: set<int>) {
    Ascending(saved) && multiset(saved) == multiset(fileIds) + multiset(cache - set x | x in fileIds)
  }

  /** The saved list holds exactly the union, and is strictly ascending when the file had no repeats. */
  lemma SortedMergeUnion(saved: seq<int>, fileIds: seq<int>, cache: set<int>)
    requires IsSortedMerge(saved, fileIds, cache)
    ensures forall x :: x in saved <==> x in fileIds || x in cache
    ensures NoDuplicates(fileIds) ==> StrictlyAscending(saved)
  {
    var extra := cache - set x | x in fileIds;
    forall x
      ensures x in saved <==> x in fileIds || x in cache
    {
      assert x in saved <==> x in multiset(saved);
      assert x in fileIds <==> x in multiset(fileIds);
    }
    if NoDuplicates(fileIds) {
      NoDuplicatesMultiset(fileIds);
      forall x
        ensures multiset(saved)[x] <= 1
      {
        if x in fileIds {
          assert x !in extra;
        }
      }
      AscendingDistinct(saved);
    }
  }

  /**
   * Appends every cached ID not among `fileIds`; the order in which the set is visited is
   * left open, since the result is sorted afterwards.
   */
  method AddCachedIds(fileIds: seq<int>, cache: set<int>) returns (normalized: seq<int>)
    ensures multiset(normalized) == multiset(fileIds) + multiset(cache - set x | x in fileIds)
  {
    normalized := fileIds;
    ghost var added: seq<int> := [];
    var rest := cache;
    while rest != {}
      invariant rest <= cache
      invariant normalized == fileIds + added
      invariant NoDuplicates(added)
      invariant forall x :: x in added <==> x in cache && x !in rest && x !in fileIds
      decreases |rest|
    {
      ghost var member := Member(rest);
      var id :| id in rest;
      if id !in normalized {
        normalized := normalized + [id];
        added := added + [id];
      }
      rest := rest - {id};
    }
    ghost var extra := cache - set x | x in fileIds;
    assert forall x :: x in added <==> x in extra;
    DistinctMultiset(added, extra);
  }


  /** The clone-admin file after a save by `botId` with clone cache `cache`. */
  predicate SavesCloneAdmins(before: map<string, seq<RawId>>, after: map<string, seq<RawId>>,
                             botId: string, cache: set<int>)
  {
    if botId == "" then after == before
    else
      && botId in after
      && after == before[botId := after[botId]]
      && after[botId] == AsRaw(IntsOf(after[botId]))
      && IsSortedMerge(IntsOf(after[botId]), IntsOf(FileEntries(before, botId)), cache)
  }

  class Config {
    var botToken: string
    var adminIds: seq<int>
    var ownerId: int
    var sourceChannels: seq<string>
    var botId: string
    var cloneAdminsCache: set<int>
    /** The clone-admin file: bot ID to stored entries (empty when missing or unreadable). */
    var cloneFile: map<string, seq<RawId>>

    predicate Valid()
      reads this
    {
      WellFormedChannels(sourceChannels)
    }

    /** The environment has a token and at least one admin; otherwise initialisation raises. */
    predicate HasRequiredSettings()
      reads this
    {
      botToken != "" && adminIds != []
    }

    /**
     * Initialisation from the environment (`BOT_TOKEN`, `ADMIN_IDS` or `OWNER_ID`,
     * `SOURCE_CHANNEL`), the channel file's entries (None when the file is missing or
     * has no channel list) and the clone-admin file, as bot "main".
     */
    constructor (botToken: string, adminIdsRaw: string, sourceChannel: string,
                 fileChannels: Option<seq<string>>, cloneFile: map<string, seq<RawId>>)
      ensures this.botToken == botToken && this.cloneFile == cloneFile && botId == MainBotId
      ensures var parsed := ParseAdminIds(adminIdsRaw);
              var cloned := IntsOf(FileEntries(cloneFile, MainBotId));
              && ownerId == OwnerOf(parsed)
              && adminIds == AppendAbsent(parsed, cloned)
              && cloneAdminsCache == set x | x in cloned
      ensures sourceChannels == AppendAbsent(InitialChannels(sourceChannel), CleanChannels(ChannelEntries(fileChannels)))
      ensures Valid()
    {
      this.botToken := botToken;
      var parsed := ParseAdminIds(adminIdsRaw);
      var admins, cloned := MergeCloneAdmins(parsed, FileEntries(cloneFile, MainBotId));
      adminIds := admins;
      ownerId := OwnerOf(parsed);
      var first := InitialChannels(sourceChannel);
      var entries := ChannelEntries(fileChannels);
      var merged := MergeChannels(first, entries);
      sourceChannels := merged;
      MergeKeepsWellFormed(first, entries);
      botId := MainBotId;
      cloneAdminsCache := set x | x in cloned;
      this.cloneFile := cloneFile;
    }

    function IsAdmin(userId: int): (r: bool)
      reads this
      ensures r <==> exists i :: 0 <= i < |adminIds| && adminIds[i] == userId
    {
      userId in adminIds
    }

    /** Appends the file's channels that are non-empty after `@`-stripping and not yet listed. */
    method LoadChannelsFromConfig(fileChannels: Option<seq<string>>)
      modifies this`sourceChannels
      ensures sourceChannels == AppendAbsent(old(sourceChannels), CleanChannels(ChannelEntries(fileChannels)))
      ensures old(Valid()) ==> Valid()
    {
      var entries := ChannelEntries(fileChannels);
      sourceChannels := MergeChannels(sourceChannels, entries);
      if old(Valid()) {
        MergeKeepsWellFormed(old(sourceChannels), entries);
      }
    }

    /** The merge loop of the channel load, one file entry at a time. */
    static method MergeChannels(start: seq<string>, entries: seq<string>) returns (channels: seq<string>)
      ensures channels == AppendAbsent(start, CleanChannels(entries))
    {
      channels := start;
      var i := 0;
      while i < |entries|
        invariant 0 <= i <= |entries|
        invariant channels == AppendAbsent(start, CleanChannels(entries[..i]))
      {
        var channel := StripAt(entries[i]);
        MergeStep(start, entries, i);
        if channel != "" && channel !in channels {
          channels := channels + [channel];
        }
        i := i + 1;
      }
      assert entries[..i] == entries;
    }

    /** Adds a channel at the end when, `@`-stripped, it is non-empty and new. */
    method AddSourceChannel(channel: string) returns (added: bool)
      modifies this`sourceChannels
      ensures var c := StripAt(channel);
              && (added <==> c != "" && c !in old(sourceChannels))
              && sourceChannels == (if added then old(sourceChannels) + [c] else old(sourceChannels))
      ensures sourceChannels == AppendAbsent(old(sourceChannels), CleanChannels([channel]))
      ensures old(Valid()) ==> Valid()
    {
      var c := StripAt(channel);
      assert [channel][..0] == [];
      if c != "" && c !in sourceChannels {
        sourceChannels := sourceChannels + [c];
        return true;
      }
      return false;
    }

    /** Removes the first occurrence of the `@`-stripped channel, if listed. */
    method RemoveSourceChannel(channel: string) returns (removed: bool)
      modifies this`sourceChannels
      ensures var c := StripAt(channel);
              && (removed <==> c in old(sourceChannels))
              && sourceChannels == RemoveFirst(old(sourceChannels), c)
      ensures old(Valid()) ==> Valid() && StripAt(channel) !in sourceChannels
    {
      var c := StripAt(channel);
      if old(Valid()) {
        RemoveFirstNoDuplicates(sourceChannels, c);
      }
      if c in sourceChannels {
        sourceChannels := RemoveFirst(sourceChannels, c);
        return true;
      }
      return false;
    }

    /**
     * Reads this bot's clone admins from the file: the integer entries are appended to
     * the admin list when absent, and become the clone cache.
     */
    method LoadCloneAdmins()
      modifies this`adminIds, this`cloneAdminsCache
      ensures var cleaned := IntsOf(FileEntries(cloneFile, botId));
              && adminIds == AppendAbsent(old(adminIds), cleaned)
              && cloneAdminsCache == set x | x in cleaned
    {
      var merged, cleaned := MergeCloneAdmins(adminIds, FileEntries(cloneFile, botId));
      adminIds := merged;
      cloneAdminsCache := set x | x in cleaned;
    }

    /** The `int(x)` pass over the stored entries: the integer ones, in file order. */
    static method IntEntries(entries: seq<RawId>) returns (ints: seq<int>)
      ensures ints == IntsOf(entries)
    {
      ints := [];
      var i := 0;
      while i < |entries|
        invariant 0 <= i <= |entries|
        invariant ints == IntsOf(entries[..i])
      {
        assert entries[..i + 1][..i] == entries[..i];
        if entries[i].IntLike? {
          ints := ints + [entries[i].value];
        }
        i := i + 1;
      }
      assert entries[..i] == entries;
    }

    /** The two loops of the clone-admin load: keep the integer entries, then append the absent ones. */
    static method MergeCloneAdmins(admins: seq<int>, entries: seq<RawId>) returns (merged: seq<int>, cleaned: seq<int>)
      ensures cleaned == IntsOf(entries)
      ensures merged == AppendAbsent(admins, cleaned)
    {
      cleaned := IntEntries(entries);
      merged := admins;
      var j := 0;
      while j < |cleaned|
        invariant 0 <= j <= |cleaned|
        invariant merged == AppendAbsent(admins, cleaned[..j])
      {
        assert cleaned[..j + 1][..j] == cleaned[..j];
        if cleaned[j] !in merged {
          merged := merged + [cleaned[j]];
        }
        j := j + 1;
      }
      assert cleaned[..j] == cleaned;
    }

    /**
     * Writes this bot's clone admins: the file's integer entries (duplicates kept), then
     * every cached ID not among them, sorted. Nothing is written without a bot ID.
     */
    method SaveCloneAdmins()
      modifies this`cloneFile
      ensures SavesCloneAdmins(old(cloneFile), cloneFile, botId, cloneAdminsCache)
    {
      if botId == "" {
        return;
      }
      var normalized := IntEntries(FileEntries(cloneFile, botId));
      normalized := AddCachedIds(normalized, cloneAdminsCache);
      var saved := Sort(normalized);
      IntsOfAsRaw(saved);
      cloneFile := cloneFile[botId := AsRaw(saved)];
    }

    /**
     * Switches to another bot ID: the previous clone admins leave the admin list, then the
     * new bot's clone admins are loaded. An empty ID means "main"; the same ID does nothing.
     */
    method SetBotId(newId: string)
      modifies this`adminIds, this`cloneAdminsCache, this`botId
      ensures newId == old(botId) ==>
                adminIds == old(adminIds) && cloneAdminsCache == old(cloneAdminsCache) && botId == old(botId)
      ensures newId != old(botId) ==>
                var cleaned := IntsOf(FileEntries(cloneFile, botId));
                && botId == (if newId == "" then MainBotId else newId)
                && adminIds == AppendAbsent(Without(old(adminIds), old(cloneAdminsCache)), cleaned)
                && cloneAdminsCache == set x | x in cleaned
    {
      if botId == newId {
        return;
      }
      if cloneAdminsCache != {} {
        adminIds := Without(adminIds, cloneAdminsCache);
        cloneAdminsCache := {};
      }
      botId := if newId == "" then MainBotId else newId;
      LoadCloneAdmins();
    }

    /**
     * Grants clone-admin rights. A non-integer is refused; an existing admin is only added
     * to the clone cache; a new one is appended, cached and saved.
     */
    method AddCloneAdmin(userId: RawId) returns (added: bool)
      modifies this`adminIds, this`cloneAdminsCache, this`cloneFile
      ensures userId.NotInt? ==>
                !added && adminIds == old(adminIds) && cloneAdminsCache == old(cloneAdminsCache)
                && cloneFile == old(cloneFile)
      ensures userId.IntLike? && userId.value in old(adminIds) ==>
                !added && adminIds == old(adminIds) && cloneAdminsCache == old(cloneAdminsCache) + {userId.value}
                && cloneFile == old(cloneFile)
      ensures userId.IntLike? && userId.value !in old(adminIds) ==>
                && added
                && adminIds == old(adminIds) + [userId.value]
                && cloneAdminsCache == old(cloneAdminsCache) + {userId.value}
                && SavesCloneAdmins(old(cloneFile), cloneFile, botId, cloneAdminsCache)
    {
      if userId.NotInt? {
        return false;
      }
      var id := userId.value;
      if id in adminIds {
        cloneAdminsCache := cloneAdminsCache + {id};
        return false;
      }
      adminIds := adminIds + [id];
      cloneAdminsCache := cloneAdminsCache + {id};
      SaveCloneAdmins();
      added := true;
    }
  }
}
