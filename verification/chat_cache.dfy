// The chat-information cache of services/chat_cache.py: a TTL cache of chat
// details fetched from Telegram, a one-hour negative map of chats that failed,
// oldest-entry eviction beyond the maximum size, and the observer list.

module ChatCache {
  import opened Wrappers
  import opened Text
  import opened Lists
  import Configuration

  /** Seconds an invalid-chat record suppresses re-fetching. */
  const InvalidRetry := 3600

  /** One cached chat; `lastUpdated` is the fetch time in whole seconds. */
  datatype ChatInfo = ChatInfo(id: int, title: string, chatType: string, memberCount: Option<int>,
                               lastUpdated: int, isValid: bool)

  /** The error types recorded in the invalid map ("upgraded", "not_found", "forbidden", "bad_request"). */
  datatype ErrorKind = Upgraded | NotFound | Forbidden | BadRequest

  datatype InvalidRecord = InvalidRecord(kind: ErrorKind, message: string, timestamp: int)

  /**
   * What the Telegram lookup of one chat produced: the chat (title, type and
   * the member count when that second call succeeded), one of the three
   * Telegram error classes with its text, or any other exception.
   */
  datatype FetchOutcome =
    | Fetched(title: Option<string>, chatType: string, memberCount: Option<int>)
    | BadRequestError(text: string)
    | ForbiddenError(text: string)
    | NotFoundError(text: string)
    | OtherError

  /** The call made on every observer, if any. */
  datatype Notification = Silent | CacheUpdate(chatId: int, info: ChatInfo) | ChatInvalid(chatId: int, reason: string)

  const UpgradedPhrase := "group chat was upgraded to a supergroup"
  const NotFoundPhrase := "chat not found"
  const BadRequestPhrase := "bad request"

  /** The error type a bad-request text is filed under, matched case-insensitively. */
  function BadRequestKind(text: string): (r: ErrorKind)
    ensures r != Forbidden
    ensures r == Upgraded <==> Contains(Lower(text), UpgradedPhrase)
    ensures r == BadRequest <==> !Contains(Lower(text), UpgradedPhrase) && !Contains(Lower(text), NotFoundPhrase)
  {
    var lowered := Lower(text);
    if Contains(lowered, UpgradedPhrase) then Upgraded
    else if Contains(lowered, NotFoundPhrase) then NotFound
    else BadRequest
  }

  /** The observer notification for a bad request; the unrecognised kind notifies nobody. */
  function BadRequestNotice(chatId: int, text: string): (r: Notification)
    ensures r.Silent? <==> BadRequestKind(text) == BadRequest && !Contains(Lower(text), BadRequestPhrase)
    ensures r.ChatInvalid? ==> r.chatId == chatId
  {
    var lowered := Lower(text);
    if Contains(lowered, UpgradedPhrase) then ChatInvalid(chatId, "Chat was upgraded to supergroup")
    else if Contains(lowered, NotFoundPhrase) then ChatInvalid(chatId, "Chat not found")
    else if Contains(lowered, BadRequestPhrase) then ChatInvalid(chatId, "Bad request: " + text)
    else Silent
  }

  lemma LowerIdempotent(s: string)
    ensures Lower(Lower(s)) == Lower(s)
  {
    forall i | 0 <= i < |s|
      ensures Lower(Lower(s))[i] == Lower(s)[i]
    {
      assert LowerChar(LowerChar(s[i])) == LowerChar(s[i]);
    }
  }

  /** Classification and notification depend on the text only up to letter case. */
  lemma ClassificationIgnoresCase(chatId: int, text: string)
    ensures BadRequestKind(Lower(text)) == BadRequestKind(text)
    ensures BadRequestNotice(chatId, Lower(text)).Silent? == BadRequestNotice(chatId, text).Silent?
  {
    LowerIdempotent(text);
  }

  /** A missing or empty title falls back to "Chat <id>". */
  function TitleOr(chatId: int, title: Option<string>): (r: string)
    ensures r != []
    ensures title.Some? && title.value != [] ==> r == title.value
  {
    if title.Some? && title.value != [] then title.value else "Chat " + IntToString(chatId)
  }

  /** The negative-cache test: a record younger than an hour. */
  predicate KnownInvalid(invalid: map<int, InvalidRecord>, chatId: int, now: int) {
    chatId in invalid && now - invalid[chatId].timestamp < InvalidRetry
  }

  /** The invalid map after the test: an expired record of `chatId` is dropped. */
  function AfterInvalidCheck(invalid: map<int, InvalidRecord>, chatId: int, now: int): (r: map<int, InvalidRecord>)
    ensures chatId in r <==> KnownInvalid(invalid, chatId, now)
    ensures forall k :: k != chatId ==> (k in r <==> k in invalid) && (k in r ==> r[k] == invalid[k])
  {
    if chatId in invalid && !KnownInvalid(invalid, chatId, now) then invalid - {chatId} else invalid
  }

  /** A new record for `chatId` overwrites whatever the expiry check left of the old one. */
  lemma RecordAfterCheck(invalid: map<int, InvalidRecord>, chatId: int, now: int, record: InvalidRecord)
    ensures AfterInvalidCheck(invalid, chatId, now)[chatId := record] == invalid[chatId := record]
  {
    var before, after := invalid[chatId := record], AfterInvalidCheck(invalid, chatId, now)[chatId := record];
    assert forall k :: k in after <==> k in before;
  }

  /** A cached entry served without fetching: valid and younger than the cache TTL. */
  predicate FreshHit(cache: map<int, ChatInfo>, chatId: int, now: int) {
    chatId in cache && cache[chatId].isValid && now - cache[chatId].lastUpdated < Configuration.CacheTtl
  }

  /** The cache after marking `chatId` invalid: its entry, if any, loses validity. */
  function MarkedInCache(cache: map<int, ChatInfo>, chatId: int): (r: map<int, ChatInfo>)
    ensures r.Keys == cache.Keys
    ensures chatId in r ==> r[chatId] == cache[chatId].(isValid := false)
    ensures forall k :: k in r && k != chatId ==> r[k] == cache[k]
  {
    if chatId in cache then cache[chatId := cache[chatId].(isValid := false)] else cache
  }

  predicate IsOldest(entries: map<int, ChatInfo>, key: int) {
    key in entries && forall k :: k in entries ==> entries[key].lastUpdated <= entries[k].lastUpdated
  }

  /** `after` is `inserted`, minus one oldest entry when `inserted` exceeds the maximum size. */
  ghost predicate EvictedOldest(inserted: map<int, ChatInfo>, after: map<int, ChatInfo>) {
    if |inserted| > Configuration.MaxCacheSize then
      exists key :: IsOldest(inserted, key) && after == inserted - {key}
    else
      after == inserted
  }

  /** One insertion followed by eviction never leaves the cache above its maximum size. */
  lemma EvictionKeepsBound(inserted: map<int, ChatInfo>, after: map<int, ChatInfo>)
    requires |inserted| <= Configuration.MaxCacheSize + 1
    requires EvictedOldest(inserted, after)
    ensures |after| <= Configuration.MaxCacheSize
    ensures after.Keys <= inserted.Keys
    ensures forall k :: k in after ==> after[k] == inserted[k]
  {
    if |inserted| > Configuration.MaxCacheSize {
      var key :| IsOldest(inserted, key) && after == inserted - {key};
      assert after.Keys == inserted.Keys - {key};
    }
  }

  /** The invalid chats that the clean-up removes: every kind but bad requests, whose removal succeeds. */
  function Removable(invalid: map<int, InvalidRecord>, deletable: set<int>): (r: set<int>)
    ensures forall k :: k in r <==> k in invalid && invalid[k].kind != BadRequest && k in deletable
  {
    set k | k in invalid && invalid[k].kind != BadRequest && k in deletable
  }

  /** Removing one more key from a map difference. */
  lemma RemoveOneMore<K, V>(m: map<K, V>, done: set<K>, key: K)
    ensures (m - done) - {key} == m - (done + {key})
  {
    assert forall k :: k in (m - done) - {key} <==> k in m - (done + {key});
  }

  /**
   * One step of the clean-up loop: `key` leaves the to-do set, and when it is removable it
   * joins `done`, the removed list, and the keys taken out of both maps.
   */
  lemma CleanupStep(cache: map<int, ChatInfo>, invalid: map<int, InvalidRecord>, gone: set<int>,
                    todo: set<int>, done: set<int>, removed: seq<int>, key: int)
    requires done == gone - todo && key in todo
    requires NoDuplicates(removed) && forall k :: k in removed <==> k in done
    ensures key in gone ==>
              && done + {key} == gone - (todo - {key}) && NoDuplicates(removed + [key])
              && (cache - done) - {key} == cache - (done + {key})
              && (invalid - done) - {key} == invalid - (done + {key})
    ensures key !in gone ==> done == gone - (todo - {key})
  {
    assert key !in removed;
    assert forall k :: k in gone - (todo - {key}) <==> k in done || (k == key && key in gone);
    RemoveOneMore(cache, done, key);
    RemoveOneMore(invalid, done, key);
  }

  /** One append-if-absent, the observer registration. */
  lemma AppendAbsentOne<T>(s: seq<T>, x: T)
    ensures AppendAbsent(s, [x]) == if x in s then s else s + [x]
  {
    assert [x][..0] == [];
  }

  /** Registering an observer twice has the effect of registering it once, and adds no duplicate. */
  lemma {:induction false} AddObserverIdempotent<T>(s: seq<T>, x: T)
    requires NoDuplicates(s)
    ensures AppendAbsent(AppendAbsent(s, [x]), [x]) == AppendAbsent(s, [x])
    ensures NoDuplicates(AppendAbsent(s, [x]))
    ensures x in AppendAbsent(s, [x])
  {
    AppendAbsentOne(s, x);
    AppendAbsentOne(AppendAbsent(s, [x]), x);
  }

  class ChatCacheService {
    var cache: map<int, ChatInfo>
    var invalid: map<int, InvalidRecord>
    var observers: seq<object>

    /** The cache stays within its maximum size and is keyed by each entry's own ID. */
    predicate Valid()
      reads this
    {
      && |cache| <= Configuration.MaxCacheSize
      && (forall k :: k in cache ==> cache[k].id == k)
      && NoDuplicates(observers)
    }

    constructor ()
      ensures Valid()
      ensures cache == map[] && invalid == map[] && observers == []
    {
      cache := map[];
      invalid := map[];
      observers := [];
    }

    method AddObserver(observer: object)
      requires Valid()
      modifies this`observers
      ensures Valid()
      ensures observers == AppendAbsent(old(observers), [observer])
      ensures observer in observers
    {
      AppendAbsentOne(observers, observer);
      AddObserverIdempotent(observers, observer);
      if observer !in observers {
        observers := observers + [observer];
      }
    }

    method RemoveObserver(observer: object)
      requires Valid()
      modifies this`observers
      ensures Valid()
      ensures observers == RemoveFirst(old(observers), observer)
      ensures observer !in observers
    {
      RemoveFirstNoDuplicates(observers, observer);
      if observer in observers {
        observers := RemoveFirst(observers, observer);
      }
    }

    /** The negative-cache test, dropping an expired record as it goes. */
    method IsKnownInvalid(chatId: int, now: int) returns (known: bool)
      modifies this`invalid
      ensures known == KnownInvalid(old(invalid), chatId, now)
      ensures invalid == AfterInvalidCheck(old(invalid), chatId, now)
    {
      if chatId in invalid {
        var errorTime := invalid[chatId].timestamp;
        if now - errorTime < InvalidRetry {
          return true;
        }
        invalid := invalid - {chatId};
      }
      return false;
    }

    method MarkInvalid(chatId: int, kind: ErrorKind, message: string, now: int)
      requires Valid()
      modifies this`invalid, this`cache
      ensures Valid()
      ensures invalid == old(invalid)[chatId := InvalidRecord(kind, message, now)]
      ensures cache == MarkedInCache(old(cache), chatId)
      ensures KnownInvalid(invalid, chatId, now)
    {
      invalid := invalid[chatId := InvalidRecord(kind, message, now)];
      if chatId in cache {
        cache := cache[chatId := cache[chatId].(isValid := false)];
      }
    }

    /** A key of minimal `lastUpdated`, found by one pass over the keys. */
    static method OldestEntry(entries: map<int, ChatInfo>) returns (oldest: int)
      requires |entries| > 0
      ensures IsOldest(entries, oldest)
    {
      var todo := entries.Keys;
      ghost var first := Member(todo);
      oldest :| oldest in todo;
      todo := todo - {oldest};
      while todo != {}
        invariant todo <= entries.Keys
        invariant oldest in entries
        invariant forall k :: k in entries && k !in todo ==> entries[oldest].lastUpdated <= entries[k].lastUpdated
        decreases |todo|
      {
        ghost var next := Member(todo);
        var k :| k in todo;
        if entries[k].lastUpdated < entries[oldest].lastUpdated {
          oldest := k;
        }
        todo := todo - {k};
      }
    }

    /** Stores a freshly fetched entry, clears its invalid record and evicts the oldest entry on overflow. */
    method StoreFetched(info: ChatInfo)
      requires Valid()
      modifies this`cache, this`invalid
      ensures Valid()
      ensures invalid == old(invalid) - {info.id}
      ensures EvictedOldest(old(cache)[info.id := info], cache)
    {
      var inserted := cache[info.id := info];
      assert |inserted| <= Configuration.MaxCacheSize + 1;
      assert forall k :: k in inserted ==> inserted[k].id == k;
      cache := inserted;
      if info.id in invalid {
        invalid := invalid - {info.id};
      } else {
        assert forall k :: k in invalid - {info.id} <==> k in invalid;
        assert invalid == invalid - {info.id};
      }
      if |cache| > Configuration.MaxCacheSize {
        var oldest := OldestEntry(cache);
        cache := cache - {oldest};
      }
      EvictionKeepsBound(inserted, cache);
    }

    /**
     * Chat details for `chatId`: skipped while the chat is known invalid,
     * served from the cache while fresh, and otherwise looked up, with
     * `fetch` standing for what the lookup produced at time `now`.
     */
    method GetChatInfo(chatId: int, forceRefresh: bool, now: int, fetch: FetchOutcome)
      returns (result: Option<ChatInfo>, notice: Notification)
      requires Valid()
      modifies this`cache, this`invalid
      ensures Valid()
      ensures var checked := if forceRefresh then old(invalid) else AfterInvalidCheck(old(invalid), chatId, now);
              if !forceRefresh && KnownInvalid(old(invalid), chatId, now) then
                result == None && notice == Silent && cache == old(cache) && invalid == old(invalid)
              else if !forceRefresh && FreshHit(old(cache), chatId, now) then
                result == Some(old(cache)[chatId]) && notice == Silent && cache == old(cache) && invalid == checked
              else match fetch
                case Fetched(title, chatType, memberCount) =>
                  var info := ChatInfo(chatId, TitleOr(chatId, title), chatType, memberCount, now, true);
                  && result == Some(info) && notice == CacheUpdate(chatId, info)
                  && invalid == checked - {chatId}
                  && EvictedOldest(old(cache)[chatId := info], cache)
                case BadRequestError(text) =>
                  && result == None && notice == BadRequestNotice(chatId, text)
                  && invalid == old(invalid)[chatId := InvalidRecord(BadRequestKind(text), text, now)]
                  && cache == MarkedInCache(old(cache), chatId)
                case ForbiddenError(text) =>
                  && result == None && notice == ChatInvalid(chatId, "Bot was removed or blocked from chat")
                  && invalid == old(invalid)[chatId := InvalidRecord(Forbidden, text, now)]
                  && cache == MarkedInCache(old(cache), chatId)
                case NotFoundError(text) =>
                  && result == None && notice == ChatInvalid(chatId, "Chat not found")
                  && invalid == old(invalid)[chatId := InvalidRecord(NotFound, text, now)]
                  && cache == MarkedInCache(old(cache), chatId)
                case OtherError =>
                  result == None && notice == Silent && cache == old(cache) && invalid == checked
    {
      ghost var start := invalid;
      if !forceRefresh {
        var known := IsKnownInvalid(chatId, now);
        if known {
          return None, Silent;
        }
      }
      if !forceRefresh && chatId in cache {
        var cached := cache[chatId];
        if cached.isValid && now - cached.lastUpdated < Configuration.CacheTtl {
          return Some(cached), Silent;
        }
      }
      match fetch {
        case Fetched(title, chatType, memberCount) =>
          var info := ChatInfo(chatId, TitleOr(chatId, title), chatType, memberCount, now, true);
          StoreFetched(info);
          result, notice := Some(info), CacheUpdate(chatId, info);
        case BadRequestError(text) =>
          RecordAfterCheck(start, chatId, now, InvalidRecord(BadRequestKind(text), text, now));
          MarkInvalid(chatId, BadRequestKind(text), text, now);
          result, notice := None, BadRequestNotice(chatId, text);
        case ForbiddenError(text) =>
          RecordAfterCheck(start, chatId, now, InvalidRecord(Forbidden, text, now));
          MarkInvalid(chatId, Forbidden, text, now);
          result, notice := None, ChatInvalid(chatId, "Bot was removed or blocked from chat");
        case NotFoundError(text) =>
          RecordAfterCheck(start, chatId, now, InvalidRecord(NotFound, text, now));
          MarkInvalid(chatId, NotFound, text, now);
          result, notice := None, ChatInvalid(chatId, "Chat not found");
        case OtherError =>
          result, notice := None, Silent;
      }
    }

    /** Manual retry: forgets the invalid record, reporting whether there was one. */
    method ClearInvalidChat(chatId: int) returns (cleared: bool)
      modifies this`invalid
      ensures cleared <==> chatId in old(invalid)
      ensures invalid == old(invalid) - {chatId}
    {
      if chatId in invalid {
        invalid := invalid - {chatId};
        return true;
      }
      return false;
    }

    method ClearCache()
      requires Valid()
      modifies this`cache
      ensures Valid()
      ensures cache == map[]
    {
      cache := map[];
    }

    method RemoveFromCache(chatId: int)
      requires Valid()
      modifies this`cache, this`invalid
      ensures Valid()
      ensures cache == old(cache) - {chatId} && invalid == old(invalid) - {chatId}
      ensures chatId !in cache && chatId !in invalid
    {
      cache := cache - {chatId};
      invalid := invalid - {chatId};
    }

    /** One chat of the clean-up: a removable chat leaves the target list, the cache and the invalid map. */
    method CleanupOne(chatId: int, kind: ErrorKind, deletable: set<int>) returns (dropped: bool)
      requires Valid()
      modifies this`cache, this`invalid
      ensures Valid()
      ensures dropped <==> kind != BadRequest && chatId in deletable
      ensures dropped ==> cache == old(cache) - {chatId} && invalid == old(invalid) - {chatId}
      ensures !dropped ==> cache == old(cache) && invalid == old(invalid)
    {
      dropped := kind != BadRequest && chatId in deletable;
      if dropped {
        RemoveFromCache(chatId);
      }
    }

    /**
     * Removes from the target list, the cache and the invalid map every
     * invalid chat recorded as upgraded, not found or forbidden;
     * `deletable` says whether the database removal of a chat succeeds.
     */
    method CleanupInvalidChats(deletable: set<int>) returns (removed: seq<int>)
      requires Valid()
      modifies this`cache, this`invalid
      ensures Valid()
      ensures NoDuplicates(removed)
      ensures forall k :: k in removed <==> k in Removable(old(invalid), deletable)
      ensures cache == old(cache) - Removable(old(invalid), deletable)
      ensures invalid == old(invalid) - Removable(old(invalid), deletable)
    {
      var snapshot := invalid;
      ghost var before := cache;
      ghost var gone := Removable(snapshot, deletable);
      ghost var done: set<int> := {};
      var todo := snapshot.Keys;
      removed := [];
      while todo != {}
        invariant Valid()
        invariant todo <= snapshot.Keys
        invariant NoDuplicates(removed)
        invariant forall k :: k in removed <==> k in done
        invariant done == gone - todo
        invariant cache == before - done
        invariant invalid == snapshot - done
        decreases |todo|
      {
        ghost var next := Member(todo);
        var chatId :| chatId in todo;
        CleanupStep(before, snapshot, gone, todo, done, removed, chatId);
        var dropped := CleanupOne(chatId, snapshot[chatId].kind, deletable);
        if dropped {
          removed := removed + [chatId];
          done := done + {chatId};
        }
        todo := todo - {chatId};
      }
      assert forall k :: k in gone - todo <==> k in gone;
      assert done == gone;
    }
  }
}
