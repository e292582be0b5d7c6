/**
 * The backend endpoints. Storage calls are replaced by their answers: the listing is a
 * sequence of stored objects that carry what tag lookup and URL signing would return for them,
 * and the clock reading is a parameter. The listing keeps a process-wide cache keyed by ETag.
 */
module Server {
  import opened Wrappers
  import opened FeedTypes

  const OK: int := 200
  const BAD_REQUEST: int := 400
  const NOT_FOUND: int := 404
  const INTERNAL_ERROR: int := 500

  /** Cache lifetime of a terminal verdict and of anything else, in seconds. */
  const TERMINAL_TTL: int := 3600
  const TRANSIENT_TTL: int := 5
  /** An entry is served only while it has more than this many seconds left. */
  const HIT_MARGIN: int := 60

  /** The object's `status` and `reason` tags. */
  datatype Tags = Tags(status: Option<string>, reason: Option<string>)

  /**
   * One stored object: key, ETag, modification time, its tags (`None` when the tag fetch
   * raises) and the download URL signing would produce for it now.
   */
  datatype StoredObject = StoredObject(
    key: string,
    etag: string,
    lastModified: int,
    tags: Option<Tags>,
    signedUrl: string)

  /** A cache entry: the looked-up status and reason, the signed URL and its expiry time. */
  datatype CacheEntry = CacheEntry(status: Option<string>, reason: Option<string>, url: string, expiresAt: int)

  /** The `after` query parameter: absent or empty, not a number, or a number. */
  datatype AfterParam = NoAfter | Unparsable | After(t: int)

  /** What listing the bucket answered: an error, or a reply with or without `Contents`. */
  datatype ObjectListing = ListFailed | Listed(contents: Option<seq<StoredObject>>)

  /** The listing endpoint's reply: the images and the counters, or an error status. */
  datatype ListResponse = ListOk(images: seq<FeedItem>, stats: Stats) | ListError(code: int, message: string)

  const NO_STATS: Stats := Stats(0, 0, 0, 0, 0)

  /** The status-specific counters together. */
  function Buckets(s: Stats): nat
  {
    s.approved + s.blurred + s.blocked + s.processing
  }

  /** Only terminal verdicts live long enough in the cache to be served from it. */
  function Ttl(status: Option<string>): (ttl: int)
    ensures ttl > HIT_MARGIN <==> IsTerminal(status)
    ensures ttl > 0
  {
    if IsTerminal(status) then TERMINAL_TTL else TRANSIENT_TTL
  }

  /** A cache hit: an entry exists and expires more than a minute from now. */
  predicate IsHit(entry: Option<CacheEntry>, now: int)
  {
    entry.Some? && entry.value.expiresAt > now + HIT_MARGIN
  }

  /** A non-terminal entry written at or before `now` is never served from the cache. */
  lemma NonTerminalNeverHit(entry: CacheEntry, writtenAt: int, now: int)
    requires entry.expiresAt == writtenAt + Ttl(entry.status)
    requires writtenAt <= now
    requires !IsTerminal(entry.status)
    ensures !IsHit(Some(entry), now)
  {
  }

  /** The status a fresh tag lookup gives; a failed lookup gives none. */
  function FetchedStatus(o: StoredObject): Option<string>
  {
    if o.tags.Some? then o.tags.value.status else None
  }

  function FetchedReason(o: StoredObject): Option<string>
  {
    if o.tags.Some? then o.tags.value.reason else None
  }

  /** How one object is resolved: status, URL, the reason to return, and the cache afterwards. */
  datatype Resolution = Resolution(status: Option<string>, url: string, reason: Option<string>, cache: map<string, CacheEntry>)

  /**
   * A hit serves status and URL from the cache; a miss looks the tags up afresh and rewrites
   * the entry. The returned reason is the one of the entry that was there before, expired or
   * not, and the fresh one only when there was no entry.
   */
  function ResolveObject(cache: map<string, CacheEntry>, o: StoredObject, now: int): (r: Resolution)
    ensures IsHit(if o.etag in cache then Some(cache[o.etag]) else None, now) ==>
      r.status == cache[o.etag].status && r.url == cache[o.etag].url && r.cache == cache
    ensures !IsHit(if o.etag in cache then Some(cache[o.etag]) else None, now) ==>
      r.status == FetchedStatus(o) && r.url == o.signedUrl &&
      r.cache == cache[o.etag := CacheEntry(FetchedStatus(o), FetchedReason(o), o.signedUrl, now + Ttl(FetchedStatus(o)))]
    ensures r.reason == if o.etag in cache then cache[o.etag].reason else FetchedReason(o)
  {
    var cached := if o.etag in cache then Some(cache[o.etag]) else None;
    if IsHit(cached, now) then
      Resolution(cached.value.status, cached.value.url, cached.value.reason, cache)
    else
      var status := FetchedStatus(o);
      var entry := CacheEntry(status, FetchedReason(o), o.signedUrl, now + Ttl(status));
      Resolution(status, o.signedUrl, if cached.Some? then cached.value.reason else FetchedReason(o), cache[o.etag := entry])
  }

  /** Counting one object: `total` always, and at most one status counter, chosen by its status. */
  function CountStatus(s: Stats, status: Option<string>): (r: Stats)
    ensures r.total == s.total + 1
    ensures Buckets(r) == Buckets(s) + (if status in {Some(APPROVED), Some(BLURRED), Some(BLOCKED), Some(PROCESSING)} then 1 else 0)
    ensures r.approved == s.approved + (if status == Some(APPROVED) then 1 else 0)
    ensures r.blurred == s.blurred + (if status == Some(BLURRED) then 1 else 0)
    ensures r.blocked == s.blocked + (if status == Some(BLOCKED) then 1 else 0)
    ensures r.processing == s.processing + (if status == Some(PROCESSING) then 1 else 0)
  {
    var s := s.(total := s.total + 1);
    if status == Some(APPROVED) then s.(approved := s.approved + 1)
    else if status == Some(BLURRED) then s.(blurred := s.blurred + 1)
    else if status == Some(BLOCKED) then s.(blocked := s.blocked + 1)
    else if status == Some(PROCESSING) then s.(processing := s.processing + 1)
    else s
  }

  /** An image is listed only with a status that is present, not BLOCKED and not PROCESSING. */
  predicate Listable(status: Option<string>)
  {
    Truthy(status) && status != Some(BLOCKED) && status != Some(PROCESSING)
  }

  /** The cursor filter: only strictly newer objects pass a numeric `after`; otherwise all pass. */
  predicate PassesCursor(after: AfterParam, lastModified: int)
  {
    after.After? ==> lastModified > after.t
  }

  /** What the listing loop has built so far. */
  datatype Listing = Listing(images: seq<FeedItem>, stats: Stats, cache: map<string, CacheEntry>)

  /** The feed item an object becomes once resolved, before any filter looks at it. */
  function Item(o: StoredObject, res: Resolution): FeedItem
  {
    FeedItem(o.key, res.url, res.status, res.reason, o.lastModified)
  }

  /** One iteration of the listing loop. */
  function Step(acc: Listing, o: StoredObject, after: AfterParam, now: int): Listing
  {
    var res := ResolveObject(acc.cache, o, now);
    var stats := CountStatus(acc.stats, res.status);
    if Listable(res.status) && PassesCursor(after, o.lastModified) then
      Listing(acc.images + [Item(o, res)], stats, res.cache)
    else
      Listing(acc.images, stats, res.cache)
  }

  /** The listing loop over the objects in order. */
  function Run(acc: Listing, objs: seq<StoredObject>, after: AfterParam, now: int): Listing
    decreases |objs|
  {
    if objs == [] then acc else Run(Step(acc, objs[0], after, now), objs[1..], after, now)
  }

  /** One turn of the listing loop. */
  lemma RunCons(acc: Listing, objs: seq<StoredObject>, after: AfterParam, now: int)
    requires objs != []
    ensures Run(acc, objs, after, now) == Run(Step(acc, objs[0], after, now), objs[1..], after, now)
  {
  }

  // ---------------------------------------------------------------------------------------
  // Sorting newest first

  predicate ObjectsNewestFirst(s: seq<StoredObject>)
  {
    forall i, j :: 0 <= i < j < |s| ==> s[i].lastModified >= s[j].lastModified
  }

  predicate NewestFirst(items: seq<FeedItem>)
  {
    forall i, j :: 0 <= i < j < |items| ==> items[i].timestamp >= items[j].timestamp
  }

  /** The newest modification time among `o` and the head of `s`. */
  function Newest(o: StoredObject, s: seq<StoredObject>): int
  {
    if s == [] || s[0].lastModified <= o.lastModified then o.lastModified else s[0].lastModified
  }

  /** Putting an object no older than the head of a newest-first sequence in front keeps it newest first. */
  lemma PrependNewest(x: StoredObject, s: seq<StoredObject>)
    requires ObjectsNewestFirst(s)
    requires s != [] ==> s[0].lastModified <= x.lastModified
    ensures ObjectsNewestFirst([x] + s)
  {
    forall i, j | 0 <= i < j < |[x] + s|
      ensures ([x] + s)[i].lastModified >= ([x] + s)[j].lastModified
    {
      assert ([x] + s)[j] == s[j - 1];
      if i > 0 {
        assert ([x] + s)[i] == s[i - 1];
      } else if j > 1 {
        assert s[0].lastModified >= s[j - 1].lastModified;
      }
    }
  }

  /** Places `o` before the first object that is not newer than it. */
  function InsertNewestFirst(o: StoredObject, s: seq<StoredObject>): (r: seq<StoredObject>)
    requires ObjectsNewestFirst(s)
    ensures ObjectsNewestFirst(r)
    ensures multiset(r) == multiset(s) + multiset{o}
    ensures r != [] && r[0].lastModified == Newest(o, s)
  {
    if s == [] then [o]
    else if s[0].lastModified <= o.lastModified then
      PrependNewest(o, s);
      [o] + s
    else
      assert ObjectsNewestFirst(s[1..]);
      var rest := InsertNewestFirst(o, s[1..]);
      assert s[1..] != [] ==> s[1].lastModified <= s[0].lastModified;
      PrependNewest(s[0], rest);
      assert s == [s[0]] + s[1..];
      [s[0]] + rest
  }

  /** `sorted(contents, key=LastModified, reverse=True)`: newest first, same objects. */
  function SortNewestFirst(s: seq<StoredObject>): (r: seq<StoredObject>)
    ensures ObjectsNewestFirst(r)
    ensures multiset(r) == multiset(s)
  {
    if s == [] then []
    else
      assert s == [s[0]] + s[1..];
      InsertNewestFirst(s[0], SortNewestFirst(s[1..]))
  }

  // ---------------------------------------------------------------------------------------
  // Properties of the listing loop

  /** Every object is counted once in `total`. */
  lemma {:induction false} RunTotal(acc: Listing, objs: seq<StoredObject>, after: AfterParam, now: int)
    ensures Run(acc, objs, after, now).stats.total == acc.stats.total + |objs|
    decreases |objs|
  {
    if objs != [] {
      RunTotal(Step(acc, objs[0], after, now), objs[1..], after, now);
    }
  }

  /** The status counters never add up to more than `total`. */
  lemma {:induction false} RunBucketsBounded(acc: Listing, objs: seq<StoredObject>, after: AfterParam, now: int)
    requires Buckets(acc.stats) <= acc.stats.total
    ensures Buckets(Run(acc, objs, after, now).stats) <= Run(acc, objs, after, now).stats.total
    decreases |objs|
  {
    if objs != [] {
      RunBucketsBounded(Step(acc, objs[0], after, now), objs[1..], after, now);
    }
  }

  /** Every image has a present status other than BLOCKED and PROCESSING, and passes the cursor. */
  predicate Admissible(images: seq<FeedItem>, after: AfterParam)
  {
    forall k :: 0 <= k < |images| ==> Listable(images[k].status) && PassesCursor(after, images[k].timestamp)
  }

  /** The listing loop only ever adds admissible images. */
  lemma {:induction false} RunAdmissible(acc: Listing, objs: seq<StoredObject>, after: AfterParam, now: int)
    requires Admissible(acc.images, after)
    ensures Admissible(Run(acc, objs, after, now).images, after)
    decreases |objs|
  {
    if objs != [] {
      var next := Step(acc, objs[0], after, now);
      assert Admissible(next.images, after) by {
        assert forall k :: 0 <= k < |acc.images| ==> next.images[k] == acc.images[k];
      }
      RunAdmissible(next, objs[1..], after, now);
    }
  }

  /** The item each object resolves to, in order, with the cache carried from one object to the next. */
  function Candidates(cache: map<string, CacheEntry>, objs: seq<StoredObject>, now: int): (c: seq<FeedItem>)
    ensures |c| == |objs|
    ensures forall k :: 0 <= k < |objs| ==> c[k].id == objs[k].key && c[k].timestamp == objs[k].lastModified
    decreases |objs|
  {
    if objs == [] then []
    else
      var res := ResolveObject(cache, objs[0], now);
      var rest := Candidates(res.cache, objs[1..], now);
      assert forall k :: 1 <= k < |objs| ==> objs[k] == objs[1..][k - 1];
      [Item(objs[0], res)] + rest
  }

  /** The items the listing filter lets through, in their order: exactly the admissible ones. */
  function Keep(items: seq<FeedItem>, after: AfterParam): (r: seq<FeedItem>)
    ensures Admissible(r, after)
    ensures forall x :: x in r ==> x in items
    ensures forall k :: 0 <= k < |items| && Listable(items[k].status) && PassesCursor(after, items[k].timestamp) ==> items[k] in r
    decreases |items|
  {
    if items == [] then []
    else
      var rest := Keep(items[1..], after);
      assert forall k :: 1 <= k < |items| ==> items[k] == items[1..][k - 1];
      var head := if Listable(items[0].status) && PassesCursor(after, items[0].timestamp) then [items[0]] else [];
      assert forall k :: 0 <= k < |rest| ==> (head + rest)[k + |head|] == rest[k];
      head + rest
  }

  /** The items strictly newer than `t`, in their order. */
  function Newer(items: seq<FeedItem>, t: int): (r: seq<FeedItem>)
    ensures forall x :: x in r <==> x in items && x.timestamp > t
    decreases |items|
  {
    if items == [] then []
    else
      var rest := Newer(items[1..], t);
      assert forall x :: x in items <==> x == items[0] || x in items[1..];
      (if items[0].timestamp > t then [items[0]] else []) + rest
  }

  /** Whether the listing filter lets an item through. */
  predicate Admits(after: AfterParam, x: FeedItem)
  {
    Listable(x.status) && PassesCursor(after, x.timestamp)
  }

  lemma KeepCons(x: FeedItem, rest: seq<FeedItem>, after: AfterParam)
    ensures Keep([x] + rest, after) == (if Admits(after, x) then [x] else []) + Keep(rest, after)
  {
    assert ([x] + rest)[0] == x && ([x] + rest)[1..] == rest;
  }

  lemma NewerCons(x: FeedItem, rest: seq<FeedItem>, t: int)
    ensures Newer([x] + rest, t) == (if x.timestamp > t then [x] else []) + Newer(rest, t)
  {
    assert ([x] + rest)[0] == x && ([x] + rest)[1..] == rest;
  }

  /**
   * Found exactly when present: the loop lists the resolved items of all objects that the filter
   * admits, in object order, and no others.
   */
  lemma {:induction false} RunLists(acc: Listing, objs: seq<StoredObject>, after: AfterParam, now: int)
    ensures Run(acc, objs, after, now).images == acc.images + Keep(Candidates(acc.cache, objs, now), after)
    decreases |objs|
  {
    if objs == [] {
      assert acc.images + [] == acc.images;
    } else {
      var res := ResolveObject(acc.cache, objs[0], now);
      var next := Step(acc, objs[0], after, now);
      var x := Item(objs[0], res);
      var head := if Admits(after, x) then [x] else [];
      StepAppends(acc, objs[0], after, now);
      RunCons(acc, objs, after, now);
      RunLists(next, objs[1..], after, now);
      var rest := Candidates(res.cache, objs[1..], now);
      CandidatesCons(acc.cache, objs, now);
      KeepCons(x, rest, after);
      AppendAssoc(acc.images, head, Keep(rest, after));
    }
  }

  lemma AppendAssoc(a: seq<FeedItem>, b: seq<FeedItem>, c: seq<FeedItem>)
    ensures a + b + c == a + (b + c)
  {
  }

  /** One pass appends the object's resolved item exactly when the filter admits it. */
  lemma StepAppends(acc: Listing, o: StoredObject, after: AfterParam, now: int)
    ensures var res := ResolveObject(acc.cache, o, now);
      && Step(acc, o, after, now).images == acc.images + (if Admits(after, Item(o, res)) then [Item(o, res)] else [])
      && Step(acc, o, after, now).cache == res.cache
  {
  }

  lemma CandidatesCons(cache: map<string, CacheEntry>, objs: seq<StoredObject>, now: int)
    requires objs != []
    ensures var res := ResolveObject(cache, objs[0], now);
      Candidates(cache, objs, now) == [Item(objs[0], res)] + Candidates(res.cache, objs[1..], now)
  {
  }

  /** An `after` that does not parse as a number filters nothing: the listing is the uncursored one. */
  lemma {:induction false} UnparsableFiltersNothing(acc: Listing, objs: seq<StoredObject>, now: int)
    ensures Run(acc, objs, Unparsable, now) == Run(acc, objs, NoAfter, now)
    decreases |objs|
  {
    if objs != [] {
      assert Step(acc, objs[0], Unparsable, now) == Step(acc, objs[0], NoAfter, now);
      UnparsableFiltersNothing(Step(acc, objs[0], NoAfter, now), objs[1..], now);
    }
  }

  /** The cursor only decides which images are listed: counters and cache do not depend on it. */
  lemma {:induction false} CursorKeepsStatsAndCache(acc1: Listing, acc2: Listing, objs: seq<StoredObject>,
                                                    after1: AfterParam, after2: AfterParam, now: int)
    requires acc1.stats == acc2.stats && acc1.cache == acc2.cache
    ensures Run(acc1, objs, after1, now).stats == Run(acc2, objs, after2, now).stats
    ensures Run(acc1, objs, after1, now).cache == Run(acc2, objs, after2, now).cache
    decreases |objs|
  {
    if objs != [] {
      CursorKeepsStatsAndCache(Step(acc1, objs[0], after1, now), Step(acc2, objs[0], after2, now), objs[1..], after1, after2, now);
    }
  }

  /** Filtering with a numeric cursor is filtering without one, then keeping what is newer. */
  lemma {:induction false} KeepAfter(items: seq<FeedItem>, t: int)
    ensures Keep(items, After(t)) == Newer(Keep(items, NoAfter), t)
    decreases |items|
  {
    if items != [] {
      var x, rest := items[0], items[1..];
      assert items == [x] + rest;
      KeepAfter(rest, t);
      KeepCons(x, rest, After(t));
      KeepCons(x, rest, NoAfter);
      if Admits(NoAfter, x) {
        NewerCons(x, Keep(rest, NoAfter), t);
      } else {
        assert Keep(items, NoAfter) == Keep(rest, NoAfter);
        assert Keep(items, After(t)) == Keep(rest, After(t));
      }
    }
  }

  /**
   * A numeric cursor removes exactly the images not newer than it: the counters and the cache are
   * those of the uncursored listing, and the images are its images with a timestamp above `t`.
   */
  lemma CursorOnlyFilters(acc: Listing, objs: seq<StoredObject>, t: int, now: int)
    ensures Run(acc, objs, After(t), now).stats == Run(acc, objs, NoAfter, now).stats
    ensures Run(acc, objs, After(t), now).cache == Run(acc, objs, NoAfter, now).cache
    ensures Run(acc, objs, After(t), now).images == acc.images + Newer(Run(acc.(images := []), objs, NoAfter, now).images, t)
  {
    CursorKeepsStatsAndCache(acc, acc, objs, After(t), NoAfter, now);
    RunLists(acc, objs, After(t), now);
    RunLists(acc.(images := []), objs, NoAfter, now);
    KeepAfter(Candidates(acc.cache, objs, now), t);
    assert [] + Keep(Candidates(acc.cache, objs, now), NoAfter) == Keep(Candidates(acc.cache, objs, now), NoAfter);
  }

  /** Objects taken newest first give images newest first. */
  lemma {:induction false} RunNewestFirst(acc: Listing, objs: seq<StoredObject>, after: AfterParam, now: int)
    requires ObjectsNewestFirst(objs)
    requires NewestFirst(acc.images)
    requires |acc.images| > 0 && |objs| > 0 ==> acc.images[|acc.images| - 1].timestamp >= objs[0].lastModified
    ensures NewestFirst(Run(acc, objs, after, now).images)
    decreases |objs|
  {
    if objs != [] {
      var next := Step(acc, objs[0], after, now);
      assert NewestFirst(next.images);
      assert |next.images| > 0 ==> next.images[|next.images| - 1].timestamp >= objs[0].lastModified;
      RunNewestFirst(next, objs[1..], after, now);
    }
  }

  /** Every cache entry is either untouched or was just written with the TTL of its status. */
  predicate CacheWrittenAt(cache: map<string, CacheEntry>, before: map<string, CacheEntry>, now: int)
  {
    forall e :: e in cache ==>
      (e in before && cache[e] == before[e]) || cache[e].expiresAt == now + Ttl(cache[e].status)
  }

  lemma {:induction false} RunCacheWrites(acc: Listing, objs: seq<StoredObject>, after: AfterParam, now: int,
                                          before: map<string, CacheEntry>)
    requires CacheWrittenAt(acc.cache, before, now)
    ensures CacheWrittenAt(Run(acc, objs, after, now).cache, before, now)
    decreases |objs|
  {
    if objs != [] {
      RunCacheWrites(Step(acc, objs[0], after, now), objs[1..], after, now, before);
    }
  }

  /** What one call of the listing loop guarantees, for any cache and any objects. */
  lemma ListingProperties(cache: map<string, CacheEntry>, objs: seq<StoredObject>, after: AfterParam, now: int)
    ensures var r := Run(Listing([], NO_STATS, cache), SortNewestFirst(objs), after, now);
      && r.stats.total == |objs|
      && Buckets(r.stats) <= r.stats.total
      && Admissible(r.images, after)
      && NewestFirst(r.images)
      && CacheWrittenAt(r.cache, cache, now)
      && r.images == Keep(Candidates(cache, SortNewestFirst(objs), now), after)
  {
    var start := Listing([], NO_STATS, cache);
    var sorted := SortNewestFirst(objs);
    RunLists(start, sorted, after, now);
    assert [] + Keep(Candidates(cache, sorted, now), after) == Keep(Candidates(cache, sorted, now), after);
    RunTotal(start, sorted, after, now);
    RunBucketsBounded(start, sorted, after, now);
    RunAdmissible(start, sorted, after, now);
    RunNewestFirst(start, sorted, after, now);
    RunCacheWrites(start, sorted, after, now, cache);
    assert |sorted| == |objs| by {
      assert |multiset(sorted)| == |multiset(objs)|;
    }
  }

  /**
   * Every object the filter admits is listed, whatever the cursor; a cursor that does not parse
   * changes nothing, and a numeric one only drops the images not newer than it.
   */
  lemma ListingCursor(cache: map<string, CacheEntry>, objs: seq<StoredObject>, after: AfterParam, now: int)
    ensures var sorted := SortNewestFirst(objs);
      var r := Run(Listing([], NO_STATS, cache), sorted, after, now);
      var c := Candidates(cache, sorted, now);
      forall k :: 0 <= k < |c| && Listable(c[k].status) && PassesCursor(after, c[k].timestamp) ==> c[k] in r.images
    ensures var start := Listing([], NO_STATS, cache);
      after == Unparsable ==> Run(start, SortNewestFirst(objs), after, now) == Run(start, SortNewestFirst(objs), NoAfter, now)
    ensures var start := Listing([], NO_STATS, cache);
      var r := Run(start, SortNewestFirst(objs), after, now);
      var r0 := Run(start, SortNewestFirst(objs), NoAfter, now);
      after.After? ==> r.stats == r0.stats && r.cache == r0.cache && r.images == Newer(r0.images, after.t)
  {
    var start := Listing([], NO_STATS, cache);
    var sorted := SortNewestFirst(objs);
    RunLists(start, sorted, after, now);
    assert [] + Keep(Candidates(cache, sorted, now), after) == Keep(Candidates(cache, sorted, now), after);
    UnparsableFiltersNothing(start, sorted, now);
    if after.After? {
      CursorOnlyFilters(start, sorted, after.t, now);
      assert start.(images := []) == start;
      assert [] + Newer(Run(start, sorted, NoAfter, now).images, after.t) == Newer(Run(start, sorted, NoAfter, now).images, after.t);
    }
  }

  /**
   * The reason lags one listing behind: an object whose entry was written while it was still
   * PROCESSING is listed with its fresh BLURRED status but with the entry's old, absent reason.
   */
  lemma StaleReasonAfterVerdict()
    ensures var o := StoredObject("k", "e", 10, Some(Tags(Some(BLURRED), Some("HUMAN_DETECTED"))), "u");
      var cache := map["e" := CacheEntry(Some(PROCESSING), None, "u0", 15)];
      Step(Listing([], NO_STATS, cache), o, NoAfter, 20).images == [FeedItem("k", "u", Some(BLURRED), None, 10)]
  {
  }

  // ---------------------------------------------------------------------------------------
  // The endpoints

  /** The objects a listing reply carries; none when it has no `Contents`. */
  function Objects(listing: ObjectListing): seq<StoredObject>
  {
    if listing.Listed? && listing.contents.Some? then listing.contents.value else []
  }

  /** The process-wide ETag cache and the listing endpoint that maintains it. */
  class ImageService {
    var cache: map<string, CacheEntry>

    constructor()
      ensures cache == map[]
    {
      cache := map[];
    }

    /**
     * `list_images`: sorts the objects newest first, counts each one, resolves its status
     * through the cache, and lists those that are shown and pass the cursor.
     */
    method ListImages(bucket: Option<string>, listing: ObjectListing, after: AfterParam, now: int)
      returns (resp: ListResponse)
      modifies this
      ensures !Truthy(bucket) ==>
        resp == ListError(INTERNAL_ERROR, "Server configuration error: S3_BUCKET_NAME not set") && cache == old(cache)
      ensures Truthy(bucket) && listing.ListFailed? ==>
        resp == ListError(INTERNAL_ERROR, "Failed to list images") && cache == old(cache)
      ensures Truthy(bucket) && listing.Listed? ==>
        var r := Run(Listing([], NO_STATS, old(cache)), SortNewestFirst(Objects(listing)), after, now);
        resp == ListOk(r.images, r.stats) && cache == r.cache
      ensures resp.ListOk? ==> resp.stats.total == |Objects(listing)| && Buckets(resp.stats) <= resp.stats.total
      ensures resp.ListOk? ==> Admissible(resp.images, after) && NewestFirst(resp.images)
      ensures CacheWrittenAt(cache, old(cache), now)
    {
      if !Truthy(bucket) {
        return ListError(INTERNAL_ERROR, "Server configuration error: S3_BUCKET_NAME not set");
      }
      if listing.ListFailed? {
        return ListError(INTERNAL_ERROR, "Failed to list images");
      }
      ListingProperties(cache, Objects(listing), after, now);
      var images, stats := ListSorted(SortNewestFirst(Objects(listing)), after, now);
      resp := ListOk(images, stats);
    }

    /** The loop of `list_images` over the sorted objects. */
    method ListSorted(sorted: seq<StoredObject>, after: AfterParam, now: int)
      returns (images: seq<FeedItem>, stats: Stats)
      modifies this
      ensures Listing(images, stats, cache) == Run(Listing([], NO_STATS, old(cache)), sorted, after, now)
    {
      images, stats := [], NO_STATS;
      ghost var goal := Run(Listing([], NO_STATS, cache), sorted, after, now);
      for i := 0 to |sorted|
        invariant Run(Listing(images, stats, cache), sorted[i..], after, now) == goal
      {
        assert sorted[i..][0] == sorted[i] && sorted[i..][1..] == sorted[i + 1..];
        RunCons(Listing(images, stats, cache), sorted[i..], after, now);
        images, stats := ListOne(sorted[i], images, stats, after, now);
      }
      assert sorted[|sorted|..] == [];
    }

    /** One pass of the loop of `list_images`: count the object, then list it or skip it. */
    method ListOne(o: StoredObject, images0: seq<FeedItem>, stats0: Stats, after: AfterParam, now: int)
      returns (images: seq<FeedItem>, stats: Stats)
      modifies this
      ensures Listing(images, stats, cache) == Step(Listing(images0, stats0, old(cache)), o, after, now)
    {
      images, stats := images0, stats0.(total := stats0.total + 1);
      var status, url, reason := Lookup(o, now);
      if status == Some(APPROVED) {
        stats := stats.(approved := stats.approved + 1);
      } else if status == Some(BLURRED) {
        stats := stats.(blurred := stats.blurred + 1);
      } else if status == Some(BLOCKED) {
        stats := stats.(blocked := stats.blocked + 1);
      } else if status == Some(PROCESSING) {
        stats := stats.(processing := stats.processing + 1);
      }
      if !Truthy(status) || status == Some(BLOCKED) || status == Some(PROCESSING) {
        return;
      }
      if after.After? && o.lastModified <= after.t {
        return;
      }
      images := images + [FeedItem(o.key, url, status, reason, o.lastModified)];
    }

    /**
     * The cache consultation for one object: served from the entry on a hit, otherwise looked up
     * afresh and written back with the TTL of its status. The reason comes from the entry that
     * was there before whenever there was one.
     */
    method Lookup(o: StoredObject, now: int) returns (status: Option<string>, url: string, reason: Option<string>)
      modifies this
      ensures var r := ResolveObject(old(cache), o, now);
        status == r.status && url == r.url && reason == r.reason && cache == r.cache
    {
      var cached := if o.etag in cache then Some(cache[o.etag]) else None;
      var fetchedReason: Option<string> := None;
      if cached.Some? && cached.value.expiresAt > now + HIT_MARGIN {
        status := cached.value.status;
        url := cached.value.url;
      } else {
        if o.tags.Some? {
          status := o.tags.value.status;
          fetchedReason := o.tags.value.reason;
        } else {
          status := None;
        }
        url := o.signedUrl;
        var ttl := if status in {Some(APPROVED), Some(BLURRED), Some(BLOCKED)} then TERMINAL_TTL else TRANSIENT_TTL;
        cache := cache[o.etag := CacheEntry(status, fetchedReason, url, now + ttl)];
      }
      reason := if cached.Some? then cached.value.reason else fetchedReason;
    }
  }

  // ---------------------------------------------------------------------------------------
  // Status and upload-slot endpoints

  /** What looking up one key in storage gives: its tags, URL and time, a storage error, or a crash. */
  datatype StatusLookup = Found(tags: Tags, url: string, lastModified: int) | StorageError | UnexpectedError

  datatype StatusBody = ItemBody(item: FeedItem) | NotReadyBody | ErrorBody(message: string)

  datatype StatusResponse = StatusResponse(code: int, body: StatusBody)

  /**
   * `get_image_status`: 400 without a bucket or a key, 404 with no status when storage reports
   * an error, 500 on anything else that fails, and otherwise the item under that key.
   */
  function GetImageStatus(bucket: Option<string>, key: Option<string>, lookup: string -> StatusLookup): (r: StatusResponse)
    ensures r.code == BAD_REQUEST <==> !Truthy(bucket) || !Truthy(key)
    ensures Truthy(bucket) && Truthy(key) && lookup(key.value).StorageError? ==> r == StatusResponse(NOT_FOUND, NotReadyBody)
    ensures r.code == OK <==> Truthy(bucket) && Truthy(key) && lookup(key.value).Found?
    ensures r.code == OK ==> (r.body.ItemBody? && r.body.item.id == key.value &&
      r.body.item.status == lookup(key.value).tags.status && r.body.item.reason == lookup(key.value).tags.reason)
  {
    if !Truthy(bucket) || !Truthy(key) then StatusResponse(BAD_REQUEST, ErrorBody("Missing configuration or key"))
    else
      match lookup(key.value)
      case StorageError => StatusResponse(NOT_FOUND, NotReadyBody)
      case UnexpectedError => StatusResponse(INTERNAL_ERROR, ErrorBody("Internal server error"))
      case Found(tags, url, lastModified) =>
        StatusResponse(OK, ItemBody(FeedItem(key.value, url, tags.status, tags.reason, lastModified)))
  }

  /** Signing a PUT URL for (bucket, key): the URL, a storage error, or a crash. */
  datatype SignOutcome = Signed(url: string) | SignStorageError | SignUnexpectedError

  datatype SlotBody = SlotOk(uploadUrl: string, fileId: string, bucket: string) | SlotError(message: string)

  datatype SlotResponse = SlotResponse(code: int, body: SlotBody)

  /**
   * `generate_presigned_url`: with a bucket configured and signing successful, the reply's
   * `fileId` is the fresh identifier and `uploadUrl` is the URL signed for exactly that key;
   * every failure is a 500.
   */
  function GeneratePresignedUrl(bucket: Option<string>, fileId: string, sign: (string, string) -> SignOutcome): (r: SlotResponse)
    ensures r.code == OK <==> Truthy(bucket) && sign(bucket.value, fileId).Signed?
    ensures r.code != OK ==> r.code == INTERNAL_ERROR && r.body.SlotError?
    ensures r.code == OK ==> (r.body.SlotOk? && r.body.fileId == fileId &&
      r.body.uploadUrl == sign(bucket.value, r.body.fileId).url && r.body.bucket == bucket.value)
  {
    if !Truthy(bucket) then SlotResponse(INTERNAL_ERROR, SlotError("Server configuration error: S3_BUCKET_NAME not set"))
    else
      match sign(bucket.value, fileId)
      case Signed(url) => SlotResponse(OK, SlotOk(url, fileId, bucket.value))
      case SignStorageError => SlotResponse(INTERNAL_ERROR, SlotError("Failed to generate upload URL"))
      case SignUnexpectedError => SlotResponse(INTERNAL_ERROR, SlotError("Internal server error"))
  }
}
