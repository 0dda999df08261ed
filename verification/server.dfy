/** The aggregation layer of the server: cache keys, the fetch paths through the shared cache, and table assembly. */
module Server {
  import opened Wrappers
  import opened Text
  import opened TtlCache
  import opened Catalog
  import opened Candles
  import opened OrderBooks
  import opened Auction

  const CatalogTtl: int := 300
  const CandlesTtl: int := 10
  const BookTtl: int := 5

  /** What the shared cache holds: the catalog, a candle row, or an order-book snapshot. */
  datatype Cached = CatalogEntry(items: seq<Instrument>) | CandleEntry(row: CandleRow) | BookEntry(book: OrderBook)

  type Store = Entries<Cached>

  const CatalogKey: string := "instruments_list"

  function CandlesKey(id: string): string {
    "candles_" + id
  }

  function BookKey(id: string): string {
    "orderbook_" + id
  }

  /** The key a value is stored under by the path that produces it. */
  function KeyOf(v: Cached): string {
    match v
    case CatalogEntry(_) => CatalogKey
    case CandleEntry(row) => CandlesKey(row.instrumentId)
    case BookEntry(book) => BookKey(book.instrumentId)
  }

  /** The store invariant: every entry sits under the key of its own kind and instrument, no error book is stored,
      and a stored candle row carries no error other than "no data". */
  ghost predicate Coherent(m: Store) {
    forall k :: k in m ==>
      && k == KeyOf(m[k].0)
      && (m[k].0.BookEntry? ==> m[k].0.book.Snapshot?)
      && (m[k].0.CandleEntry? ==> m[k].0.row.error in {None, Some(NoData)})
  }

  /** The three key families never collide, and within a family the key determines the instrument id. */
  lemma KeysNeverCollide(a: string, b: string)
    ensures CandlesKey(a) != CatalogKey && BookKey(a) != CatalogKey
    ensures CandlesKey(a) != BookKey(b)
    ensures CandlesKey(a) == CandlesKey(b) ==> a == b
    ensures BookKey(a) == BookKey(b) ==> a == b
  {
    assert CandlesKey(a)[0] == 'c' && BookKey(a)[0] == 'o' && BookKey(b)[0] == 'o' && CatalogKey[0] == 'i';
    assert CandlesKey(a)[8..] == a && CandlesKey(b)[8..] == b;
    assert BookKey(a)[10..] == a && BookKey(b)[10..] == b;
  }

  /** In a coherent store, a live entry under a key is of the kind, and for the instrument, the key names. */
  lemma LiveEntriesMatchKeys(m: Store, id: string, now: int)
    requires Coherent(m)
    ensures var c := Lookup(m, CandlesKey(id), now);
      c.Some? ==> c.value.CandleEntry? && c.value.row.instrumentId == id
    ensures var b := Lookup(m, BookKey(id), now);
      b.Some? ==> b.value.BookEntry? && b.value.book.Snapshot? && b.value.book.instrumentId == id
    ensures var c := Lookup(m, CatalogKey, now);
      c.Some? ==> c.value.CatalogEntry?
  {
    var c := Lookup(m, CandlesKey(id), now);
    if c.Some? {
      match c.value
      case CatalogEntry(_) => KeysNeverCollide(id, id);
      case CandleEntry(row) => KeysNeverCollide(id, row.instrumentId);
      case BookEntry(book) => KeysNeverCollide(id, book.instrumentId);
    }
    var b := Lookup(m, BookKey(id), now);
    if b.Some? {
      match b.value
      case CatalogEntry(_) => KeysNeverCollide(id, id);
      case CandleEntry(row) => KeysNeverCollide(row.instrumentId, id);
      case BookEntry(book) => KeysNeverCollide(id, book.instrumentId);
    }
    var g := Lookup(m, CatalogKey, now);
    if g.Some? {
      match g.value
      case CatalogEntry(_) =>
      case CandleEntry(row) => KeysNeverCollide(row.instrumentId, row.instrumentId);
      case BookEntry(book) => KeysNeverCollide(book.instrumentId, book.instrumentId);
    }
  }

  // ---------------------------------------------------------------------------
  // The fetch paths as functions of the store: (result, is_cached, store afterwards)
  // ---------------------------------------------------------------------------

  /** `api_futures` past the token check. */
  function CatalogStep(m: Store, now: int, futures: Upstream<seq<RawInstrument>>, shares: Upstream<seq<RawInstrument>>)
    : (seq<Instrument>, bool, Store)
  {
    var m1 := AfterGet(m, CatalogKey, now);
    var hit := Lookup(m, CatalogKey, now);
    if hit.Some? && hit.value.CatalogEntry? then (hit.value.items, true, m1)
    else
      var items := CatalogItems(futures, shares);
      (items, false, Put(m1, CatalogKey, CatalogEntry(items), CatalogTtl, now))
  }

  /** `_fetch_candles_for_instrument`. */
  function CandleStep(m: Store, id: string, now: int, feed: Upstream<seq<RawCandle>>): (CandleRow, bool, Store) {
    var key := CandlesKey(id);
    var m1 := AfterGet(m, key, now);
    var hit := Lookup(m, key, now);
    if hit.Some? && hit.value.CandleEntry? then (hit.value.row, true, m1)
    else
      match feed
      case Failed(message) => (FailedCandleRow(id, message), false, m1)
      case Ok(candles) =>
        var row := DeriveCandleRow(id, candles);
        (row, false, Put(m1, key, CandleEntry(row), CandlesTtl, now))
  }

  /** `_fetch_orderbook`. */
  function BookStep(m: Store, id: string, now: int, feed: Upstream<RawOrderBook>): (OrderBook, bool, Store) {
    var key := BookKey(id);
    var m1 := AfterGet(m, key, now);
    var hit := Lookup(m, key, now);
    if hit.Some? && hit.value.BookEntry? then (hit.value.book, true, m1)
    else
      match feed
      case Failed(message) => (BookError(id, message), false, m1)
      case Ok(raw) =>
        var book := DeriveBook(id, raw);
        (book, false, Put(m1, key, BookEntry(book), BookTtl, now))
  }

  /** A table row: the candle row with the order book's `total_lots` attached. */
  datatype TableRow = TableRow(candle: CandleRow, totalLots: Option<int>)

  /** One pass of the table loop: the candle fetch, then the order-book fetch, for one id. */
  function RowStep(m: Store, id: string, now: int, candleFeed: Upstream<seq<RawCandle>>, bookFeed: Upstream<RawOrderBook>)
    : (TableRow, Store)
  {
    var (row, _, m1) := CandleStep(m, id, now, candleFeed);
    var (book, _, m2) := BookStep(m1, id, now, bookFeed);
    (TableRow(row, TotalLots(book)), m2)
  }

  /** The table loop over `ids`; the i-th feeds are what the provider answers for the i-th id. */
  function TableSpec(m: Store, ids: seq<string>, now: int,
                     candleFeeds: seq<Upstream<seq<RawCandle>>>, bookFeeds: seq<Upstream<RawOrderBook>>)
    : (seq<TableRow>, Store)
    requires |candleFeeds| == |ids| && |bookFeeds| == |ids|
  {
    if ids == [] then ([], m)
    else
      var n := |ids| - 1;
      var (rows, m1) := TableSpec(m, ids[..n], now, candleFeeds[..n], bookFeeds[..n]);
      var (row, m2) := RowStep(m1, ids[n], now, candleFeeds[n], bookFeeds[n]);
      (rows + [row], m2)
  }

  /** The loop of the order-book endpoint: one snapshot or error row per id. */
  function BookRowsSpec(m: Store, ids: seq<string>, now: int, bookFeeds: seq<Upstream<RawOrderBook>>)
    : (seq<OrderBook>, Store)
    requires |bookFeeds| == |ids|
  {
    if ids == [] then ([], m)
    else
      var n := |ids| - 1;
      var (rows, m1) := BookRowsSpec(m, ids[..n], now, bookFeeds[..n]);
      var (book, _, m2) := BookStep(m1, ids[n], now, bookFeeds[n]);
      (rows + [book], m2)
  }

  // ---------------------------------------------------------------------------
  // The `ids` query parameter
  // ---------------------------------------------------------------------------

  /** What one token contributes: its stripped form, unless that is empty. */
  function CleanToken(token: string): seq<string> {
    var s := Strip(token);
    if s != "" then [s] else []
  }

  /** `[x.strip() for x in tokens if x.strip()]`. */
  function CleanTokens(tokens: seq<string>): seq<string> {
    if tokens == [] then [] else CleanToken(tokens[0]) + CleanTokens(tokens[1..])
  }

  /** `[x.strip() for x in ids_param.split(",") if x.strip()]`. */
  function ParseIds(param: string): seq<string> {
    CleanTokens(Split(param))
  }

  /** An id as the parser can produce it: non-empty, without commas, without surrounding whitespace. */
  predicate IsCleanId(x: string) {
    x != "" && Comma !in x && Trimmed(x)
  }

  lemma {:induction false} CleanTokensAppend(a: seq<string>, b: seq<string>)
    ensures CleanTokens(a + b) == CleanTokens(a) + CleanTokens(b)
  {
    if a == [] {
      assert a + b == b;
    } else {
      assert (a + b)[0] == a[0];
      assert (a + b)[1..] == a[1..] + b;
      CleanTokensAppend(a[1..], b);
    }
  }

  lemma {:induction false} CleanTokensAreClean(tokens: seq<string>)
    requires forall i :: 0 <= i < |tokens| ==> Comma !in tokens[i]
    ensures forall i :: 0 <= i < |CleanTokens(tokens)| ==> IsCleanId(CleanTokens(tokens)[i])
  {
    if tokens != [] {
      CleanTokensAreClean(tokens[1..]);
      StripTrimmed(tokens[0]);
      StripKeepsNoComma(tokens[0]);
    }
  }

  /** Every parsed id is non-empty, comma-free and trimmed. */
  lemma ParsedIdsAreClean(param: string)
    ensures forall i :: 0 <= i < |ParseIds(param)| ==> IsCleanId(ParseIds(param)[i])
  {
    var pieces := Split(param);
    SplitPiecesHaveNoComma(param);
    CleanTokensAreClean(pieces);
  }

  /** An empty or blank parameter gives no ids. */
  lemma ParseBlank(param: string)
    requires forall i :: 0 <= i < |param| ==> IsSpace(param[i])
    ensures ParseIds(param) == []
  {
    SplitPiecesHaveNoComma(param);
    assert Comma !in param by {
      assert !IsSpace(Comma);
    }
    SplitNoComma(param);
    StripLeftOfSpaces(param);
    assert CleanTokens([param]) == CleanToken(param) + CleanTokens([]);
  }

  /** The ids before a comma come before the ids after it: parsing keeps input order. */
  lemma ParseIdsConcat(a: string, b: string)
    ensures ParseIds(a + [Comma] + b) == ParseIds(a) + ParseIds(b)
  {
    SplitConcat(a, b);
    CleanTokensAppend(Split(a), Split(b));
  }

  /** A clean id on its own parses to itself. */
  lemma ParseSingleId(x: string)
    requires IsCleanId(x)
    ensures ParseIds(x) == [x]
  {
    SplitNoComma(x);
    StripTrimmed(x);
    assert CleanToken(x) == [x];
    assert CleanTokens([x]) == CleanToken(x) + CleanTokens([]);
  }

  /** Clean ids joined with commas parse back to the same ids, in the same order. */
  lemma {:induction false} ParseJoinedIds(ids: seq<string>)
    requires forall i :: 0 <= i < |ids| ==> IsCleanId(ids[i])
    ensures ParseIds(Join(ids)) == ids
  {
    if ids == [] {
      ParseBlank("");
    } else if |ids| == 1 {
      ParseSingleId(ids[0]);
    } else {
      var tail := ids[1..];
      forall i | 0 <= i < |tail|
        ensures IsCleanId(tail[i])
      {
        assert tail[i] == ids[i + 1];
      }
      ParseJoinedIds(tail);
      ParseSingleId(ids[0]);
      ParseJoinStep(ids[0], tail);
      assert [ids[0]] + tail == ids;
    }
  }

  /** One more id in front of a joined list that parses back adds that id in front of the parse. */
  lemma ParseJoinStep(x: string, ids: seq<string>)
    requires |ids| >= 1
    requires ParseIds(x) == [x] && ParseIds(Join(ids)) == ids
    ensures ParseIds(Join([x] + ids)) == [x] + ids
  {
    var all := [x] + ids;
    assert all[1..] == ids;
    assert Join(all) == x + [Comma] + Join(ids);
    ParseIdsConcat(x, Join(ids));
  }

  // ---------------------------------------------------------------------------
  // What each fetch path does to the store
  // ---------------------------------------------------------------------------

  /** The catalog is served from the cache while live; otherwise it is rebuilt and stored for 300 seconds,
      whatever the upstream calls returned (an empty list after two failures is stored too). */
  lemma CatalogStepRule(m: Store, now: int, futures: Upstream<seq<RawInstrument>>, shares: Upstream<seq<RawInstrument>>)
    requires Coherent(m)
    ensures var (items, fromCache, m') := CatalogStep(m, now, futures, shares);
      && Coherent(m')
      && (fromCache <==> Lookup(m, CatalogKey, now).Some?)
      && (fromCache ==> Lookup(m, CatalogKey, now) == Some(CatalogEntry(items)) && m' == m)
      && (!fromCache ==> items == CatalogItems(futures, shares)
                         && forall t :: now <= t <= now + CatalogTtl ==> Lookup(m', CatalogKey, t) == Some(CatalogEntry(items)))
      && (futures.Failed? && shares.Failed? && !fromCache ==> items == [] && Lookup(m', CatalogKey, now + CatalogTtl) == Some(CatalogEntry([])))
      && forall k :: k != CatalogKey ==> (k in m' <==> k in m) && (k in m ==> m'[k] == m[k])
  {
    LiveEntriesMatchKeys(m, "", now);
  }

  /** A live candle entry is served as it is, and the read changes nothing. */
  lemma CandleStepHit(m: Store, id: string, now: int, feed: Upstream<seq<RawCandle>>)
    requires Coherent(m)
    requires Lookup(m, CandlesKey(id), now).Some?
    ensures var (row, fromCache, m') := CandleStep(m, id, now, feed);
      fromCache && Lookup(m, CandlesKey(id), now) == Some(CandleEntry(row)) && row.instrumentId == id && m' == m
  {
    LiveEntriesMatchKeys(m, id, now);
  }

  /** On a miss with a provider answer, the derived row is returned and stored for 10 seconds. */
  lemma CandleStepFresh(m: Store, id: string, now: int, candles: seq<RawCandle>)
    requires Coherent(m)
    requires Lookup(m, CandlesKey(id), now).None?
    ensures var (row, fromCache, m') := CandleStep(m, id, now, Ok(candles));
      && !fromCache && row == DeriveCandleRow(id, candles)
      && forall t :: now <= t <= now + CandlesTtl ==> Lookup(m', CandlesKey(id), t) == Some(CandleEntry(row))
  {
  }

  /** On a miss with a failed call, the error row is returned and nothing is stored: every later read sees the
      store exactly as before the call. */
  lemma CandleStepFailure(m: Store, id: string, now: int, message: string)
    requires Coherent(m)
    requires Lookup(m, CandlesKey(id), now).None?
    ensures var (row, fromCache, m') := CandleStep(m, id, now, Failed(message));
      && !fromCache && row == FailedCandleRow(id, message)
      && CandlesKey(id) !in m'
      && forall k, t :: now <= t ==> Lookup(m', k, t) == Lookup(m, k, t)
  {
    forall k, t | now <= t
      ensures Lookup(AfterGet(m, CandlesKey(id), now), k, t) == Lookup(m, k, t)
    {
      EvictionUnobservable(m, CandlesKey(id), k, now, t);
    }
  }

  /** A candle fetch keeps the store coherent, answers for the id it was asked about, and touches no other key. */
  lemma CandleStepLocal(m: Store, id: string, now: int, feed: Upstream<seq<RawCandle>>)
    requires Coherent(m)
    ensures var (row, _, m') := CandleStep(m, id, now, feed);
      && Coherent(m') && row.instrumentId == id
      && forall k :: k != CandlesKey(id) ==> (k in m' <==> k in m) && (k in m ==> m'[k] == m[k])
  {
    LiveEntriesMatchKeys(m, id, now);
  }

  /** A live order-book entry is served as it is, and the read changes nothing. */
  lemma BookStepHit(m: Store, id: string, now: int, feed: Upstream<RawOrderBook>)
    requires Coherent(m)
    requires Lookup(m, BookKey(id), now).Some?
    ensures var (book, fromCache, m') := BookStep(m, id, now, feed);
      fromCache && book.Snapshot? && book.instrumentId == id && Lookup(m, BookKey(id), now) == Some(BookEntry(book)) && m' == m
  {
    LiveEntriesMatchKeys(m, id, now);
  }

  /** On a miss with a provider answer, the derived snapshot is returned and stored for 5 seconds. */
  lemma BookStepFresh(m: Store, id: string, now: int, raw: RawOrderBook)
    requires Coherent(m)
    requires Lookup(m, BookKey(id), now).None?
    ensures var (book, fromCache, m') := BookStep(m, id, now, Ok(raw));
      && !fromCache && book == DeriveBook(id, raw)
      && forall t :: now <= t <= now + BookTtl ==> Lookup(m', BookKey(id), t) == Some(BookEntry(book))
  {
  }

  /** On a miss with a failed call, the error row (id and error only) is returned and nothing is stored. */
  lemma BookStepFailure(m: Store, id: string, now: int, message: string)
    requires Coherent(m)
    requires Lookup(m, BookKey(id), now).None?
    ensures var (book, fromCache, m') := BookStep(m, id, now, Failed(message));
      && !fromCache && book == BookError(id, message) && TotalLots(book).None?
      && BookKey(id) !in m'
      && forall k, t :: now <= t ==> Lookup(m', k, t) == Lookup(m, k, t)
  {
    forall k, t | now <= t
      ensures Lookup(AfterGet(m, BookKey(id), now), k, t) == Lookup(m, k, t)
    {
      EvictionUnobservable(m, BookKey(id), k, now, t);
    }
  }

  /** An order-book fetch keeps the store coherent, answers for the id it was asked about, and touches no other key. */
  lemma BookStepLocal(m: Store, id: string, now: int, feed: Upstream<RawOrderBook>)
    requires Coherent(m)
    ensures var (book, _, m') := BookStep(m, id, now, feed);
      && Coherent(m') && book.instrumentId == id
      && (feed.Ok? ==> book.Snapshot?)
      && forall k :: k != BookKey(id) ==> (k in m' <==> k in m) && (k in m ==> m'[k] == m[k])
  {
    LiveEntriesMatchKeys(m, id, now);
  }

  /** One pass of the table loop keeps the store coherent, gives a row for its id, and has lots whenever the
      order-book call succeeded. */
  lemma RowStepShape(m: Store, id: string, now: int, candleFeed: Upstream<seq<RawCandle>>, bookFeed: Upstream<RawOrderBook>)
    requires Coherent(m)
    ensures var (row, m') := RowStep(m, id, now, candleFeed, bookFeed);
      && Coherent(m') && row.candle.instrumentId == id
      && (bookFeed.Ok? ==> row.totalLots.Some?)
  {
    CandleStepLocal(m, id, now, candleFeed);
    var (_, _, m1) := CandleStep(m, id, now, candleFeed);
    BookStepLocal(m1, id, now, bookFeed);
    LiveEntriesMatchKeys(m1, id, now);
  }

  /** A row's lots are absent exactly when the order-book call failed and no live snapshot was cached;
      a fresh snapshot contributes the lots of both sides. */
  lemma RowStepLots(m: Store, id: string, now: int, candleFeed: Upstream<seq<RawCandle>>, bookFeed: Upstream<RawOrderBook>)
    requires Coherent(m)
    ensures var (row, _) := RowStep(m, id, now, candleFeed, bookFeed);
      && (row.totalLots.None? <==> bookFeed.Failed? && Lookup(m, BookKey(id), now).None?)
      && (bookFeed.Ok? && Lookup(m, BookKey(id), now).None? ==>
            row.totalLots == Some(SumLots(bookFeed.value.bids) + SumLots(bookFeed.value.asks)))
  {
    CandleStepLocal(m, id, now, candleFeed);
    var (_, _, m1) := CandleStep(m, id, now, candleFeed);
    KeysNeverCollide(id, id);
    assert Lookup(m1, BookKey(id), now) == Lookup(m, BookKey(id), now);
    LiveEntriesMatchKeys(m1, id, now);
  }

  /** The table has one row per id, in the same order, each for its own id; a row has lots whenever its
      order-book call succeeded; and the store stays coherent. */
  lemma {:induction false} TableShape(m: Store, ids: seq<string>, now: int,
                                      candleFeeds: seq<Upstream<seq<RawCandle>>>, bookFeeds: seq<Upstream<RawOrderBook>>)
    requires |candleFeeds| == |ids| && |bookFeeds| == |ids|
    requires Coherent(m)
    ensures var (rows, m') := TableSpec(m, ids, now, candleFeeds, bookFeeds);
      && |rows| == |ids| && Coherent(m')
      && (forall i :: 0 <= i < |ids| ==> rows[i].candle.instrumentId == ids[i])
      && (forall i :: 0 <= i < |ids| && bookFeeds[i].Ok? ==> rows[i].totalLots.Some?)
  {
    if ids != [] {
      var n := |ids| - 1;
      TableShape(m, ids[..n], now, candleFeeds[..n], bookFeeds[..n]);
      var (rows, m1) := TableSpec(m, ids[..n], now, candleFeeds[..n], bookFeeds[..n]);
      RowStepShape(m1, ids[n], now, candleFeeds[n], bookFeeds[n]);
      var (row, m2) := RowStep(m1, ids[n], now, candleFeeds[n], bookFeeds[n]);
      assert bookFeeds[n].Ok? ==> row.totalLots.Some?;
      assert TableSpec(m, ids, now, candleFeeds, bookFeeds) == (rows + [row], m2);
      forall i | 0 <= i < n
        ensures (rows + [row])[i] == rows[i] && ids[..n][i] == ids[i] && bookFeeds[..n][i] == bookFeeds[i]
      {
      }
    }
  }

  /** The order-book endpoint has one row per id, in the same order, each for its own id. */
  lemma {:induction false} BookRowsShape(m: Store, ids: seq<string>, now: int, bookFeeds: seq<Upstream<RawOrderBook>>)
    requires |bookFeeds| == |ids|
    requires Coherent(m)
    ensures var (rows, m') := BookRowsSpec(m, ids, now, bookFeeds);
      && |rows| == |ids| && Coherent(m')
      && (forall i :: 0 <= i < |ids| ==> rows[i].instrumentId == ids[i])
      && (forall i :: 0 <= i < |ids| && bookFeeds[i].Ok? ==> rows[i].Snapshot?)
  {
    if ids != [] {
      var n := |ids| - 1;
      BookRowsShape(m, ids[..n], now, bookFeeds[..n]);
      var (rows, m1) := BookRowsSpec(m, ids[..n], now, bookFeeds[..n]);
      BookStepLocal(m1, ids[n], now, bookFeeds[n]);
      var (book, _, m2) := BookStep(m1, ids[n], now, bookFeeds[n]);
      assert BookRowsSpec(m, ids, now, bookFeeds) == (rows + [book], m2);
      forall i | 0 <= i < n
        ensures (rows + [book])[i] == rows[i] && ids[..n][i] == ids[i] && bookFeeds[..n][i] == bookFeeds[i]
      {
      }
    }
  }

  // ---------------------------------------------------------------------------
  // The server's operations on the shared cache object
  // ---------------------------------------------------------------------------

  /** The instrument list, through the cache (`api_futures` past the token check). */
  method ListInstruments(cache: Cache<Cached>, now: int, futures: Upstream<seq<RawInstrument>>, shares: Upstream<seq<RawInstrument>>)
    returns (items: seq<Instrument>, fromCache: bool)
    modifies cache
    ensures (items, fromCache, cache.entries) == CatalogStep(old(cache.entries), now, futures, shares)
  {
    var cached := cache.Get(CatalogKey, now);
    if cached.Some? && cached.value.CatalogEntry? {
      return cached.value.items, true;
    }
    items := BuildCatalog(futures, shares);
    cache.Set(CatalogKey, CatalogEntry(items), CatalogTtl, now);
    fromCache := false;
  }

  /** `_fetch_candles_for_instrument`, with the provider's answer as `feed`. */
  method FetchCandles(cache: Cache<Cached>, id: string, now: int, feed: Upstream<seq<RawCandle>>)
    returns (row: CandleRow, fromCache: bool)
    modifies cache
    ensures (row, fromCache, cache.entries) == CandleStep(old(cache.entries), id, now, feed)
  {
    var key := CandlesKey(id);
    var cached := cache.Get(key, now);
    if cached.Some? && cached.value.CandleEntry? {
      return cached.value.row, true;
    }
    fromCache := false;
    match feed
    case Failed(message) =>
      row := FailedCandleRow(id, message);
    case Ok(candles) =>
      row := DeriveCandleRow(id, candles);
      cache.Set(key, CandleEntry(row), CandlesTtl, now);
  }

  /** `_fetch_orderbook`, with the provider's answer as `feed`. */
  method FetchOrderBook(cache: Cache<Cached>, id: string, now: int, feed: Upstream<RawOrderBook>)
    returns (book: OrderBook, fromCache: bool)
    modifies cache
    ensures (book, fromCache, cache.entries) == BookStep(old(cache.entries), id, now, feed)
  {
    var key := BookKey(id);
    var cached := cache.Get(key, now);
    if cached.Some? && cached.value.BookEntry? {
      return cached.value.book, true;
    }
    fromCache := false;
    match feed
    case Failed(message) =>
      book := BookError(id, message);
    case Ok(raw) =>
      book := DeriveBook(id, raw);
      cache.Set(key, BookEntry(book), BookTtl, now);
  }

  /** The row loop of `api_table`: candles and order book per id, in order. */
  method AssembleTable(cache: Cache<Cached>, ids: seq<string>, now: int,
                       candleFeeds: seq<Upstream<seq<RawCandle>>>, bookFeeds: seq<Upstream<RawOrderBook>>)
    returns (rows: seq<TableRow>)
    requires |candleFeeds| == |ids| && |bookFeeds| == |ids|
    modifies cache
    ensures (rows, cache.entries) == TableSpec(old(cache.entries), ids, now, candleFeeds, bookFeeds)
  {
    rows := [];
    for i := 0 to |ids|
      invariant (rows, cache.entries) == TableSpec(old(cache.entries), ids[..i], now, candleFeeds[..i], bookFeeds[..i])
    {
      assert ids[..i + 1][..i] == ids[..i];
      assert candleFeeds[..i + 1][..i] == candleFeeds[..i];
      assert bookFeeds[..i + 1][..i] == bookFeeds[..i];
      var row, _ := FetchCandles(cache, ids[i], now, candleFeeds[i]);
      var book, _ := FetchOrderBook(cache, ids[i], now, bookFeeds[i]);
      rows := rows + [TableRow(row, TotalLots(book))];
    }
    assert ids[..|ids|] == ids;
    assert candleFeeds[..|ids|] == candleFeeds;
    assert bookFeeds[..|ids|] == bookFeeds;
  }

  /** `api_table` past the token check: parse the ids, then assemble the rows. */
  method Table(cache: Cache<Cached>, idsParam: string, now: int,
               candleFeeds: seq<Upstream<seq<RawCandle>>>, bookFeeds: seq<Upstream<RawOrderBook>>)
    returns (rows: seq<TableRow>)
    requires |candleFeeds| == |ParseIds(idsParam)| && |bookFeeds| == |ParseIds(idsParam)|
    modifies cache
    ensures (rows, cache.entries) == TableSpec(old(cache.entries), ParseIds(idsParam), now, candleFeeds, bookFeeds)
  {
    var ids := ParseIds(idsParam);
    rows := AssembleTable(cache, ids, now, candleFeeds, bookFeeds);
  }

  /** The row loop of `api_orderbook`: one order-book row per id, in order. */
  method FetchBookRows(cache: Cache<Cached>, ids: seq<string>, now: int, bookFeeds: seq<Upstream<RawOrderBook>>)
    returns (rows: seq<OrderBook>)
    requires |bookFeeds| == |ids|
    modifies cache
    ensures (rows, cache.entries) == BookRowsSpec(old(cache.entries), ids, now, bookFeeds)
  {
    rows := [];
    for i := 0 to |ids|
      invariant (rows, cache.entries) == BookRowsSpec(old(cache.entries), ids[..i], now, bookFeeds[..i])
    {
      assert ids[..i + 1][..i] == ids[..i];
      assert bookFeeds[..i + 1][..i] == bookFeeds[..i];
      var book, _ := FetchOrderBook(cache, ids[i], now, bookFeeds[i]);
      rows := rows + [book];
    }
    assert ids[..|ids|] == ids;
    assert bookFeeds[..|ids|] == bookFeeds;
  }

  /** `api_orderbook` past the token check: the order-book rows for the parsed ids, and the auction state at `now`. */
  method OrderBookRows(cache: Cache<Cached>, idsParam: string, now: int, bookFeeds: seq<Upstream<RawOrderBook>>)
    returns (rows: seq<OrderBook>, auction: AuctionState)
    requires |bookFeeds| == |ParseIds(idsParam)|
    modifies cache
    ensures (rows, cache.entries) == BookRowsSpec(old(cache.entries), ParseIds(idsParam), now, bookFeeds)
    ensures auction == ClassifyAt(now)
  {
    var ids := ParseIds(idsParam);
    rows := FetchBookRows(cache, ids, now, bookFeeds);
    auction := ClassifyAt(now);
  }
}
