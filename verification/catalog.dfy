/** The instrument catalog (`api_futures` once the provider has answered): every future, plus the allow-listed shares. */
module Catalog {
  import opened Wrappers
  import opened Text

  datatype InstrumentType = Futures | Shares

  /** An instrument record as decoded from JSON; a field is `None` when missing. */
  datatype RawInstrument = RawInstrument(figi: Option<string>, ticker: Option<string>, name: Option<string>, uid: Option<string>)

  datatype Instrument = Instrument(figi: string, ticker: string, name: string, instrumentUid: string, instrumentType: InstrumentType)

  /** The shares (spot) to offer, matched case-insensitively. */
  const SpotTickers: seq<string> := ["PLZL", "SBER", "LKOH", "GAZP", "NVTK", "VTBR", "GMKN"]

  /** `ticker.upper() in [t.upper() for t in allowList]`. */
  predicate Allowed(ticker: string, allowList: seq<string>) {
    Upper(ticker) in UpperAll(allowList)
  }

  /** Whether a share's ticker is on the spot allow-list, ignoring case. */
  predicate IsSpot(ticker: string) {
    Allowed(ticker, SpotTickers)
  }

  /** `inv.get("name") or ticker`. */
  function NameOrTicker(raw: RawInstrument): string {
    if raw.name.GetOr("") != "" then raw.name.value else raw.ticker.GetOr("")
  }

  /** `inv.get("uid", "") or inv.get("figi", "")`. */
  function UidOrFigi(raw: RawInstrument): string {
    if raw.uid.GetOr("") != "" then raw.uid.value else raw.figi.GetOr("")
  }

  /** The item appended for one record. */
  function ToInstrument(raw: RawInstrument, kind: InstrumentType): Instrument {
    Instrument(raw.figi.GetOr(""), raw.ticker.GetOr(""), NameOrTicker(raw), UidOrFigi(raw), kind)
  }

  /** The items of the futures response, one per record in order. */
  function FutureItems(raws: seq<RawInstrument>): seq<Instrument> {
    if raws == [] then []
    else FutureItems(raws[..|raws| - 1]) + [ToInstrument(raws[|raws| - 1], Futures)]
  }

  /** The items of the shares response: the records whose ticker is allowed, in order. */
  function AllowedItems(raws: seq<RawInstrument>, allowList: seq<string>): seq<Instrument> {
    if raws == [] then []
    else
      var last := raws[|raws| - 1];
      AllowedItems(raws[..|raws| - 1], allowList)
      + (if Allowed(last.ticker.GetOr(""), allowList) then [ToInstrument(last, Shares)] else [])
  }

  /** The whole list: the futures items, then the shares items; a failed call contributes nothing. */
  function CatalogItems(futures: Upstream<seq<RawInstrument>>, shares: Upstream<seq<RawInstrument>>): seq<Instrument> {
    (if futures.Ok? then FutureItems(futures.value) else [])
    + (if shares.Ok? then AllowedItems(shares.value, SpotTickers) else [])
  }

  /** Builds the list by appending inside the two loops, as the server does. */
  method BuildCatalog(futures: Upstream<seq<RawInstrument>>, shares: Upstream<seq<RawInstrument>>) returns (items: seq<Instrument>)
    ensures items == CatalogItems(futures, shares)
  {
    items := [];
    if futures.Ok? {
      items := AppendFutures(items, futures.value);
    }
    if shares.Ok? {
      items := AppendAllowedShares(items, shares.value, SpotTickers);
    }
  }

  /** The futures loop: one item per record. */
  method AppendFutures(start: seq<Instrument>, fs: seq<RawInstrument>) returns (items: seq<Instrument>)
    ensures items == start + FutureItems(fs)
  {
    items := start;
    for i := 0 to |fs|
      invariant items == start + FutureItems(fs[..i])
    {
      assert fs[..i + 1][..i] == fs[..i];
      items := items + [ToInstrument(fs[i], Futures)];
    }
    assert fs[..|fs|] == fs;
  }

  /** The shares loop: an item only for an allow-listed ticker. */
  method AppendAllowedShares(start: seq<Instrument>, ss: seq<RawInstrument>, allowList: seq<string>) returns (items: seq<Instrument>)
    ensures items == start + AllowedItems(ss, allowList)
  {
    items := start;
    for i := 0 to |ss|
      invariant items == start + AllowedItems(ss[..i], allowList)
    {
      assert ss[..i + 1][..i] == ss[..i];
      var ticker := ss[i].ticker.GetOr("");
      if Allowed(ticker, allowList) {
        items := items + [ToInstrument(ss[i], Shares)];
      }
    }
    assert ss[..|ss|] == ss;
  }

  /** Every future is kept, in order, as a futures item. */
  lemma {:induction false} EveryFutureKept(raws: seq<RawInstrument>)
    ensures |FutureItems(raws)| == |raws|
    ensures forall i :: 0 <= i < |raws| ==> FutureItems(raws)[i] == ToInstrument(raws[i], Futures)
  {
    if raws != [] {
      EveryFutureKept(raws[..|raws| - 1]);
    }
  }

  /** A share is kept exactly when its ticker is on the allow-list, ignoring case, and kept shares are shares items. */
  lemma {:induction false} SharesFiltered(raws: seq<RawInstrument>, allowList: seq<string>, x: Instrument)
    ensures x in AllowedItems(raws, allowList) <==>
      exists j :: 0 <= j < |raws| && Allowed(raws[j].ticker.GetOr(""), allowList) && x == ToInstrument(raws[j], Shares)
  {
    if raws != [] {
      var init := raws[..|raws| - 1];
      SharesFiltered(init, allowList, x);
      if x in AllowedItems(raws, allowList) && x !in AllowedItems(init, allowList) {
        assert x == ToInstrument(raws[|raws| - 1], Shares);
      }
      if j :| 0 <= j < |raws| && Allowed(raws[j].ticker.GetOr(""), allowList) && x == ToInstrument(raws[j], Shares) {
        if j < |raws| - 1 {
          assert init[j] == raws[j];
        }
      }
    }
  }

  /** Futures come first and shares after; a failure of either call removes only that call's items. */
  lemma CatalogOrder(futures: Upstream<seq<RawInstrument>>, shares: Upstream<seq<RawInstrument>>)
    ensures var items := CatalogItems(futures, shares);
      var n := if futures.Ok? then |futures.value| else 0;
      && n <= |items|
      && (forall i :: 0 <= i < n ==> items[i].instrumentType == Futures)
      && items[n..] == (if shares.Ok? then AllowedItems(shares.value, SpotTickers) else [])
      && items[..n] == (if futures.Ok? then FutureItems(futures.value) else [])
  {
    if futures.Ok? {
      EveryFutureKept(futures.value);
    }
  }

  /** Every shares item is of type shares. */
  lemma {:induction false} AllowedItemsAreShares(raws: seq<RawInstrument>, allowList: seq<string>)
    ensures forall i :: 0 <= i < |AllowedItems(raws, allowList)| ==> AllowedItems(raws, allowList)[i].instrumentType == Shares
  {
    if raws != [] {
      AllowedItemsAreShares(raws[..|raws| - 1], allowList);
    }
  }

  /** The name falls back to the ticker when missing or empty; the uid falls back to the figi. */
  lemma Fallbacks(raw: RawInstrument, kind: InstrumentType)
    ensures var x := ToInstrument(raw, kind);
      && (raw.name.None? || raw.name == Some("") ==> x.name == x.ticker)
      && (raw.name.Some? && raw.name.value != "" ==> x.name == raw.name.value)
      && (raw.uid.None? || raw.uid == Some("") ==> x.instrumentUid == x.figi)
      && (raw.uid.Some? && raw.uid.value != "" ==> x.instrumentUid == raw.uid.value)
  {
  }

  /** The allow-list match ignores case: "sber", "Sber" and "SBER" are kept, "SBERP" is not. */
  lemma SpotMatchIgnoresCase()
    ensures IsSpot("sber") && IsSpot("Sber") && IsSpot("SBER")
    ensures !IsSpot("SBERP")
  {
    assert UpperAll(SpotTickers)[1] == Upper("SBER");
    assert Upper("SBER") == "SBER";
    assert Upper("sber") == "SBER";
    assert Upper("Sber") == "SBER";
    assert forall i :: 0 <= i < |SpotTickers| ==> |UpperAll(SpotTickers)[i]| == 4;
    assert |Upper("SBERP")| == 5;
  }
}
