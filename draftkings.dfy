/** `fetch_draftkings_sportbook` (pull_odds.py) after the HTTP fetch: read the league and
    the offer list from the payload, and for each offer collect its triples and write its
    rows with the metadata of the event at the same index. */
module DraftKings {
  import opened Feed
  import opened PathAccessor
  import opened OddsExtractor
  import opened RecordBuilder

  const LeaguePath := "eventGroup.nameIdentifier"
  const OffersPath := "eventGroup.offerCategories.0.offerSubcategoryDescriptors.0.offerSubcategory.offers"

  /** The list of events the offers are matched with by position. */
  const EventsPath := "eventGroup.events"

  /** The f-string path `f"eventGroup.events.{idx}.{field}"`. */
  function EventPath(idx: nat, field: string): string {
    EventsPath + "." + Decimal(idx) + "." + field
  }

  /** The metadata of the offer at index `idx`. */
  function OfferEvent(data: Value, league: Value, idx: nat, isOpen: Value): EventContext {
    EventContext(league, Lookup(data, EventPath(idx, "nameIdentifier")), Lookup(data, EventPath(idx, "startDate")), isOpen)
  }

  /** What one turn of the offer loop has in hand before it writes: the event metadata
      and the collected triples. */
  datatype Collected = Collected(ev: EventContext, odds: seq<Odd>)

  /** One turn of the offer loop up to the writing: collect the triples (which may raise),
      then look up the event at the offer's index (which cannot). */
  ghost function TurnResult(data: Value, league: Value, offers: seq<Value>, idx: nat): Result<Collected, Crash>
    requires idx < |offers|
  {
    match OfferOdds(offers[idx])
    case Err(e) => Err(e)
    case Ok(odds) => Ok(Collected(OfferEvent(data, league, idx, OfferIsOpen(offers[idx])), odds))
  }

  /** The outcomes of all offers, by index. */
  ghost function TurnResults(data: Value, league: Value, offers: seq<Value>): seq<Result<Collected, Crash>> {
    seq(|offers|, i requires 0 <= i < |offers| => TurnResult(data, league, offers, i))
  }

  /** What a run leaves in the file, and the uncaught exception that ended it, if any. */
  datatype Written = Written(rows: seq<Row>, crash: Option<Crash>)

  /** The file after the first `n` turns: a turn that raises ends the run, keeping the
      rows of the turns before it; a turn that does not appends its offer's rows. */
  function Run(turns: seq<Result<Collected, Crash>>, n: nat, clock: nat -> string): Written
    requires n <= |turns|
  {
    if n == 0 then Written([], None)
    else
      var prev := Run(turns, n - 1, clock);
      if prev.crash.Some? then prev
      else
        match turns[n - 1]
        case Err(e) => Written(prev.rows, Some(e))
        case Ok(c) => Written(prev.rows + OfferRows(c.ev, c.odds, clock, |prev.rows|), None)
  }

  /** The file a run writes for a payload (header aside). */
  ghost function Decode(data: Value, clock: nat -> string): Written {
    match Elements(Lookup(data, OffersPath))
    case Err(e) => Written([], Some(e))
    case Ok(offers) =>
      var turns := TurnResults(data, Lookup(data, LeaguePath), offers);
      Run(turns, |turns|, clock)
  }

  /** The body of fetch_draftkings_sportbook from `open` on; `data` is the decoded
      response and `clock(k)` is what `datetime.now()` gives for the `k`-th row. */
  method FetchDraftkingsSportbook(data: Value, clock: nat -> string) returns (writer: CsvWriter, crash: Option<Crash>)
    ensures fresh(writer)
    ensures writer.header == FieldNames
    ensures Written(writer.rows, crash) == Decode(data, clock)
  {
    writer := new CsvWriter(FieldNames);
    crash := None;
    var league := FGet(data, LeaguePath);
    var offerList := ReadOffers(data, clock);
    var offers: seq<Value>;
    match offerList {
      case Err(e) =>
        crash := Some(e);
        return;
      case Ok(xs) =>
        offers := xs;
    }
    ghost var turns := TurnResults(data, league, offers);
    var idx := 0;
    while idx < |offers|
      invariant 0 <= idx <= |offers|
      invariant writer.header == FieldNames
      invariant Written(writer.rows, crash) == Run(turns, idx, clock)
      invariant crash == None
    {
      var err := DecodeOffer(writer, data, league, offers, idx, clock);
      if err.Some? {
        crash := err;
        RunStops(turns, idx + 1, |offers|, clock);
        return;
      }
      idx := idx + 1;
    }
  }

  /** `offers = f_get(data, ...)` and entering the loop over it: the offers in the order
      the loop runs through them, or the `TypeError` of a value that cannot be looped over. */
  method ReadOffers(data: Value, clock: nat -> string) returns (offers: Result<seq<Value>, Crash>)
    ensures offers.Err? ==> Decode(data, clock) == Written([], Some(offers.error))
    ensures offers.Ok? ==>
      Decode(data, clock) == Run(TurnResults(data, Lookup(data, LeaguePath), offers.value), |offers.value|, clock)
  {
    var offersValue := FGet(data, OffersPath);
    offers := Iterate(offersValue);
    if offers.Ok? {
      RunAnyOrder(data, Lookup(data, LeaguePath), offersValue, offers.value, clock);
    }
  }

  /** One turn of `for idx, offer in enumerate(offers)`: collect the offer's triples,
      look up its event, and write its rows. */
  method DecodeOffer(writer: CsvWriter, data: Value, league: Value, offers: seq<Value>, idx: nat, clock: nat -> string)
    returns (crash: Option<Crash>)
    requires idx < |offers|
    requires Run(TurnResults(data, league, offers), idx, clock) == Written(writer.rows, None)
    modifies writer
    ensures writer.header == old(writer.header)
    ensures Run(TurnResults(data, league, offers), idx + 1, clock) == Written(writer.rows, crash)
  {
    ghost var turns := TurnResults(data, league, offers);
    assert turns[idx] == TurnResult(data, league, offers, idx);
    var odds, isOpen, err := CollectOffer(offers[idx]);
    if err.Some? {
      return err;
    }
    var startTime := FGet(data, EventPath(idx, "startDate"));
    var eventName := FGet(data, EventPath(idx, "nameIdentifier"));
    var ev := EventContext(league, eventName, startTime, isOpen);
    assert turns[idx] == Ok(Collected(ev, odds));
    WriteOfferRows(writer, ev, odds, clock);
    crash := None;
  }

  /** After a turn that raised, later turns change nothing. */
  lemma {:induction false} RunStops(turns: seq<Result<Collected, Crash>>, k: nat, n: nat, clock: nat -> string)
    requires k <= n <= |turns|
    requires Run(turns, k, clock).crash.Some?
    ensures Run(turns, n, clock) == Run(turns, k, clock)
    decreases n
  {
    if n > k {
      RunStops(turns, k, n - 1, clock);
    }
  }

  // ---------------------------------------------------------------------------
  // Properties of a run

  /** How many triples the first `n` turns collect (a turn that raises counts none). */
  function OddsCount(turns: seq<Result<Collected, Crash>>, n: nat): nat
    requires n <= |turns|
  {
    if n == 0 then 0
    else OddsCount(turns, n - 1) + match turns[n - 1] case Ok(c) => |c.odds| case Err(_) => 0
  }

  /** A run over the first `n` offers ends without an exception exactly when every one
      of them can be collected; otherwise the exception is that of the first offer that
      cannot. */
  lemma {:induction false} RunSucceeds(turns: seq<Result<Collected, Crash>>, n: nat, clock: nat -> string)
    requires n <= |turns|
    ensures Run(turns, n, clock).crash.None? <==> forall k :: 0 <= k < n ==> turns[k].Ok?
    decreases n
  {
    if n > 0 {
      RunSucceeds(turns, n - 1, clock);
    }
  }

  /** The exception that ends a run is that of the first offer that cannot be collected,
      and the file holds the rows of the offers before it. */
  lemma {:induction false} RunCrash(turns: seq<Result<Collected, Crash>>, n: nat, clock: nat -> string, k: nat)
    requires k < n <= |turns|
    requires turns[k].Err? && forall j :: 0 <= j < k ==> turns[j].Ok?
    ensures Run(turns, n, clock) == Written(Run(turns, k, clock).rows, Some(turns[k].error))
  {
    RunSucceeds(turns, k, clock);
    RunStops(turns, k + 1, n, clock);
  }

  /** Without an exception, the run writes one row per collected triple. */
  lemma {:induction false} RunCount(turns: seq<Result<Collected, Crash>>, n: nat, clock: nat -> string)
    requires n <= |turns|
    requires Run(turns, n, clock).crash.None?
    ensures |Run(turns, n, clock).rows| == OddsCount(turns, n)
    decreases n
  {
    if n > 0 {
      RunCount(turns, n - 1, clock);
    }
  }

  /** The rows of the first `k` turns are the start of the rows of the first `n`. */
  lemma {:induction false} RunPrefix(turns: seq<Result<Collected, Crash>>, k: nat, n: nat, clock: nat -> string)
    requires k <= n <= |turns|
    requires Run(turns, n, clock).crash.None?
    ensures Run(turns, k, clock).crash.None?
    ensures var (small, big) := (Run(turns, k, clock).rows, Run(turns, n, clock).rows);
      |small| <= |big| && big[..|small|] == small
    decreases n
  {
    if k < n {
      RunPrefix(turns, k, n - 1, clock);
      var small := Run(turns, k, clock).rows;
      var mid := Run(turns, n - 1, clock).rows;
      var big := Run(turns, n, clock).rows;
      assert big[..|mid|] == mid;
      assert big[..|small|] == mid[..|small|];
    } else {
      var big := Run(turns, n, clock).rows;
      assert big[..|big|] == big;
    }
  }

  /** Without an exception, the rows of offer `k` are that offer's positional rows, placed
      right after the rows of the offers before it. */
  lemma RunBlock(turns: seq<Result<Collected, Crash>>, n: nat, k: nat, clock: nat -> string)
    requires k < n <= |turns|
    requires Run(turns, n, clock).crash.None?
    ensures turns[k].Ok?
    ensures var rows := Run(turns, n, clock).rows;
      var (lo, hi) := (OddsCount(turns, k), OddsCount(turns, k + 1));
      && lo <= hi <= |rows|
      && rows[lo..hi] == OfferRows(turns[k].value.ev, turns[k].value.odds, clock, lo)
  {
    RunPrefix(turns, k + 1, n, clock);
    RunCount(turns, k, clock);
    RunCount(turns, k + 1, clock);
    var rows := Run(turns, n, clock).rows;
    var before := Run(turns, k, clock).rows;
    var upto := Run(turns, k + 1, clock).rows;
    assert upto[|before|..] == OfferRows(turns[k].value.ev, turns[k].value.odds, clock, |before|);
    assert rows[|before|..|upto|] == upto[|before|..];
  }

  /** When every offer collects six triples, `n` offers give `6 * n` rows. */
  lemma {:induction false} OddsCountSix(turns: seq<Result<Collected, Crash>>, n: nat)
    requires n <= |turns|
    requires forall k :: 0 <= k < n ==> turns[k].Ok? && |turns[k].value.odds| == 6
    ensures OddsCount(turns, n) == 6 * n
    decreases n
  {
    if n > 0 {
      OddsCountSix(turns, n - 1);
    }
  }

  /** A turn of the run collects exactly what `OfferOdds` collects for that offer, and its
      metadata is the run's league, the event name and start time at the offer's index of
      `eventGroup.events`, and the `isOpen` of the offer's last item. */
  lemma TurnResultAt(data: Value, league: Value, offers: seq<Value>, idx: nat)
    requires idx < |offers|
    ensures var out := TurnResults(data, league, offers)[idx];
      && (out.Ok? <==> OfferOdds(offers[idx]).Ok?)
      && (out.Ok? ==> out.value.odds == OfferOdds(offers[idx]).value)
      && (out.Err? ==> out.error == OfferOdds(offers[idx]).error)
      && (out.Ok? ==> out.value.ev.isOpen == OfferIsOpen(offers[idx]))
      && (out.Ok? ==> out.value.ev.league == league)
      && (out.Ok? ==> out.value.ev.eventName == Lookup(data, EventPath(idx, "nameIdentifier")))
      && (out.Ok? ==> out.value.ev.gameTime == Lookup(data, EventPath(idx, "startDate")))
  {
    assert TurnResults(data, league, offers)[idx] == TurnResult(data, league, offers, idx);
  }

  /** A whole run ends without an exception exactly when the offer list can be looped
      over (a list, a string or a dict) and every offer in it can be collected. */
  lemma DecodeSucceeds(data: Value, clock: nat -> string)
    ensures Decode(data, clock).crash.None? <==>
      match Elements(Lookup(data, OffersPath))
      case Err(_) => false
      case Ok(offers) => forall k :: 0 <= k < |offers| ==> OfferOdds(offers[k]).Ok?
  {
    match Elements(Lookup(data, OffersPath)) {
      case Err(_) =>
      case Ok(offers) =>
        var league := Lookup(data, LeaguePath);
        var turns := TurnResults(data, league, offers);
        RunSucceeds(turns, |turns|, clock);
        TurnResultsOk(data, league, offers);
    }
  }

  /** Every turn of the run succeeds exactly when its offer's triples can be collected. */
  lemma TurnResultsOk(data: Value, league: Value, offers: seq<Value>)
    ensures forall k :: 0 <= k < |offers| ==> (TurnResults(data, league, offers)[k].Ok? <==> OfferOdds(offers[k]).Ok?)
  {
    forall k | 0 <= k < |offers|
      ensures TurnResults(data, league, offers)[k].Ok? <==> OfferOdds(offers[k]).Ok?
    {
      TurnResultAt(data, league, offers, k);
    }
  }

  /** Row `i` of offer `k` in a run without an exception: it sits after the rows of the
      offers before it and carries that offer's event metadata (league, event name, start
      time, `isOpen` as `isLocked`), the market of position `i`, the triple's selection and
      price, and the clock reading for its place in the file. */
  lemma RunRowAt(turns: seq<Result<Collected, Crash>>, n: nat, k: nat, i: nat, clock: nat -> string)
    requires k < n <= |turns|
    requires Run(turns, n, clock).crash.None?
    requires turns[k].Ok? && i < |turns[k].value.odds|
    ensures var rows := Run(turns, n, clock).rows;
      var at := OddsCount(turns, k) + i;
      var (ev, odd) := (turns[k].value.ev, turns[k].value.odds[i]);
      && at < |rows|
      && rows[at].league == ev.league
      && rows[at].eventName == ev.eventName
      && rows[at].gameTime == ev.gameTime
      && rows[at].isLocked == ev.isOpen
      && rows[at].marketName == MarketName(MarketAt(i))
      && rows[at].betSelection == (if i < 4 then WithLine(odd.selection, odd.line) else Bare(odd.selection))
      && rows[at].priceSelection == odd.price
      && rows[at].retrievedAt == clock(at)
  {
    RunBlock(turns, n, k, clock);
    var lo := OddsCount(turns, k);
    var c := turns[k].value;
    OfferRowAt(c.ev, c.odds, clock, lo, i);
    var rows := Run(turns, n, clock).rows;
    assert rows[lo + i] == rows[lo..OddsCount(turns, k + 1)][i];
  }

  /** The event fields of offer `idx` come from `eventGroup.events`, indexed by `idx`:
      the event at that position of a list, `None` past its end. */
  lemma EventFieldLookup(data: Value, idx: nat, field: string)
    ensures Lookup(data, EventPath(idx, field)) ==
            Lookup(Lookup(Lookup(data, EventsPath), Decimal(idx)), field)
    ensures var events := Lookup(data, EventsPath);
      events.Arr? ==>
        Lookup(data, EventPath(idx, field)) == if idx < |events.items| then Lookup(events.items[idx], field) else Null
  {
    LookupIndexedField(data, EventsPath, idx, field);
  }

  // ---------------------------------------------------------------------------
  // Offer lists that are dicts or strings: their offers are strings

  /** Turns that collect nothing or raise `TypeError` write no rows; the run raises when
      one of them does. */
  lemma {:induction false} RunOfEmptyTurns(turns: seq<Result<Collected, Crash>>, n: nat, clock: nat -> string)
    requires n <= |turns|
    requires forall j :: 0 <= j < n ==> turns[j] == Err(NotIterable) || (turns[j].Ok? && turns[j].value.odds == [])
    ensures Run(turns, n, clock) == Written([], if exists j :: 0 <= j < n && turns[j].Err? then Some(NotIterable) else None)
    decreases n
  {
    if n > 0 {
      RunOfEmptyTurns(turns, n - 1, clock);
      var prev := Run(turns, n - 1, clock);
      if prev.crash.None? && turns[n - 1].Ok? {
        var c := turns[n - 1].value;
        assert |OfferRows(c.ev, c.odds, clock, |prev.rows|)| == 0;
      }
    }
  }

  /** Offers that are strings collect nothing: the empty string has no items, any other
      string raises `TypeError` on its first character's `outcomes`. */
  lemma RunOfStrings(data: Value, league: Value, offers: seq<Value>, n: nat, clock: nat -> string)
    requires n <= |offers|
    requires AllStrings(offers)
    ensures Run(TurnResults(data, league, offers), n, clock) ==
      Written([], if exists j :: 0 <= j < n && offers[j] != Str("") then Some(NotIterable) else None)
  {
    var turns := TurnResults(data, league, offers);
    forall j | 0 <= j < n
      ensures turns[j] == Err(NotIterable) || (turns[j].Ok? && turns[j].value.odds == [])
      ensures turns[j].Err? <==> offers[j] != Str("")
    {
      TurnResultAt(data, league, offers, j);
      OfferOddsString(offers[j].text);
    }
    RunOfEmptyTurns(turns, n, clock);
  }

  /** A list of dict keys holds a non-empty string exactly when the dict has a key other
      than the empty one, whatever the order of the list. */
  lemma KeyListNonEmpty(ks: seq<Value>, m: map<string, Value>)
    requires IsKeyList(ks, m)
    ensures (exists j :: 0 <= j < |ks| && ks[j] != Str("")) <==> !(m.Keys <= {""})
  {
    if !(m.Keys <= {""}) {
      var k :| k in m && k != "";
      var j :| 0 <= j < |ks| && ks[j] == Str(k);
      assert ks[j] != Str("");
    }
  }

  /** A dict as the offer list writes no rows, and raises `TypeError` unless its only key is
      the empty string. */
  lemma DecodeDictOffers(data: Value, clock: nat -> string, m: map<string, Value>)
    requires Lookup(data, OffersPath) == Obj(m)
    ensures Decode(data, clock) == Written([], if m.Keys <= {""} then None else Some(NotIterable))
  {
    var offers := KeyList(m.Keys);
    KeyListListsKeys(m.Keys);
    RunOfStrings(data, Lookup(data, LeaguePath), offers, |offers|, clock);
    KeyListNonEmpty(offers, m);
  }

  /** The run is the same for every order in which the offer list can be looped over. */
  lemma RunAnyOrder(data: Value, league: Value, v: Value, offers: seq<Value>, clock: nat -> string)
    requires Iteration(v, offers)
    ensures Elements(v).Ok?
    ensures var std := Elements(v).value;
      Run(TurnResults(data, league, offers), |offers|, clock) == Run(TurnResults(data, league, std), |std|, clock)
  {
    if v.Obj? {
      var std := Elements(v).value;
      KeyListListsKeys(v.fields.Keys);
      RunOfStrings(data, league, offers, |offers|, clock);
      RunOfStrings(data, league, std, |std|, clock);
      KeyListNonEmpty(offers, v.fields);
      KeyListNonEmpty(std, v.fields);
    }
  }
}
