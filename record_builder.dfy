/** The writing half of `fetch_draftkings_sportbook` (pull_odds.py): one CSV row per
    collected triple, market group after market group, into a `csv.DictWriter`. */
module RecordBuilder {
  import opened Feed
  import opened OddsExtractor

  const SportbookName := "draftkings"
  const SportName := "basketball"

  /** The CSV header, in column order. */
  const FieldNames: seq<string> := [
    "sportbookName", "sportName", "league", "eventName", "gameTime",
    "marketName", "retrievedAt", "betSelection", "priceSelection", "isLocked"
  ]

  /** The `betSelection` cell: the f-string `f"{selection} {line}"` for totals and
      spreads, the selection object itself for the money line. */
  datatype BetSelection = WithLine(selection: Value, line: Value) | Bare(selection: Value)

  /** The text the f-string builds, for scalar parts. */
  function WithLineText(b: BetSelection): string
    requires b.WithLine? && IsScalar(b.selection) && IsScalar(b.line)
  {
    Render(b.selection) + " " + Render(b.line)
  }

  /** Metadata shared by every row of one offer. */
  datatype EventContext = EventContext(league: Value, eventName: Value, gameTime: Value, isOpen: Value)

  /** One dict handed to `writer.writerow`. */
  datatype Row = Row(
    sportbookName: string,
    sportName: string,
    league: Value,
    eventName: Value,
    gameTime: Value,
    marketName: string,
    retrievedAt: string,
    betSelection: BetSelection,
    priceSelection: Value,
    isLocked: Value)

  /** The row written for one triple of one market. */
  function MakeRow(ev: EventContext, market: Market, odd: Odd, retrievedAt: string): Row {
    Row(SportbookName, SportName, ev.league, ev.eventName, ev.gameTime, MarketName(market), retrievedAt,
        if market != MoneyLine then WithLine(odd.selection, odd.line) else Bare(odd.selection),
        odd.price, ev.isOpen)
  }

  /** The rows of one offer read positionally: the triple at position `i` of `odds` gives
      the row at position `i`, filed under `MarketAt(i)`; `clock(k)` is the time read for
      the `k`-th row of the file and `base` is how many rows the file held before. */
  function OfferRows(ev: EventContext, odds: seq<Odd>, clock: nat -> string, base: nat): (rows: seq<Row>)
    ensures |rows| == |odds|
  {
    seq(|odds|, i requires 0 <= i < |odds| => MakeRow(ev, MarketAt(i), odds[i], clock(base + i)))
  }

  /** The output file: its header and the rows written so far. */
  class CsvWriter {
    var header: seq<string>
    var rows: seq<Row>

    /** `open(FILENAME, "w")` truncates the file; `writeheader()` writes the field names. */
    constructor (fieldnames: seq<string>)
      ensures header == fieldnames && rows == []
    {
      header := fieldnames;
      rows := [];
    }

    /** `writer.writerow(row)`: one more row at the end of the file. */
    method WriteRow(row: Row)
      modifies this
      ensures header == old(header)
      ensures rows == old(rows) + [row]
    {
      rows := rows + [row];
    }
  }

  /** The rows of one market group written one after the other, starting at row `base` of the file. */
  function MarketRows(ev: EventContext, market: Market, group: seq<Odd>, clock: nat -> string, base: nat): (rows: seq<Row>)
    ensures |rows| == |group|
  {
    seq(|group|, j requires 0 <= j < |group| => MakeRow(ev, market, group[j], clock(base + j)))
  }

  /** The inner loop, over the triples of one market group. */
  method WriteMarket(writer: CsvWriter, ev: EventContext, market: Market, group: seq<Odd>, clock: nat -> string)
    modifies writer
    ensures writer.header == old(writer.header)
    ensures writer.rows == old(writer.rows) + MarketRows(ev, market, group, clock, |old(writer.rows)|)
  {
    ghost var all := MarketRows(ev, market, group, clock, |writer.rows|);
    var j := 0;
    while j < |group|
      invariant 0 <= j <= |group|
      invariant writer.header == old(writer.header)
      invariant writer.rows == old(writer.rows) + all[..j]
    {
      assert all[..j + 1] == all[..j] + [all[j]];
      writer.WriteRow(MakeRow(ev, market, group[j], clock(|writer.rows|)));
      j := j + 1;
    }
    assert all[..|group|] == all;
  }

  /** A stretch of an offer's rows whose positions all fall under one market is that
      market's rows of the same stretch of triples. */
  lemma OfferRowsRange(ev: EventContext, odds: seq<Odd>, clock: nat -> string, base: nat, market: Market, lo: nat, hi: nat)
    requires lo <= hi <= |odds|
    requires forall i :: lo <= i < hi ==> MarketAt(i) == market
    ensures var all := OfferRows(ev, odds, clock, base);
      all[..hi] == all[..lo] + MarketRows(ev, market, odds[lo..hi], clock, base + lo)
  {
    var all := OfferRows(ev, odds, clock, base);
    var part := MarketRows(ev, market, odds[lo..hi], clock, base + lo);
    forall j | 0 <= j < hi - lo
      ensures all[lo + j] == part[j]
    {
      assert all[lo + j] == MakeRow(ev, MarketAt(lo + j), odds[lo + j], clock(base + lo + j));
    }
    assert all[..hi] == all[..lo] + part;
  }

  /** Group `g` of an offer's rows is that group's market rows, placed where the group starts. */
  lemma OfferRowsGroup(ev: EventContext, odds: seq<Odd>, clock: nat -> string, base: nat, g: nat)
    requires g < 3
    ensures GroupStart(g, |odds|) <= GroupStart(g + 1, |odds|) <= |odds|
    ensures var all := OfferRows(ev, odds, clock, base);
      all[..GroupStart(g + 1, |odds|)] ==
        all[..GroupStart(g, |odds|)] + MarketRows(ev, MarketOdds(odds)[g].0, MarketOdds(odds)[g].1, clock, base + GroupStart(g, |odds|))
  {
    GroupSlice(odds, g);
    OfferRowsRange(ev, odds, clock, base, MarketOdds(odds)[g].0, GroupStart(g, |odds|), GroupStart(g + 1, |odds|));
  }

  /** The loops over `market_odds.items()` and each group's triples. The rows they write
      are exactly the positional rows of the offer. */
  method WriteOfferRows(writer: CsvWriter, ev: EventContext, odds: seq<Odd>, clock: nat -> string)
    modifies writer
    ensures writer.header == old(writer.header)
    ensures writer.rows == old(writer.rows) + OfferRows(ev, odds, clock, |old(writer.rows)|)
  {
    ghost var base := |writer.rows|;
    ghost var all := OfferRows(ev, odds, clock, base);
    var marketOdds := MarketOdds(odds);
    var g := 0;
    while g < |marketOdds|
      invariant 0 <= g <= 3
      invariant writer.header == old(writer.header)
      invariant GroupStart(g, |odds|) <= |odds| && |writer.rows| == base + GroupStart(g, |odds|)
      invariant writer.rows == old(writer.rows) + all[..GroupStart(g, |odds|)]
    {
      OfferRowsGroup(ev, odds, clock, base, g);
      WriteMarket(writer, ev, marketOdds[g].0, marketOdds[g].1, clock);
      g := g + 1;
    }
    assert all[..|odds|] == all;
  }

  // ---------------------------------------------------------------------------
  // What the rows of one offer say

  /** Every row of an offer: its market by position, the selection formatted by market,
      the triple's price, the offer's metadata, the clock reading for its place in the file,
      and the constant book and sport. */
  lemma OfferRowAt(ev: EventContext, odds: seq<Odd>, clock: nat -> string, base: nat, i: nat)
    requires i < |odds|
    ensures var row := OfferRows(ev, odds, clock, base)[i];
      && row.marketName == (if i < 2 then "totals" else if i < 4 then "spreads" else "money_line")
      && row.betSelection == (if i < 4 then WithLine(odds[i].selection, odds[i].line) else Bare(odds[i].selection))
      && row.priceSelection == odds[i].price
      && row.league == ev.league && row.eventName == ev.eventName && row.gameTime == ev.gameTime
      && row.isLocked == ev.isOpen
      && row.retrievedAt == clock(base + i)
      && row.sportbookName == "draftkings" && row.sportName == "basketball"
  {
    assert OfferRows(ev, odds, clock, base)[i] == MakeRow(ev, MarketAt(i), odds[i], clock(base + i));
  }

  /** The rows of an offer come market by market: all totals, then all spreads, then all
      money lines (a totals row is never preceded by another market, a money-line row is
      never followed by one). */
  lemma OfferRowsGrouped(ev: EventContext, odds: seq<Odd>, clock: nat -> string, base: nat, i: nat, j: nat)
    requires i < j < |odds|
    ensures var rows := OfferRows(ev, odds, clock, base);
      && (rows[j].marketName == "totals" ==> rows[i].marketName == "totals")
      && (rows[i].marketName == "money_line" ==> rows[j].marketName == "money_line")
  {
    OfferRowAt(ev, odds, clock, base, i);
    OfferRowAt(ev, odds, clock, base, j);
  }

  /** With exactly six triples the offer yields two totals, two spreads and two money-line rows. */
  lemma SixOddsSixRows(ev: EventContext, odds: seq<Odd>, clock: nat -> string, base: nat)
    requires |odds| == 6
    ensures var rows := OfferRows(ev, odds, clock, base);
      |rows| == 6 &&
      seq(6, i requires 0 <= i < 6 => rows[i].marketName) ==
        ["totals", "totals", "spreads", "spreads", "money_line", "money_line"]
  {
    forall i | 0 <= i < 6 {
      OfferRowAt(ev, odds, clock, base, i);
    }
  }

  /** The `betSelection` text of a selection without spaces splits back at its first
      space into the selection's text and the line's text. */
  lemma WithLineTextParts(selection: Value, line: Value)
    requires IsScalar(selection) && IsScalar(line)
    requires ' ' !in Render(selection)
    ensures var (t, k) := (WithLineText(WithLine(selection, line)), |Render(selection)|);
      && k < |t| && t[k] == ' '
      && (forall i :: 0 <= i < k ==> t[i] != ' ')
      && t[..k] == Render(selection)
      && t[k + 1..] == Render(line)
  {
    var t := WithLineText(WithLine(selection, line));
    var k := |Render(selection)|;
    assert t == Render(selection) + " " + Render(line);
    forall i | 0 <= i < k
      ensures t[i] != ' '
    {
      assert t[i] == Render(selection)[i];
    }
  }

  /** An absent line renders as the text `None` after the selection. */
  lemma AbsentLineRendersNone(selection: Value)
    requires IsScalar(selection)
    ensures WithLineText(WithLine(selection, Null)) == Render(selection) + " None"
  {
  }
}
