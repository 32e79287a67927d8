# DraftKings odds puller: path accessor and odds decoding

This project models, in Dafny, the core of `pull_odds.py`. That script fetches a
DraftKings event-group payload and writes one CSV row per betting outcome.

Two pieces are modelled:

- **`f_get`** (module `PathAccessor`). It walks a decoded JSON tree along a dotted path.
  - A list cursor is indexed by `int(key)`; negative indices count from the end.
  - Any other cursor is subscripted by the key.
  - A `KeyError`, `TypeError`, `ValueError` or `IndexError` makes it answer `None`.
  - The method `FGet` is the loop. The function `Lookup` is its specification: a fold of one
    `Step` per segment (`Walk`).
- **The body of `fetch_draftkings_sportbook`** from the CSV header on. It is split over three modules:
  - `OddsExtractor`: the loops over an offer's period items and their outcomes, which build
    the list `odds` of (selection, line, price) triples, and the positional split into
    `totals`, `spreads` and `money_line`.
  - `RecordBuilder`: the row dict, a `CsvWriter` class whose `rows` field the writer
    appends to, and the loops over `market_odds.items()`.
  - `DraftKings`: the reads of the league and the offer list, the loop over offers with
    the event metadata taken at the same index, and the whole run as the function `Decode`.

Module `Feed` holds the JSON value type and the few Python operations the code relies on:
truthiness, `or`, `dict.get` and `str` of a scalar.

How the model represents the source:

- **Values.** `Null` stands for Python's `None`, so a JSON null stored under a key and a
  missing key look the same, as they do to `f_get`. A number is carried as the text Python's
  `str()` gives for it, so `"0"`, `"0.0"` and `"-0.0"` are the falsy numbers.
- **Exceptions the decoding does not catch** become the `Crash` result that ends a run.
  There are two:
  - `NotIterable`: a `for` over `None`, a number or a bool.
  - `NoGetMethod`: `.get` on an outcome that is not a dict.

  The rows written before the exception stay in the file.
- **Loops.** A `for` runs through a list's elements, a string's one-character strings, or a
  dict's keys (`Elements`, `Iteration`). The model leaves the order of a dict's keys open
  (`DictKeys` picks one) and proves that the result is the same for every order, because the
  keys are strings. An empty dict adds nothing. A non-empty dict of outcomes, or a non-empty
  dict offer, raises at its first key. A dict offer list raises at its first key other than
  `""`, if it has one (`OutcomesOddsAnyOrder`, `ItemsOddsAnyOrder`, `RunAnyOrder`).
- **`datetime.now()`** is a parameter `clock: nat -> string`, read at the position the row
  takes in the file.
- **The HTTP response** is the input `data: Value`.

Some behaviours of the code worth spelling out:

- **Negative indices.** `int(key)` accepts a sign, so a negative index counts from the end,
  as Python indexing does (`LookupNegativeIndex`).
- **Partition by position.** The first two triples are `totals`, the next two `spreads` and
  the rest `money_line`, whatever their labels (`MarketOdds`, `MarketAt`).
- **The comment at pull_odds.py:111-112** gives a different ordering from the slices at
  120-124. The model follows the slices.
- **`isLocked`** receives the offer's `isOpen` value unchanged (not negated), as the code writes it.
- **Dicts where lists are expected.** A dict as an item's outcomes adds nothing when empty and
  raises `AttributeError` otherwise (`ItemOddsDictOutcomes`). A dict offer has no items when
  empty and raises `TypeError` otherwise (`OfferOddsDict`). A dict as the offer list writes no
  rows, and raises `TypeError` unless its only key is `""` (`DecodeDictOffers`).

Some lemmas only unfold a definition for the proofs of others; their rows say so
("bridge"): `TurnResultAt`, `TurnResultsOk`, `LastIsOpenStep`, `AbsentLineRendersNone`.

## Model

| member | source | states |
|---|---|---|
| Feed.Render | pull_odds.py:139 | `str()` of a scalar as the f-string prints it: a string as itself, a number as its text, `True`/`False`, `None` |
| Feed.Truthy | pull_odds.py:115 | Python's `bool()`: empty dicts, lists and strings, the zero numbers, `False` and `None` are false |
| Feed.Or | pull_odds.py:115 | `a or b`: `a` when truthy, else `b` |
| Feed.DictGet | pull_odds.py:115-117 | `d.get(key)`: the stored value, or `None` for a missing key |
| PathAccessor.Split | pull_odds.py:24 | `path.split(".")`: the pieces between dots, at least one |
| PathAccessor.Decimal | pull_odds.py:125-126 | `str(idx)` in the f-string paths: the decimal digits of `idx` (`ParseDecimal` reads them back) |
| PathAccessor.ParseInt | pull_odds.py:29 | `int(key)` on an optional sign and decimal digits, or the `ValueError` |
| PathAccessor.Step | pull_odds.py:27-30 | one loop turn: a list cursor indexed by `int(key)`, negative from the end, `IndexError` past either end; a dict by the key, `KeyError` when absent; anything else `TypeError` |
| PathAccessor.Walk | pull_odds.py:24-33 | one `Step` per key, stopping at the first exception |
| PathAccessor.Lookup | pull_odds.py:24-33 | the walk's value, or `None` for a caught exception |
| PathAccessor.FGet | pull_odds.py:24-33 | the loop over the split path, leaving early on the first failing step, returns exactly `Lookup(data, path)`; it has no precondition, so it never raises |
| PathAccessor.LookupScalar | pull_odds.py:27-33 | a string, number, bool or `None` cursor answers `None` to every path (the `TypeError` is caught) |
| PathAccessor.LookupCompose | pull_odds.py:24-33 | for every value and paths `p`, `q`: looking up `p + "." + q` equals looking up `q` in the result of looking up `p` (a failed prefix leaves `None`, which fails again) |
| PathAccessor.LookupKey | pull_odds.py:27-30 | a dot-free key against a dict gives the stored value, or `None` when the key is absent |
| PathAccessor.LookupIndex | pull_odds.py:27-30 | a decimal index `n` against a list gives element `n`, or `None` when `n` is past the end (`IndexError`) |
| PathAccessor.LookupNegativeIndex | pull_odds.py:27-30 | index `-n` against a list gives element `len - n` when `n <= len`, else `None` |
| PathAccessor.LookupNonInteger | pull_odds.py:27-33 | a segment that `int()` rejects, against a list, gives `None` (`ValueError`) |
| PathAccessor.LookupEmptyPath | pull_odds.py:24-33 | the empty path is the single key `""`: a dict answers its entry under `""`, anything else `None`; the empty path does not mean "return the root" |
| PathAccessor.LookupIndexedField | pull_odds.py:125-126 | a path `p.idx.field` is `field` looked up in element `idx` of the list at `p`, and `None` when `idx` is past its end |
| PathAccessor.JoinSplit | pull_odds.py:24 | `".".join(path.split("."))` gives back `path` |
| PathAccessor.SplitAppend | pull_odds.py:24 | splitting `p + "." + q` is splitting `p` followed by splitting `q` |
| PathAccessor.SplitDotFree | pull_odds.py:24 | a path without dots splits into itself alone (so `""` into `[""]`) |
| PathAccessor.SplitPartsDotFree | pull_odds.py:24 | no segment of a split path contains a dot |
| PathAccessor.ParseDecimal | pull_odds.py:29 | `int(str(n)) == n` and `int("-" + str(n)) == -n` |
| PathAccessor.ParseIntNeedsDigits | pull_odds.py:29 | `int()` rejects the empty string and any string containing a dot |
| PathAccessor.WalkAppend | pull_odds.py:26-33 | walking two key lists in turn equals walking the second from where the first ends; a fault in the first is final |
| PathAccessor.LookupSegment | pull_odds.py:26-33 | a dot-free path is exactly one step of the loop, with a fault read as `None` |
| OddsExtractor.Elements | pull_odds.py:104-110 | what a `for` runs through: a list's elements, a string's characters, a dict's keys (one order of them); `TypeError` for `None`, numbers and bools |
| OddsExtractor.KeyListListsKeys | pull_odds.py:104-110 | the key order `Elements` uses lists every key of the dict exactly once |
| OddsExtractor.ElementsIteration | pull_odds.py:104-110 | that order is one a `for` over the dict may take |
| OddsExtractor.DictKeys | pull_odds.py:104-110 | the keys of a dict, each once, as strings, in an order the model leaves open |
| OddsExtractor.Iterate | pull_odds.py:104-110 | entering a `for`: it fails exactly when `Elements` does, with the same `TypeError`, and otherwise runs through a sequence a `for` over the value may take |
| OddsExtractor.OutcomeOdd | pull_odds.py:113-119 | the tuple for one outcome dict; `AttributeError` for an outcome that has no `.get` |
| OddsExtractor.OutcomesOdds | pull_odds.py:110-119 | the tuples of an outcome list in order, up to the first outcome that raises |
| OddsExtractor.ItemOutcomes | pull_odds.py:109-110 | `f_get(item, "outcomes")` as the inner `for` runs through it, or its `TypeError` |
| OddsExtractor.ItemOdds | pull_odds.py:109-119 | one turn of the item loop: the triples of the item's outcomes, or the exception of its loop |
| OddsExtractor.ItemsOdds | pull_odds.py:107-119 | the tuples of a list of items, item after item, up to the first that raises |
| OddsExtractor.OfferOdds | pull_odds.py:105-119 | the list `odds` of one offer, or the exception that ends its loops |
| OddsExtractor.LastIsOpen | pull_odds.py:108 | `is_open` after the loop: the last item's `isOpen` |
| OddsExtractor.OfferIsOpen | pull_odds.py:108 | `is_open` after the loop over an offer's items |
| OddsExtractor.OutcomesOddsOfStrings | pull_odds.py:110-115 | outcomes that are strings: none gives no tuples, any raises `AttributeError` |
| OddsExtractor.ItemsOddsOfStrings | pull_odds.py:107-110 | items that are strings: none gives no tuples, any raises `TypeError` on its `None` outcomes; `is_open` is `None` |
| OddsExtractor.OutcomesOddsAnyOrder | pull_odds.py:110-119 | an item's tuples are the same for every order a `for` may run through its outcomes |
| OddsExtractor.ItemsOddsAnyOrder | pull_odds.py:107-119 | an offer's tuples and `is_open` are the same for every order a `for` may run through its items |
| OddsExtractor.OfferOddsString | pull_odds.py:107-110 | a string offer: the empty one has no tuples; any other raises `TypeError` |
| OddsExtractor.ItemOddsDictOutcomes | pull_odds.py:109-115 | a dict of outcomes: empty adds nothing, otherwise `AttributeError` |
| OddsExtractor.OfferOddsDict | pull_odds.py:107-110 | a dict offer: empty has no tuples, otherwise `TypeError`; `is_open` is `None` |
| OddsExtractor.AppendOutcomes | pull_odds.py:110-119 | the loop over one outcome list appends exactly the triples `OutcomesOdds` gives, in order, or reports the exception of the first outcome that is not a dict |
| OddsExtractor.CollectItem | pull_odds.py:107-119 | one period item: `is_open` is its `isOpen` lookup, and the item's triples are appended, or the exception is reported |
| OddsExtractor.CollectItemAt | pull_odds.py:107-119 | item `i` after the items before it: `is_open` is the `isOpen` of the last item so far, and the triples so far are those of the first `i + 1` items, or the item's exception is that of the whole list |
| OddsExtractor.CollectItems | pull_odds.py:107-119 | the loop over a list of items produces exactly `ItemsOdds(items)`, or its exception; `is_open` is the last item's `isOpen` |
| OddsExtractor.CollectOffer | pull_odds.py:104-119 | an offer's loops produce exactly `OfferOdds(offer)`, or its exception (including iterating an offer that is `None`, a number or a bool); `is_open` is the last item's `isOpen` |
| OddsExtractor.ItemsOddsNext | pull_odds.py:107-119 | one more item either extends the triples of the items before it by its own, or its exception is the result of the whole list |
| OddsExtractor.LastIsOpenStep | pull_odds.py:108 | bridge: unfolds `LastIsOpen` one item further, so `is_open` after item `i` is that item's `isOpen` |
| OddsExtractor.ItemsOddsPerOutcome | pull_odds.py:105-119 | the triples are built exactly when every item's outcomes can be looped over and every outcome is a dict; then there is one triple per outcome in period-then-outcome order (participant when truthy, else label; line; oddsAmerican), and their number is the sum of the outcome lists' lengths |
| OddsExtractor.OutcomesOddsPointwise | pull_odds.py:110-119 | one outcome list: the triples exist exactly when every outcome is a dict, and then triple `i` is the triple of outcome `i` |
| OddsExtractor.ItemsOddsStops | pull_odds.py:107-119 | once an item raises, later items change nothing: the offer's result is that exception |
| OddsExtractor.OutcomesOddsStops | pull_odds.py:110-119 | once an outcome raises, later outcomes change nothing |
| OddsExtractor.MarketOdds | pull_odds.py:120-124 | `market_odds`: the slices `[:2]`, `[2:4]`, `[4:]` under totals, spreads, money_line |
| OddsExtractor.MarketName | pull_odds.py:121-135 | the `market_odds` key of each market, which becomes the row's `marketName`: `totals`, `spreads`, `money_line` |
| OddsExtractor.MarketAt | pull_odds.py:120-124 | the market a position of `odds` falls in: totals below 2, spreads below 4, money_line after |
| OddsExtractor.MarketOddsPartition | pull_odds.py:120-124 | three groups in the order totals, spreads, money_line; concatenated they give back `odds`; their sizes are `min(2, n)`, `min(2, max(0, n - 2))` and `max(0, n - 4)` |
| OddsExtractor.GroupSlice | pull_odds.py:120-124 | group `g` is the stretch of `odds` between its start and the next group's start, and every position in it is filed under the group's market |
| RecordBuilder.WithLineText | pull_odds.py:139 | the f-string `f"{odd[0]} {odd[1]}"`: the selection's text, a space and the line's text |
| RecordBuilder.WithLineTextParts | pull_odds.py:139 | for a selection whose text has no space, the `betSelection` text splits back at its first space into the selection's text and the line's text |
| RecordBuilder.MarketRows | pull_odds.py:128-146 | the rows one group's inner loop writes: one per triple of the group, under the group's market, with the clock read at each row's place in the file |
| RecordBuilder.MakeRow | pull_odds.py:129-146 | the row dict for one triple of one market |
| RecordBuilder.OfferRows | pull_odds.py:127-146 | the rows of one offer, one per triple, in order, each under the market of its position |
| RecordBuilder.CsvWriter.constructor | pull_odds.py:94-97 | a new file holds the header and no rows |
| RecordBuilder.CsvWriter.WriteRow | pull_odds.py:129-146 | `writerow` appends one row and leaves the header alone |
| RecordBuilder.WriteMarket | pull_odds.py:128-146 | the inner loop writes exactly the market rows of its group, one per triple, in order |
| RecordBuilder.WriteOfferRows | pull_odds.py:127-146 | the loops over `market_odds.items()` append exactly the offer's positional rows: row `i` is the row of triple `i` under `MarketAt(i)` |
| RecordBuilder.OfferRowsRange | pull_odds.py:127-146 | a stretch of positions that all fall under one market gives that market's rows of the same stretch of triples |
| RecordBuilder.OfferRowsGroup | pull_odds.py:120-146 | the rows of group `g` are that group's market rows, placed where the group starts |
| RecordBuilder.OfferRowAt | pull_odds.py:129-146 | row `i` of an offer: marketName `totals` for `i < 2`, `spreads` for `i < 4`, else `money_line`; selection with line for the first four, selection alone after; price, league, event name, game time, `isLocked == isOpen`, the clock reading, and `"draftkings"` / `"basketball"` |
| RecordBuilder.OfferRowsGrouped | pull_odds.py:127-135 | in an offer's rows a totals row is preceded only by totals rows and a money-line row is followed only by money-line rows |
| RecordBuilder.SixOddsSixRows | pull_odds.py:120-135 | six triples give the market names totals, totals, spreads, spreads, money_line, money_line |
| RecordBuilder.AbsentLineRendersNone | pull_odds.py:138-142 | bridge: unfolds `WithLineText` and `Render` on a missing line, so the f-string `f"{selection} {line}"` ends in `" None"` |
| DraftKings.EventPath | pull_odds.py:125-126 | the f-string path `eventGroup.events.{idx}.{field}` |
| DraftKings.OfferEvent | pull_odds.py:125-126 | the league, event name and start time of offer `idx`, with its `is_open` |
| DraftKings.TurnResult | pull_odds.py:104-126 | one turn of the offer loop before writing: the offer's triples and its metadata, or its exception |
| DraftKings.TurnResults | pull_odds.py:104-126 | the turns of `enumerate(offers)`: turn `i` is `TurnResult` of offer `i` |
| DraftKings.Run | pull_odds.py:104-146 | the file after the first `n` turns: a turn that raises ends the run and keeps the rows before it |
| DraftKings.Decode | pull_odds.py:99-146 | the rows and exception of a run over the payload |
| DraftKings.ReadOffers | pull_odds.py:100-104 | reading the offer list and entering its loop: the `TypeError` of `Decode`, or a run in the order the loop takes that equals `Decode` |
| DraftKings.FetchDraftkingsSportbook | pull_odds.py:94-146 | the run writes the header `FieldNames` and leaves exactly the rows and exception that `Decode(data, clock)` gives |
| DraftKings.DecodeOffer | pull_odds.py:104-146 | one turn of the offer loop extends the file from the run of the first `idx` offers to the run of the first `idx + 1` |
| DraftKings.RunStops | pull_odds.py:104-146 | after a turn raises, later turns change nothing |
| DraftKings.RunSucceeds | pull_odds.py:104-119 | a run ends without an exception exactly when every offer's triples can be collected |
| DraftKings.RunCrash | pull_odds.py:104-146 | the exception that ends a run is that of the first offer that cannot be collected, and the file keeps the rows of the offers before it |
| DraftKings.RunCount | pull_odds.py:104-146 | without an exception the file holds one row per collected triple, summed over the offers |
| DraftKings.RunPrefix | pull_odds.py:104-146 | the rows of the first `k` offers are the start of the rows of the first `n` |
| DraftKings.RunBlock | pull_odds.py:104-146 | the rows of offer `k` sit between the triple counts of the offers before it and up to it, and are that offer's positional rows |
| DraftKings.OddsCountSix | pull_odds.py:104-146 | when every offer collects six triples, `n` offers give `6 * n` rows |
| DraftKings.TurnResultAt | pull_odds.py:99-126 | bridge: unfolds `TurnResults` at one index; the turn collects exactly `OfferOdds` of its offer (or its exception); its metadata is the run's league, the `nameIdentifier` and `startDate` at the offer's index of `eventGroup.events`, and the offer's last `isOpen` |
| DraftKings.TurnResultsOk | pull_odds.py:104-119 | bridge: `TurnResultAt` for every index; every turn succeeds exactly when its offer's triples can be collected |
| DraftKings.DecodeSucceeds | pull_odds.py:99-119 | a whole run ends without an exception exactly when the offer list can be looped over (a list, a string or a dict) and every offer in it can be collected |
| DraftKings.RunRowAt | pull_odds.py:127-146 | row `i` of offer `k` is at index (triples before offer `k`) + `i` and carries that offer's league, event name and start time, its `isOpen` unchanged as `isLocked`, the market of position `i`, the triple's selection (with line for the first four) and price, and the clock reading for that index |
| DraftKings.RunOfEmptyTurns | pull_odds.py:104-146 | turns that collect nothing or raise `TypeError` write no rows; the run raises when one of them does |
| DraftKings.RunOfStrings | pull_odds.py:104-110 | offers that are strings write no rows; the run raises `TypeError` when one of them is not empty |
| DraftKings.KeyListNonEmpty | pull_odds.py:104 | in any order, a dict's keys include a non-empty string exactly when the dict has a key other than `""` |
| DraftKings.DecodeDictOffers | pull_odds.py:100-110 | a dict offer list writes no rows and raises `TypeError` unless its only key is `""` |
| DraftKings.RunAnyOrder | pull_odds.py:104-146 | a run is the same for every order a `for` may run through the offer list |
| DraftKings.EventFieldLookup | pull_odds.py:125-126 | the event fields of offer `idx` come from element `idx` of `eventGroup.events`, and are `None` past its end |

## Left out

- `fetch_sportsbooks_data` (pull_odds.py:41-63): the HTTP request, its error printing and
  `response.json()` are network I/O through a foreign library. The decoded payload is the input `data`.
- Opening `draftkings.csv` and the `csv.DictWriter` text format (pull_odds.py:93-97): the
  file is the `CsvWriter` object. Its header is the constant `FieldNames`, and its rows are
  the dicts handed to `writerow`, not their CSV text.
- `datetime.now()` (pull_odds.py:136) is the `clock` parameter; the wall clock is not modelled.
- The `click` command group and the polling loop with `sleep(5)` (pull_odds.py:36-38, 148-165)
  are process lifecycle. They only re-run the same body.
- The `prettytable`, `typing` and `json` imports are unused by the modelled code.
- Float rendering: a JSON number is carried as the text `str()` gives for it. How Python
  prints a float is not modelled.
- `str()` of a list or dict inside the `betSelection` f-string: `WithLineText` renders scalar
  parts only, and the row keeps the structured `BetSelection`.
- PathAccessor.ParseInt: accepts only an optional sign and ASCII digits. Python's `int()`
  also accepts surrounding whitespace, underscores between digits and non-ASCII decimal
  digits. For such a segment against a list the model answers `None` where Python would index.
- The order of a dict's keys (insertion order in Python) is not modelled: `DictKeys` picks
  an order, and every result is proved the same for all of them.
- OddsExtractor.OfferIsOpen: for an offer with no items, Python keeps the previous offer's
  `is_open`. The model uses `None`. Such an offer has no triples, so no row reads the value.
- Python's `NameError` for an unset `is_open` cannot arise for the same reason, and is not modelled.
