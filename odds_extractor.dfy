/** The collection half of `fetch_draftkings_sportbook` (pull_odds.py): walk one offer's
    period items and their outcomes, collect one (selection, line, price) triple per
    outcome, and split the triples positionally into the three markets. */
module OddsExtractor {
  import opened Feed
  import opened PathAccessor

  /** Exceptions the decoding does not catch; each ends the whole run. */
  datatype Crash =
    | NotIterable    // TypeError: a `for` loop over None, a number or a bool
    | NoGetMethod    // AttributeError: `outcome.get` on an outcome that is not a dict

  /** One entry of the list `odds`: participant-or-label, line, American price. */
  datatype Odd = Odd(selection: Value, line: Value, price: Value)

  // ---------------------------------------------------------------------------
  // What a `for` loop runs over

  /** The characters of a string, each a one-character string. */
  function Chars(s: string): seq<Value> {
    seq(|s|, i requires 0 <= i < |s| => Str([s[i]]))
  }

  /** `ks` lists the keys `keys`, each once, as the strings a `for` loop over a dict yields. */
  ghost predicate ListsKeys(ks: seq<Value>, keys: set<string>) {
    && |ks| == |keys|
    && (forall i :: 0 <= i < |ks| ==> ks[i].Str? && ks[i].text in keys)
    && (forall k :: k in keys ==> Str(k) in ks)
  }

  /** `ks` lists the keys of `m`. */
  ghost predicate IsKeyList(ks: seq<Value>, m: map<string, Value>) {
    ListsKeys(ks, m.Keys)
  }

  /** One fixed order of a set of keys. Which order a dict really has is left open: every
      loop below gives the same result for every order (the `...AnyOrder` lemmas). */
  ghost function KeyList(keys: set<string>): seq<Value>
    decreases keys
  {
    if keys == {} then []
    else
      var k :| k in keys;
      KeyList(keys - {k}) + [Str(k)]
  }

  /** `KeyList` lists every key once. */
  lemma {:induction false} KeyListListsKeys(keys: set<string>)
    ensures ListsKeys(KeyList(keys), keys)
    decreases keys
  {
    if keys != {} {
      var ks := KeyList(keys);
      var k := ks[|ks| - 1].text;
      assert k in keys && ks == KeyList(keys - {k}) + [Str(k)];
      KeyListListsKeys(keys - {k});
      forall j | j in keys
        ensures Str(j) in ks
      {
        if j != k {
          assert Str(j) in KeyList(keys - {k});
        }
      }
    }
  }

  /** What a Python `for` loop runs over: a list's elements, a string's characters, a
      dict's keys; anything else raises `TypeError`. */
  ghost function Elements(v: Value): Result<seq<Value>, Crash> {
    match v
    case Arr(xs) => Ok(xs)
    case Str(s) => Ok(Chars(s))
    case Obj(m) => Ok(KeyList(m.Keys))
    case _ => Err(NotIterable)
  }

  /** `xs` is a sequence a `for` loop over `v` may run through (for a dict, its keys in any order). */
  ghost predicate Iteration(v: Value, xs: seq<Value>) {
    match v
    case Arr(ys) => xs == ys
    case Str(s) => xs == Chars(s)
    case Obj(m) => IsKeyList(xs, m)
    case _ => false
  }

  /** The order a dict's keys come in: the dict's own, which the model does not fix. */
  method DictKeys(m: map<string, Value>) returns (ks: seq<Value>)
    ensures IsKeyList(ks, m)
  {
    ks := [];
    var rest := m.Keys;
    while rest != {}
      invariant rest <= m.Keys
      invariant |ks| + |rest| == |m.Keys|
      invariant forall i :: 0 <= i < |ks| ==> ks[i].Str? && ks[i].text in m && ks[i].text !in rest
      invariant forall k :: k in m && k !in rest ==> Str(k) in ks
      decreases rest
    {
      var k :| k in rest;
      ks := ks + [Str(k)];
      rest := rest - {k};
    }
  }

  /** Entering a `for` loop over `v`: the sequence it runs through, or the `TypeError`. */
  method Iterate(v: Value) returns (r: Result<seq<Value>, Crash>)
    ensures r.Ok? <==> Elements(v).Ok?
    ensures r.Err? ==> r == Elements(v)
    ensures r.Ok? ==> Iteration(v, r.value)
  {
    match v {
      case Arr(xs) => r := Ok(xs);
      case Str(s) => r := Ok(Chars(s));
      case Obj(m) =>
        var ks := DictKeys(m);
        r := Ok(ks);
      case _ => r := Err(NotIterable);
    }
  }

  /** The sequence the model's loops run through is one of those Python's may. */
  lemma ElementsIteration(v: Value)
    requires Elements(v).Ok?
    ensures Iteration(v, Elements(v).value)
  {
    if v.Obj? {
      KeyListListsKeys(v.fields.Keys);
    }
  }

  // ---------------------------------------------------------------------------
  // The triples

  /** The tuple appended for one outcome. */
  function OutcomeOdd(outcome: Value): Result<Odd, Crash> {
    match outcome
    case Obj(m) =>
      Ok(Odd(Or(DictGet(m, "participant"), DictGet(m, "label")), DictGet(m, "line"), DictGet(m, "oddsAmerican")))
    case _ => Err(NoGetMethod)
  }

  /** The triples of a list of outcomes, in order, up to the first failing one. */
  function OutcomesOdds(outcomes: seq<Value>): Result<seq<Odd>, Crash>
    decreases |outcomes|
  {
    if outcomes == [] then Ok([])
    else
      match OutcomesOdds(outcomes[..|outcomes| - 1])
      case Err(e) => Err(e)
      case Ok(odds) =>
        match OutcomeOdd(outcomes[|outcomes| - 1])
        case Err(e) => Err(e)
        case Ok(o) => Ok(odds + [o])
  }

  /** The outcome list of one period item, `f_get(item, "outcomes")`, as iterated. */
  ghost function ItemOutcomes(item: Value): Result<seq<Value>, Crash> {
    Elements(Lookup(item, "outcomes"))
  }

  ghost function ItemOdds(item: Value): Result<seq<Odd>, Crash> {
    match ItemOutcomes(item)
    case Err(e) => Err(e)
    case Ok(outcomes) => OutcomesOdds(outcomes)
  }

  /** The triples of a list of period items, item after item. */
  ghost function ItemsOdds(items: seq<Value>): Result<seq<Odd>, Crash>
    decreases |items|
  {
    if items == [] then Ok([])
    else
      match ItemsOdds(items[..|items| - 1])
      case Err(e) => Err(e)
      case Ok(odds) =>
        match ItemOdds(items[|items| - 1])
        case Err(e) => Err(e)
        case Ok(more) => Ok(odds + more)
  }

  /** The list `odds` built for one offer. */
  ghost function OfferOdds(offer: Value): Result<seq<Odd>, Crash> {
    match Elements(offer)
    case Err(e) => Err(e)
    case Ok(items) => ItemsOdds(items)
  }

  /** `is_open` after the loop over a list of items: the last item's `isOpen`. An empty
      list leaves it unassigned, but then `odds` is empty and no row reads it. */
  function LastIsOpen(items: seq<Value>): Value {
    if items == [] then Null else Lookup(items[|items| - 1], "isOpen")
  }

  /** `is_open` after the loop over an offer's items. */
  ghost function OfferIsOpen(offer: Value): Value {
    match Elements(offer)
    case Ok(items) => LastIsOpen(items)
    case Err(_) => Null
  }

  // ---------------------------------------------------------------------------
  // Looping over a dict: its keys are strings, so the order does not matter

  ghost predicate AllStrings(xs: seq<Value>) {
    forall i :: 0 <= i < |xs| ==> xs[i].Str?
  }

  /** Outcomes that are strings have no `.get`: the first one raises `AttributeError`. */
  lemma {:induction false} OutcomesOddsOfStrings(xs: seq<Value>)
    requires AllStrings(xs)
    ensures OutcomesOdds(xs) == if xs == [] then Ok([]) else Err(NoGetMethod)
    decreases |xs|
  {
    if xs != [] {
      OutcomesOddsOfStrings(xs[..|xs| - 1]);
    }
  }

  /** Items that are strings have neither `isOpen` nor `outcomes`: `is_open` is `None` and
      the first item raises `TypeError` on iterating `None`. */
  lemma {:induction false} ItemsOddsOfStrings(xs: seq<Value>)
    requires AllStrings(xs)
    ensures ItemsOdds(xs) == if xs == [] then Ok([]) else Err(NotIterable)
    ensures LastIsOpen(xs) == Null
    decreases |xs|
  {
    if xs != [] {
      var init, last := xs[..|xs| - 1], xs[|xs| - 1];
      ItemsOddsOfStrings(init);
      LookupScalar(last, "outcomes");
      LookupScalar(last, "isOpen");
    }
  }

  /** The outcomes of an item, in whatever order a dict of them yields its keys. */
  lemma OutcomesOddsAnyOrder(v: Value, xs: seq<Value>)
    requires Iteration(v, xs)
    ensures Elements(v).Ok? && OutcomesOdds(xs) == OutcomesOdds(Elements(v).value)
  {
    if v.Obj? {
      KeyListListsKeys(v.fields.Keys);
      OutcomesOddsOfStrings(xs);
      OutcomesOddsOfStrings(Elements(v).value);
    }
  }

  /** The items of an offer, in whatever order a dict of them yields its keys. */
  lemma ItemsOddsAnyOrder(v: Value, xs: seq<Value>)
    requires Iteration(v, xs)
    ensures Elements(v).Ok?
    ensures ItemsOdds(xs) == ItemsOdds(Elements(v).value)
    ensures LastIsOpen(xs) == LastIsOpen(Elements(v).value)
  {
    if v.Obj? {
      KeyListListsKeys(v.fields.Keys);
      ItemsOddsOfStrings(xs);
      ItemsOddsOfStrings(Elements(v).value);
    }
  }

  /** A string offer has no items when empty; otherwise its first character has no
      `outcomes` to loop over and raises `TypeError`. */
  lemma OfferOddsString(text: string)
    ensures OfferOdds(Str(text)) == if text == "" then Ok([]) else Err(NotIterable)
    ensures OfferIsOpen(Str(text)) == Null
  {
    ItemsOddsOfStrings(Chars(text));
  }

  /** A dict of outcomes adds nothing when empty and raises `AttributeError` otherwise. */
  lemma ItemOddsDictOutcomes(item: Value, m: map<string, Value>)
    requires Lookup(item, "outcomes") == Obj(m)
    ensures ItemOdds(item) == if |m.Keys| == 0 then Ok([]) else Err(NoGetMethod)
  {
    KeyListListsKeys(m.Keys);
    OutcomesOddsOfStrings(KeyList(m.Keys));
  }

  /** A dict offer has no items when empty and raises `TypeError` otherwise. */
  lemma OfferOddsDict(m: map<string, Value>)
    ensures OfferOdds(Obj(m)) == if |m.Keys| == 0 then Ok([]) else Err(NotIterable)
    ensures OfferIsOpen(Obj(m)) == Null
  {
    KeyListListsKeys(m.Keys);
    ItemsOddsOfStrings(KeyList(m.Keys));
  }

  // ---------------------------------------------------------------------------
  // The collecting loops

  lemma {:induction false} OutcomesOddsStops(outcomes: seq<Value>, k: nat)
    requires 0 < k <= |outcomes| && OutcomesOdds(outcomes[..k]).Err?
    ensures OutcomesOdds(outcomes) == OutcomesOdds(outcomes[..k])
    decreases |outcomes|
  {
    if k < |outcomes| {
      var init := outcomes[..|outcomes| - 1];
      assert init[..k] == outcomes[..k];
      OutcomesOddsStops(init, k);
    } else {
      assert outcomes[..k] == outcomes;
    }
  }

  lemma {:induction false} ItemsOddsStops(items: seq<Value>, k: nat)
    requires 0 < k <= |items| && ItemsOdds(items[..k]).Err?
    ensures ItemsOdds(items) == ItemsOdds(items[..k])
    decreases |items|
  {
    if k < |items| {
      var init := items[..|items| - 1];
      assert init[..k] == items[..k];
      ItemsOddsStops(init, k);
    } else {
      assert items[..k] == items;
    }
  }

  lemma ItemsOddsStep(items: seq<Value>, i: nat)
    requires i < |items| && ItemsOdds(items[..i]).Ok?
    ensures ItemsOdds(items[..i + 1]) ==
            match ItemOdds(items[i])
            case Err(e) => Err(e)
            case Ok(more) => Ok(ItemsOdds(items[..i]).value + more)
  {
    assert items[..i + 1][..i] == items[..i];
  }

  /** One more item: its triples extend those of the items before it, or its exception
      is the result of the whole list. */
  lemma ItemsOddsNext(items: seq<Value>, i: nat)
    requires i < |items| && ItemsOdds(items[..i]).Ok?
    ensures ItemOdds(items[i]).Err? ==> ItemsOdds(items) == ItemOdds(items[i])
    ensures ItemOdds(items[i]).Ok? ==>
      ItemsOdds(items[..i + 1]) == Ok(ItemsOdds(items[..i]).value + ItemOdds(items[i]).value)
  {
    ItemsOddsStep(items, i);
    if ItemOdds(items[i]).Err? {
      ItemsOddsStops(items, i + 1);
    }
  }

  lemma LastIsOpenStep(items: seq<Value>, i: nat)
    requires i < |items|
    ensures LastIsOpen(items[..i + 1]) == Lookup(items[i], "isOpen")
  {
    assert items[..i + 1][i] == items[i];
  }

  /** The inner loop: append the triple of each outcome to `odds`, in order. */
  method AppendOutcomes(odds: seq<Odd>, outcomes: seq<Value>) returns (odds': seq<Odd>, crash: Option<Crash>)
    ensures crash.Some? ==> OutcomesOdds(outcomes) == Err(crash.value)
    ensures crash.None? ==> OutcomesOdds(outcomes).Ok? && odds' == odds + OutcomesOdds(outcomes).value
  {
    odds', crash := odds, None;
    ghost var added: seq<Odd> := [];
    var j := 0;
    while j < |outcomes|
      invariant 0 <= j <= |outcomes|
      invariant OutcomesOdds(outcomes[..j]) == Ok(added)
      invariant odds' == odds + added
    {
      assert outcomes[..j + 1][..j] == outcomes[..j];
      match OutcomeOdd(outcomes[j]) {
        case Err(e) =>
          crash := Some(e);
          OutcomesOddsStops(outcomes, j + 1);
          return;
        case Ok(o) =>
          odds' := odds' + [o];
          added := added + [o];
      }
      j := j + 1;
    }
    assert outcomes[..j] == outcomes;
  }

  /** One turn of the loop over an offer's items: read `isOpen`, then append the triples of
      the item's outcomes to `odds`. */
  method CollectItem(odds: seq<Odd>, item: Value) returns (odds': seq<Odd>, isOpen: Value, crash: Option<Crash>)
    ensures isOpen == Lookup(item, "isOpen")
    ensures crash.Some? ==> ItemOdds(item) == Err(crash.value)
    ensures crash.None? ==> ItemOdds(item).Ok? && odds' == odds + ItemOdds(item).value
  {
    isOpen := FGet(item, "isOpen");
    var outcomesValue := FGet(item, "outcomes");
    var iteration := Iterate(outcomesValue);
    match iteration {
      case Err(e) =>
        odds', crash := odds, Some(e);
      case Ok(outcomes) =>
        OutcomesOddsAnyOrder(outcomesValue, outcomes);
        odds', crash := AppendOutcomes(odds, outcomes);
    }
  }

  /** Item `i` of the loop over a list of items, after the items before it. */
  method CollectItemAt(items: seq<Value>, i: nat, odds: seq<Odd>) returns (odds': seq<Odd>, isOpen: Value, crash: Option<Crash>)
    requires i < |items| && ItemsOdds(items[..i]) == Ok(odds)
    ensures isOpen == LastIsOpen(items[..i + 1])
    ensures crash.Some? ==> ItemsOdds(items) == Err(crash.value)
    ensures crash.None? ==> ItemsOdds(items[..i + 1]) == Ok(odds')
  {
    ItemsOddsNext(items, i);
    LastIsOpenStep(items, i);
    odds', isOpen, crash := CollectItem(odds, items[i]);
  }

  /** The loop over a list of period items and their outcomes, appending to `odds`. */
  method CollectItems(items: seq<Value>) returns (odds: seq<Odd>, isOpen: Value, crash: Option<Crash>)
    ensures crash.Some? ==> ItemsOdds(items) == Err(crash.value)
    ensures crash.None? ==> ItemsOdds(items) == Ok(odds) && isOpen == LastIsOpen(items)
  {
    odds, isOpen, crash := [], Null, None;
    var i := 0;
    while i < |items|
      invariant 0 <= i <= |items|
      invariant ItemsOdds(items[..i]) == Ok(odds) && crash == None
      invariant isOpen == LastIsOpen(items[..i])
    {
      odds, isOpen, crash := CollectItemAt(items, i, odds);
      if crash.Some? {
        return;
      }
      i := i + 1;
    }
    assert items[..i] == items;
  }

  /** The loops over one offer's items and their outcomes. */
  method CollectOffer(offer: Value) returns (odds: seq<Odd>, isOpen: Value, crash: Option<Crash>)
    ensures crash.Some? ==> OfferOdds(offer) == Err(crash.value)
    ensures crash.None? ==> OfferOdds(offer) == Ok(odds) && isOpen == OfferIsOpen(offer)
  {
    var iteration := Iterate(offer);
    match iteration {
      case Err(e) =>
        odds, isOpen, crash := [], Null, Some(e);
      case Ok(items) =>
        ItemsOddsAnyOrder(offer, items);
        odds, isOpen, crash := CollectItems(items);
    }
  }

  // ---------------------------------------------------------------------------
  // One triple per outcome

  /** The outcomes of all items, concatenated in period order. */
  ghost function AllOutcomes(items: seq<Value>): Result<seq<Value>, Crash>
    decreases |items|
  {
    if items == [] then Ok([])
    else
      match AllOutcomes(items[..|items| - 1])
      case Err(e) => Err(e)
      case Ok(outs) =>
        match ItemOutcomes(items[|items| - 1])
        case Err(e) => Err(e)
        case Ok(more) => Ok(outs + more)
  }

  /** How many outcomes the items list, summed item by item. */
  ghost function OutcomeCount(items: seq<Value>): nat
    decreases |items|
  {
    if items == [] then 0
    else
      OutcomeCount(items[..|items| - 1]) +
      match ItemOutcomes(items[|items| - 1]) case Ok(outs) => |outs| case Err(_) => 0
  }

  /** The triple of an outcome dict: participant when truthy, else label; line; price. */
  ghost predicate IsOddOf(o: Odd, outcome: Value) {
    && outcome.Obj?
    && var participant := DictGet(outcome.fields, "participant");
    && o.selection == (if Truthy(participant) then participant else DictGet(outcome.fields, "label"))
    && o.line == DictGet(outcome.fields, "line")
    && o.price == DictGet(outcome.fields, "oddsAmerican")
  }

  ghost predicate AllDicts(outcomes: seq<Value>) {
    forall i :: 0 <= i < |outcomes| ==> outcomes[i].Obj?
  }

  /** One triple per outcome, position by position. */
  ghost predicate OddsOf(odds: seq<Odd>, outcomes: seq<Value>) {
    |odds| == |outcomes| && forall i :: 0 <= i < |odds| ==> IsOddOf(odds[i], outcomes[i])
  }

  lemma AllDictsConcat(a: seq<Value>, b: seq<Value>)
    ensures AllDicts(a + b) <==> AllDicts(a) && AllDicts(b)
  {
    if AllDicts(a + b) {
      forall i | 0 <= i < |a| ensures a[i].Obj? { assert (a + b)[i] == a[i]; }
      forall i | 0 <= i < |b| ensures b[i].Obj? { assert (a + b)[|a| + i] == b[i]; }
    }
  }

  lemma OddsOfConcat(odds: seq<Odd>, outcomes: seq<Value>, odds': seq<Odd>, outcomes': seq<Value>)
    requires OddsOf(odds, outcomes) && OddsOf(odds', outcomes')
    ensures OddsOf(odds + odds', outcomes + outcomes')
  {
    forall i | 0 <= i < |odds + odds'| ensures IsOddOf((odds + odds')[i], (outcomes + outcomes')[i]) {
      if i >= |odds| {
        assert (odds + odds')[i] == odds'[i - |odds|];
        assert (outcomes + outcomes')[i] == outcomes'[i - |odds|];
      }
    }
  }

  lemma {:induction false} OutcomesOddsPointwise(outcomes: seq<Value>)
    ensures OutcomesOdds(outcomes).Ok? <==> AllDicts(outcomes)
    ensures OutcomesOdds(outcomes).Ok? ==> OddsOf(OutcomesOdds(outcomes).value, outcomes)
    decreases |outcomes|
  {
    if outcomes != [] {
      var init, last := outcomes[..|outcomes| - 1], outcomes[|outcomes| - 1];
      OutcomesOddsPointwise(init);
      assert outcomes == init + [last];
      AllDictsConcat(init, [last]);
      if OutcomesOdds(outcomes).Ok? {
        OddsOfConcat(OutcomesOdds(init).value, init, [OutcomeOdd(last).value], [last]);
      }
    }
  }

  lemma {:induction false} ItemsOddsOk(items: seq<Value>)
    ensures ItemsOdds(items).Ok? <==> AllOutcomes(items).Ok? && AllDicts(AllOutcomes(items).value)
    decreases |items|
  {
    if items != [] {
      var init, last := items[..|items| - 1], items[|items| - 1];
      ItemsOddsOk(init);
      match ItemOutcomes(last) {
        case Err(_) =>
        case Ok(more) =>
          OutcomesOddsPointwise(more);
          if AllOutcomes(init).Ok? {
            AllDictsConcat(AllOutcomes(init).value, more);
          }
      }
    }
  }

  lemma {:induction false} ItemsOddsPointwise(items: seq<Value>)
    requires ItemsOdds(items).Ok?
    ensures AllOutcomes(items).Ok?
    ensures OddsOf(ItemsOdds(items).value, AllOutcomes(items).value)
    ensures |AllOutcomes(items).value| == OutcomeCount(items)
    decreases |items|
  {
    if items != [] {
      var init, last := items[..|items| - 1], items[|items| - 1];
      ItemsOddsPointwise(init);
      var more := ItemOutcomes(last).value;
      OutcomesOddsPointwise(more);
      OddsOfConcat(ItemsOdds(init).value, AllOutcomes(init).value, OutcomesOdds(more).value, more);
    }
  }

  /** The list `odds` of an offer holds exactly one triple per outcome, in period order and
      then outcome order; it is built exactly when every item has an outcome list and every
      outcome is a dict; and its length is the sum of the outcome lists' lengths. */
  lemma ItemsOddsPerOutcome(items: seq<Value>)
    ensures ItemsOdds(items).Ok? <==> AllOutcomes(items).Ok? && AllDicts(AllOutcomes(items).value)
    ensures ItemsOdds(items).Ok? ==>
              && OddsOf(ItemsOdds(items).value, AllOutcomes(items).value)
              && |ItemsOdds(items).value| == OutcomeCount(items)
  {
    ItemsOddsOk(items);
    if ItemsOdds(items).Ok? {
      ItemsOddsPointwise(items);
    }
  }

  // ---------------------------------------------------------------------------
  // The positional partition market_odds

  datatype Market = Totals | Spreads | MoneyLine

  /** The dict key of each market, which becomes the row's `marketName`. */
  function MarketName(m: Market): string {
    match m
    case Totals => "totals"
    case Spreads => "spreads"
    case MoneyLine => "money_line"
  }

  function Min(a: int, b: int): int { if a <= b then a else b }

  function Max(a: int, b: int): int { if a >= b then a else b }

  /** Python's `s[lo:hi]` for `0 <= lo <= hi`: bounds past the end are clamped. */
  function Slice<T>(s: seq<T>, lo: nat, hi: nat): seq<T>
    requires lo <= hi
  {
    s[Min(lo, |s|)..Min(hi, |s|)]
  }

  /** Python's `s[lo:]`. */
  function SliceFrom<T>(s: seq<T>, lo: nat): seq<T> {
    s[Min(lo, |s|)..]
  }

  /** `market_odds`, in the dict's insertion order: totals, spreads, money_line. */
  function MarketOdds(odds: seq<Odd>): seq<(Market, seq<Odd>)> {
    [(Totals, Slice(odds, 0, 2)), (Spreads, Slice(odds, 2, 4)), (MoneyLine, SliceFrom(odds, 4))]
  }

  /** The three groups come in the order totals, spreads, money_line; together they give
      back `odds`, and their sizes are those of the clamped slices. */
  lemma MarketOddsPartition(odds: seq<Odd>)
    ensures var groups := MarketOdds(odds);
      && |groups| == 3
      && groups[0].0 == Totals && groups[1].0 == Spreads && groups[2].0 == MoneyLine
      && groups[0].1 + groups[1].1 + groups[2].1 == odds
      && |groups[0].1| == Min(2, |odds|)
      && |groups[1].1| == Min(2, Max(0, |odds| - 2))
      && |groups[2].1| == Max(0, |odds| - 4)
  {
    var n := |odds|;
    assert odds == odds[..Min(2, n)] + odds[Min(2, n)..Min(4, n)] + odds[Min(4, n)..];
  }

  /** The market a triple at position `i` of `odds` is filed under. */
  function MarketAt(i: nat): Market {
    if i < 2 then Totals else if i < 4 then Spreads else MoneyLine
  }

  /** Where group `g` of `MarketOdds` starts in a list of `n` triples (`g == 3`: the end). */
  function GroupStart(g: nat, n: nat): nat {
    if g == 0 then 0 else if g == 1 then Min(2, n) else if g == 2 then Min(4, n) else n
  }

  /** Group `g` of `MarketOdds` is the stretch of `odds` from its start to the next group's
      start, and every position in that stretch is filed by `MarketAt` under the group's market. */
  lemma GroupSlice(odds: seq<Odd>, g: nat)
    requires g < 3
    ensures GroupStart(g, |odds|) <= GroupStart(g + 1, |odds|) <= |odds|
    ensures MarketOdds(odds)[g].1 == odds[GroupStart(g, |odds|)..GroupStart(g + 1, |odds|)]
    ensures forall i :: GroupStart(g, |odds|) <= i < GroupStart(g + 1, |odds|) ==> MarketAt(i) == MarketOdds(odds)[g].0
  {
  }
}
