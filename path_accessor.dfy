/** `f_get` (pull_odds.py): look a value up in a decoded JSON tree by a dotted path,
    answering `None` (here `Null`) instead of raising when a segment does not resolve. */
module PathAccessor {
  import opened Feed

  // ---------------------------------------------------------------------------
  // str.split(".") and ".".join

  /** Python's `path.split(".")`: the pieces between dots, in order; never empty. */
  function Split(path: string): (parts: seq<string>)
    ensures |parts| >= 1
  {
    if path == [] then [""]
    else
      var rest := Split(path[1..]);
      if path[0] == '.' then [""] + rest
      else [[path[0]] + rest[0]] + rest[1..]
  }

  /** Python's `".".join(parts)`. */
  function Join(parts: seq<string>): string
    requires |parts| >= 1
  {
    if |parts| == 1 then parts[0] else parts[0] + "." + Join(parts[1..])
  }

  /** Splitting and joining again gives back the path. */
  lemma {:induction false} JoinSplit(path: string)
    ensures Join(Split(path)) == path
  {
    if path != [] {
      var rest := Split(path[1..]);
      JoinSplit(path[1..]);
      if path[0] == '.' {
        assert Split(path) == [""] + rest;
        assert Join(Split(path)) == "" + "." + Join(rest);
      } else {
        var parts := Split(path);
        assert parts == [[path[0]] + rest[0]] + rest[1..];
        if |rest| == 1 {
          assert Join(parts) == [path[0]] + rest[0];
        } else {
          assert parts[1..] == rest[1..];
          assert Join(rest) == rest[0] + "." + Join(rest[1..]);
          assert Join(parts) == [path[0]] + rest[0] + "." + Join(rest[1..]);
        }
      }
      assert path == [path[0]] + path[1..];
    }
  }

  /** No piece of a split path holds a dot. */
  lemma {:induction false} SplitPartsDotFree(path: string)
    ensures forall i :: 0 <= i < |Split(path)| ==> '.' !in Split(path)[i]
  {
    if path != [] {
      SplitPartsDotFree(path[1..]);
      var rest := Split(path[1..]);
      if path[0] != '.' {
        assert '.' !in [path[0]] + rest[0];
      }
    }
  }

  /** A path without dots is a single segment (so "" is the one segment ""). */
  lemma {:induction false} SplitDotFree(s: string)
    requires '.' !in s
    ensures Split(s) == [s]
  {
    if s != [] {
      SplitDotFree(s[1..]);
      assert [s[0]] + s[1..] == s;
    }
  }

  /** Splitting distributes over joining two paths with a dot. */
  lemma {:induction false} SplitAppend(p: string, q: string)
    ensures Split(p + "." + q) == Split(p) + Split(q)
  {
    if p == [] {
      assert p + "." + q == "." + q;
      assert ("." + q)[1..] == q;
    } else {
      assert (p + "." + q)[0] == p[0];
      assert (p + "." + q)[1..] == p[1..] + "." + q;
      SplitAppend(p[1..], q);
    }
  }

  // ---------------------------------------------------------------------------
  // int(key) and str(n)

  predicate IsDigit(c: char) {
    '0' <= c <= '9'
  }

  predicate AllDigits(s: string) {
    forall i :: 0 <= i < |s| ==> IsDigit(s[i])
  }

  /** The number a string of decimal digits denotes. */
  function DigitsValue(ds: string): nat
    requires AllDigits(ds)
  {
    if ds == [] then 0
    else DigitsValue(ds[..|ds| - 1]) * 10 + (ds[|ds| - 1] as int - '0' as int)
  }

  /** Python's `int(key)` on an optional sign followed by ASCII digits; `None`
      stands for the `ValueError` it raises on anything else. */
  function ParseInt(s: string): Option<int> {
    if |s| > 0 && (s[0] == '-' || s[0] == '+') then
      var ds := s[1..];
      if |ds| > 0 && AllDigits(ds) then
        var v: int := DigitsValue(ds);
        Some(if s[0] == '-' then -v else v)
      else None
    else if |s| > 0 && AllDigits(s) then Some(DigitsValue(s))
    else None
  }

  /** Python's `str(n)` for a non-negative integer: its decimal digits. */
  function Decimal(n: nat): (s: string)
    ensures |s| >= 1 && AllDigits(s)
  {
    var last := [('0' as int + n % 10) as char];
    if n < 10 then last else Decimal(n / 10) + last
  }

  lemma {:induction false} DigitsOfDecimal(n: nat)
    ensures DigitsValue(Decimal(n)) == n
  {
    var s := Decimal(n);
    if n >= 10 {
      DigitsOfDecimal(n / 10);
      assert s[..|s| - 1] == Decimal(n / 10);
    }
  }

  /** `int(str(n)) == n` and `int("-" + str(n)) == -n`. */
  lemma ParseDecimal(n: nat)
    ensures ParseInt(Decimal(n)) == Some(n)
    ensures ParseInt("-" + Decimal(n)) == Some(-(n as int))
  {
    DigitsOfDecimal(n);
    assert ("-" + Decimal(n))[1..] == Decimal(n);
  }

  /** A string holding a dot is no integer; nor is the empty string. */
  lemma ParseIntNeedsDigits(s: string)
    requires s == [] || '.' in s
    ensures ParseInt(s) == None
  {
    if s != [] {
      var i :| 0 <= i < |s| && s[i] == '.';
      if s[0] == '-' || s[0] == '+' {
        assert s[1..][i - 1] == '.';
      }
    }
  }

  // ---------------------------------------------------------------------------
  // One step, a walk, and f_get

  /** The exceptions f_get catches. */
  datatype Fault = KeyError | TypeError | ValueError | IndexError

  /** One iteration of f_get's loop: a list cursor is indexed by `int(key)`
      (negative indices count from the end), anything else is subscripted by the key. */
  function Step(cursor: Value, key: string): Result<Value, Fault> {
    match cursor
    case Arr(xs) =>
      (match ParseInt(key)
       case None => Err(ValueError)
       case Some(i) =>
         if -|xs| <= i < |xs| then Ok(xs[if i < 0 then i + |xs| else i]) else Err(IndexError))
    case Obj(m) => if key in m then Ok(m[key]) else Err(KeyError)
    case _ => Err(TypeError)
  }

  /** The loop of f_get over all keys, stopping at the first exception. */
  function Walk(cursor: Value, keys: seq<string>): Result<Value, Fault>
    decreases |keys|
  {
    if keys == [] then Ok(cursor)
    else
      match Step(cursor, keys[0])
      case Err(f) => Err(f)
      case Ok(next) => Walk(next, keys[1..])
  }

  /** What f_get returns: the value at the end of the path, or `None`. */
  function Lookup(data: Value, path: string): Value {
    match Walk(data, Split(path))
    case Ok(v) => v
    case Err(_) => Null
  }

  /** f_get itself: total, read-only, rebinding the cursor one key at a time. */
  method FGet(data: Value, path: string) returns (r: Value)
    ensures r == Lookup(data, path)
  {
    var keys := Split(path);
    var cursor := data;
    var i := 0;
    while i < |keys|
      invariant 0 <= i <= |keys|
      invariant Walk(data, keys) == Walk(cursor, keys[i..])
    {
      assert keys[i..][1..] == keys[i + 1..];
      match Step(cursor, keys[i]) {
        case Err(_) =>
          return Null;
        case Ok(next) =>
          cursor := next;
      }
      i := i + 1;
    }
    assert keys[i..] == [];
    r := cursor;
  }

  // ---------------------------------------------------------------------------
  // Properties of f_get

  /** Walking two key lists one after the other; a fault stops the walk for good. */
  lemma {:induction false} WalkAppend(cursor: Value, a: seq<string>, b: seq<string>)
    ensures Walk(cursor, a + b) ==
            match Walk(cursor, a)
            case Ok(v) => Walk(v, b)
            case Err(f) => Err(f)
    decreases |a|
  {
    if a != [] {
      assert (a + b)[0] == a[0];
      assert (a + b)[1..] == a[1..] + b;
      match Step(cursor, a[0]) {
        case Err(f) =>
        case Ok(next) => WalkAppend(next, a[1..], b);
      }
    } else {
      assert a + b == b;
    }
  }

  /** A path without dots is one step of the loop. */
  lemma LookupSegment(cursor: Value, key: string)
    requires '.' !in key
    ensures Lookup(cursor, key) == match Step(cursor, key) case Ok(v) => v case Err(_) => Null
  {
    SplitDotFree(key);
    match Step(cursor, key) {
      case Err(_) =>
      case Ok(v) => assert Walk(cursor, [key]) == Walk(v, []);
    }
  }

  /** A scalar or `None` cursor answers `None` to every path. */
  lemma LookupScalar(v: Value, path: string)
    requires IsScalar(v)
    ensures Lookup(v, path) == Null
  {
    var keys := Split(path);
    assert Step(v, keys[0]) == Err(TypeError);
  }

  /** Path composition: looking up `p.q` is looking up `q` in what `p` gives. */
  lemma LookupCompose(data: Value, p: string, q: string)
    ensures Lookup(data, p + "." + q) == Lookup(Lookup(data, p), q)
  {
    SplitAppend(p, q);
    WalkAppend(data, Split(p), Split(q));
    if Walk(data, Split(p)).Err? {
      LookupScalar(Null, q);
    }
  }

  /** A single key against a dict: the stored value, or `None` when absent
      (a stored JSON null and a missing key look the same). */
  lemma LookupKey(m: map<string, Value>, key: string)
    requires '.' !in key
    ensures Lookup(Obj(m), key) == DictGet(m, key)
  {
    LookupSegment(Obj(m), key);
  }

  /** A single index against a list: the element, or `None` past the end. */
  lemma LookupIndex(xs: seq<Value>, n: nat)
    ensures Lookup(Arr(xs), Decimal(n)) == if n < |xs| then xs[n] else Null
  {
    ParseDecimal(n);
    LookupSegment(Arr(xs), Decimal(n));
  }

  /** A negative index counts from the end of the list. */
  lemma LookupNegativeIndex(xs: seq<Value>, n: nat)
    requires n >= 1
    ensures Lookup(Arr(xs), "-" + Decimal(n)) == if n <= |xs| then xs[|xs| - n] else Null
  {
    ParseDecimal(n);
    var key := "-" + Decimal(n);
    assert key[1..] == Decimal(n);
    assert forall i :: 0 <= i < |key| ==> key[i] == '-' || IsDigit(key[i]);
    LookupSegment(Arr(xs), key);
  }

  /** A segment that is not an integer, against a list, gives `None`. */
  lemma LookupNonInteger(xs: seq<Value>, key: string)
    requires '.' !in key && ParseInt(key) == None
    ensures Lookup(Arr(xs), key) == Null
  {
    LookupSegment(Arr(xs), key);
  }

  /** The empty path is the one key "": it looks up key "" in a dict and fails elsewhere. */
  lemma LookupEmptyPath(v: Value)
    ensures Lookup(v, "") == if v.Obj? then DictGet(v.fields, "") else Null
  {
    LookupSegment(v, "");
    ParseIntNeedsDigits("");
  }

  /** An f-string path `f"{p}.{idx}.{field}"`: the `idx`-th element of the list at `p`,
      then `field` inside it. */
  lemma LookupIndexedField(data: Value, p: string, idx: nat, field: string)
    ensures Lookup(data, p + "." + Decimal(idx) + "." + field) ==
            Lookup(Lookup(Lookup(data, p), Decimal(idx)), field)
    ensures var xs := Lookup(data, p);
      xs.Arr? ==>
        Lookup(data, p + "." + Decimal(idx) + "." + field) == if idx < |xs.items| then Lookup(xs.items[idx], field) else Null
  {
    LookupCompose(data, p + "." + Decimal(idx), field);
    LookupCompose(data, p, Decimal(idx));
    var xs := Lookup(data, p);
    if xs.Arr? {
      LookupIndex(xs.items, idx);
      if idx >= |xs.items| {
        LookupScalar(Null, field);
      }
    }
  }
}
