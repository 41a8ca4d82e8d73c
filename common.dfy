/** Shared vocabulary for the trading-system model: optional values and
    results (a Python exception that escapes a call is an `Err`), JSON values
    as the system receives them, insertion-ordered dictionaries, the ASCII
    subset of Python's string methods and a decimal-number parser standing in
    for Python's `float()` on text. */
module Common {

  datatype Option<T> = None | Some(value: T) {
    function GetOr(default: T): T {
      match this
      case Some(v) => v
      case None => default
    }
  }

  /** `Err` carries the name of the Python exception the source would raise. */
  datatype Result<T> = Ok(value: T) | Err(error: string)

  /** The values of a run of steps that may each raise, or the error of the
      first that did. */
  function AllOk<T>(rs: seq<Result<T>>): (r: Result<seq<T>>)
    ensures r.Ok? <==> forall i :: 0 <= i < |rs| ==> rs[i].Ok?
    ensures r.Ok? ==> |r.value| == |rs| && forall i :: 0 <= i < |rs| ==> rs[i] == Ok(r.value[i])
    ensures r.Err? ==> exists i :: 0 <= i < |rs| && rs[i] == Err(r.error)
  {
    if rs == [] then Ok([])
    else
      var front := rs[..|rs| - 1];
      assert forall i :: 0 <= i < |front| ==> rs[i] == front[i];
      match AllOk(front)
      case Err(e) => Err(e)
      case Ok(vs) =>
        match rs[|rs| - 1]
        case Err(e) => Err(e)
        case Ok(v) => Ok(vs + [v])
  }

  /** One more successful step extends the values by its own. */
  lemma AllOkExtend<T>(rs: seq<Result<T>>, i: nat)
    requires i < |rs| && AllOk(rs[..i]).Ok? && rs[i].Ok?
    ensures AllOk(rs[..i + 1]) == Ok(AllOk(rs[..i]).value + [rs[i].value])
  {
    assert rs[..i + 1][..i] == rs[..i];
  }

  /** The prefix as long as the sequence is the sequence. */
  lemma WholePrefix<T>(s: seq<T>)
    ensures s[..|s|] == s
  {
  }

  /** A failing step after successful ones ends the run with its error. */
  lemma {:induction false} AllOkStops<T>(rs: seq<Result<T>>, i: nat)
    requires i < |rs| && AllOk(rs[..i]).Ok? && rs[i].Err?
    ensures AllOk(rs) == Err(rs[i].error)
  {
    var front := rs[..|rs| - 1];
    if i < |rs| - 1 {
      assert front[..i] == rs[..i];
      AllOkStops(front, i);
    } else {
      assert front == rs[..i];
    }
  }

  // ---------------------------------------------------------------------
  // Reals

  /** Python's `min(a, b)`: the first argument unless the second is smaller. */
  function Min(a: real, b: real): (r: real)
    ensures r <= a && r <= b && (r == a || r == b)
  {
    if b < a then b else a
  }

  /** Python's `max(a, b)`: the first argument unless the second is larger. */
  function Max(a: real, b: real): (r: real)
    ensures r >= a && r >= b && (r == a || r == b)
  {
    if b > a then b else a
  }

  function Abs(x: real): (r: real)
    ensures r >= 0.0 && (r == x || r == -x)
  {
    if x < 0.0 then -x else x
  }

  /** Python's `sum` of a list of numbers, added left to right. */
  function Sum(s: seq<real>): real {
    if s == [] then 0.0 else Sum(s[..|s| - 1]) + s[|s| - 1]
  }

  /** Numbers between `lo` and `hi` sum to between `n lo` and `n hi`. */
  lemma {:induction false} SumBounds(s: seq<real>, lo: real, hi: real)
    requires forall i :: 0 <= i < |s| ==> lo <= s[i] <= hi
    ensures |s| as real * lo <= Sum(s) <= |s| as real * hi
  {
    if s != [] {
      SumBounds(s[..|s| - 1], lo, hi);
    }
  }

  /** The mean of numbers between `lo` and `hi` is between them too. */
  lemma MeanBounds(s: seq<real>, lo: real, hi: real)
    requires |s| > 0
    requires forall i :: 0 <= i < |s| ==> lo <= s[i] <= hi
    ensures lo <= Sum(s) / |s| as real <= hi
  {
    SumBounds(s, lo, hi);
    var n := |s| as real;
    DivMonotone(n * lo, Sum(s), n);
    DivMonotone(Sum(s), n * hi, n);
    CancelFactor(lo, n);
    CancelFactor(hi, n);
  }

  lemma DivMonotone(x: real, y: real, d: real)
    requires d > 0.0 && x <= y
    ensures x / d <= y / d
  {
  }

  lemma CancelFactor(x: real, d: real)
    requires d != 0.0
    ensures (d * x) / d == x
  {
  }

  lemma MulMonotone(a: real, b: real, w: real)
    requires a <= b && w >= 0.0
    ensures a * w <= b * w
  {
  }

  lemma MulNonNegative(a: real, b: real)
    requires a >= 0.0 && b >= 0.0
    ensures a * b >= 0.0
  {
  }

  lemma PositiveProduct(x: real, y: real)
    requires x > 0.0 && y > 0.0
    ensures x * y > 0.0
  {
  }

  lemma PositiveQuotient(x: real, d: real)
    requires x > 0.0 && d > 0.0
    ensures x / d > 0.0
  {
  }

  lemma DivNonNegative(x: real, d: real)
    requires d > 0.0 && x >= 0.0
    ensures x / d >= 0.0
  {
  }

  function Pow10(n: nat): (r: nat)
    ensures r >= 1
  {
    if n == 0 then 1 else 10 * Pow10(n - 1)
  }

  // ---------------------------------------------------------------------
  // Ordered dictionaries: Python dicts iterate in insertion order, so a dict
  // is a sequence of (key, value) pairs whose keys are distinct.

  type Dict<V> = seq<(string, V)>

  predicate DistinctKeys<V>(d: Dict<V>) {
    forall i, j :: 0 <= i < j < |d| ==> d[i].0 != d[j].0
  }

  function KeySet<V>(d: Dict<V>): set<string> {
    set i | 0 <= i < |d| :: d[i].0
  }

  /** The position of the first entry with key `k`, or `|d|` when none has. */
  function IndexOf<V>(d: Dict<V>, k: string): (i: nat)
    ensures i <= |d|
    ensures forall j :: 0 <= j < i ==> d[j].0 != k
    ensures i < |d| ==> d[i].0 == k
  {
    if d == [] then 0 else if d[0].0 == k then 0 else 1 + IndexOf(d[1..], k)
  }

  /** The two properties of `IndexOf` determine it. */
  lemma IndexOfUnique<V>(d: Dict<V>, k: string, i: nat)
    requires i <= |d|
    requires forall j :: 0 <= j < i ==> d[j].0 != k
    requires i < |d| ==> d[i].0 == k
    ensures IndexOf(d, k) == i
  {
    var m := IndexOf(d, k);
    if m != i {
      assert false;
    }
  }

  lemma KeySetIndexOf<V>(d: Dict<V>, k: string)
    ensures k in KeySet(d) <==> IndexOf(d, k) < |d|
  {
    if k in KeySet(d) {
      var j :| 0 <= j < |d| && d[j].0 == k;
      assert IndexOf(d, k) <= j;
    }
    if IndexOf(d, k) < |d| {
      assert d[IndexOf(d, k)].0 == k;
    }
  }

  /** `d.get(k)`: the value stored under `k`, if any. */
  function Get<V>(d: Dict<V>, k: string): (r: Option<V>)
    ensures r.None? <==> k !in KeySet(d)
    ensures r.Some? ==> exists i :: 0 <= i < |d| && d[i] == (k, r.value)
  {
    KeySetIndexOf(d, k);
    var i := IndexOf(d, k);
    if i < |d| then Some(d[i].1) else None
  }

  /** `d[k] = v`: overwrites the entry in place when `k` is present, otherwise
      appends a new entry at the end. */
  function Put<V>(d: Dict<V>, k: string, v: V): (r: Dict<V>)
    ensures Get(r, k) == Some(v)
    ensures forall k' :: k' != k ==> Get(r, k') == Get(d, k')
    ensures KeySet(r) == KeySet(d) + {k}
    ensures k in KeySet(d) ==> |r| == |d|
    ensures k !in KeySet(d) ==> r == d + [(k, v)]
  {
    KeySetIndexOf(d, k);
    var i := IndexOf(d, k);
    var r := if i < |d| then d[i := (k, v)] else d + [(k, v)];
    PutFacts(d, k, v, i, r);
    r
  }

  /** The facts `Put` promises, for either way of storing the entry. */
  lemma PutFacts<V>(d: Dict<V>, k: string, v: V, i: nat, r: Dict<V>)
    requires i == IndexOf(d, k)
    requires r == if i < |d| then d[i := (k, v)] else d + [(k, v)]
    ensures Get(r, k) == Some(v)
    ensures forall k' :: k' != k ==> Get(r, k') == Get(d, k')
    ensures KeySet(r) == KeySet(d) + {k}
  {
    IndexOfUnique(r, k, i);
    forall k' | k' != k ensures Get(r, k') == Get(d, k') {
      PutOtherKey(d, k, v, i, r, k');
    }
    PutKeys(d, k, v, i, r);
  }

  lemma PutOtherKey<V>(d: Dict<V>, k: string, v: V, i: nat, r: Dict<V>, k': string)
    requires i == IndexOf(d, k) && k' != k
    requires r == if i < |d| then d[i := (k, v)] else d + [(k, v)]
    ensures Get(r, k') == Get(d, k')
  {
    var m := IndexOf(d, k');
    if m < |d| {
      IndexOfUnique(r, k', m);
    } else {
      IndexOfUnique(r, k', |r|);
    }
  }

  lemma PutKeys<V>(d: Dict<V>, k: string, v: V, i: nat, r: Dict<V>)
    requires i == IndexOf(d, k)
    requires r == if i < |d| then d[i := (k, v)] else d + [(k, v)]
    ensures KeySet(r) == KeySet(d) + {k}
  {
    assert r[i].0 == k;
    forall key | key in KeySet(r) ensures key in KeySet(d) + {k} {
      var j :| 0 <= j < |r| && r[j].0 == key;
      if j != i { assert d[j].0 == key; }
    }
    forall key | key in KeySet(d) + {k} ensures key in KeySet(r) {
      if key != k {
        var j :| 0 <= j < |d| && d[j].0 == key;
        assert r[j].0 == key;
      }
    }
  }

  /** Assignment keeps a dictionary's keys distinct. */
  lemma PutDistinct<V>(d: Dict<V>, k: string, v: V)
    requires DistinctKeys(d)
    ensures DistinctKeys(Put(d, k, v))
  {
    KeySetIndexOf(d, k);
    var r := Put(d, k, v);
    var i := IndexOf(d, k);
    if i == |d| {
      forall j | 0 <= j < |d| ensures d[j].0 != k {}
    }
  }

  // ---------------------------------------------------------------------
  // Time-stamped caches: an entry per key and the time it was stored

  /** An entry for `key` exists, with a fetch time, and is younger than
      `duration` at time `now`. */
  predicate FreshIn<V>(cache: map<string, V>, fetchedAt: map<string, real>, duration: real,
                       key: string, now: real)
  {
    key in cache && key in fetchedAt && now - fetchedAt[key] < duration
  }

  /** The entry and fetch time of `key` agree in the two states. */
  ghost predicate SameEntry<V>(cache: map<string, V>, fetchedAt: map<string, real>,
                               cache0: map<string, V>, fetchedAt0: map<string, real>, key: string)
  {
    && (key in cache <==> key in cache0) && (key in cache ==> cache[key] == cache0[key])
    && (key in fetchedAt <==> key in fetchedAt0) && (key in fetchedAt ==> fetchedAt[key] == fetchedAt0[key])
  }

  // ---------------------------------------------------------------------
  // Strings (ASCII subset of Python's str methods)

  function LowerChar(c: char): char {
    if 'A' <= c <= 'Z' then (c as int + 32) as char else c
  }

  function UpperChar(c: char): char {
    if 'a' <= c <= 'z' then (c as int - 32) as char else c
  }

  /** `s.lower()` on ASCII letters. */
  function Lower(s: string): (r: string)
    ensures |r| == |s|
    ensures forall i :: 0 <= i < |s| ==> r[i] == LowerChar(s[i])
  {
    if s == [] then [] else [LowerChar(s[0])] + Lower(s[1..])
  }

  /** `s.upper()` on ASCII letters. */
  function Upper(s: string): (r: string)
    ensures |r| == |s|
    ensures forall i :: 0 <= i < |s| ==> r[i] == UpperChar(s[i])
  {
    if s == [] then [] else [UpperChar(s[0])] + Upper(s[1..])
  }

  /** Upper-casing twice is upper-casing once. */
  lemma {:induction false} UpperIdempotent(s: string)
    ensures Upper(Upper(s)) == Upper(s)
  {
    if s != [] {
      UpperIdempotent(s[1..]);
      assert Upper(s)[1..] == Upper(s[1..]);
    }
  }

  /** Python's `sub in s`, by scanning every start position. */
  predicate Contains(s: string, sub: string)
    decreases |s|
  {
    sub <= s || (s != [] && Contains(s[1..], sub))
  }

  /** `sub` occurs in `s` starting at position `i`. */
  predicate OccursAt(s: string, sub: string, i: int) {
    0 <= i && i + |sub| <= |s| && s[i..i + |sub|] == sub
  }

  /** An occurrence past the first character is an occurrence in the tail,
      one position earlier, and the other way round. */
  lemma OccursInTail(s: string, sub: string, i: int)
    requires s != [] && i > 0
    ensures OccursAt(s, sub, i) <==> OccursAt(s[1..], sub, i - 1)
  {
    if 0 <= i - 1 && i - 1 + |sub| <= |s| - 1 {
      assert s[1..][i - 1..i - 1 + |sub|] == s[i..i + |sub|];
    }
  }

  /** The scan finds `sub` exactly when some slice of `s` equals it. */
  lemma {:induction false} ContainsIff(s: string, sub: string)
    ensures Contains(s, sub) <==> exists i :: OccursAt(s, sub, i)
    decreases |s|
  {
    if sub <= s {
      assert OccursAt(s, sub, 0);
    } else if s == [] {
    } else {
      ContainsIff(s[1..], sub);
      if exists i :: OccursAt(s, sub, i) {
        var i :| OccursAt(s, sub, i);
        assert i != 0;
        OccursInTail(s, sub, i);
      }
      if exists i :: OccursAt(s[1..], sub, i) {
        var i :| OccursAt(s[1..], sub, i);
        OccursInTail(s, sub, i + 1);
      }
    }
  }

  /** The ASCII characters Python's `str.split()` and `str.strip()` treat
      as whitespace: space, tab, line feed, vertical tab, form feed,
      carriage return and the four separators 0x1C to 0x1F. */
  predicate IsSpace(c: char) {
    c == ' ' || '\t' <= c <= '\r' || '\U{1C}' <= c <= '\U{1F}'
  }

  /** `s.strip()`: drops leading and trailing whitespace. */
  function Strip(s: string): (r: string)
    ensures |r| <= |s|
    ensures r != [] ==> !IsSpace(r[0]) && !IsSpace(r[|r| - 1])
    ensures (forall i :: 0 <= i < |s| ==> IsSpace(s[i])) <==> r == []
  {
    StripRight(StripLeft(s))
  }

  function StripLeft(s: string): (r: string)
    ensures |r| <= |s| && r == s[|s| - |r|..]
    ensures r != [] ==> !IsSpace(r[0])
    ensures forall i :: 0 <= i < |s| - |r| ==> IsSpace(s[i])
  {
    if s != [] && IsSpace(s[0]) then StripLeft(s[1..]) else s
  }

  function StripRight(s: string): (r: string)
    ensures |r| <= |s| && r == s[..|r|]
    ensures r != [] ==> !IsSpace(r[|r| - 1])
    ensures forall i :: |r| <= i < |s| ==> IsSpace(s[i])
  {
    if s != [] && IsSpace(s[|s| - 1]) then StripRight(s[..|s| - 1]) else s
  }

  /** `s.replace(from, to)` for a single character. */
  function ReplaceChar(s: string, from: char, to: char): (r: string)
    ensures |r| == |s|
    ensures forall i :: 0 <= i < |s| ==> r[i] == (if s[i] == from then to else s[i])
  {
    if s == [] then [] else [if s[0] == from then to else s[0]] + ReplaceChar(s[1..], from, to)
  }

  /** The leading run of non-whitespace characters. */
  function Word(s: string): (w: string)
    ensures w <= s
    ensures forall i :: 0 <= i < |w| ==> !IsSpace(w[i])
    ensures |w| < |s| ==> IsSpace(s[|w|])
  {
    if s == [] || IsSpace(s[0]) then [] else [s[0]] + Word(s[1..])
  }

  /** A non-empty run of non-whitespace characters. */
  predicate IsWord(w: string) {
    w != [] && forall i :: 0 <= i < |w| ==> !IsSpace(w[i])
  }

  /** `s.split()`: the maximal runs of non-whitespace characters, in order. */
  function Split(s: string): (ws: seq<string>)
    ensures forall k :: 0 <= k < |ws| ==> IsWord(ws[k])
    decreases |s|
  {
    var t := StripLeft(s);
    if t == [] then []
    else
      var w := Word(t);
      assert IsWord(w) by { assert t[0] == w[0]; }
      [w] + Split(t[|w|..])
  }

  // ---------------------------------------------------------------------
  // Numbers as text

  predicate IsDigit(c: char) { '0' <= c <= '9' }

  predicate AllDigits(s: string) { forall i :: 0 <= i < |s| ==> IsDigit(s[i]) }

  /** The value of a string of decimal digits, most significant first. */
  function DigitsValue(s: string): nat
    requires AllDigits(s)
  {
    if s == [] then 0 else 10 * DigitsValue(s[..|s| - 1]) + (s[|s| - 1] as int - '0' as int)
  }

  /** Decimal digits of `n`, without leading zeros (`str(n)`). */
  function NatToString(n: nat): (s: string)
    ensures s != [] && AllDigits(s)
    ensures DigitsValue(s) == n
  {
    if n < 10 then [('0' as int + n) as char]
    else
      var front := NatToString(n / 10);
      var s := front + [('0' as int + n % 10) as char];
      assert s[..|s| - 1] == front;
      s
  }

  function IndexOfChar(s: string, c: char): (i: nat)
    ensures i <= |s|
    ensures forall k :: 0 <= k < i ==> s[k] != c
    ensures i < |s| ==> s[i] == c
  {
    if s == [] then 0 else if s[0] == c then 0 else 1 + IndexOfChar(s[1..], c)
  }

  /** An unsigned decimal `digits[.digits]` with at least one digit. */
  function ParseUnsigned(s: string): (r: Option<real>)
    ensures r.Some? ==> r.value >= 0.0
  {
    var p := IndexOfChar(s, '.');
    var whole := s[..p];
    var frac := if p < |s| then s[p + 1..] else [];
    if |whole| + |frac| == 0 || !AllDigits(whole) || !AllDigits(frac) then None
    else Some(DigitsValue(whole) as real + DigitsValue(frac) as real / Pow10(|frac|) as real)
  }

  /** Python's `float(text)` restricted to an optional sign followed by an
      unsigned decimal: `None` stands for the ValueError `float` raises. */
  function ParseDecimal(s: string): (r: Option<real>)
  {
    if s == [] then None
    else if s[0] == '-' then
      (match ParseUnsigned(s[1..])
       case Some(v) => Some(-v)
       case None => None)
    else if s[0] == '+' then ParseUnsigned(s[1..])
    else ParseUnsigned(s)
  }

  /** `float(str(n))` is `n`: the parser reads back what `str` writes. */
  lemma ParseNatToString(n: nat)
    ensures ParseDecimal(NatToString(n)) == Some(n as real)
  {
    var s := NatToString(n);
    assert s[0] != '-' && s[0] != '+';
    var p := IndexOfChar(s, '.');
    assert forall k :: 0 <= k < |s| ==> s[k] != '.' by {
      forall k | 0 <= k < |s| ensures s[k] != '.' { assert IsDigit(s[k]); }
    }
    assert s[..p] == s;
  }

  // ---------------------------------------------------------------------
  // JSON values as Python's json module hands them over

  datatype Json =
    | JNull
    | JBool(b: bool)
    | JNum(n: real)
    | JStr(s: string)
    | JArr(items: seq<Json>)
    | JObj(fields: Dict<Json>)

  /** Python truthiness of a decoded JSON value. */
  predicate Truthy(j: Json) {
    match j
    case JNull => false
    case JBool(b) => b
    case JNum(n) => n != 0.0
    case JStr(s) => s != []
    case JArr(xs) => xs != []
    case JObj(fs) => fs != []
  }

  /** `obj.get(key)` on a JSON object, with JSON null read as absent. */
  function Field(fields: Dict<Json>, key: string): (r: Option<Json>)
    ensures r.Some? ==> r.value != JNull
  {
    var found := Get(fields, key);
    if found.Some? && found.value.JNull? then None else found
  }

  /** `a or b`: the first argument when it is truthy. */
  function OrElse(a: Option<Json>, b: Json): (r: Json)
    ensures a.Some? && Truthy(a.value) ==> r == a.value
    ensures !(a.Some? && Truthy(a.value)) ==> r == b
  {
    if a.Some? && Truthy(a.value) then a.value else b
  }

  /** Python's `float(x)` on a decoded JSON value: numbers are themselves,
      booleans are 1 and 0, text is parsed after stripping whitespace, and
      anything else (null, list, object) raises, which is `None` here. */
  function FloatOf(j: Json): (r: Option<real>)
    ensures j.JNum? ==> r == Some(j.n)
    ensures j.JNull? || j.JArr? || j.JObj? ==> r.None?
  {
    match j
    case JNum(n) => Some(n)
    case JBool(b) => Some(if b then 1.0 else 0.0)
    case JStr(s) => ParseDecimal(Strip(s))
    case _ => None
  }
}
