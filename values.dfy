/**
 * Python's dynamic values, as far as the modelled code inspects them, the
 * exceptions it raises, and the decimal text conversions it relies on
 * (`str(n)`, `int(x)`).
 */
module Values {

  /** An instant as returned by `datetime.now()`. Its text forms are supplied by the caller. */
  datatype DateTime = DateTime(ticks: int)

  /**
   * A Python value, or a pandas cell. `NoneV` is Python's None and `NaN` is
   * pandas' missing float; `Bool` is kept apart from `Int` because Python
   * formats it differently, although `isinstance(True, int)` holds.
   */
  datatype Value = NoneV | NaN | Bool(b: bool) | Int(i: int) | Str(s: string) | Date(d: DateTime)

  /** The exceptions the modelled code can raise. */
  datatype Error = IndexError | KeyError(key: string) | ValueError | TypeError

  datatype Option<T> = None | Some(value: T)

  datatype Result<T> = Ok(value: T) | Err(error: Error)

  /** The outcome of a call that returns nothing but may raise. */
  datatype Outcome = Pass | Fail(error: Error)

  /** Python truthiness, `bool(v)`: NaN and every datetime are true. */
  predicate Truthy(v: Value): (t: bool)
    ensures !t <==> v in {NoneV, Bool(false), Int(0), Str("")}
  {
    match v
    case NoneV => false
    case NaN => true
    case Bool(b) => b
    case Int(i) => i != 0
    case Str(s) => s != ""
    case Date(_) => true
  }

  /** Python's `a or b`: `a` when it is truthy, `b` otherwise. */
  function Or(a: Value, b: Value): (r: Value)
    ensures r == a || r == b
    ensures Truthy(r) <==> Truthy(a) || Truthy(b)
    ensures Truthy(b) ==> Truthy(r)
  {
    if Truthy(a) then a else b
  }

  /** `isinstance(v, int)`; `bool` is a subclass of `int`. */
  predicate IsInt(v: Value): (b: bool)
    ensures b <==> !(v.NoneV? || v.NaN? || v.Str? || v.Date?)
  {
    v.Int? || v.Bool?
  }

  /** The integer a value stands for when `isinstance(v, int)` holds (True is 1). */
  function IntOf(v: Value): int
    requires IsInt(v)
  {
    if v.Int? then v.i else if v.b then 1 else 0
  }

  /** pandas `isna`: None and NaN are missing. */
  predicate IsMissing(v: Value): (m: bool)
    ensures m <==> v.NoneV? || v.NaN?
    ensures IsInt(v) || v.Str? || v.Date? ==> !m
  {
    v.NoneV? || v.NaN?
  }

  /** The equality pandas `isin` uses: identical values, or ints and bools of equal numeric value. */
  predicate SameValue(a: Value, b: Value): (r: bool)
    ensures a == b ==> r
    ensures r && a != b ==> IsInt(a) && IsInt(b) && IntOf(a) == IntOf(b)
    ensures IsInt(a) && IsInt(b) ==> (r <==> IntOf(a) == IntOf(b))
  {
    a == b || (IsInt(a) && IsInt(b) && IntOf(a) == IntOf(b))
  }

  /** `Series.isin(values)` for one cell. */
  predicate IsIn(v: Value, values: seq<Value>): (r: bool)
    ensures v in values ==> r
    ensures values == [] ==> !r
    ensures r ==> exists w :: w in values && SameValue(v, w)
  {
    exists k :: 0 <= k < |values| && SameValue(v, values[k])
  }

  // ---------------------------------------------------------------------------
  // Decimal text

  predicate IsDigit(c: char) {
    '0' <= c <= '9'
  }

  predicate AllDigits(s: string) {
    forall i :: 0 <= i < |s| ==> IsDigit(s[i])
  }

  function DigitChar(d: nat): (c: char)
    requires d < 10
    ensures IsDigit(c) && c as int - '0' as int == d
  {
    (('0' as int) + d) as char
  }

  function DigitValue(c: char): nat
    requires IsDigit(c)
  {
    c as int - '0' as int
  }

  /** `str(n)` for a non-negative integer: decimal digits without leading zeros. */
  function NatToString(n: nat): (s: string)
    ensures |s| >= 1 && AllDigits(s)
    ensures s[0] == '0' <==> n == 0
    ensures n == 0 ==> s == "0"
    decreases n
  {
    if n < 10 then [DigitChar(n)] else NatToString(n / 10) + [DigitChar(n % 10)]
  }

  /** The value of a string of decimal digits (the empty string reads as 0). */
  function ParseDigits(s: string): nat
    requires AllDigits(s)
    decreases |s|
  {
    if s == [] then 0 else ParseDigits(s[..|s| - 1]) * 10 + DigitValue(s[|s| - 1])
  }

  /** Reading back what `str(n)` wrote gives `n`. */
  lemma {:induction false} ParseNatToString(n: nat)
    ensures ParseDigits(NatToString(n)) == n
    decreases n
  {
    if n >= 10 {
      ParseNatToString(n / 10);
      var s := NatToString(n / 10) + [DigitChar(n % 10)];
      assert s[..|s| - 1] == NatToString(n / 10);
    }
  }

  /** Distinct numbers have distinct decimal texts. */
  lemma NatToStringInjective(m: nat, n: nat)
    ensures NatToString(m) == NatToString(n) ==> m == n
  {
    ParseNatToString(m);
    ParseNatToString(n);
  }

  /** `str(i)` for any integer. */
  function IntToString(i: int): (s: string)
    ensures |s| >= 1
    ensures forall k :: 0 <= k < |s| ==> IsDigit(s[k]) || (k == 0 && s[k] == '-')
    ensures s[0] == '-' <==> i < 0
  {
    if i < 0 then "-" + NatToString(-i) else NatToString(i)
  }

  /** `int(s)` for a string: an optional sign followed by decimal digits. */
  function ParseIntText(s: string): (r: Result<int>)
    ensures r.Err? ==> r.error == ValueError
    ensures s == [] || s == "-" || s == "+" ==> r.Err?
    ensures |s| > 0 && AllDigits(s) ==> r == Ok(ParseDigits(s))
    ensures r.Ok? && r.value < 0 ==> s[0] == '-'
    ensures r.Ok? ==> forall k :: 1 <= k < |s| ==> IsDigit(s[k])
    ensures r.Ok? ==> |s| > 0 && (IsDigit(s[0]) || s[0] == '-' || s[0] == '+')
    ensures |s| > 1 && (s[0] == '-' || s[0] == '+') && AllDigits(s[1..]) ==>
      r == Ok(if s[0] == '-' then -(ParseDigits(s[1..]) as int) else ParseDigits(s[1..]))
  {
    if |s| > 1 && (s[0] == '-' || s[0] == '+') && AllDigits(s[1..]) then
      var n: int := ParseDigits(s[1..]);
      Ok(if s[0] == '-' then -n else n)
    else if |s| > 0 && AllDigits(s) then
      Ok(ParseDigits(s))
    else
      Err(ValueError)
  }

  /** Python's `int(v)`. */
  function ToInt(v: Value): (r: Result<int>)
    ensures IsInt(v) ==> r == Ok(IntOf(v))
    ensures v.NoneV? || v.Date? ==> r == Err(TypeError)
    ensures v.NaN? ==> r == Err(ValueError)
    ensures v.Str? ==> r == ParseIntText(v.s)
  {
    match v
    case Int(i) => Ok(i)
    case Bool(b) => Ok(if b then 1 else 0)
    case Str(s) => ParseIntText(s)
    case NaN => Err(ValueError)
    case NoneV => Err(TypeError)
    case Date(_) => Err(TypeError)
  }

  /** `int(str(i)) == i`, and `int` is the identity on ints. */
  lemma ToIntRoundTrip(i: int)
    ensures ToInt(Str(IntToString(i))) == Ok(i)
    ensures ToInt(Int(i)) == Ok(i)
  {
    var s := IntToString(i);
    if i < 0 {
      var digits := NatToString(-i);
      ParseNatToString(-i);
      assert s == "-" + digits;
      assert s[1..] == digits;
      var n: int := ParseDigits(digits);
      assert ParseIntText(s) == Ok(-n);
    } else {
      ParseNatToString(i);
      assert s == NatToString(i);
      assert s[0] != '-' && s[0] != '+';
      assert ParseIntText(s) == Ok(ParseDigits(s));
    }
  }

  /** Python's `str(v)`; `dateText` stands for `str()` of a datetime. */
  function ToText(v: Value, dateText: DateTime -> string): (t: string)
    ensures v.NoneV? ==> t == "None"
    ensures v.Bool? ==> t == (if v.b then "True" else "False")
    ensures v.Str? ==> t == v.s
    ensures v.Int? ==> ToInt(Str(t)) == Ok(v.i)
    ensures v.Date? ==> t == dateText(v.d)
  {
    match v
    case NoneV => "None"
    case NaN => "nan"
    case Bool(b) => if b then "True" else "False"
    case Int(i) => ToIntRoundTrip(i); IntToString(i)
    case Str(s) => s
    case Date(d) => dateText(d)
  }

  // ---------------------------------------------------------------------------
  // Sequences

  /** Concatenation is associative. */
  lemma ConcatAssoc<T>(a: seq<T>, b: seq<T>, c: seq<T>)
    ensures a + (b + c) == (a + b) + c
  {
  }

  /** The index of the first `c` in `s`, or `|s|`. */
  function IndexOf(s: string, c: char): (k: nat)
    ensures k <= |s|
    ensures k < |s| ==> s[k] == c
    ensures forall i :: 0 <= i < k ==> s[i] != c
    decreases |s|
  {
    if s == [] || s[0] == c then 0 else IndexOf(s[1..], c) + 1
  }

  /** The first `c` of `p + rest` is the one that starts `rest` when `p` has none. */
  lemma {:induction false} IndexOfAfter(p: string, rest: string, c: char)
    requires c !in p && rest != [] && rest[0] == c
    ensures IndexOf(p + rest, c) == |p|
    decreases |p|
  {
    if p == [] {
      assert p + rest == rest;
    } else {
      assert (p + rest)[1..] == p[1..] + rest;
      IndexOfAfter(p[1..], rest, c);
    }
  }

  /** `str(i)` contains nothing but a sign and digits. */
  lemma IntToStringHasNo(i: int, c: char)
    requires !IsDigit(c) && c != '-'
    ensures c !in IntToString(i)
  {
  }

  // ---------------------------------------------------------------------------
  // Dictionaries

  /** A Python dict: its entries in insertion order. */
  type Dict = seq<(string, Value)>

  function Keys(d: Dict): (ks: seq<string>)
    ensures |ks| == |d| && forall k :: 0 <= k < |d| ==> ks[k] == d[k].0
  {
    seq(|d|, k requires 0 <= k < |d| => d[k].0)
  }

  predicate DistinctKeys(d: Dict) {
    forall i, j :: 0 <= i < j < |d| ==> d[i].0 != d[j].0
  }

  predicate Distinct(ks: seq<string>) {
    forall i, j :: 0 <= i < j < |ks| ==> ks[i] != ks[j]
  }

  /** A dict whose key list has no repetition has distinct keys. */
  lemma DistinctKeysOf(d: Dict, ks: seq<string>)
    requires Keys(d) == ks && Distinct(ks)
    ensures DistinctKeys(d)
  {
    forall i, j | 0 <= i < j < |d| ensures d[i].0 != d[j].0 {
      assert d[i].0 == ks[i] && d[j].0 == ks[j];
    }
  }

  /** `d.get(key)`: the value of the first entry with that key. */
  function Lookup(d: Dict, key: string): (r: Option<Value>)
    ensures r.None? <==> key !in Keys(d)
    ensures r.Some? ==> exists k :: 0 <= k < |d| && d[k] == (key, r.value)
    decreases |d|
  {
    if d == [] then None
    else if d[0].0 == key then Some(d[0].1)
    else
      var r := Lookup(d[1..], key);
      assert Keys(d[1..]) == Keys(d)[1..];
      r
  }

  /** With distinct keys, the entry at position `k` is what its key looks up. */
  lemma {:induction false} LookupAt(d: Dict, k: nat)
    requires DistinctKeys(d) && k < |d|
    ensures Lookup(d, d[k].0) == Some(d[k].1)
    decreases k
  {
    if k > 0 {
      LookupAt(d[1..], k - 1);
    }
  }

  /** `d.get(key)`, which is None for a missing key. */
  function Field(d: Dict, key: string): Value {
    match Lookup(d, key)
    case Some(v) => v
    case None => NoneV
  }

  /** With distinct keys, `d.get` of the key at position `k` is the value there. */
  lemma FieldAt(d: Dict, k: nat)
    requires DistinctKeys(d) && k < |d|
    ensures Field(d, d[k].0) == d[k].1
  {
    LookupAt(d, k);
  }

  /** `serialize_date`: a datetime becomes its isoformat() text; anything else, None included, is returned as it is. */
  function SerializeDate(v: Value, iso: DateTime -> string): (r: Value)
    ensures v.Date? ==> r == Str(iso(v.d))
    ensures !v.Date? ==> r == v
  {
    if v.Date? then Str(iso(v.d)) else v
  }
}
