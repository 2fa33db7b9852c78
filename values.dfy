/** The parsed JSON values the converter works on, and the few pieces of
    Python's runtime behaviour the converter relies on: truthiness,
    `dict.get`, `str()`/f-string rendering and `for x in v` iteration. */
module Values {

  datatype Option<T> = None | Some(value: T)

  /** Why a conversion stops. `MissingField` is Python's `KeyError` on a
      required key; `BadValue` is a present value the code cannot use (a
      `TypeError`, `ValueError`, `AttributeError` or `OverflowError` raised
      on it). */
  datatype Error = MissingField(key: string) | BadValue(key: string)

  /** The outcome of a step that may fail; usable with `:-`. */
  datatype Result<T> = Ok(value: T) | Err(error: Error) {
    predicate IsFailure() { Err? }

    function PropagateFailure<U>(): Result<U>
      requires Err?
    {
      Err(error)
    }

    function Extract(): T
      requires Ok?
    {
      value
    }
  }

  /** A value produced by `json.loads`. An object keeps its members in
      document order; `Num` is a JSON number with a fraction or exponent
      (a Python float), holding the value of the double the parser chose,
      and `Int` is one without (a Python int). */
  datatype Value =
    | Str(s: string)
    | Int(i: int)
    | Num(x: real)
    | Bool(b: bool)
    | Null
    | List(items: seq<Value>)
    | Obj(fields: seq<(string, Value)>)

  /** A transaction record: a Python dict from field names to values. */
  type Record = map<string, Value>

  /** What the converter takes from outside the modelled code. */
  datatype Env = Env(
    // data.MCC_EXPENSE_CATEGORIES
    categories: map<string, string>,
    // datetime.fromisoformat(s).strftime("%Y-%m-%d"); None when s does not parse
    parseDate: string -> Option<string>,
    // f"{x:.2f}" for a float x
    fixed2: real -> string,
    // str(v) for a float, a list or a dict
    repr: Value -> string
  )

  /** Python truthiness: empty strings, zeros, False, None and empty
      containers are false. */
  predicate Truthy(v: Value) {
    match v
    case Str(s) => s != []
    case Int(i) => i != 0
    case Num(x) => x != 0.0
    case Bool(b) => b
    case Null => false
    case List(items) => items != []
    case Obj(fields) => fields != []
  }

  /** `rec.get(key)`: the value, or None when the key is absent. */
  function Get(rec: Record, key: string): Value {
    if key in rec then rec[key] else Null
  }

  /** `rec[key]`: the value, or a KeyError when the key is absent. */
  function Require(rec: Record, key: string): (r: Result<Value>)
    ensures r.Ok? <==> key in rec
    ensures r.Ok? ==> r.value == rec[key]
    ensures r.Err? ==> r.error == MissingField(key)
  {
    if key in rec then Ok(rec[key]) else Err(MissingField(key))
  }

  function Digit(d: nat): char
    requires d < 10
  {
    "0123456789"[d]
  }

  /** The decimal digits of n, most significant first, without leading zeros. */
  function NatToDecimal(n: nat): (r: string)
    ensures |r| > 0
    ensures forall k :: 0 <= k < |r| ==> '0' <= r[k] <= '9'
    decreases n
  {
    if n < 10 then [Digit(n)] else NatToDecimal(n / 10) + [Digit(n % 10)]
  }

  /** The number a string of decimal digits denotes (Python's `int(s)`). */
  function DecimalValue(s: string): nat
    requires forall k :: 0 <= k < |s| ==> '0' <= s[k] <= '9'
  {
    if s == [] then 0
    else DecimalValue(s[..|s| - 1]) * 10 + ((s[|s| - 1] as int) - ('0' as int))
  }

  /** Reading back the digits `NatToDecimal` writes gives the number. */
  lemma {:induction false} DecimalRoundTrip(n: nat)
    ensures DecimalValue(NatToDecimal(n)) == n
  {
    if n >= 10 {
      var d := NatToDecimal(n / 10);
      assert NatToDecimal(n) == d + [Digit(n % 10)];
      assert (d + [Digit(n % 10)])[..|d|] == d;
      DecimalRoundTrip(n / 10);
    }
  }

  /** 2 to the power k. */
  function Pow2(k: nat): (r: nat)
    ensures r >= 1
  {
    if k == 0 then 1 else 2 * Pow2(k - 1)
  }

  lemma {:induction false} Pow2Strict(a: nat, b: nat)
    requires a < b
    ensures Pow2(a) < Pow2(b)
    decreases b
  {
    if a < b - 1 {
      Pow2Strict(a, b - 1);
    }
  }

  lemma {:induction false} Pow2Add(a: nat, b: nat)
    ensures Pow2(a + b) == Pow2(a) * Pow2(b)
    decreases b
  {
    if b > 0 {
      Pow2Add(a, b - 1);
      assert Pow2(a + b) == 2 * Pow2(a + (b - 1));
    }
  }

  /** The number of binary digits of n (0 for 0). */
  function BitLength(n: nat): (b: nat)
    ensures (n == 0) <==> (b == 0)
    ensures n > 0 ==> Pow2(b - 1) <= n < Pow2(b)
  {
    if n == 0 then 0 else 1 + BitLength(n / 2)
  }

  /** The binary digits of a float's significand. */
  const Precision: nat := 53

  /** The spacing of the floats near n: 1 below 2^53, else the weight of
      the last of 53 significant binary digits. */
  function FloatUnit(n: nat): nat {
    if BitLength(n) <= Precision then 1 else Pow2(BitLength(n) - Precision)
  }

  /** n rounded to 53 significant binary digits, a halfway case to the
      neighbour whose last digit is even: the value `float(n)` holds
      before the range check. */
  function RoundToFloat(n: nat): (r: nat)
    ensures BitLength(n) <= Precision ==> r == n
    ensures r % FloatUnit(n) == 0
    ensures n - FloatUnit(n) / 2 <= r <= n + FloatUnit(n) / 2
  {
    var b := BitLength(n);
    if b <= Precision then n
    else
      assert Pow2(b - Precision) == 2 * Pow2(b - Precision - 1);
      RoundAt(n, Pow2(b - Precision))
  }

  /** n rounded to a multiple of the even unit, halfway cases to an even
      multiple. */
  function RoundAt(n: nat, unit: nat): (r: nat)
    requires unit >= 2 && unit % 2 == 0
    ensures r % unit == 0
    ensures n - unit / 2 <= r <= n + unit / 2
  {
    var rem := n % unit;
    RemainderFacts(n, unit);
    if rem > unit / 2 || (rem == unit / 2 && (n / unit) % 2 == 1) then n - rem + unit else n - rem
  }

  /** Taking the remainder off leaves a multiple of the unit, and so does
      adding one more unit. */
  lemma RemainderFacts(n: nat, u: nat)
    requires u > 0
    ensures 0 <= n % u < u
    ensures (n - n % u) % u == 0 && (n - n % u + u) % u == 0
  {
    var q := n / u;
    assert n - n % u == q * u;
    MultipleMod(q, u);
    assert n - n % u + u == (q + 1) * u;
    MultipleMod(q + 1, u);
  }

  lemma MultipleMod(k: nat, u: nat)
    requires u > 0
    ensures (k * u) % u == 0
  {
    var x := k * u;
    var d := x / u;
    var m := x % u;
    assert x == d * u + m;
    assert (k - d) * u == m;
    ZeroFactor(k - d, u);
  }

  lemma ZeroFactor(c: int, u: int)
    requires u > 0 && 0 <= c * u < u
    ensures c == 0
  {
  }

  /** `float(i)` for a Python int, as the integer the float holds; None
      when the rounded magnitude needs more than 1024 binary digits, that
      is reaches 2^1024 (an OverflowError). */
  function IntToFloat(i: int): Option<int> {
    var m := RoundToFloat(if i < 0 then -i else i);
    if BitLength(m) > 1024 then None else Some(if i < 0 then -(m as int) else m)
  }

  /** Every int of at most 53 binary digits (magnitude below 2^53) is a
      float exactly. */
  lemma IntToFloatExact(i: int)
    requires BitLength(if i < 0 then -i else i) <= Precision
    ensures IntToFloat(i) == Some(i)
  {
  }

  /** 2^53 + 1 lies halfway between the floats 2^53 and 2^53 + 2, and
      rounds to the one whose last significant digit is even: `float`
      turns it into 2^53. */
  lemma RoundsHalfToEven()
    ensures IntToFloat(Pow2(Precision) + 1) == Some(Pow2(Precision) as int)
  {
    HalfwayAbovePower(Precision);
  }

  lemma HalfwayAbovePower(k: nat)
    requires k == Precision
    ensures IntToFloat(Pow2(k) + 1) == Some(Pow2(k) as int)
  {
    var p := Pow2(k);
    var n := p + 1;
    assert Pow2(k + 1) == 2 * p;
    BitLengthBetween(n, k);
    BitLengthBetween(p, k);
    var q := Pow2(k - 1);
    assert p == 2 * q && q == 2 * Pow2(k - 2);
    assert Pow2(BitLength(n) - Precision) == 2 * Pow2(0);
    RoundAtOdd(n, q);
    assert RoundToFloat(n) == p;
  }

  /** A number from 2^k up to 2^(k+1) has k + 1 binary digits. */
  lemma BitLengthBetween(n: nat, k: nat)
    requires Pow2(k) <= n < Pow2(k + 1)
    ensures BitLength(n) == k + 1
  {
    var b := BitLength(n);
    if b > k + 1 {
      Pow2Strict(k + 1, b - 1);
    }
    if b < k + 1 {
      Pow2Strict(b, k);
    }
  }

  /** An odd number 2q + 1 with q even rounds down to 2q at unit 2. */
  lemma RoundAtOdd(n: nat, q: nat)
    requires n == 2 * q + 1 && q % 2 == 0
    ensures RoundAt(n, 2) == n - 1
  {
    assert n % 2 == 1 && n / 2 == q;
  }

  /** An int of more than 1024 binary digits (magnitude 2^1024 or more)
      cannot be converted to a float. */
  lemma LargeIntOverflows(i: int)
    requires BitLength(if i < 0 then -i else i) > 1024
    ensures IntToFloat(i) == None
  {
    var n := if i < 0 then -i else i;
    RoundKeepsLength(n);
  }

  /** Rounding a number of b > 53 binary digits gives at least 2^(b-1),
      so again a number of at least b digits. */
  lemma RoundKeepsLength(n: nat)
    requires BitLength(n) > Precision
    ensures BitLength(RoundToFloat(n)) >= BitLength(n)
  {
    var b := BitLength(n);
    var unit := Pow2(b - Precision);
    var low := Pow2(b - 1);
    Pow2Add(Precision - 1, b - Precision);
    assert low == Pow2(Precision - 1) * unit;
    var r := RoundToFloat(n);
    assert r % unit == 0 && n - unit / 2 <= r;
    MultipleNotBelow(r, low, unit, Pow2(Precision - 1));
    var c := BitLength(r);
    if c < b {
      if c < b - 1 {
        Pow2Strict(c, b - 1);
      }
      assert false;
    }
  }

  /** A multiple of u more than u below the multiple j * u is not below it. */
  lemma MultipleNotBelow(r: nat, p: nat, u: nat, j: nat)
    requires u > 0 && r % u == 0 && p == j * u && r > p - u
    ensures r >= p
  {
    var k := r / u;
    assert r == k * u;
    assert (k - j + 1) * u == r - p + u;
    PositiveFactor(k - j + 1, u);
  }

  lemma PositiveFactor(c: int, u: int)
    requires u > 0 && c * u > 0
    ensures c > 0
  {
  }

  /** `str(i)` for a Python int. */
  function IntToDecimal(i: int): string {
    if i < 0 then "-" + NatToDecimal(-i) else NatToDecimal(i)
  }

  /** Every character of s is a decimal digit. */
  predicate AllDigits(s: string) {
    forall k :: 0 <= k < |s| ==> '0' <= s[k] <= '9'
  }

  /** Python's `int(s)` on an optional minus sign followed by digits;
      `None` for any other text. */
  function ReadInt(s: string): Option<int> {
    if s != [] && s[0] == '-' && |s| > 1 && AllDigits(s[1..]) then Some(-(DecimalValue(s[1..]) as int))
    else if s != [] && AllDigits(s) then Some(DecimalValue(s))
    else None
  }

  /** Reading back the text `str(i)` writes gives i, negative or not. */
  lemma IntDecimalRoundTrip(i: int)
    ensures ReadInt(IntToDecimal(i)) == Some(i)
  {
    var n := if i < 0 then -i else i;
    var d := NatToDecimal(n);
    DecimalRoundTrip(n);
    assert '0' <= d[0] <= '9';
    if i < 0 {
      var t := "-" + d;
      assert t[0] == '-' && t[1..] == d;
    }
  }

  /** `str(v)`, which is also what an f-string interpolates. Strings, ints,
      booleans and None are rendered exactly; floats, lists and dicts are
      left to `env.repr`. */
  function PyStr(v: Value, env: Env): string {
    match v
    case Str(s) => s
    case Int(i) => IntToDecimal(i)
    case Bool(b) => if b then "True" else "False"
    case Null => "None"
    case _ => env.repr(v)
  }

  /** The keys of a JSON object in the order a dict built from it iterates
      them: each key once, at its first occurrence. */
  function Keys(fields: seq<(string, Value)>): (r: seq<string>)
    ensures forall k :: k in r <==> exists j :: 0 <= j < |fields| && fields[j].0 == k
    ensures forall a, b :: 0 <= a < b < |r| ==> r[a] != r[b]
  {
    if fields == [] then []
    else
      var ks := Keys(fields[..|fields| - 1]);
      var k := fields[|fields| - 1].0;
      assert forall j :: 0 <= j < |fields| - 1 ==> fields[..|fields| - 1][j] == fields[j];
      if k in ks then ks else ks + [k]
  }

  /** No member after position j has the same key as member j. */
  predicate LastOccurrence(fields: seq<(string, Value)>, j: nat)
    requires j < |fields|
  {
    forall j2 :: j < j2 < |fields| ==> fields[j2].0 != fields[j].0
  }

  /** The dict `json.loads` builds from an object: a later duplicate key
      overrides an earlier one. */
  function ToRecord(fields: seq<(string, Value)>): (r: Record)
    ensures forall k :: k in r <==> exists j :: 0 <= j < |fields| && fields[j].0 == k
    ensures forall j :: 0 <= j < |fields| && LastOccurrence(fields, j) ==> r[fields[j].0] == fields[j].1
  {
    if fields == [] then map[]
    else
      var last := fields[|fields| - 1];
      assert forall j :: 0 <= j < |fields| - 1 ==> fields[..|fields| - 1][j] == fields[j];
      ToRecord(fields[..|fields| - 1])[last.0 := last.1]
  }

  /** A for loop over a dict built from an object visits each of the
      dict's keys, and each only once. */
  lemma IterateDict(fields: seq<(string, Value)>)
    ensures var r := Iterate(Obj(fields));
      && r.Some?
      && (forall k :: 0 <= k < |r.value| ==> r.value[k].Str? && r.value[k].s in ToRecord(fields))
      && (forall key :: key in ToRecord(fields) ==> Str(key) in r.value)
      && (forall a, b :: 0 <= a < b < |r.value| ==> r.value[a] != r.value[b])
  {
    var ks := Keys(fields);
    var r := Iterate(Obj(fields)).value;
    assert |r| == |ks| && forall k :: 0 <= k < |r| ==> r[k] == Str(ks[k]);
    forall k | 0 <= k < |r|
      ensures r[k].Str? && r[k].s in ToRecord(fields)
    {
      assert ks[k] in ks;
    }
    forall key | key in ToRecord(fields)
      ensures Str(key) in r
    {
      assert key in ks;
      var j :| 0 <= j < |ks| && ks[j] == key;
      assert r[j] == Str(key);
    }
  }

  /** The elements `for x in v` visits: a list's items, a string's
      characters (each a one-character string), a dict's keys. Numbers,
      booleans and None are not iterable (a TypeError). */
  function Iterate(v: Value): (r: Option<seq<Value>>)
    ensures r.Some? <==> (v.List? || v.Str? || v.Obj?)
    ensures v.List? ==> r == Some(v.items)
    ensures v.Str? ==>
              && r.Some? && |r.value| == |v.s|
              && forall k :: 0 <= k < |v.s| ==> r.value[k] == Str([v.s[k]])
  {
    match v
    case List(items) => Some(items)
    case Str(s) => Some(seq(|s|, k requires 0 <= k < |s| => Str([s[k]])))
    case Obj(fields) =>
      var ks := Keys(fields);
      Some(seq(|ks|, k requires 0 <= k < |ks| => Str(ks[k])))
    case _ => None
  }

  /** `v[key]` on a parsed JSON value: a dict lookup, a KeyError when the
      key is absent, a TypeError when v is not a dict. */
  function Lookup(v: Value, key: string): (r: Result<Value>)
    ensures r.Ok? <==> v.Obj? && key in ToRecord(v.fields)
    ensures r.Ok? ==> r.value == ToRecord(v.fields)[key]
    ensures r.Err? ==> r.error == if v.Obj? then MissingField(key) else BadValue(key)
  {
    if !v.Obj? then Err(BadValue(key))
    else
      var m := ToRecord(v.fields);
      if key in m then Ok(m[key]) else Err(MissingField(key))
  }
}
