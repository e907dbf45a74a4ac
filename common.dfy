/** Values and helpers shared by every part of the model: optional values,
    JavaScript values and their truthiness, decimal formatting of numbers
    (JavaScript's toFixed, over exact reals) and the left-to-right sum that
    Array.prototype.reduce computes. */
module Common {

  /** A value that may be absent (`null` or `undefined` in the source). */
  datatype Option<T> = None | Some(value: T) {
    /** The nullish-coalescing operator `this ?? default`. */
    function GetOr(default: T): T {
      if Some? then value else default
    }
  }

  /** The outcome of an operation that may throw; `Err` carries the message. */
  datatype Result<T> = Ok(value: T) | Err(message: string)

  /** The nutrients the soil sensor reports. */
  datatype Nutrient = N | P | K

  /** A JavaScript number: a finite value or one of the three special values. */
  datatype JsNum = NaN | PosInfinity | NegInfinity | Finite(v: real)

  /** A value read from a parsed JSON request body. `Compound` stands for an
      object or an array and carries its `String(...)` rendering. */
  datatype JsValue =
    | Undefined
    | Null
    | Bool(b: bool)
    | Num(x: JsNum)
    | Str(s: string)
    | Compound(shown: string)

  /** JavaScript truthiness: `false`, `0`, `NaN`, `""`, `null` and `undefined` are falsy. */
  predicate Truthy(v: JsValue) {
    match v
    case Undefined => false
    case Null => false
    case Bool(b) => b
    case Num(x) => !x.NaN? && !(x.Finite? && x.v == 0.0)
    case Str(s) => s != ""
    case Compound(_) => true
  }

  /** A truthy environment variable (`Deno.env.get`): set and not empty. */
  predicate Configured(v: Option<string>) {
    v.Some? && v.value != ""
  }

  /** A property of an absent key of an object reads as `undefined`. */
  function Field(obj: map<string, JsValue>, key: string): (v: JsValue)
    ensures key !in obj ==> v == Undefined
    ensures key in obj ==> v == obj[key]
  {
    if key in obj then obj[key] else Undefined
  }

  // ---------------------------------------------------------------------------
  // Decimal rendering

  function DigitChar(d: nat): (c: char)
    requires d < 10
    ensures '0' <= c <= '9'
    ensures c as int - '0' as int == d
  {
    ('0' as int + d) as char
  }

  /** The decimal digits of `n`, most significant first, without leading zeros. */
  function NatToString(n: nat): (s: string)
    ensures 1 <= |s|
    ensures forall i :: 0 <= i < |s| ==> '0' <= s[i] <= '9'
    ensures n == 0 <==> s == "0"
    ensures |s| > 1 ==> s[0] != '0'
    decreases n
  {
    if n < 10 then [DigitChar(n)] else NatToString(n / 10) + [DigitChar(n % 10)]
  }

  /** The value of a string of decimal digits (the inverse of NatToString). */
  function DigitsValue(s: string): nat
    requires forall i :: 0 <= i < |s| ==> '0' <= s[i] <= '9'
  {
    if s == [] then 0
    else 10 * DigitsValue(s[..|s| - 1]) + (s[|s| - 1] as int - '0' as int)
  }

  lemma {:induction false} NatToStringRoundTrip(n: nat)
    ensures DigitsValue(NatToString(n)) == n
    decreases n
  {
    if n >= 10 {
      var s := NatToString(n);
      assert s[..|s| - 1] == NatToString(n / 10);
      NatToStringRoundTrip(n / 10);
    }
  }

  /** The integer nearest to `y`, ties going up: the rounding step of
      Number.prototype.toFixed on the magnitude of its argument. */
  function RoundHalfUp(y: real): (r: nat)
    requires 0.0 <= y
    ensures r as real - 0.5 <= y < r as real + 0.5
  {
    (y + 0.5).Floor
  }

  /** `x.toFixed(0)`: the sign, then the magnitude rounded to an integer.
      Like JavaScript, a negative value that rounds to zero prints as "-0". */
  function ToFixed0(x: real): (s: string)
    ensures 1 <= |s|
    ensures 2 <= |s| <==> x < 0.0 || 10 <= RoundHalfUp(x)
    ensures x < 0.0 <==> s[0] == '-'
    ensures forall i :: (if x < 0.0 then 1 else 0) <= i < |s| ==> '0' <= s[i] <= '9'
  {
    if x < 0.0 then "-" + NatToString(RoundHalfUp(-x)) else NatToString(RoundHalfUp(x))
  }

  /** Reading the digits of `x.toFixed(0)` back gives the rounded magnitude of `x`. */
  lemma ToFixed0Parses(x: real)
    ensures 0.0 <= x ==> DigitsValue(ToFixed0(x)) == RoundHalfUp(x)
    ensures x < 0.0 ==> DigitsValue(ToFixed0(x)[1..]) == RoundHalfUp(-x)
  {
    if x < 0.0 {
      assert ToFixed0(x)[1..] == NatToString(RoundHalfUp(-x));
      NatToStringRoundTrip(RoundHalfUp(-x));
    } else {
      NatToStringRoundTrip(RoundHalfUp(x));
    }
  }

  /** `Number(x.toFixed(3))`: `x` rounded to three decimals, ties away from zero. */
  function ToFixed3Value(x: real): (r: real)
    ensures -0.0005 <= r - x <= 0.0005
    ensures 0.0 <= x <= 1.0 ==> 0.0 <= r <= 1.0
    ensures -1.0 <= x <= 1.0 ==> -1.0 <= r <= 1.0
  {
    if x < 0.0 then
      -(RoundHalfUp(-x * 1000.0) as real / 1000.0)
    else
      RoundHalfUp(x * 1000.0) as real / 1000.0
  }

  // ---------------------------------------------------------------------------
  // Sums

  /** `s.reduce((sum, v) => sum + v, 0)`: the left-to-right sum. */
  function Sum(s: seq<real>): real {
    if s == [] then 0.0 else Sum(s[..|s| - 1]) + s[|s| - 1]
  }

  lemma SumAppend(s: seq<real>, x: real)
    ensures Sum(s + [x]) == Sum(s) + x
  {
    assert (s + [x])[..|s + [x]| - 1] == s;
  }

  // ---------------------------------------------------------------------------
  // Template literals

  /** The total length of some strings. */
  function TotalLength(ss: seq<string>): nat {
    if ss == [] then 0 else TotalLength(ss[..|ss| - 1]) + |ss[|ss| - 1]|
  }

  /** A template literal: its fixed segments with one interpolated value
      between each neighbouring pair. */
  function Fill(segments: seq<string>, values: seq<string>): (s: string)
    requires |segments| == |values| + 1
    ensures |s| == TotalLength(segments) + TotalLength(values)
    decreases |values|
  {
    if values == [] then segments[0]
    else Fill(segments[..|segments| - 1], values[..|values| - 1]) + values[|values| - 1] + segments[|segments| - 1]
  }

  /** Where the value of slot `i` starts in the filled text. */
  function SlotStart(segments: seq<string>, values: seq<string>, i: nat): nat
    requires |segments| == |values| + 1 && i < |values|
  {
    TotalLength(segments[..i + 1]) + TotalLength(values[..i])
  }

  /** `s` shows `value` at position `at`, right after `lead`. */
  predicate ShowsAt(s: string, lead: string, value: string, at: nat) {
    |lead| <= at && at + |value| <= |s| && s[at - |lead|..at + |value|] == lead + value
  }

  /** Every value of a template literal stands, verbatim, right after the
      segment that precedes it, at the offset fixed by what comes before. */
  lemma {:induction false} FillShowsValue(segments: seq<string>, values: seq<string>, i: nat)
    requires |segments| == |values| + 1 && i < |values|
    ensures ShowsAt(Fill(segments, values), segments[i], values[i], SlotStart(segments, values, i))
    decreases |values|
  {
    var n := |values|;
    var segs', vals' := segments[..n], values[..n - 1];
    var f' := Fill(segs', vals');
    assert Fill(segments, values) == f' + values[n - 1] + segments[n];
    if i == n - 1 {
      assert segments[..i + 1] == segs' && values[..i] == vals';
      assert |f'| == SlotStart(segments, values, i);
      assert segs'[..n - 1] + [segs'[n - 1]] == segs';
      assert TotalLength(segs') == TotalLength(segs'[..n - 1]) + |segments[i]|;
    } else {
      FillShowsValue(segs', vals', i);
      assert segs'[..i + 1] == segments[..i + 1] && vals'[..i] == values[..i];
      assert SlotStart(segs', vals', i) == SlotStart(segments, values, i);
    }
  }

  lemma FillShowsEvery(segments: seq<string>, values: seq<string>)
    requires |segments| == |values| + 1
    ensures forall i :: 0 <= i < |values| ==>
      ShowsAt(Fill(segments, values), segments[i], values[i], SlotStart(segments, values, i))
  {
    forall i | 0 <= i < |values|
      ensures ShowsAt(Fill(segments, values), segments[i], values[i], SlotStart(segments, values, i))
    {
      FillShowsValue(segments, values, i);
    }
  }
}
