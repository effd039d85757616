/** JavaScript values as they reach and leave the RPC layer: what JSON.parse
    produces, plus `undefined`, together with the two pieces of JavaScript
    semantics the dispatcher depends on: truthiness, and the conversion of a
    value to a property key (the `in` operator and `obj[key]` both convert
    their key with String(key)). */
module Json {

  datatype Option<T> = None | Some(value: T)

  /** Numbers are modelled as integers; non-integral numbers, NaN and the
      loss of precision above 2^53 are not part of this model. */
  datatype Value =
    | Undefined
    | Null
    | Bool(b: bool)
    | Num(n: int)
    | Str(s: string)
    | Arr(items: seq<Value>)
    | Obj(fields: map<string, Value>)

  /** JavaScript truthiness: undefined, null, false, 0 and "" are falsy,
      every array and object is truthy. */
  predicate Truthy(v: Value) {
    match v
    case Undefined => false
    case Null => false
    case Bool(b) => b
    case Num(n) => n != 0
    case Str(s) => s != ""
    case Arr(_) => true
    case Obj(_) => true
  }

  predicate IsDigit(c: char) {
    '0' <= c <= '9'
  }

  predicate AllDigits(s: string) {
    forall i :: 0 <= i < |s| ==> IsDigit(s[i])
  }

  function Digit(d: nat): (c: char)
    requires d < 10
    ensures IsDigit(c)
  {
    ('0' as int + d) as char
  }

  function DigitValue(c: char): (d: nat)
    requires IsDigit(c)
    ensures d < 10 && Digit(d) == c
  {
    (c as int - '0' as int) as nat
  }

  /** Number.prototype.toString for a natural number: its decimal digits. */
  function Decimal(n: nat): (s: string)
    ensures |s| >= 1 && AllDigits(s)
    ensures |s| == 1 <==> n < 10
    decreases n
  {
    if n < 10 then [Digit(n)] else Decimal(n / 10) + [Digit(n % 10)]
  }

  /** The value of a string of decimal digits, most significant first. */
  function DigitsValue(s: string): nat
    requires AllDigits(s)
    decreases |s|
  {
    if s == [] then 0 else DigitsValue(s[..|s| - 1]) * 10 + DigitValue(s[|s| - 1])
  }

  /** A canonical decimal numeral: digits only, no leading zero except "0"
      itself. These are exactly the strings that Decimal produces. */
  predicate Canonical(s: string) {
    |s| >= 1 && AllDigits(s) && (s[0] == '0' ==> |s| == 1)
  }

  /** A value whose conversion to a string throws a TypeError: an object
      with an own `toString` key (JSON cannot make it callable, and the
      inherited valueOf returns the object itself, so no primitive is found),
      or an array holding such a value at any depth, since Array.prototype
      .toString converts every element. */
  predicate Unprintable(v: Value)
    decreases v
  {
    match v
    case Obj(fields) => "toString" in fields
    case Arr(items) => exists i :: 0 <= i < |items| && Unprintable(items[i])
    case _ => false
  }

  /** String(v), the conversion behind property keys (`in`, `obj[key]`) and
      the Error constructor; None when it throws. An array joins its elements
      with "," and renders null and undefined elements as "". */
  function ToStr(v: Value): (r: Option<string>)
    ensures r.None? <==> Unprintable(v)
    ensures v.Str? ==> r == Some(v.s)
    decreases v
  {
    match v
    case Undefined => Some("undefined")
    case Null => Some("null")
    case Bool(b) => Some(if b then "true" else "false")
    case Num(n) => Some(if n >= 0 then Decimal(n) else "-" + Decimal(-n))
    case Str(s) => Some(s)
    case Arr(items) =>
      var parts := seq(|items|, i requires 0 <= i < |items| =>
        if items[i].Undefined? || items[i].Null? then Some("") else ToStr(items[i]));
      assert forall i :: 0 <= i < |items| ==> (parts[i].None? <==> Unprintable(items[i]));
      if exists i :: 0 <= i < |parts| && parts[i].None? then None
      else Some(Join(seq(|parts|, i requires 0 <= i < |parts| => parts[i].value)))
    case Obj(fields) => if "toString" in fields then None else Some("[object Object]")
  }

  function Join(parts: seq<string>): string
    decreases |parts|
  {
    if parts == [] then ""
    else if |parts| == 1 then parts[0]
    else parts[0] + "," + Join(parts[1..])
  }

  /** The pending-call id a value designates when used as a key of an object
      whose own keys are the decimal forms of the issued ids; None when no id
      matches or when converting the value to a key throws. */
  function IdKey(id: Value): (k: Option<nat>)
    ensures k.Some? ==> ToStr(id) == Some(Decimal(k.value))
  {
    var s := ToStr(id);
    if s.Some? && Canonical(s.value) then
      CanonicalRoundTrip(s.value);
      Some(DigitsValue(s.value))
    else
      None
  }

  /** The falsy values of JavaScript, as far as JSON and undefined go:
      exactly undefined, null, false, 0 and the empty string. */
  lemma FalsyValues(v: Value)
    ensures !Truthy(v) <==> v in {Undefined, Null, Bool(false), Num(0), Str("")}
  {
  }

  lemma {:induction false} DecimalLeadingDigit(n: nat)
    ensures Decimal(n)[0] == '0' <==> n == 0
    decreases n
  {
    if n >= 10 {
      DecimalLeadingDigit(n / 10);
      assert Decimal(n)[0] == Decimal(n / 10)[0];
    }
  }

  /** Printing a number and reading it back gives the number, and the printed
      form is canonical. */
  lemma {:induction false} DecimalRoundTrip(n: nat)
    ensures Canonical(Decimal(n)) && DigitsValue(Decimal(n)) == n
    decreases n
  {
    DecimalLeadingDigit(n);
    var s := Decimal(n);
    if n >= 10 {
      DecimalRoundTrip(n / 10);
      assert s[..|s| - 1] == Decimal(n / 10);
      assert DigitValue(s[|s| - 1]) == n % 10;
    } else {
      assert s[..0] == [];
    }
  }

  lemma {:induction false} LeadingNonZeroPositive(s: string)
    requires |s| >= 1 && AllDigits(s) && s[0] != '0'
    ensures DigitsValue(s) >= 1
    decreases |s|
  {
    if |s| == 1 {
      assert s[..0] == [];
    } else {
      LeadingNonZeroPositive(s[..|s| - 1]);
    }
  }

  /** Reading a canonical numeral and printing the number gives the numeral. */
  lemma {:induction false} CanonicalRoundTrip(s: string)
    requires Canonical(s)
    ensures Decimal(DigitsValue(s)) == s
    decreases |s|
  {
    var p := s[..|s| - 1];
    var d := DigitValue(s[|s| - 1]);
    if |s| == 1 {
      assert p == [];
      assert [s[0]] == s;
    } else {
      assert p[0] == s[0];
      LeadingNonZeroPositive(p);
      CanonicalRoundTrip(p);
      var v := DigitsValue(s);
      assert v == DigitsValue(p) * 10 + d;
      assert v / 10 == DigitsValue(p) && v % 10 == d;
      assert s == p + [s[|s| - 1]];
    }
  }

  /** A value reaches the pending entry of id `n` exactly when its property
      key is the decimal form of `n`: the string "3", the number 3 and the
      array [3] all designate id 3, while "03", -3 and 3.5-like keys do not. */
  lemma IdKeyMatches(id: Value, n: nat)
    ensures IdKey(id) == Some(n) <==> ToStr(id) == Some(Decimal(n))
  {
    DecimalRoundTrip(n);
  }

  /** A non-negative number used as an id designates itself. */
  lemma IdKeyOfNum(n: nat)
    ensures IdKey(Num(n)) == Some(n)
  {
    IdKeyMatches(Num(n), n);
  }
}
