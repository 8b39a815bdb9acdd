/** JSON values as the loader and the content-source-map code see them, with
    JavaScript truthiness and the decimal rendering of an integer. */
module Json {
  import opened Wrappers

  /** A JSON value. Objects are compared by content, as `toEqual` does, so
      their key order is not kept. Numbers are integers. */
  datatype Json =
    | Null
    | Bool(b: bool)
    | Num(n: int)
    | Str(s: string)
    | Arr(items: seq<Json>)
    | Obj(fields: map<string, Json>)

  /** Neither an array nor an object: what content-source-map code treats as a leaf. */
  predicate IsLeaf(j: Json) {
    !j.Arr? && !j.Obj?
  }

  /** JavaScript truthiness of a JSON value. */
  predicate Truthy(j: Json) {
    match j
    case Null => false
    case Bool(b) => b
    case Num(n) => n != 0
    case Str(s) => s != ""
    case _ => true
  }

  /** The field `key` of an object, `None` when it is absent or `j` is not an object. */
  function Field(j: Json, key: string): Option<Json> {
    if j.Obj? && key in j.fields then Some(j.fields[key]) else None
  }

  function DigitChar(d: nat): (c: char)
    requires d < 10
    ensures '0' <= c <= '9'
  {
    (('0' as int) + d) as char
  }

  predicate IsDigits(s: string) {
    forall i :: 0 <= i < |s| ==> '0' <= s[i] <= '9'
  }

  /** The decimal digits of `n`, without leading zeros. */
  function NatToString(n: nat): (s: string)
    ensures |s| >= 1 && IsDigits(s)
    ensures s[0] == '0' ==> n == 0 && |s| == 1
  {
    if n < 10 then [DigitChar(n)] else NatToString(n / 10) + [DigitChar(n % 10)]
  }

  /** The number a string of decimal digits denotes. */
  function DigitsValue(s: string): nat
    requires IsDigits(s)
  {
    if s == [] then 0
    else DigitsValue(s[..|s| - 1]) * 10 + ((s[|s| - 1] as int) - ('0' as int))
  }

  /** Reading back the digits of `n` gives `n`. */
  lemma {:induction false} NatToStringRoundTrip(n: nat)
    ensures DigitsValue(NatToString(n)) == n
  {
    if n >= 10 {
      NatToStringRoundTrip(n / 10);
      var s := NatToString(n);
      assert s[..|s| - 1] == NatToString(n / 10);
    }
  }

  /** A decimal integer written as JavaScript writes a safe integer: digits
      without leading zeros, and a minus sign only before a non-zero value. */
  predicate IsCanonicalInt(s: string) {
    if |s| >= 1 && s[0] == '-' then |s| >= 2 && IsDigits(s[1..]) && s[1] != '0'
    else |s| >= 1 && IsDigits(s) && (s[0] == '0' ==> |s| == 1)
  }

  /** JavaScript's `${n}` for an integer `n` in the range where it prints
      plain digits. */
  function IntToString(n: int): (s: string)
    ensures IsCanonicalInt(s)
  {
    if n < 0 then
      var digits := NatToString(-n);
      assert ("-" + digits)[1..] == digits;
      "-" + digits
    else NatToString(n)
  }

  /** The integer a decimal string denotes, if it is one (an optional minus sign, then digits). */
  function ParseInt(s: string): Option<int> {
    if |s| >= 2 && s[0] == '-' && IsDigits(s[1..]) then Some(-(DigitsValue(s[1..]) as int))
    else if |s| >= 1 && IsDigits(s) then Some(DigitsValue(s))
    else None
  }

  /** The string form of an integer denotes that integer again. */
  lemma IntToStringRoundTrip(n: int)
    ensures ParseInt(IntToString(n)) == Some(n)
  {
    if n < 0 {
      var digits := NatToString(-n);
      NatToStringRoundTrip(-n);
      assert ("-" + digits)[1..] == digits;
      assert ParseInt("-" + digits) == Some(-(DigitsValue(digits) as int));
    } else {
      NatToStringRoundTrip(n);
      assert NatToString(n)[0] != '-';
    }
  }

  /** Digits without a leading zero denote a positive number. */
  lemma {:induction false} DigitsValuePositive(s: string)
    requires |s| >= 1 && IsDigits(s) && s[0] != '0'
    ensures DigitsValue(s) >= 1
  {
    if |s| >= 2 {
      var init := s[..|s| - 1];
      assert init[0] == s[0];
      DigitsValuePositive(init);
    }
  }

  /** Digits without leading zeros are the digits of the number they denote. */
  lemma {:induction false} DigitsRoundTrip(s: string)
    requires |s| >= 1 && IsDigits(s) && (s[0] == '0' ==> |s| == 1)
    ensures NatToString(DigitsValue(s)) == s
  {
    if |s| >= 2 {
      var init := s[..|s| - 1];
      assert init[0] == s[0];
      DigitsRoundTrip(init);
      DigitsValuePositive(init);
      var v := DigitsValue(s);
      var d := (s[|s| - 1] as int) - ('0' as int);
      assert v / 10 == DigitsValue(init) && v % 10 == d;
      assert DigitChar(d) == s[|s| - 1];
      assert s == init + [s[|s| - 1]];
    } else {
      assert DigitsValue(s) == DigitsValue(s[..0]) * 10 + ((s[0] as int) - ('0' as int));
    }
  }

  /** Each integer has exactly one canonical string: any canonical string that
      denotes `n` is `IntToString(n)`. */
  lemma CanonicalIntUnique(s: string, n: int)
    requires IsCanonicalInt(s) && ParseInt(s) == Some(n)
    ensures s == IntToString(n)
  {
    if s[0] == '-' {
      DigitsRoundTrip(s[1..]);
      DigitsValuePositive(s[1..]);
      assert s == "-" + s[1..];
    } else {
      DigitsRoundTrip(s);
    }
  }
}
