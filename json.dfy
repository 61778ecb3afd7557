/** A parsed JSON document as `json.loads` returns it, and the Python operations the
    resolver applies to it: truthiness, `key in v`, `v[key]` and `str(v)`. */
module Json {
  import opened Python
  import opened Text

  /** `None`, a bool, an integer, a string, a list or a dict. */
  datatype Value =
    | JNull
    | JBool(b: bool)
    | JInt(n: int)
    | JStr(s: string)
    | JArr(items: seq<Value>)
    | JObj(fields: map<string, Value>)

  /** Python's `bool(v)`: empty containers, `""`, `0`, `False` and `None` are false. */
  predicate Truthy(v: Value) {
    match v
    case JNull => false
    case JBool(b) => b
    case JInt(n) => n != 0
    case JStr(s) => s != ""
    case JArr(xs) => xs != []
    case JObj(m) => m != map[]
  }

  /** Python's `key in v` for a string key: a dict tests its keys, a list its elements,
      a string its substrings; on a number, a bool or `None` it raises TypeError. */
  function Contains(v: Value, key: string): (r: Result<bool>)
    ensures r.Raised? <==> v.JNull? || v.JBool? || v.JInt?
    ensures v.JObj? ==> r == Ok(key in v.fields)
  {
    match v
    case JObj(m) => Ok(key in m)
    case JArr(xs) => Ok(JStr(key) in xs)
    case JStr(s) => Ok(IsSubstring(key, s))
    case _ => Raised(TypeError)
  }

  /** Python's `v[key]` for a string key: only a dict holding the key yields a value. */
  function Subscript(v: Value, key: string): (r: Result<Value>)
    ensures r.Ok? <==> v.JObj? && key in v.fields
    ensures r.Ok? ==> r.value == v.fields[key]
    ensures r.Raised? ==> r.exc == (if v.JObj? then KeyError else TypeError)
  {
    match v
    case JObj(m) => if key in m then Ok(m[key]) else Raised(KeyError)
    case _ => Raised(TypeError)
  }

  /** The decimal digits of a natural number. */
  function NatText(n: nat): (r: string)
    ensures |r| >= 1
  {
    var d := ('0' as int + n % 10) as char;
    if n < 10 then [d] else NatText(n / 10) + [d]
  }

  /** The value of a decimal digit. */
  function DigitValue(c: char): nat {
    if '0' <= c <= '9' then (c as int - '0' as int) as nat else 0
  }

  /** Reading a string of decimal digits as a number. */
  function ReadNat(s: string): nat {
    if s == [] then 0 else ReadNat(s[..|s| - 1]) * 10 + DigitValue(s[|s| - 1])
  }

  /** Reading an optionally signed decimal numeral. */
  function ReadInt(s: string): int {
    if |s| > 0 && s[0] == '-' then -(ReadNat(s[1..]) as int) else ReadNat(s)
  }

  /** `NatText` writes only digits, with no leading zero unless the number is zero. */
  lemma {:induction false} NatTextDigits(n: nat)
    ensures forall i | 0 <= i < |NatText(n)| :: '0' <= NatText(n)[i] <= '9'
    ensures NatText(n)[0] == '0' ==> n == 0
  {
    if n >= 10 {
      NatTextDigits(n / 10);
    }
  }

  /** Reading one more digit shifts the number read so far. */
  lemma ReadNatSnoc(t: string, c: char)
    ensures ReadNat(t + [c]) == ReadNat(t) * 10 + DigitValue(c)
  {
    assert (t + [c])[..|t|] == t;
  }

  /** Reading the digits `NatText` writes gives the number back. */
  lemma {:induction false} NatTextReadsBack(n: nat)
    ensures ReadNat(NatText(n)) == n
  {
    var q, r := n / 10, n % 10;
    var d := ('0' as int + r) as char;
    var t := if n < 10 then [] else NatText(q);
    assert NatText(n) == t + [d];
    ReadNatSnoc(t, d);
    if n >= 10 {
      NatTextReadsBack(q);
    }
  }

  /** The f-string puts a string url in as it is, and an integer url as its canonical
      decimal numeral: a minus sign exactly when negative, then digits without a leading
      zero (unless the number is zero), reading back as the same integer. */
  lemma StrReadsBack(v: Value)
    ensures v.JStr? ==> Str(v) == v.s
    ensures v.JInt? ==> ReadInt(Str(v)) == v.n
    ensures v.JInt? ==>
      var digits := if v.n < 0 then Str(v)[1..] else Str(v);
      && (|Str(v)| > 0 && Str(v)[0] == '-' <==> v.n < 0)
      && |digits| >= 1
      && (forall i | 0 <= i < |digits| :: '0' <= digits[i] <= '9')
      && (digits[0] == '0' ==> v.n == 0)
  {
    if v.JInt? {
      var m := if v.n < 0 then -v.n else v.n;
      NatTextReadsBack(m);
      NatTextDigits(m);
      if v.n < 0 {
        assert Str(v) == "-" + NatText(m);
        assert Str(v)[1..] == NatText(m);
      }
    }
  }

  /** Python's `str(v)` as an f-string renders it, for scalar values (see README for lists and dicts). */
  function Str(v: Value): string {
    match v
    case JStr(s) => s
    case JNull => "None"
    case JBool(b) => if b then "True" else "False"
    case JInt(n) => if n < 0 then "-" + NatText(-n) else NatText(n)
    case _ => ""
  }
}
