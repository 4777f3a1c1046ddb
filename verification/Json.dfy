/** JSON values as the Python side holds them after decoding, and the three Python
    conversions the realtime code applies to them. */
module Json {
  import opened Wrappers

  datatype Json =
    | Null
    | Bool(b: bool)
    | Int(n: int)
    | Float(x: real)
    | Str(s: string)
    | List(items: seq<Json>)
    | Object(fields: map<string, Json>)

  /** Python truthiness, as used by `x or default`. */
  predicate Truthy(j: Json) {
    match j
    case Null => false
    case Bool(b) => b
    case Int(n) => n != 0
    case Float(x) => x != 0.0
    case Str(s) => s != ""
    case List(items) => items != []
    case Object(fields) => fields != map[]
  }

  /** Python's `j == 1`: booleans are integers and 1.0 equals 1. */
  predicate EqualsOne(j: Json) {
    j == Int(1) || j == Float(1.0) || j == Bool(true)
  }

  predicate IsDigit(c: char) { '0' <= c <= '9' }

  /** The value of a string of decimal digits. */
  function Decimal(s: string): (r: Option<nat>) {
    if s == "" then None
    else
      var c := s[|s| - 1];
      if !IsDigit(c) then None
      else if |s| == 1 then Some((c as int - '0' as int) as nat)
      else match Decimal(s[..|s| - 1])
           case None => None
           case Some(n) => Some(10 * n + (c as int - '0' as int))
  }

  /** Python's `int(x)` for a float: truncation toward zero. */
  function Truncate(x: real): int {
    if x >= 0.0 then x.Floor else -((-x).Floor)
  }

  /** Python's `int(s)` for a string: an optional sign, then digits. */
  function IntOfString(s: string): Option<int> {
    var signed := s != "" && (s[0] == '-' || s[0] == '+');
    match Decimal(if signed then s[1..] else s)
    case None => None
    case Some(n) => Some(if signed && s[0] == '-' then -(n as int) else n)
  }

  /** Python's `int(j)`; None stands for the TypeError or ValueError it raises. */
  function ToInt(j: Json): Option<int> {
    match j
    case Bool(b) => Some(if b then 1 else 0)
    case Int(n) => Some(n)
    case Float(x) => Some(Truncate(x))
    case Str(s) => IntOfString(s)
    case _ => None
  }

  // ---- what the conversions mean ----

  function Digits(n: nat): string {
    var last := [('0' as int + n % 10) as char];
    if n < 10 then last else Digits(n / 10) + last
  }

  /** An integer as Python prints it. */
  function Decimals(n: int): string { if n >= 0 then Digits(n) else "-" + Digits(-n) }

  lemma {:induction false} DecimalOfDigits(n: nat)
    ensures Decimal(Digits(n)) == Some(n) && Digits(n) != "" && IsDigit(Digits(n)[0])
  {
    if n >= 10 {
      DecimalOfDigits(n / 10);
      var s := Digits(n);
      assert s[..|s| - 1] == Digits(n / 10);
    }
  }

  lemma IntOfSigned(body: string, n: nat)
    requires body != "" && IsDigit(body[0]) && Decimal(body) == Some(n)
    ensures IntOfString(body) == Some(n) && IntOfString("+" + body) == Some(n) && IntOfString("-" + body) == Some(-(n as int))
  {
    hide Decimal;
    assert ("-" + body)[1..] == body && ("+" + body)[1..] == body;
  }

  /** `int(str(n))` is `n`, and a plus sign changes nothing. */
  lemma IntOfDecimals(n: int)
    ensures ToInt(Str(Decimals(n))) == Some(n) && Truthy(Str(Decimals(n)))
    ensures n >= 0 ==> ToInt(Str("+" + Digits(n))) == Some(n)
  {
    hide Digits, Decimal, IntOfString;
    var m := if n >= 0 then n else -n;
    DecimalOfDigits(m);
    IntOfSigned(Digits(m), m);
  }

  lemma {:induction false} DecimalAccepts(s: string)
    ensures Decimal(s).Some? <==> s != "" && forall i | 0 <= i < |s| :: IsDigit(s[i])
  {
    if |s| > 1 {
      DecimalAccepts(s[..|s| - 1]);
    }
  }

  /** A string converts if and only if it is digits after at most one sign. */
  lemma IntAccepts(s: string)
    ensures var body := if s != "" && (s[0] == '-' || s[0] == '+') then s[1..] else s;
      ToInt(Str(s)).Some? <==> body != "" && forall i | 0 <= i < |body| :: IsDigit(body[i])
  {
    DecimalAccepts(if s != "" && (s[0] == '-' || s[0] == '+') then s[1..] else s);
  }

  /** `int(x)` drops the fraction: the magnitude goes down by less than one and the sign stays. */
  lemma TruncatesTowardZero(x: real)
    ensures x >= 0.0 ==> Truncate(x) as real <= x < (Truncate(x) + 1) as real
    ensures x <= 0.0 ==> (Truncate(x) - 1) as real < x <= Truncate(x) as real
  {
  }
}
