/// Submitted form data as the views receive it: a JSON document decoded into
/// Python values. This module gives those values, Python's truthiness and
/// `dict.get`, and the integer coercion that a Django integer key applies to a
/// looked-up identifier.
module Values {

  datatype Option<+T> = None | Some(value: T)

  /// A decoded JSON value. `Null` is Python's `None`.
  datatype Value =
    | Null
    | Bool(b: bool)
    | Int(i: int)
    | Str(s: string)
    | Dict(entries: map<string, Value>)
    | List(items: seq<Value>)

  /// Python truthiness: `None`, `False`, `0`, `''`, `{}` and `[]` are falsy.
  predicate Truthy(v: Value) {
    match v
    case Null => false
    case Bool(b) => b
    case Int(i) => i != 0
    case Str(s) => s != ""
    case Dict(m) => m != map[]
    case List(xs) => xs != []
  }

  /// `d.get(k)`: the entry, or `None` when the key is absent.
  function Get(d: map<string, Value>, k: string): (v: Value)
    ensures k !in d ==> v == Null
    ensures k in d ==> v == d[k]
  {
    if k in d then d[k] else Null
  }

  /// Python exception classes that the modelled code raises or catches.
  datatype Exc = AttributeError | DoesNotExist | ValueError | TypeError | KeyError

  /// The characters for which Python's `str.isspace` holds; `str.strip`,
  /// `str.lstrip` and `int()` strip exactly these.
  predicate IsSpace(c: char) {
    || c == '\t' || c == '\n' || c == '\U{000B}' || c == '\U{000C}' || c == '\r'
    || ('\U{001C}' <= c <= '\U{001F}') || c == ' ' || c == '\U{0085}' || c == '\U{00A0}'
    || c == '\U{1680}' || ('\U{2000}' <= c <= '\U{200A}') || c == '\U{2028}' || c == '\U{2029}'
    || c == '\U{202F}' || c == '\U{205F}' || c == '\U{3000}'
  }

  /// The number of leading whitespace characters: `len(l) - len(l.lstrip())`.
  function LeadingSpace(s: string): (n: nat)
    ensures n <= |s|
    ensures forall i :: 0 <= i < n ==> IsSpace(s[i])
    ensures n < |s| ==> !IsSpace(s[n])
  {
    if s == [] || !IsSpace(s[0]) then 0 else 1 + LeadingSpace(s[1..])
  }

  /// The number of trailing whitespace characters.
  function TrailingSpace(s: string): (n: nat)
    ensures n <= |s|
    ensures forall i :: |s| - n <= i < |s| ==> IsSpace(s[i])
    ensures n < |s| ==> !IsSpace(s[|s| - n - 1])
  {
    if s == [] || !IsSpace(s[|s| - 1]) then 0 else 1 + TrailingSpace(s[..|s| - 1])
  }

  /// `s.strip()`
  function Strip(s: string): string {
    var t := s[LeadingSpace(s)..];
    t[..|t| - TrailingSpace(t)]
  }

  predicate IsDigit(c: char) { '0' <= c <= '9' }

  predicate AllDigits(s: string) { forall i :: 0 <= i < |s| ==> IsDigit(s[i]) }

  /// The value of a string of decimal digits, most significant first.
  function DigitsValue(s: string): (n: nat)
    requires AllDigits(s)
  {
    if s == [] then 0 else 10 * DigitsValue(s[..|s| - 1]) + (s[|s| - 1] - '0') as int
  }

  /// `int(s)` for a string: optional surrounding whitespace, an optional sign,
  /// then one or more ASCII decimal digits; anything else is a `ValueError`,
  /// here `None`.
  function ParseInt(s: string): Option<int> {
    var t := Strip(s);
    if |t| >= 2 && (t[0] == '+' || t[0] == '-') && AllDigits(t[1..]) then
      var m: int := DigitsValue(t[1..]);
      Some(if t[0] == '-' then -m else m)
    else if |t| >= 1 && AllDigits(t) then
      Some(DigitsValue(t))
    else
      None
  }

  /// The decimal digits of a natural number, as `str(n)` writes them.
  function ShowNat(n: nat): (s: string)
    ensures |s| >= 1 && AllDigits(s)
  {
    if n < 10 then [('0' as int + n) as char] else ShowNat(n / 10) + [('0' as int + n % 10) as char]
  }

  /// `str(n)` for an integer.
  function ShowInt(n: int): string {
    if n < 0 then "-" + ShowNat(-n) else ShowNat(n)
  }

  lemma {:induction false} DigitsOfShowNat(n: nat)
    ensures DigitsValue(ShowNat(n)) == n
  {
    if n >= 10 {
      var s := ShowNat(n);
      assert s[..|s| - 1] == ShowNat(n / 10);
      DigitsOfShowNat(n / 10);
    }
  }

  /// Text that neither starts nor ends with whitespace is its own strip.
  lemma StripTrimmed(s: string)
    requires |s| > 0 && !IsSpace(s[0]) && !IsSpace(s[|s| - 1])
    ensures Strip(s) == s
  {
    assert LeadingSpace(s) == 0;
    assert TrailingSpace(s) == 0;
  }

  /// A string of digits parses to its value.
  lemma ParseDigits(t: string)
    requires |t| >= 1 && AllDigits(t)
    ensures ParseInt(t) == Some(DigitsValue(t))
  {
    StripTrimmed(t);
  }

  /// A minus sign followed by digits parses to the negated value.
  lemma ParseNegativeDigits(t: string)
    requires |t| >= 2 && t[0] == '-' && AllDigits(t[1..])
    ensures ParseInt(t) == Some(-(DigitsValue(t[1..]) as int))
  {
    assert t[|t| - 1] == t[1..][|t| - 2];
    StripTrimmed(t);
  }

  /// A minus sign followed by the digits of `m` parses to `-m`.
  lemma ParseShowNegative(m: nat)
    ensures ParseInt("-" + ShowNat(m)) == Some(-(m as int))
  {
    var digits := ShowNat(m);
    assert ("-" + digits)[1..] == digits;
    ParseNegativeDigits("-" + digits);
    DigitsOfShowNat(m);
  }

  /// `int(str(n)) == n`: the decimal text of any integer parses back to it.
  lemma ParseShowInt(n: int)
    ensures ParseInt(ShowInt(n)) == Some(n)
  {
    if n < 0 {
      ParseShowNegative(-n);
    } else {
      ParseDigits(ShowNat(n));
      DigitsOfShowNat(n);
    }
  }

  /// Text that starts with neither whitespace, a sign nor a digit is not an
  /// integer.
  lemma ParseIntRejectsNonNumericStart(s: string)
    requires |s| > 0 && !IsSpace(s[0]) && !IsDigit(s[0]) && s[0] != '+' && s[0] != '-'
    ensures ParseInt(s) == None
  {
    var t := Strip(s);
    assert LeadingSpace(s) == 0;
    assert TrailingSpace(s) < |s|;
    assert |t| > 0 && t[0] == s[0];
  }

  /// The outcome of coercing a looked-up identifier to the integer primary key.
  datatype Coerced = IdOk(n: int) | IdError(exc: Exc)

  /// Django's integer key preparation: `int(value)`, re-raising the class of
  /// the failure. `int(True) == 1`; a string goes through `ParseInt`; `None`, a
  /// dict or a list is a `TypeError`.
  function CoerceId(v: Value): (c: Coerced)
    ensures c.IdError? ==> c.exc == ValueError || c.exc == TypeError
    ensures c.IdError? && c.exc == ValueError <==> v.Str? && ParseInt(v.s).None?
    ensures v.Int? ==> c == IdOk(v.i)
    ensures v.Bool? ==> c == IdOk(if v.b then 1 else 0)
    ensures v.Str? && ParseInt(v.s).Some? ==> c == IdOk(ParseInt(v.s).value)
    ensures v.Null? || v.Dict? || v.List? ==> c == IdError(TypeError)
  {
    match v
    case Int(i) => IdOk(i)
    case Bool(b) => IdOk(if b then 1 else 0)
    case Str(s) => if ParseInt(s).Some? then IdOk(ParseInt(s).value) else IdError(ValueError)
    case _ => IdError(TypeError)
  }

  /// `data.get('id') or 0`: a missing or falsy identifier becomes `0`.
  function IdArg(data: map<string, Value>): (v: Value)
    ensures Truthy(v) || v == Int(0)
    ensures Truthy(Get(data, "id")) ==> v == data["id"]
    ensures !Truthy(Get(data, "id")) ==> v == Int(0)
  {
    var id := Get(data, "id");
    if Truthy(id) then id else Int(0)
  }

  /// A missing, `None`, empty or zero identifier is looked up as the key `0`.
  lemma FalsyIdCoercesToZero(data: map<string, Value>)
    requires !Truthy(Get(data, "id"))
    ensures CoerceId(IdArg(data)) == IdOk(0)
  {
  }
}
