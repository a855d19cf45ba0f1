// Decoded JSON values and the few Python operations the scraper applies to
// them: dict lookups with defaults, subscripting, membership, truthiness,
// int() and str().  Exceptions are values of an outcome datatype.

module Json {

  datatype Option<T> = None | Some(value: T)

  /** The Python exceptions (builtin and the scraper's own) that the model raises. */
  datatype Exc =
    | TypeError
    | AttributeError
    | KeyError
    | ValueError
    | IndexError
    | ZeroDivisionError
    | JSONDecodeError
    | InvalidResponse
    | NetworkError
    | RateLimitError
    | AuthenticationError
    | OtherError(name: string)

  /** The result of running Python code: a value or a raised exception. */
  datatype Outcome<T> = Ok(value: T) | Raise(exc: Exc)
  {
    predicate IsFailure() { Raise? }
    function PropagateFailure<U>(): Outcome<U> requires Raise? { Raise(exc) }
    function Extract(): T requires Ok? { value }
  }

  /**
   * A decoded JSON value.  An object keeps its members in insertion order,
   * as a Python dict does; keys are distinct in every object the model builds.
   */
  datatype JSON =
    | JNull
    | JBool(b: bool)
    | JInt(i: int)
    | JStr(s: string)
    | JArr(items: seq<JSON>)
    | JObj(members: seq<(string, JSON)>)

  const EmptyObj: JSON := JObj([])

  /** Python truthiness. */
  predicate Truthy(v: JSON)
  {
    match v
    case JNull => false
    case JBool(b) => b
    case JInt(i) => i != 0
    case JStr(s) => |s| > 0
    case JArr(items) => |items| > 0
    case JObj(m) => |m| > 0
  }

  /** `a or b` */
  function Or(a: JSON, b: JSON): (r: JSON)
    ensures Truthy(a) ==> r == a
    ensures !Truthy(a) ==> r == b
  {
    if Truthy(a) then a else b
  }

  function OptStr(s: Option<string>): JSON
  {
    match s
    case None => JNull
    case Some(x) => JStr(x)
  }

  // ---------------------------------------------------------------------
  // Dict members

  function Keys(m: seq<(string, JSON)>): (ks: seq<string>)
    ensures |ks| == |m|
    ensures forall i :: 0 <= i < |m| ==> ks[i] == m[i].0
  {
    if m == [] then [] else [m[0].0] + Keys(m[1..])
  }

  predicate DistinctKeys(m: seq<(string, JSON)>)
  {
    forall i, j :: 0 <= i < j < |m| ==> m[i].0 != m[j].0
  }

  /** The value stored under `k` (the first member with that key). */
  function Lookup(m: seq<(string, JSON)>, k: string): (r: Option<JSON>)
    ensures r.None? <==> k !in Keys(m)
  {
    if m == [] then None
    else if m[0].0 == k then Some(m[0].1)
    else
      assert Keys(m) == [m[0].0] + Keys(m[1..]);
      Lookup(m[1..], k)
  }

  function LookupOr(m: seq<(string, JSON)>, k: string, default: JSON): (r: JSON)
    ensures k !in Keys(m) ==> r == default
    ensures k in Keys(m) ==> Lookup(m, k) == Some(r)
  {
    match Lookup(m, k)
    case Some(v) => v
    case None => default
  }

  /** `d[k] = v`: replace the value in place, or append a new member. */
  function Set(m: seq<(string, JSON)>, k: string, v: JSON): (r: seq<(string, JSON)>)
    ensures |r| == if k in Keys(m) then |m| else |m| + 1
  {
    if m == [] then [(k, v)]
    else if m[0].0 == k then [(k, v)] + m[1..]
    else
      assert Keys(m) == [m[0].0] + Keys(m[1..]);
      [m[0]] + Set(m[1..], k, v)
  }

  lemma {:induction false} SetLookup(m: seq<(string, JSON)>, k: string, v: JSON, k': string)
    ensures Lookup(Set(m, k, v), k') == if k' == k then Some(v) else Lookup(m, k')
    decreases |m|
  {
    if m != [] && m[0].0 != k {
      SetLookup(m[1..], k, v, k');
    }
  }

  lemma {:induction false} SetKeys(m: seq<(string, JSON)>, k: string, v: JSON)
    ensures Keys(Set(m, k, v)) == if k in Keys(m) then Keys(m) else Keys(m) + [k]
    decreases |m|
  {
    if m == [] {
    } else if m[0].0 == k {
      assert Keys(m) == [k] + Keys(m[1..]);
      assert Keys([(k, v)] + m[1..]) == [k] + Keys(m[1..]);
    } else {
      SetKeys(m[1..], k, v);
      assert Keys(m) == [m[0].0] + Keys(m[1..]);
      assert Keys([m[0]] + Set(m[1..], k, v)) == [m[0].0] + Keys(Set(m[1..], k, v));
    }
  }

  /** In an object with distinct keys, the member at position i is what its key looks up. */
  lemma {:induction false} LookupAt(m: seq<(string, JSON)>, i: nat)
    requires i < |m| && DistinctKeys(m)
    ensures Lookup(m, m[i].0) == Some(m[i].1)
    decreases i
  {
    if i > 0 {
      assert m[0].0 != m[i].0;
      assert DistinctKeys(m[1..]) by {
        forall a, b | 0 <= a < b < |m[1..]| ensures m[1..][a].0 != m[1..][b].0 {
          assert m[a + 1].0 != m[b + 1].0;
        }
      }
      LookupAt(m[1..], i - 1);
    }
  }

  /** `d.update(other)`: the members of `other`, in order, written into `d`. */
  function Update(m: seq<(string, JSON)>, other: seq<(string, JSON)>): seq<(string, JSON)>
    decreases |other|
  {
    if other == [] then m
    else Set(Update(m, other[..|other| - 1]), other[|other| - 1].0, other[|other| - 1].1)
  }

  lemma {:induction false} LookupAppend(m: seq<(string, JSON)>, p: (string, JSON), k: string)
    ensures Lookup(m + [p], k) == if k in Keys(m) then Lookup(m, k) else if k == p.0 then Some(p.1) else None
    decreases |m|
  {
    if m != [] {
      assert (m + [p])[1..] == m[1..] + [p];
      assert Keys(m) == [m[0].0] + Keys(m[1..]);
      LookupAppend(m[1..], p, k);
    }
  }

  /** After `d.update(other)` a key of `other` holds other's value; any other key is untouched. */
  lemma {:induction false} UpdateLookup(m: seq<(string, JSON)>, other: seq<(string, JSON)>, k: string)
    requires DistinctKeys(other)
    ensures Lookup(Update(m, other), k) == if k in Keys(other) then Lookup(other, k) else Lookup(m, k)
    decreases |other|
  {
    if other != [] {
      var init, last := other[..|other| - 1], other[|other| - 1];
      assert other == init + [last];
      assert Keys(other) == Keys(init) + [last.0];
      assert last.0 !in Keys(init) by {
        forall i | 0 <= i < |init| ensures Keys(init)[i] != last.0 {
          assert other[i].0 != other[|other| - 1].0;
        }
      }
      UpdateLookup(m, init, k);
      SetLookup(Update(m, init), last.0, last.1, k);
      LookupAppend(init, last, k);
    }
  }

  // ---------------------------------------------------------------------
  // Python operations on arbitrary values

  /** `d.get(k, default)` */
  function Get(d: JSON, k: string, default: JSON): (r: Outcome<JSON>)
    ensures r.Raise? <==> !d.JObj?
    ensures r.Raise? ==> r.exc == AttributeError
    ensures d.JObj? ==> r.value == LookupOr(d.members, k, default)
  {
    if d.JObj? then Ok(LookupOr(d.members, k, default)) else Raise(AttributeError)
  }

  /** `d[k]` with a string key. */
  function Subscript(d: JSON, k: string): (r: Outcome<JSON>)
    ensures r.Ok? <==> d.JObj? && k in Keys(d.members)
    ensures r.Ok? ==> Lookup(d.members, k) == Some(r.value)
    ensures r.Raise? ==> r.exc == (if d.JObj? then KeyError else TypeError)
  {
    if d.JObj? then
      match Lookup(d.members, k)
      case Some(v) => Ok(v)
      case None => Raise(KeyError)
    else Raise(TypeError)
  }

  /** `s[i]` for a list or string of length n: negative indices count from the end. */
  function Position(n: nat, i: int): (r: Option<nat>)
    ensures r.Some? <==> -(n as int) <= i < n
    ensures r.Some? ==> r.value < n && (r.value == if i < 0 then i + n else i)
  {
    if 0 <= i < n then Some(i) else if -(n as int) <= i < 0 then Some(i + n) else None
  }

  /**
   * `d[k]` with any key: a dict is looked up by a hashable key (its keys are
   * all strings, so any other key is missing), a list or a string is
   * indexed by an int or bool, and anything else is not subscriptable.
   */
  function Index(d: JSON, k: JSON): (r: Outcome<JSON>)
    ensures k.JStr? ==> r == Subscript(d, k.s)
    ensures d.JObj? && !k.JStr? ==> r == Raise(if k.JArr? || k.JObj? then TypeError else KeyError)
    ensures r.Raise? ==> r.exc == TypeError || r.exc == KeyError || r.exc == IndexError
  {
    match d
    case JObj(_) =>
      if k.JStr? then Subscript(d, k.s) else if k.JArr? || k.JObj? then Raise(TypeError) else Raise(KeyError)
    case JArr(items) =>
      if AsNumber(k).None? then Raise(TypeError)
      else
        var p := Position(|items|, AsNumber(k).value);
        if p.Some? then Ok(items[p.value]) else Raise(IndexError)
    case JStr(s) =>
      if AsNumber(k).None? then Raise(TypeError)
      else
        var p := Position(|s|, AsNumber(k).value);
        if p.Some? then Ok(JStr([s[p.value]])) else Raise(IndexError)
    case _ => Raise(TypeError)
  }

  /** Substring test, `sub in s` on strings. */
  predicate IsSubstring(sub: string, s: string)
  {
    exists i :: 0 <= i <= |s| && OccursAt(s, sub, i)
  }

  /** `k in d` with a string on the left. */
  function Contains(d: JSON, k: string): (r: Outcome<bool>)
    ensures r.Raise? <==> !(d.JObj? || d.JArr? || d.JStr?)
    ensures r.Raise? ==> r.exc == TypeError
    ensures d.JObj? ==> r == Ok(k in Keys(d.members))
    ensures d.JArr? ==> r == Ok(JStr(k) in d.items)
    ensures d.JStr? ==> r == Ok(IsSubstring(k, d.s))
  {
    match d
    case JObj(m) => Ok(k in Keys(m))
    case JArr(items) => Ok(JStr(k) in items)
    case JStr(s) => Ok(IsSubstring(k, s))
    case _ => Raise(TypeError)
  }

  /** `len(v)` */
  function Len(v: JSON): (r: Outcome<nat>)
    ensures r.Raise? <==> !(v.JObj? || v.JArr? || v.JStr?)
    ensures r.Raise? ==> r.exc == TypeError
    ensures v.JStr? ==> r == Ok(|v.s|)
    ensures v.JArr? ==> r == Ok(|v.items|)
    ensures v.JObj? ==> r == Ok(|v.members|)
  {
    match v
    case JStr(s) => Ok(|s|)
    case JArr(items) => Ok(|items|)
    case JObj(m) => Ok(|m|)
    case _ => Raise(TypeError)
  }

  /** What `for x in v` walks over: list items, dict keys, string characters. */
  function Iter(v: JSON): (r: Outcome<seq<JSON>>)
    ensures r.Raise? <==> !(v.JObj? || v.JArr? || v.JStr?)
    ensures r.Ok? ==> Len(v) == Ok(|r.value|)
    ensures v.JArr? ==> r == Ok(v.items)
  {
    match v
    case JArr(items) => Ok(items)
    case JObj(m) => Ok(seq(|m|, i requires 0 <= i < |m| => JStr(m[i].0)))
    case JStr(s) => Ok(seq(|s|, i requires 0 <= i < |s| => JStr([s[i]])))
    case _ => Raise(TypeError)
  }

  /** Python `x == 0` for a JSON value (True == 1 and False == 0). */
  predicate EqualsZero(v: JSON)
  {
    v == JInt(0) || v == JBool(false)
  }

  /** The number a value compares as, if it is one. */
  function AsNumber(v: JSON): Option<int>
  {
    match v
    case JInt(i) => Some(i)
    case JBool(b) => Some(if b then 1 else 0)
    case _ => None
  }

  // ---------------------------------------------------------------------
  // int()

  predicate IsDigit(c: char) { '0' <= c <= '9' }

  /** ASCII whitespace as Python's str.isspace() sees it. */
  predicate IsSpace(c: char)
  {
    c == ' ' || (9 <= c as int <= 13) || (28 <= c as int <= 31)
  }

  function StripLeft(s: string): (r: string)
    ensures |r| <= |s| && r == s[|s| - |r|..]
    ensures r == [] || !IsSpace(r[0])
  {
    if s != [] && IsSpace(s[0]) then StripLeft(s[1..]) else s
  }

  function StripRight(s: string): (r: string)
    ensures |r| <= |s| && r == s[..|r|]
    ensures r == [] || !IsSpace(r[|r| - 1])
  {
    if s != [] && IsSpace(s[|s| - 1]) then StripRight(s[..|s| - 1]) else s
  }

  /** `s.strip()` over ASCII whitespace. */
  function Strip(s: string): string
  {
    StripRight(StripLeft(s))
  }

  /** `s.isdigit()` over ASCII digits: non-empty and only digits. */
  predicate AllDigits(s: string)
  {
    |s| > 0 && forall i :: 0 <= i < |s| ==> IsDigit(s[i])
  }

  /** The literal body int() accepts in base 10: digits, single underscores between digits. */
  predicate DigitGroups(s: string)
  {
    |s| > 0 && IsDigit(s[0]) && IsDigit(s[|s| - 1]) &&
    (forall i :: 0 <= i < |s| ==> IsDigit(s[i]) || s[i] == '_') &&
    NoDoubleUnderscore(s)
  }

  predicate NoDoubleUnderscore(s: string)
  {
    |s| < 2 || (!(s[0] == '_' && s[1] == '_') && NoDoubleUnderscore(s[1..]))
  }

  function DropUnderscores(s: string): string
  {
    if s == [] then []
    else (if s[0] == '_' then [] else [s[0]]) + DropUnderscores(s[1..])
  }

  /** The value of a string of decimal digits. */
  function DecimalValue(s: string): nat
  {
    if s == [] then 0
    else 10 * DecimalValue(s[..|s| - 1]) + (if IsDigit(s[|s| - 1]) then s[|s| - 1] as int - '0' as int else 0)
  }

  /** The sign int() reads off the front of a stripped literal. */
  predicate Negative(t: string) { |t| > 0 && t[0] == '-' }

  /** The literal after its optional sign. */
  function Unsigned(t: string): string
  {
    if |t| > 0 && (t[0] == '-' || t[0] == '+') then t[1..] else t
  }

  /** int() applied to a string with no surrounding whitespace. */
  function ParseLiteral(t: string): (r: Outcome<int>)
    ensures r.Raise? <==> !DigitGroups(Unsigned(t))
    ensures r.Raise? ==> r.exc == ValueError
  {
    if DigitGroups(Unsigned(t)) then
      var n: int := DecimalValue(DropUnderscores(Unsigned(t)));
      Ok(if Negative(t) then -n else n)
    else Raise(ValueError)
  }

  /** int() applied to a string. */
  function ParseInt(text: string): (r: Outcome<int>)
    ensures r.Raise? ==> r.exc == ValueError
  {
    ParseLiteral(Strip(text))
  }

  /** int(v) */
  function ToInt(v: JSON): (r: Outcome<int>)
    ensures v.JInt? ==> r == Ok(v.i)
    ensures v.JBool? ==> r == Ok(if v.b then 1 else 0)
    ensures (v.JNull? || v.JArr? || v.JObj?) ==> r == Raise(TypeError)
    ensures v.JStr? ==> r == ParseInt(v.s)
  {
    match v
    case JInt(i) => Ok(i)
    case JBool(b) => Ok(if b then 1 else 0)
    case JStr(s) => ParseInt(s)
    case _ => Raise(TypeError)
  }

  // ---------------------------------------------------------------------
  // str()

  function DigitChar(d: nat): (c: char)
    requires d < 10
    ensures IsDigit(c) && c as int - '0' as int == d
  {
    ('0' as int + d) as char
  }

  /** The decimal digits of `n`, most significant first, no leading zero. */
  function NatToString(n: nat): (s: string)
    ensures AllDigits(s)
    ensures |s| > 1 ==> s[0] != '0'
    decreases n
  {
    if n < 10 then [DigitChar(n)] else NatToString(n / 10) + [DigitChar(n % 10)]
  }

  function IntToString(i: int): string
  {
    if i < 0 then "-" + NatToString(-i) else NatToString(i)
  }

  function Quote(s: string): string { "'" + s + "'" }

  /** str() of a value that is neither a string nor a container. */
  function ScalarStr(v: JSON): string
  {
    match v
    case JNull => "None"
    case JBool(b) => if b then "True" else "False"
    case JInt(i) => IntToString(i)
    case _ => ""
  }

  /** repr() with simplified string quoting. */
  function Repr(v: JSON): string
    decreases v, 1
  {
    match v
    case JStr(s) => Quote(s)
    case JArr(items) => "[" + ReprItems(v, items) + "]"
    case JObj(m) => "{" + ReprMembers(v, m) + "}"
    case _ => ScalarStr(v)
  }

  function ReprItems(parent: JSON, items: seq<JSON>): string
    requires forall x :: x in items ==> x < parent
    decreases parent, 0, |items|
  {
    if items == [] then ""
    else
      assert items[0] in items;
      assert forall x :: x in items[1..] ==> x in items;
      Repr(items[0]) + (if |items| > 1 then ", " + ReprItems(parent, items[1..]) else "")
  }

  function ReprMembers(parent: JSON, m: seq<(string, JSON)>): string
    requires forall p :: p in m ==> p.1 < parent
    decreases parent, 0, |m|
  {
    if m == [] then ""
    else
      assert m[0] in m;
      assert forall p :: p in m[1..] ==> p in m;
      Quote(m[0].0) + ": " + Repr(m[0].1) + (if |m| > 1 then ", " + ReprMembers(parent, m[1..]) else "")
  }

  /** str(v) */
  function Str(v: JSON): string
  {
    match v
    case JStr(s) => s
    case JArr(_) => Repr(v)
    case JObj(_) => Repr(v)
    case _ => ScalarStr(v)
  }

  // ---------------------------------------------------------------------
  // int() and str() agree on integers

  lemma {:induction false} DecimalValueOfNatToString(n: nat)
    ensures DecimalValue(NatToString(n)) == n
    decreases n
  {
    var s := NatToString(n);
    if n < 10 {
    } else {
      DecimalValueOfNatToString(n / 10);
      assert s[..|s| - 1] == NatToString(n / 10);
    }
  }

  lemma NoSpaceDigits(s: string)
    requires AllDigits(s)
    ensures Strip(s) == s
  {
    assert !IsSpace(s[0]);
    assert StripLeft(s) == s;
    assert !IsSpace(s[|s| - 1]);
  }

  lemma NegativeLiteral(digits: string)
    requires AllDigits(digits)
    ensures Strip("-" + digits) == "-" + digits
  {
    var t := "-" + digits;
    assert StripLeft(t) == t;
    assert t[|t| - 1] == digits[|digits| - 1];
  }

  lemma {:induction false} DigitsAreGroups(s: string)
    requires forall i :: 0 <= i < |s| ==> IsDigit(s[i])
    ensures NoDoubleUnderscore(s) && DropUnderscores(s) == s
  {
    if |s| >= 2 {
      DigitsAreGroups(s[1..]);
    }
  }

  /** Dropping the one underscore between two digit runs leaves the runs. */
  lemma {:induction false} DropJoin(a: string, b: string)
    requires forall i :: 0 <= i < |a| ==> IsDigit(a[i])
    requires forall i :: 0 <= i < |b| ==> IsDigit(b[i])
    ensures DropUnderscores(a + "_" + b) == a + b
    decreases |a|
  {
    var s := a + "_" + b;
    if a == [] {
      assert s == "_" + b && s[1..] == b;
      DigitsAreGroups(b);
    } else {
      assert s[1..] == a[1..] + "_" + b;
      DropJoin(a[1..], b);
      assert a + b == [a[0]] + (a[1..] + b);
    }
  }

  /** No two underscores are adjacent when a single one joins two digit runs. */
  lemma {:induction false} NoDoubleJoin(a: string, b: string)
    requires AllDigits(a) && AllDigits(b)
    ensures NoDoubleUnderscore(a + "_" + b)
    decreases |a|
  {
    var s := a + "_" + b;
    if |a| == 1 {
      assert s[1..] == "_" + b;
      assert ("_" + b)[1..] == b;
      DigitsAreGroups(b);
    } else {
      assert s[1..] == a[1..] + "_" + b;
      assert IsDigit(a[1]);
      NoDoubleJoin(a[1..], b);
    }
  }

  /** Two digit runs joined by one underscore form a literal that reads as the runs without it. */
  lemma UnderscoreJoin(a: string, b: string)
    requires AllDigits(a) && AllDigits(b)
    ensures DigitGroups(a + "_" + b) && DropUnderscores(a + "_" + b) == a + b
  {
    var s := a + "_" + b;
    DropJoin(a, b);
    NoDoubleJoin(a, b);
    forall i | 0 <= i < |s| ensures IsDigit(s[i]) || s[i] == '_' {
      if i < |a| { assert s[i] == a[i]; }
      else if i > |a| { assert s[i] == b[i - |a| - 1]; }
    }
    assert s[0] == a[0] && s[|s| - 1] == b[|b| - 1];
  }

  lemma StripOneLeft(u: string)
    requires |u| > 0 && !IsSpace(u[0])
    ensures StripLeft(" " + u) == u
  {
    assert (" " + u)[1..] == u;
  }

  lemma StripOneRight(x: string)
    requires |x| > 0 && !IsSpace(x[|x| - 1])
    ensures StripRight(x + " ") == x
  {
    assert (x + " ")[..|x|] == x;
  }

  /** One space on each side of a literal is stripped. */
  lemma PaddedStrip(x: string)
    requires |x| > 0 && !IsSpace(x[0]) && !IsSpace(x[|x| - 1])
    ensures Strip(" " + x + " ") == x
  {
    assert " " + x + " " == " " + (x + " ");
    StripOneLeft(x + " ");
    StripOneRight(x);
  }

  lemma LiteralOfDigits(digits: string, neg: bool)
    requires AllDigits(digits)
    ensures ParseLiteral(if neg then "-" + digits else digits) ==
            Ok(if neg then -(DecimalValue(digits) as int) else DecimalValue(digits) as int)
  {
    var t := if neg then "-" + digits else digits;
    DigitsAreGroups(digits);
    assert DigitGroups(digits);
    if neg { assert t[1..] == digits; } else { assert IsDigit(t[0]); }
    assert Unsigned(t) == digits;
    assert Negative(t) == neg;
  }

  lemma ParsePositive(digits: string)
    requires AllDigits(digits)
    ensures ParseInt(digits) == Ok(DecimalValue(digits) as int)
  {
    NoSpaceDigits(digits);
    LiteralOfDigits(digits, false);
  }

  lemma ParseNegative(digits: string)
    requires AllDigits(digits)
    ensures ParseInt("-" + digits) == Ok(-(DecimalValue(digits) as int))
  {
    NegativeLiteral(digits);
    LiteralOfDigits(digits, true);
  }

  /** int(str(i)) == i for every integer. */
  lemma IntStrRoundTrip(i: int)
    ensures ToInt(JStr(Str(JInt(i)))) == Ok(i)
  {
    var n: nat := if i < 0 then -i else i;
    var digits := NatToString(n);
    DecimalValueOfNatToString(n);
    assert Str(JInt(i)) == IntToString(i);
    if i < 0 {
      assert IntToString(i) == "-" + digits;
      ParseNegative(digits);
    } else {
      assert IntToString(i) == digits;
      ParsePositive(digits);
    }
  }

  /** isdigit() over str(v): only a non-negative integer or a digit string prints as digits. */
  lemma StrIsDigits(v: JSON)
    ensures AllDigits(Str(v)) <==> (v.JInt? && v.i >= 0) || (v.JStr? && AllDigits(v.s))
  {
    match v
    case JInt(i) =>
      if i < 0 { assert Str(v)[0] == '-'; }
    case JBool(b) => assert !IsDigit(Str(v)[0]);
    case JNull => assert !IsDigit(Str(v)[0]);
    case JStr(s) =>
    case JArr(_) => assert Str(v)[0] == '[';
    case JObj(_) => assert Str(v)[0] == '{';
  }

  // ---------------------------------------------------------------------
  // str.find

  predicate OccursAt(s: string, sub: string, i: int)
  {
    0 <= i && i + |sub| <= |s| && s[i..i + |sub|] == sub
  }

  /** `s.find(sub, start)`: the first occurrence at or after `start`, or -1. */
  function Find(s: string, sub: string, start: nat): (r: int)
    ensures r == -1 || (start <= r && OccursAt(s, sub, r))
    ensures r == -1 ==> forall i :: start <= i ==> !OccursAt(s, sub, i)
    ensures r != -1 ==> forall i :: start <= i < r ==> !OccursAt(s, sub, i)
    decreases |s| - start
  {
    if start + |sub| > |s| then -1
    else if s[start..start + |sub|] == sub then start
    else Find(s, sub, start + 1)
  }

  /** A Python slice bound: negative counts from the end, then clamped to the string. */
  function SliceBound(n: nat, i: int): (b: nat)
    ensures b <= n
    ensures 0 <= i <= n ==> b == i
  {
    var k := if i < 0 then i + n else i;
    if k < 0 then 0 else if k > n then n else k
  }

  /** `s[i:j]` */
  function Slice(s: string, i: int, j: int): (r: string)
    ensures 0 <= i <= j <= |s| ==> r == s[i..j]
    ensures |r| <= |s|
  {
    var lo := SliceBound(|s|, i);
    var hi := SliceBound(|s|, j);
    if hi < lo then [] else s[lo..hi]
  }

  /** A hashable Python value used as a dict or set key; True and 1 (False and 0) are one key. */
  datatype PyKey = HNone | HNum(n: int) | HStr(s: string)

  /** Hashing a value: lists and dicts are unhashable. */
  function HashKey(v: JSON): (r: Outcome<PyKey>)
    ensures r.Raise? <==> v.JArr? || v.JObj?
    ensures r.Raise? ==> r.exc == TypeError
    ensures v.JStr? ==> r == Ok(HStr(v.s))
  {
    match v
    case JNull => Ok(HNone)
    case JBool(b) => Ok(HNum(if b then 1 else 0))
    case JInt(i) => Ok(HNum(i))
    case JStr(s) => Ok(HStr(s))
    case _ => Raise(TypeError)
  }

  /** Python `==` on hashable values. */
  predicate ScalarEq(v: JSON, w: JSON)
  {
    if AsNumber(v).Some? || AsNumber(w).Some? then AsNumber(v) == AsNumber(w) else v == w
  }

  /** Two hashable values are the same key exactly when Python considers them equal. */
  lemma HashKeyEquality(v: JSON, w: JSON)
    requires HashKey(v).Ok? && HashKey(w).Ok?
    ensures HashKey(v) == HashKey(w) <==> ScalarEq(v, w)
  {
  }
}
