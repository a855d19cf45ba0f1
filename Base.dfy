// The shared base object (raw dict, repr, to_dict) and the never-raising
// conversion helpers of the scraping mixin.

module Base {
  import opened Json

  /**
   * The state a base object keeps: the raw dict and the two attributes its
   * repr reads (JNull when the attribute is not set).
   */
  datatype BaseObject = BaseObject(asDict: JSON, id: JSON, username: JSON)

  /** What the base constructor does: the stored dict and whether the extraction hook runs. */
  datatype Construction = Construction(obj: BaseObject, extracts: bool)

  /** `__init__(data)`: stores `data or {}`; extraction runs whenever data is not None. */
  function NewBase(data: Option<JSON>): (c: Construction)
    ensures c.extracts <==> data.Some?
    ensures data.Some? && Truthy(data.value) ==> c.obj.asDict == data.value
    ensures (data.None? || !Truthy(data.value)) ==> c.obj.asDict == EmptyObj
    ensures c.obj.id == JNull && c.obj.username == JNull
  {
    var d := if data.Some? then Or(data.value, EmptyObj) else EmptyObj;
    Construction(BaseObject(d, JNull, JNull), data.Some?)
  }

  /** An explicit empty dict still runs extraction, on an empty dict. */
  lemma EmptyDataStillExtracts()
    ensures NewBase(Some(EmptyObj)).extracts
    ensures NewBase(Some(EmptyObj)).obj.asDict == NewBase(None).obj.asDict
  {
  }

  /** `to_dict()`: a copy of the raw dict. */
  function ToDict(o: BaseObject): JSON
  {
    o.asDict
  }

  /** Writing into the copy leaves the object's dict as it was. */
  lemma ToDictIsCopy(o: BaseObject, k: string, v: JSON)
    requires o.asDict.JObj?
    ensures var copy := ToDict(o).members;
            Lookup(Set(copy, k, v), k) == Some(v) && ToDict(o) == o.asDict
  {
    SetLookup(ToDict(o).members, k, v, k);
  }

  /** `__repr__`: `Name(id='<id or username>')`. */
  function ReprOf(className: string, o: BaseObject): (r: string)
    ensures var shown := if Truthy(o.id) then Str(o.id) else Str(o.username);
            r == className + "(id='" + shown + "')"
  {
    className + "(id='" + Str(Or(o.id, o.username)) + "')"
  }

  /** `_safe_get`: `data.get(key, default)`, or the default when data has no `get`. */
  function SafeGet(data: JSON, key: string, default: JSON): (r: JSON)
    ensures data.JObj? && key in Keys(data.members) ==> Lookup(data.members, key) == Some(r)
    ensures !data.JObj? || key !in Keys(data.members) ==> r == default
  {
    match Get(data, key, default)
    case Ok(v) => v
    case Raise(_) => default
  }

  /** `_safe_int`: int(value), or the default for None and for what int() rejects. */
  function SafeInt(value: JSON, default: int): (r: int)
    ensures value.JNull? ==> r == default
    ensures !value.JNull? && ToInt(value).Ok? ==> r == ToInt(value).value
    ensures ToInt(value).Raise? ==> r == default
  {
    if value.JNull? then default
    else
      match ToInt(value)
      case Ok(i) => i
      case Raise(_) => default
  }

  /** `_safe_str`: str(value), or the default for None. */
  function SafeStr(value: JSON, default: string): (r: string)
    ensures value.JNull? ==> r == default
    ensures !value.JNull? ==> r == Str(value)
  {
    if value.JNull? then default else Str(value)
  }

  /** An ASCII digit string converts to its decimal value. */
  lemma SafeIntDigits(s: string, default: int)
    requires AllDigits(s)
    ensures SafeInt(JStr(s), default) == DecimalValue(s)
  {
    ParsePositive(s);
  }

  /** `_safe_int(_safe_str(i))` gives back every integer. */
  lemma SafeIntOfSafeStr(i: int, default: int, sdefault: string)
    ensures SafeInt(JStr(SafeStr(JInt(i), sdefault)), default) == i
  {
    IntStrRoundTrip(i);
  }

  /** Text that is not a numeral falls back to the default. */
  lemma SafeIntRejectsText(default: int)
    ensures SafeInt(JStr("12a"), default) == default
  {
    var t := "12a";
    assert !IsSpace(t[0]) && !IsSpace(t[2]);
    assert StripLeft(t) == t;
    assert StripRight(t) == t;
    assert Unsigned(t) == t;
    assert !IsDigit(t[|t| - 1]);
    assert ParseLiteral(t) == Raise(ValueError);
  }

  /** int() strips surrounding whitespace and reads a single underscore between digit runs. */
  lemma SafeIntUnderscores(a: string, b: string, default: int)
    requires AllDigits(a) && AllDigits(b)
    ensures SafeInt(JStr(" " + a + "_" + b + " "), default) == DecimalValue(a + b)
  {
    ParsePadded(a, b);
  }

  lemma ParsePadded(a: string, b: string)
    requires AllDigits(a) && AllDigits(b)
    ensures ParseInt(" " + a + "_" + b + " ") == Ok(DecimalValue(a + b) as int)
  {
    var x := a + "_" + b;
    assert " " + a + "_" + b + " " == " " + x + " ";
    UnderscoreJoin(a, b);
    ParseSpaced(x);
  }

  lemma ParseSpaced(x: string)
    requires DigitGroups(x)
    ensures ParseInt(" " + x + " ") == Ok(DecimalValue(DropUnderscores(x)) as int)
  {
    PaddedStrip(x);
    assert Unsigned(x) == x && !Negative(x);
  }
}
