/**
 PHP values as the OMDb client handles them: the parameters it puts in a
 query array and the decoded JSON it receives back, together with PHP's
 boolean conversion, which decides both `array_filter` and `empty()`.
 */
module PhpValues {

  /** An optional value; `None` stands for PHP's `null` or an omitted argument. */
  datatype Option<+T> = None | Some(value: T)

  /**
   A PHP value. JSON objects decode (with `assoc = true`) to arrays keyed by
   strings and JSON lists to arrays keyed by position; both are PHP arrays,
   told apart here only so that each can carry its natural Dafny collection.
   Floats are modelled as reals, so NAN and INF are not representable.
   */
  datatype PhpValue =
    | PNull
    | PBool(b: bool)
    | PInt(i: int)
    | PFloat(f: real)
    | PString(s: string)
    | PList(items: seq<PhpValue>)
    | PDict(fields: map<string, PhpValue>)

  /** PHP's conversion to bool: `null`, `false`, `0`, `0.0`, `""`, `"0"` and the empty array are false. */
  predicate Truthy(v: PhpValue)
    ensures v.PNull? || v == PBool(false) || v == PInt(0) || v == PFloat(0.0) ==> !Truthy(v)
    ensures v == PString("") || v == PString("0") || v == PList([]) || v == PDict(map[]) ==> !Truthy(v)
    ensures v == PBool(true) ==> Truthy(v)
    ensures v.PString? && |v.s| > 1 ==> Truthy(v)
    ensures v.PInt? && v.i != 0 ==> Truthy(v)
  {
    match v
    case PNull => false
    case PBool(b) => b
    case PInt(i) => i != 0
    case PFloat(f) => f != 0.0
    case PString(s) => s != "" && s != "0"
    case PList(items) => |items| > 0
    case PDict(fields) => |fields| > 0
  }

  /** PHP's `empty()` applied to a value that has already been read (a missing index reads as `null`). */
  predicate Empty(v: PhpValue) {
    !Truthy(v)
  }

  /** A `?string` argument as the PHP value it becomes. */
  function OfString(o: Option<string>): (v: PhpValue)
    ensures o.None? <==> v == PNull
    ensures o.Some? ==> v == PString(o.value)
  {
    match o
    case None => PNull
    case Some(s) => PString(s)
  }

  /** A `?int` argument as the PHP value it becomes. */
  function OfInt(o: Option<int>): (v: PhpValue)
    ensures o.None? <==> v == PNull
    ensures o.Some? ==> v == PInt(o.value)
  {
    match o
    case None => PNull
    case Some(i) => PInt(i)
  }

  /** A string is falsy exactly when it is `""` or `"0"`; every other string, `"false"` and `" "` included, is truthy. */
  lemma StringTruthiness(s: string)
    ensures !Truthy(PString(s)) <==> s == "" || s == "0"
    ensures Truthy(PString("false")) && Truthy(PString("0.0")) && Truthy(PString(" "))
  {
    assert "false" != "" && "false" != "0" by { assert "false"[0] == 'f'; }
    assert "0.0" != "" && "0.0" != "0" by { assert |"0.0"| == 3; }
  }
}
