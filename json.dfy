/**
 * Parsed JSON values, as `json.load` hands them to the program, and the few
 * pieces of Python semantics the core applies to them: subscripting with a
 * string key, iterating, and formatting with `str()` inside an f-string.
 * Errors that Python raises on these paths are values of `PyError`.
 */
module Json {
  import Strings

  datatype Option<+T> = None | Some(value: T)

  /** The Python exceptions raised along the modelled paths. */
  datatype PyError =
    | AssertionError(message: string)
    | KeyError(key: string)
    | TypeError

  datatype Result<+T> = Ok(value: T) | Err(error: PyError)

  /** A computation that returns `None` or raises. */
  datatype Outcome = Pass | Fail(error: PyError)

  /** A JSON value. An object is a Python dict: its items in insertion order.
      Numbers are integers. */
  datatype Json =
    | JNull
    | JBool(b: bool)
    | JNum(n: int)
    | JStr(s: string)
    | JArr(items: seq<Json>)
    | JObj(pairs: seq<(string, Json)>)

  /** `key in d`, on the items of a dict. */
  predicate HasKey(pairs: seq<(string, Json)>, key: string)
  {
    exists i :: 0 <= i < |pairs| && pairs[i].0 == key
  }

  /** The value stored under `key`, if any: the first item with that key. */
  function Get(pairs: seq<(string, Json)>, key: string): Option<Json>
    decreases |pairs|
  {
    if |pairs| == 0 then None
    else if pairs[0].0 == key then Some(pairs[0].1)
    else Get(pairs[1..], key)
  }

  /** A lookup finds a value exactly when the dict has the key, and the value
      it finds is stored under that key. */
  lemma {:induction false} GetSpec(pairs: seq<(string, Json)>, key: string)
    ensures Get(pairs, key).Some? <==> HasKey(pairs, key)
    ensures Get(pairs, key).Some? ==> exists i :: 0 <= i < |pairs| && pairs[i] == (key, Get(pairs, key).value)
    decreases |pairs|
  {
    if |pairs| > 0 && pairs[0].0 != key {
      GetSpec(pairs[1..], key);
      assert forall i :: 0 <= i < |pairs| - 1 ==> pairs[1..][i] == pairs[i + 1];
      if HasKey(pairs, key) {
        var i :| 0 <= i < |pairs| && pairs[i].0 == key;
        assert pairs[1..][i - 1].0 == key;
      }
    }
  }

  /** `v[key]`: a dict lookup, KeyError when the dict lacks the key, and
      TypeError when `v` is not a dict (a list, a string, a number, None). */
  function Subscript(v: Json, key: string): (r: Result<Json>)
    ensures !v.JObj? ==> r == Err(TypeError)
    ensures r.Err? ==> r.error == (if v.JObj? then KeyError(key) else TypeError)
  {
    match v
    case JObj(pairs) =>
      (match Get(pairs, key)
       case Some(x) => Ok(x)
       case None => Err(KeyError(key)))
    case _ => Err(TypeError)
  }

  /** Subscripting succeeds exactly on a dict that holds the key. */
  lemma {:induction false} SubscriptSpec(v: Json, key: string)
    ensures Subscript(v, key).Ok? <==> v.JObj? && HasKey(v.pairs, key)
  {
    if v.JObj? {
      GetSpec(v.pairs, key);
    }
  }

  /** `for x in v` (also `*v` in a call): a list yields its items, a dict its
      keys, a string its characters; anything else raises TypeError. */
  function Iterate(v: Json): (r: Result<seq<Json>>)
    ensures r.Ok? <==> v.JArr? || v.JObj? || v.JStr?
    ensures v.JArr? ==> r == Ok(v.items)
    ensures v.JObj? ==> (r.Ok? && |r.value| == |v.pairs| &&
      forall i :: 0 <= i < |v.pairs| ==> r.value[i] == JStr(v.pairs[i].0))
    ensures v.JStr? ==> (r.Ok? && |r.value| == |v.s| &&
      forall i :: 0 <= i < |v.s| ==> r.value[i] == JStr([v.s[i]]))
    ensures r.Err? ==> r.error == TypeError
  {
    match v
    case JArr(xs) => Ok(xs)
    case JObj(ps) => Ok(seq(|ps|, i requires 0 <= i < |ps| => JStr(ps[i].0)))
    case JStr(s) => Ok(seq(|s|, i requires 0 <= i < |s| => JStr([s[i]])))
    case _ => Err(TypeError)
  }

  /** `str(v)`, which is what an f-string inserts. */
  function Str(v: Json): string
  {
    match v
    case JStr(s) => s
    case _ => Repr(v)
  }

  /** `repr(v)`; strings are quoted with `'` and not escaped. */
  function Repr(v: Json): string
  {
    match v
    case JNull => "None"
    case JBool(b) => if b then "True" else "False"
    case JNum(n) => IntToString(n)
    case JStr(s) => "'" + s + "'"
    case JArr(xs) =>
      "[" + Strings.Join(seq(|xs|, i requires 0 <= i < |xs| => Repr(xs[i])), ", ") + "]"
    case JObj(ps) =>
      "{" + Strings.Join(seq(|ps|, i requires 0 <= i < |ps| => "'" + ps[i].0 + "': " + Repr(ps[i].1)), ", ") + "}"
  }

  /** `str()` writes None, booleans, integers, lists and dicts as Python does. */
  lemma {:induction false} StrMatchesPython()
    ensures Str(JStr("web")) == "web"
    ensures Str(JNull) == "None"
    ensures Str(JBool(true)) == "True" && Str(JBool(false)) == "False"
    ensures Str(JNum(7)) == "7" && Str(JNum(-12)) == "-12"
    ensures Str(JArr([])) == "[]"
    ensures Str(JArr([JStr("a"), JNum(1)])) == "['a', 1]"
    ensures Str(JObj([("a", JNum(0))])) == "{'a': 0}"
  {
    var xs := [JStr("a"), JNum(1)];
    var parts := seq(|xs|, i requires 0 <= i < |xs| => Repr(xs[i]));
    assert Repr(JNum(1)) == "1";
    assert parts[0] == "'a'" && parts[1] == "1";
    assert parts == ["'a'", "1"];
    assert Strings.Join(parts, ", ") == "'a'" + ", " + Strings.Join(["1"], ", ");
  }

  function Digit(d: nat): (c: char)
    requires d < 10
  {
    ('0' as int + d) as char
  }

  predicate IsDigit(c: char)
  {
    '0' <= c <= '9'
  }

  /** The decimal numeral of a natural number, as `str()` writes it. */
  function NatToString(n: nat): (r: string)
    ensures |r| >= 1 && forall i :: 0 <= i < |r| ==> IsDigit(r[i])
    ensures (r[0] == '0') == (n == 0)
    decreases n
  {
    if n < 10 then [Digit(n)] else NatToString(n / 10) + [Digit(n % 10)]
  }

  /** `str(n)` / `"{}".format(n)` for an int: a minus sign for negative numbers. */
  function IntToString(n: int): string
  {
    if n < 0 then "-" + NatToString(-n) else NatToString(n)
  }

  /** The value of a string of decimal digits. */
  function DecimalValue(s: string): nat
    requires forall i :: 0 <= i < |s| ==> IsDigit(s[i])
    decreases |s|
  {
    if |s| == 0 then 0
    else
      assert IsDigit(s[|s| - 1]);
      10 * DecimalValue(s[..|s| - 1]) + (s[|s| - 1] as int - '0' as int)
  }

  /** Reading the numeral back gives the number: the formatting loses nothing. */
  lemma {:induction false} NatToStringRoundTrip(n: nat)
    ensures DecimalValue(NatToString(n)) == n
    decreases n
  {
    if n >= 10 {
      NatToStringRoundTrip(n / 10);
      var s := NatToString(n);
      assert s[..|s| - 1] == NatToString(n / 10);
    }
  }

  /** `str(n)` starts with a minus sign exactly for negative numbers, and the
      digits after it spell out the magnitude. */
  lemma {:induction false} IntToStringRoundTrip(n: int)
    ensures var s := IntToString(n);
      |s| >= 1 && (s[0] == '-' <==> n < 0) &&
      var digits := if n < 0 then s[1..] else s;
      (forall i :: 0 <= i < |digits| ==> IsDigit(digits[i])) &&
      DecimalValue(digits) == if n < 0 then -n else n
  {
    var s := IntToString(n);
    if n < 0 {
      NatToStringRoundTrip(-n);
      assert s[1..] == NatToString(-n);
    } else {
      NatToStringRoundTrip(n);
    }
  }
}
