/** JavaScript values and the built-in string and object operations the requester relies on.
    Numbers are integers (the library only handles ports, status codes and tokens); an object is
    the list of its own enumerable properties in the order `Object.entries` reports them: keys that
    are array indices first, in ascending order, then the other keys in insertion order. */
module Js {

  datatype Option<+T> = None | Some(value: T)

  datatype Result<+T, +E> = Ok(value: T) | Err(error: E)

  /** What a guard-clause validation does: return normally, or throw. */
  datatype Outcome<+E> = Pass | Fail(error: E)

  datatype Value =
    | Undefined
    | Null
    | Bool(b: bool)
    | Num(n: int)
    | Str(s: string)
    | Obj(props: seq<(string, Value)>)

  /** A thrown JavaScript error: `new Error(message)` or a `TypeError` raised by the engine. */
  datatype Exception = Error(message: string) | TypeError(message: string)

  /** JavaScript truthiness (NaN is not representable here). */
  predicate Truthy(v: Value)
  {
    match v
    case Undefined => false
    case Null => false
    case Bool(b) => b
    case Num(n) => n != 0
    case Str(s) => s != ""
    case Obj(_) => true
  }

  /** The operand of `??` falls through exactly when it is `undefined` or `null`. */
  predicate IsNullish(v: Value)
  {
    v.Undefined? || v.Null?
  }

  /** `v ?? fallback` */
  function Coalesce(v: Value, fallback: Value): Value
  {
    if IsNullish(v) then fallback else v
  }

  /** The `typeof` operator; note that `typeof null` is "object". */
  function TypeOf(v: Value): string
  {
    match v
    case Undefined => "undefined"
    case Null => "object"
    case Bool(_) => "boolean"
    case Num(_) => "number"
    case Str(_) => "string"
    case Obj(_) => "object"
  }

  function DigitChar(d: nat): char
    requires d < 10
  {
    "0123456789"[d]
  }

  /** Decimal digits of a natural number, most significant first. */
  function Digits(n: nat): (r: string)
    ensures r != []
    ensures forall i :: 0 <= i < |r| ==> '0' <= r[i] <= '9'
    decreases n
  {
    if n < 10 then [DigitChar(n)] else Digits(n / 10) + [DigitChar(n % 10)]
  }

  /** `String(n)` for an integral number below 1e21. */
  function NumberToString(n: int): string
  {
    if n < 0 then "-" + Digits(-n) else Digits(n)
  }

  /** `String(v)`, the conversion a template literal applies. */
  function JsString(v: Value): string
  {
    match v
    case Undefined => "undefined"
    case Null => "null"
    case Bool(b) => if b then "true" else "false"
    case Num(n) => NumberToString(n)
    case Str(s) => s
    case Obj(_) => "[object Object]"
  }

  /** The object an ordered property list denotes: a later property with the same key overwrites an earlier one. */
  function ObjectOf(props: seq<(string, Value)>): (m: map<string, Value>)
    ensures forall k :: k in m <==> exists i :: 0 <= i < |props| && props[i].0 == k
  {
    if props == [] then map[]
    else
      var last := props[|props| - 1];
      var m := ObjectOf(props[..|props| - 1]);
      assert forall i :: 0 <= i < |props| - 1 ==> props[..|props| - 1][i] == props[i];
      m[last.0 := last.1]
  }

  /** An object's keys are distinct: a list with a repeated key is not a JavaScript object. */
  predicate DistinctKeys(props: seq<(string, Value)>)
  {
    forall i, j :: 0 <= i < j < |props| ==> props[i].0 != props[j].0
  }

  /** The last decimal digit of `n`, and the digits before it, which spell `n / 10`. */
  lemma DigitsLast(n: nat)
    ensures Digits(n)[|Digits(n)| - 1] == DigitChar(n % 10)
    ensures n < 10 <==> |Digits(n)| == 1
    ensures n >= 10 ==> Digits(n)[..|Digits(n)| - 1] == Digits(n / 10)
  {
    if n >= 10 {
      var d := Digits(n / 10);
      assert (d + [DigitChar(n % 10)])[..|d|] == d;
    }
  }

  /** Distinct numbers have distinct decimal spellings. */
  lemma {:induction false} DigitsInjective(a: nat, b: nat)
    ensures Digits(a) == Digits(b) ==> a == b
    decreases a
  {
    DigitsLast(a);
    DigitsLast(b);
    if Digits(a) == Digits(b) {
      assert DigitChar(a % 10) == DigitChar(b % 10) ==> a % 10 == b % 10;
      if a >= 10 {
        DigitsInjective(a / 10, b / 10);
      }
    }
  }

  /** The name of a string's index property `i`: its decimal spelling. */
  function IndexKey(i: nat): string
  {
    Digits(i)
  }

  /** The index properties of a string: `{..."OK"}` is `{"0": "O", "1": "K"}`. */
  function IndexProperties(s: string): map<string, Value>
    decreases |s|
  {
    if s == [] then map[]
    else IndexProperties(s[..|s| - 1])[IndexKey(|s| - 1) := Str([s[|s| - 1]])]
  }

  /** Property `i` of a string is its `i`-th character: no later index overwrites it. */
  lemma {:induction false} IndexPropertyAt(s: string, i: nat)
    requires i < |s|
    ensures IndexKey(i) in IndexProperties(s) && IndexProperties(s)[IndexKey(i)] == Str([s[i]])
    decreases |s|
  {
    var n := |s| - 1;
    if i < n {
      IndexPropertyAt(s[..n], i);
      DigitsInjective(i, n);
    }
  }

  /** A string has no index property beyond its length. */
  lemma {:induction false} OnlyIndexProperties(s: string, k: string)
    requires k in IndexProperties(s)
    ensures exists i: nat :: i < |s| && k == IndexKey(i)
    decreases |s|
  {
    var n := |s| - 1;
    if k != IndexKey(n) {
      OnlyIndexProperties(s[..n], k);
    }
  }

  /** The own properties `{...v}` copies out of `v`: an object's properties, a string's index
      properties; spreading `undefined`, `null`, a boolean or a number copies nothing. */
  function Spread(v: Value): map<string, Value>
  {
    match v
    case Obj(props) => ObjectOf(props)
    case Str(s) => IndexProperties(s)
    case _ => map[]
  }

  /** Property access `v[key]`: a `TypeError` on `undefined` and `null`; a string has its index
      properties and `length`; `undefined` for a key a value does not have (the methods of the
      built-in prototypes are not values here). */
  function Property(v: Value, key: string): Result<Value, Exception>
  {
    match v
    case Undefined => Err(TypeError("Cannot read properties of undefined"))
    case Null => Err(TypeError("Cannot read properties of null"))
    case Obj(props) =>
      var m := ObjectOf(props);
      Ok(if key in m then m[key] else Undefined)
    case Str(s) =>
      var m := IndexProperties(s);
      Ok(if key in m then m[key] else if key == "length" then Num(|s|) else Undefined)
    case _ => Ok(Undefined)
  }

  /** The exception `Logger.error(location, message)` throws, which it does unconditionally. */
  function LoggedError(location: string, message: string): Exception
  {
    Error("EasyRequesterError: " + message + " at " + location)
  }

  predicate StartsWithSlash(s: string)
  {
    |s| > 0 && s[0] == '/'
  }

  predicate EndsWithSlash(s: string)
  {
    |s| > 0 && s[|s| - 1] == '/'
  }

  /** `s.replace(/^\/|\/$/g, "")`: one leading slash and then one trailing slash are removed. */
  function TrimSlashes(s: string): (r: string)
    ensures s == r || s == "/" + r || s == r + "/" || s == "/" + r + "/"
    ensures StartsWithSlash(s) ==> s == "/" + r || s == "/" + r + "/"
    ensures |s| >= 2 && StartsWithSlash(s) && EndsWithSlash(s) ==> s == "/" + r + "/"
    ensures !StartsWithSlash(s) && EndsWithSlash(s) ==> s == r + "/"
    ensures !StartsWithSlash(s) && !EndsWithSlash(s) ==> r == s
  {
    var t := if StartsWithSlash(s) then s[1..] else s;
    if EndsWithSlash(t) then t[..|t| - 1] else t
  }

  /** `s.replace(/\/$/, "")`: one trailing slash is removed. */
  function StripTrailingSlash(s: string): (r: string)
    ensures EndsWithSlash(s) ==> s == r + "/"
    ensures !EndsWithSlash(s) ==> r == s
  {
    if EndsWithSlash(s) then s[..|s| - 1] else s
  }

  /** `s.includes(sub)` */
  predicate Includes(s: string, sub: string)
    decreases |s|
  {
    sub <= s || (|s| > 0 && Includes(s[1..], sub))
  }

  /** Wrapping any string in one slash on each side and trimming gives it back. */
  lemma TrimSlashesUnwraps(x: string)
    ensures TrimSlashes("/" + x + "/") == x
  {
    var s := "/" + x + "/";
    assert s[1..] == x + "/";
    assert (x + "/")[..|x|] == x;
  }

  /** In an object with distinct keys, reading an entry's key gives that entry's value: the
      enumeration and property access see the same object. */
  lemma {:induction false} PropertyOfEntry(props: seq<(string, Value)>, i: nat)
    requires DistinctKeys(props) && i < |props|
    ensures Property(Obj(props), props[i].0) == Ok(props[i].1)
    decreases |props|
  {
    var n := |props| - 1;
    if i < n {
      var init := props[..n];
      assert DistinctKeys(init) && init[i] == props[i];
      PropertyOfEntry(init, i);
      assert props[n].0 != props[i].0;
    }
  }

  /** Only one slash is removed on each side: a doubled slash leaves one behind. */
  lemma TrimSlashesRemovesAtMostOne(x: string)
    ensures TrimSlashes("//" + x + "//") == "/" + x + "/"
  {
    TrimSlashesUnwraps("/" + x + "/");
    assert "/" + ("/" + x + "/") + "/" == "//" + x + "//";
  }
}
