/** The slice of JavaScript semantics the server's handlers rely on: a decoded
    JSON document as a JavaScript value (with `undefined` for a missing field),
    truthiness, member access, the optional-chaining forms `?.[0]`,
    `?.slice(0, n)`, `?.join(sep)` and `?.map(f)`, and the rendering of a
    number as text. */
module Js {
  import opened Wrappers
  import opened Errors

  /** A value produced by `res.json()`, plus `undefined`, which is what
      reading a field that is not there yields. JSON numbers are modelled
      as integers. */
  datatype Json =
    | Undefined
    | Null
    | Bool(b: bool)
    | Num(n: int)
    | Str(s: string)
    | Arr(items: seq<Json>)
    | Obj(fields: map<string, Json>)

  /** The values on which `?.` stops and yields `undefined`. */
  predicate Nullish(v: Json) {
    v.Undefined? || v.Null?
  }

  /** JavaScript truthiness: `undefined`, `null`, `false`, `0` and `""`
      are falsy, everything else is truthy. */
  function Truthy(v: Json): (r: bool)
    ensures Nullish(v) ==> !r
    ensures v.Num? ==> (r <==> v.n != 0)
    ensures v.Str? ==> (r <==> v.s != "")
    ensures v.Arr? || v.Obj? ==> r
  {
    match v
    case Undefined => false
    case Null => false
    case Bool(b) => b
    case Num(n) => n != 0
    case Str(s) => s != ""
    case Arr(_) => true
    case Obj(_) => true
  }

  /** `v.name` on a value that is not nullish (on `null` and `undefined` it
      is a TypeError): the own field `name` of an object, `undefined` when
      there is none or `v` is not an object. Of the names the handlers read,
      only `entries` is a property of a string, number, boolean or array: on
      an array it is the method `Array.prototype.entries`, which the
      `get_author_works` projection handles. */
  function Field(v: Json, name: string): (r: Json)
    ensures r != Undefined ==> v.Obj? && name in v.fields && r == v.fields[name]
    ensures v.Obj? && name in v.fields ==> r == v.fields[name]
  {
    if v.Obj? && name in v.fields then v.fields[name] else Undefined
  }

  // ---------------------------------------------------------------------
  // Numbers as text

  predicate IsDigit(c: char) {
    '0' <= c <= '9'
  }

  function DigitChar(d: nat): (c: char)
    requires d < 10
    ensures IsDigit(c) && (c as int) - ('0' as int) == d
  {
    ('0' as int + d) as char
  }

  /** The base-ten digits of `n`, most significant first, no leading zero. */
  function NatDigits(n: nat): (s: string)
    ensures |s| > 0
    ensures forall i :: 0 <= i < |s| ==> IsDigit(s[i])
    ensures s[0] == '0' ==> n == 0
  {
    if n < 10 then [DigitChar(n)] else NatDigits(n / 10) + [DigitChar(n % 10)]
  }

  /** What `String(n)` and a template literal `${n}` produce for an
      integer `n` (below 10^21 in magnitude, where JavaScript switches to
      exponent notation). */
  function Decimal(n: int): (s: string)
    ensures |s| > 0
    ensures s[0] == '-' <==> n < 0
    ensures forall i :: (if n < 0 then 1 else 0) <= i < |s| ==> IsDigit(s[i])
  {
    if n < 0 then "-" + NatDigits(-n) else NatDigits(n)
  }

  /** The value of a string of digits, read as base ten. */
  function DigitsValue(s: string): nat
    requires forall i :: 0 <= i < |s| ==> IsDigit(s[i])
  {
    if s == [] then 0
    else
      assert IsDigit(s[|s| - 1]);
      DigitsValue(s[..|s| - 1]) * 10 + ((s[|s| - 1] as int) - ('0' as int))
  }

  /** Reads back an optionally signed base-ten integer; the inverse of
      `Decimal`. */
  function ParseDecimal(s: string): (r: Option<int>)
    ensures r.Some? ==> |s| > 0
  {
    var neg := |s| > 0 && s[0] == '-';
    var digits := if neg then s[1..] else s;
    if digits != [] && forall i :: 0 <= i < |digits| ==> IsDigit(digits[i]) then
      var value: int := DigitsValue(digits);
      Some(if neg then -value else value)
    else
      None
  }

  lemma {:induction false} NatDigitsValue(n: nat)
    ensures DigitsValue(NatDigits(n)) == n
  {
    var s := NatDigits(n);
    if n >= 10 {
      NatDigitsValue(n / 10);
      assert s[..|s| - 1] == NatDigits(n / 10);
    }
  }

  /** `Decimal` loses nothing: the integer can be read back from its text. */
  lemma DecimalRoundTrip(n: int)
    ensures ParseDecimal(Decimal(n)) == Some(n)
  {
    if n < 0 {
      NatDigitsValue(-n);
      assert Decimal(n)[1..] == NatDigits(-n);
    } else {
      NatDigitsValue(n);
    }
  }

  /** Distinct integers have distinct texts. */
  lemma DecimalInjective(m: int, n: int)
    requires Decimal(m) == Decimal(n)
    ensures m == n
  {
    DecimalRoundTrip(m);
    DecimalRoundTrip(n);
  }

  // ---------------------------------------------------------------------
  // Values as text

  /** The combined length of `parts`. */
  function TotalLength(parts: seq<string>): nat {
    if parts == [] then 0 else |parts[0]| + TotalLength(parts[1..])
  }

  /** `parts.join(sep)` on strings: every part once, in order, with one
      separator between neighbours. */
  function Join(parts: seq<string>, sep: string): (r: string)
    ensures parts == [] ==> r == ""
    ensures |parts| == 1 ==> r == parts[0]
    ensures parts != [] ==> parts[0] <= r
    ensures parts != [] ==> |r| == TotalLength(parts) + (|parts| - 1) * |sep|
  {
    if parts == [] then ""
    else if |parts| == 1 then parts[0]
    else parts[0] + sep + Join(parts[1..], sep)
  }

  /** Whether `String(v)` returns rather than throws. An object converts
      through its `toString`; an own field of that name is never callable,
      and the inherited `valueOf` returns the object itself, which is no
      string, so the conversion throws a TypeError. An array converts
      through `join`, which converts each element. */
  predicate Stringable(v: Json) {
    match v
    case Obj(fields) => "toString" !in fields
    case Arr(items) => forall i :: 0 <= i < |items| ==> Stringable(items[i])
    case _ => true
  }

  /** JavaScript's `String(v)`, which a template literal `${v}` applies. */
  function DisplayString(v: Json): (r: string)
    requires Stringable(v)
    ensures v.Num? ==> ParseDecimal(r) == Some(v.n)
    ensures v.Str? ==> r == v.s
    ensures v == Arr([]) ==> r == ""
    ensures v.Arr? && |v.items| == 1 ==> r == ElementString(v.items[0])
    decreases v, 0
  {
    match v
    case Undefined => "undefined"
    case Null => "null"
    case Bool(b) => if b then "true" else "false"
    case Num(n) => DecimalRoundTrip(n); Decimal(n)
    case Str(s) => s
    case Arr(items) => Join(seq(|items|, i requires 0 <= i < |items| => ElementString(items[i])), ",")
    case Obj(_) => "[object Object]"
  }

  /** How `Array.prototype.join` renders one element: `null` and
      `undefined` as the empty string, anything else as `String(v)`. */
  function ElementString(v: Json): (r: string)
    requires Stringable(v)
    ensures Nullish(v) ==> r == ""
    ensures v.Str? ==> r == v.s
    ensures v.Num? ==> ParseDecimal(r) == Some(v.n)
    decreases v, 1
  {
    if Nullish(v) then "" else DisplayString(v)
  }

  // ---------------------------------------------------------------------
  // Optional chaining

  /** `v?.[0]`: the first element of an array or the first character of a
      string, `undefined` when there is none or `v` is nullish. */
  function OptionalFirst(v: Json): (r: Json)
    ensures v.Arr? && v.items != [] ==> r == v.items[0]
    ensures v.Str? && v.s != "" ==> r == Str([v.s[0]])
    ensures Nullish(v) || v == Arr([]) || v == Str("") ==> r == Undefined
  {
    match v
    case Arr(items) => if items == [] then Undefined else items[0]
    case Str(s) => if s == "" then Undefined else Str([s[0]])
    case Obj(m) => if "0" in m then m["0"] else Undefined
    case _ => Undefined
  }

  /** `v?.slice(0, end)`: a prefix of at most `end` elements of an array, or
      of characters of a string; a TypeError on a value without `slice`. */
  function OptionalSlice(v: Json, end: nat): (r: Result<Json, ToolError>)
    ensures r.Ok? <==> Nullish(v) || v.Arr? || v.Str?
    ensures r.Err? ==> r.error == TypeError
    ensures Nullish(v) ==> r == Ok(Undefined)
    ensures v.Arr? ==> r.Ok? && r.value.Arr? && r.value.items <= v.items
                       && |r.value.items| == if |v.items| < end then |v.items| else end
    ensures v.Str? ==> r.Ok? && r.value.Str? && r.value.s <= v.s
                       && |r.value.s| == if |v.s| < end then |v.s| else end
  {
    match v
    case Undefined => Ok(Undefined)
    case Null => Ok(Undefined)
    case Arr(items) => Ok(Arr(if |items| < end then items else items[..end]))
    case Str(s) => Ok(Str(if |s| < end then s else s[..end]))
    case _ => Err(TypeError)
  }

  /** `v?.join(sep)`: the elements' texts separated by `sep`; a TypeError on a
      value that is not an array, or on an element that does not convert to
      a string. */
  function OptionalJoin(v: Json, sep: string): (r: Result<Json, ToolError>)
    ensures r.Ok? <==> Nullish(v) || (v.Arr? && Stringable(v))
    ensures r.Err? ==> r.error == TypeError
    ensures Nullish(v) ==> r == Ok(Undefined)
    ensures v.Arr? && (forall i :: 0 <= i < |v.items| ==> v.items[i].Str?) ==>
              r == Ok(Str(Join(seq(|v.items|, i requires 0 <= i < |v.items| => v.items[i].s), sep)))
  {
    match v
    case Undefined => Ok(Undefined)
    case Null => Ok(Undefined)
    case Arr(items) =>
      if !Stringable(v) then Err(TypeError)
      else
        var parts := seq(|items|, i requires 0 <= i < |items| => ElementString(items[i]));
        if forall i :: 0 <= i < |items| ==> items[i].Str? then
          assert forall i :: 0 <= i < |items| ==> parts[i] == items[i].s by {
            forall i | 0 <= i < |items| ensures parts[i] == items[i].s {
              assert parts[i] == ElementString(items[i]);
              assert DisplayString(items[i]) == items[i].s;
            }
          }
          assert parts == seq(|items|, i requires 0 <= i < |items| => items[i].s);
          Ok(Str(Join(parts, sep)))
        else
          Ok(Str(Join(parts, sep)))
    case _ => Err(TypeError)
  }

  /** `items.map(f)` where `f` may throw: the results in order, or the first
      error raised. */
  function MapAll<T>(items: seq<Json>, f: Json -> Result<T, ToolError>): (r: Result<seq<T>, ToolError>)
    ensures r.Ok? <==> forall i :: 0 <= i < |items| ==> f(items[i]).Ok?
    ensures r.Ok? ==> |r.value| == |items| && forall i :: 0 <= i < |items| ==> f(items[i]) == Ok(r.value[i])
    ensures r.Err? ==> exists i :: 0 <= i < |items| && f(items[i]) == Err(r.error)
                                   && forall j :: 0 <= j < i ==> f(items[j]).Ok?
  {
    if items == [] then Ok([])
    else
      var head :- f(items[0]);
      var tail :- MapAll(items[1..], f);
      Ok([head] + tail)
  }

  /** `v?.map(f)`: `None` (undefined) when `v` is nullish, the mapped
      array when `v` is one, a TypeError otherwise. */
  function OptionalMap<T>(v: Json, f: Json -> Result<T, ToolError>): (r: Result<Option<seq<T>>, ToolError>)
    ensures Nullish(v) ==> r == Ok(None)
    ensures !Nullish(v) && !v.Arr? ==> r == Err(TypeError)
    ensures v.Arr? ==> (r.Ok? <==> MapAll(v.items, f).Ok?)
    ensures v.Arr? && r.Ok? ==> r.value == Some(MapAll(v.items, f).value)
  {
    match v
    case Undefined => Ok(None)
    case Null => Ok(None)
    case Arr(items) =>
      var mapped :- MapAll(items, f);
      Ok(Some(mapped))
    case _ => Err(TypeError)
  }
}
