/**
 * JavaScript values as the configuration document, the step records and the
 * shared data context hold them, with the handful of language operations the
 * core relies on: truthiness, `typeof`, property reads and writes on plain
 * objects (which keep insertion order), string conversion, `split(' ')`,
 * `join(' ')` and the relational `<` on strings.
 */
module Values {

  /** A JavaScript value. Objects keep their keys in insertion order; numbers are integers. */
  datatype Value =
    | Undef
    | Null
    | Bool(b: bool)
    | Num(n: int)
    | Str(s: string)
    | Arr(items: seq<Value>)
    | Obj(fields: seq<(string, Value)>)

  /** `!!v`: false exactly for undefined, null, false, 0 and the empty string. */
  predicate Truthy(v: Value) {
    match v
    case Undef => false
    case Null => false
    case Bool(b) => b
    case Num(n) => n != 0
    case Str(s) => s != ""
    case Arr(_) => true
    case Obj(_) => true
  }

  /** `typeof v === 'object'` (null included, as in JavaScript). */
  predicate IsObject(v: Value) {
    v.Null? || v.Arr? || v.Obj?
  }

  /** The keys of an object, in insertion order. */
  function Keys(fields: seq<(string, Value)>): (ks: seq<string>)
    ensures |ks| == |fields|
    ensures forall i :: 0 <= i < |fields| ==> ks[i] == fields[i].0
  {
    if fields == [] then [] else [fields[0].0] + Keys(fields[1..])
  }

  /** An object never holds the same key twice. */
  predicate UniqueKeys(fields: seq<(string, Value)>) {
    forall i, j :: 0 <= i < j < |fields| ==> fields[i].0 != fields[j].0
  }

  /** `obj[key]`: the value stored under `key`, or undefined. */
  function Lookup(fields: seq<(string, Value)>, key: string): Value {
    if fields == [] then Undef
    else if fields[0].0 == key then fields[0].1
    else Lookup(fields[1..], key)
  }

  /** `obj[key] = v`: an existing key keeps its position, a new key goes last. */
  function Set(fields: seq<(string, Value)>, key: string, v: Value): seq<(string, Value)> {
    if fields == [] then [(key, v)]
    else if fields[0].0 == key then [(key, v)] + fields[1..]
    else [fields[0]] + Set(fields[1..], key, v)
  }

  /** `a[k]` on an array: undefined past the end. */
  function Index(items: seq<Value>, k: nat): (v: Value)
    ensures k < |items| ==> v == items[k]
    ensures k >= |items| ==> v == Undef
  {
    if k < |items| then items[k] else Undef
  }

  lemma {:induction false} LookupSetSame(fields: seq<(string, Value)>, key: string, v: Value)
    ensures Lookup(Set(fields, key, v), key) == v
  {
    if fields != [] && fields[0].0 != key {
      LookupSetSame(fields[1..], key, v);
    }
  }

  lemma {:induction false} LookupSetOther(fields: seq<(string, Value)>, key: string, v: Value, other: string)
    requires other != key
    ensures Lookup(Set(fields, key, v), other) == Lookup(fields, other)
  {
    if fields != [] && fields[0].0 != key {
      LookupSetOther(fields[1..], key, v, other);
    }
  }

  /** Writing a key never disturbs the order of the keys already there. */
  lemma {:induction false} SetKeys(fields: seq<(string, Value)>, key: string, v: Value)
    ensures key in Keys(fields) ==> Keys(Set(fields, key, v)) == Keys(fields)
    ensures key !in Keys(fields) ==> Keys(Set(fields, key, v)) == Keys(fields) + [key]
  {
    if fields != [] && fields[0].0 != key {
      SetKeys(fields[1..], key, v);
      assert Keys(fields) == [fields[0].0] + Keys(fields[1..]);
    }
  }

  /** The decimal numeral of an integer, as `'' + n` writes it. */
  function IntToString(n: int): (s: string)
    ensures s != ""
  {
    if n < 0 then "-" + NatToString(-n) else NatToString(n)
  }

  function NatToString(n: nat): (s: string)
    ensures s != "" && '-' !in s
    decreases n
  {
    var d := ['0', '1', '2', '3', '4', '5', '6', '7', '8', '9'][n % 10];
    if n < 10 then [d] else NatToString(n / 10) + [d]
  }

  /** `String(v)`: string concatenation and property keys convert a value this way. */
  function ToString(v: Value): string
    decreases v
  {
    match v
    case Undef => "undefined"
    case Null => "null"
    case Bool(b) => if b then "true" else "false"
    case Num(n) => IntToString(n)
    case Str(s) => s
    case Obj(_) => "[object Object]"
    case Arr(items) => Join(ElementStrings(items), ",")
  }

  /** The parts Array.prototype.join puts together: undefined and null elements become empty. */
  function ElementStrings(items: seq<Value>): (parts: seq<string>)
    ensures |parts| == |items|
    decreases items
  {
    if items == [] then []
    else [if items[0].Undef? || items[0].Null? then "" else ToString(items[0])] + ElementStrings(items[1..])
  }

  /** `parts.join(sep)`. */
  function Join(parts: seq<string>, sep: string): string {
    if |parts| == 0 then ""
    else if |parts| == 1 then parts[0]
    else parts[0] + sep + Join(parts[1..], sep)
  }

  /** `s.split(sep)` for a one-character separator: always at least one part. */
  function Split(s: string, sep: char): (parts: seq<string>)
    ensures |parts| >= 1
    ensures forall i :: 0 <= i < |parts| ==> sep !in parts[i]
  {
    if s == [] then [""]
    else
      var rest := Split(s[1..], sep);
      if s[0] == sep then [""] + rest
      else [[s[0]] + rest[0]] + rest[1..]
  }

  /** Splitting on a separator and joining with it again gives back the string. */
  lemma {:induction false} JoinSplit(s: string, sep: char)
    ensures Join(Split(s, sep), [sep]) == s
  {
    if s != [] {
      var rest := Split(s[1..], sep);
      JoinSplit(s[1..], sep);
      if s[0] == sep {
        assert Split(s, sep) == [""] + rest;
      } else {
        var parts := Split(s, sep);
        assert parts == [[s[0]] + rest[0]] + rest[1..];
        if |rest| == 1 {
          assert Join(rest, [sep]) == rest[0];
        } else {
          assert Join(rest, [sep]) == rest[0] + [sep] + Join(rest[1..], [sep]);
          assert parts[1..] == rest[1..];
        }
      }
    }
  }

  /** An optional value; for numbers, None is NaN. */
  datatype Option<+T> = None | Some(value: T)

  /** A non-empty run of decimal digits. */
  predicate IsDigits(s: string) {
    |s| > 0 && forall i :: 0 <= i < |s| ==> '0' <= s[i] <= '9'
  }

  /** The number a run of decimal digits denotes. */
  function DigitsValue(s: string): nat
    requires IsDigits(s)
    decreases |s|
  {
    var last := (s[|s| - 1] as int - '0' as int) as nat;
    if |s| == 1 then last else DigitsValue(s[..|s| - 1]) * 10 + last
  }

  /**
   * `Number(s)` for the numerals this core meets: the empty string is 0, an
   * optional sign followed by decimal digits is that integer, anything else NaN.
   */
  function StringToNumber(s: string): Option<int> {
    if s == "" then Some(0)
    else if IsDigits(s) then Some(DigitsValue(s))
    else if s[0] == '-' && IsDigits(s[1..]) then Some(-(DigitsValue(s[1..]) as int))
    else if s[0] == '+' && IsDigits(s[1..]) then Some(DigitsValue(s[1..]))
    else None
  }

  /** A decimal numeral reads back as the number it was written from. */
  lemma {:induction false} NatToStringDigits(n: nat)
    ensures IsDigits(NatToString(n)) && DigitsValue(NatToString(n)) == n
    decreases n
  {
    var d := ['0', '1', '2', '3', '4', '5', '6', '7', '8', '9'][n % 10];
    if n >= 10 {
      NatToStringDigits(n / 10);
      var s := NatToString(n);
      assert s == NatToString(n / 10) + [d];
      assert s[..|s| - 1] == NatToString(n / 10);
    }
  }

  /** `Number(String(n)) === n`. */
  lemma IntToStringNumber(n: int)
    ensures StringToNumber(IntToString(n)) == Some(n)
  {
    if n < 0 {
      NatToStringDigits(-n);
      NegativeNumeral(NatToString(-n));
    } else {
      NatToStringDigits(n);
      DigitsNumeral(NatToString(n));
    }
  }

  lemma DigitsNumeral(t: string)
    requires IsDigits(t)
    ensures StringToNumber(t) == Some(DigitsValue(t))
  {
  }

  lemma NegativeNumeral(t: string)
    requires IsDigits(t)
    ensures StringToNumber("-" + t) == Some(-(DigitsValue(t) as int))
  {
    var s := "-" + t;
    SplitAt([], '-', t);
    assert s[0] == '-' && s[1..] == t;
  }

  /** `Number(v)` (the arithmetic conversion `v - 1` applies); None is NaN. */
  function ToNumber(v: Value): Option<int> {
    match v
    case Undef => None
    case Null => Some(0)
    case Bool(b) => Some(if b then 1 else 0)
    case Num(n) => Some(n)
    case Str(s) => StringToNumber(s)
    case _ => StringToNumber(ToString(v))
  }

  /** `x - 1` on a number; NaN stays NaN. */
  function Minus1(x: Option<int>): Option<int> {
    match x
    case None => None
    case Some(n) => Some(n - 1)
  }

  /** ToInteger: NaN becomes 0. */
  function ToInteger(x: Option<int>): int {
    match x
    case None => 0
    case Some(n) => n
  }

  // ---------------------------------------------------------------------------
  // lodash collection iteration: `_.forEach`, `_.each` and `_.any` on an object
  // ---------------------------------------------------------------------------

  /** `Number.MAX_SAFE_INTEGER`. */
  const MaxSafeInteger := 9007199254740991

  /**
   * The number of indices lodash's collection methods walk an object by: its
   * `length` when that is a valid array length (a non-negative integer no
   * larger than MAX_SAFE_INTEGER). None when they walk its own keys instead.
   */
  function ArrayLikeLength(fields: seq<(string, Value)>): Option<nat> {
    match Lookup(fields, "length")
    case Num(n) => if 0 <= n <= MaxSafeInteger then Some(n) else None
    case _ => None
  }

  /**
   * The `(key, value)` pairs `_.forEach(obj, fn)` hands to `fn`, in order: for
   * an array-like object the indices `0 … length - 1` (named as the property
   * each reads) with whatever is stored there, otherwise the own keys.
   */
  function Visited(fields: seq<(string, Value)>): seq<(string, Value)> {
    match ArrayLikeLength(fields)
    case None => fields
    case Some(n) => seq(n, i requires 0 <= i < n => (NatToString(i), Lookup(fields, NatToString(i))))
  }

  /**
   * An object walked by its keys hands over exactly its entries; an array-like
   * one hands over `obj[0]`, …, `obj[length - 1]` under their index names,
   * whatever other keys it has.
   */
  lemma VisitedReads(fields: seq<(string, Value)>)
    ensures ArrayLikeLength(fields).None? ==> Visited(fields) == fields
    ensures ArrayLikeLength(fields).Some? ==>
              var w := Visited(fields);
              && |w| == ArrayLikeLength(fields).value
              && forall i :: 0 <= i < |w| ==> w[i] == (NatToString(i), Lookup(fields, NatToString(i)))
  {
  }

  /** An index name is a run of decimal digits, so it is never a word key. */
  lemma VisitedKeys(fields: seq<(string, Value)>)
    ensures forall j :: 0 <= j < |Visited(fields)| ==>
              if ArrayLikeLength(fields).Some? then IsDigits(Visited(fields)[j].0)
              else Visited(fields)[j] == fields[j]
  {
    forall j | 0 <= j < |Visited(fields)| && ArrayLikeLength(fields).Some?
      ensures IsDigits(Visited(fields)[j].0)
    {
      NatToStringDigits(j);
    }
  }

  /** Distinct indices have distinct names. */
  lemma NatToStringInjective(a: nat, b: nat)
    requires a != b
    ensures NatToString(a) != NatToString(b)
  {
    NatToStringDigits(a);
    NatToStringDigits(b);
  }

  /** The walk never hands over the same key twice: index names are distinct, own keys already are. */
  lemma VisitedUnique(fields: seq<(string, Value)>)
    ensures UniqueKeys(fields) || ArrayLikeLength(fields).Some? ==> UniqueKeys(Visited(fields))
  {
    if ArrayLikeLength(fields).Some? {
      forall i, j | 0 <= i < j < |Visited(fields)|
        ensures Visited(fields)[i].0 != Visited(fields)[j].0
      {
        NatToStringInjective(i, j);
      }
    }
  }

  /** How deeply objects nest inside `v` (arrays are not entered). */
  function Depth(v: Value): nat
    decreases v, 1
  {
    if v.Obj? then 1 + FieldsDepth(v, |v.fields|) else 0
  }

  /** The greatest depth among the first `n` values of the object `v`. */
  function FieldsDepth(v: Value, n: nat): nat
    requires v.Obj? && n <= |v.fields|
    decreases v, 0, n
  {
    if n == 0 then 0
    else
      assert v.fields[n - 1] in v.fields;
      var d, rest := Depth(v.fields[n - 1].1), FieldsDepth(v, n - 1);
      if d < rest then rest else d
  }

  lemma {:induction false} FieldsDepthBound(v: Value, n: nat, i: nat)
    requires v.Obj? && i < n <= |v.fields|
    ensures Depth(v.fields[i].1) <= FieldsDepth(v, n)
    decreases n
  {
    if i < n - 1 {
      FieldsDepthBound(v, n - 1, i);
    }
  }

  /** A value read from an object is undefined or one of its entries' values. */
  lemma {:induction false} LookupFound(fields: seq<(string, Value)>, key: string) returns (i: nat)
    ensures Lookup(fields, key) != Undef ==> i < |fields| && fields[i].1 == Lookup(fields, key)
  {
    i := 0;
    if fields != [] && fields[0].0 != key {
      var k := LookupFound(fields[1..], key);
      i := k + 1;
    }
  }

  /** Every value the walk hands over is less deeply nested than the object walked. */
  lemma VisitedDepth(fields: seq<(string, Value)>, j: nat)
    requires j < |Visited(fields)|
    ensures Depth(Visited(fields)[j].1) < Depth(Obj(fields))
  {
    var val := Visited(fields)[j].1;
    if ArrayLikeLength(fields).None? {
      FieldsDepthBound(Obj(fields), |fields|, j);
    } else {
      var i := LookupFound(fields, NatToString(j));
      if val != Undef {
        FieldsDepthBound(Obj(fields), |fields|, i);
      }
    }
  }

  /** A relative index of `slice` made absolute: a negative one counts from the end; both are clamped to the list. */
  function RelativeIndex(rel: int, len: nat): (k: nat)
    ensures k <= len
    ensures 0 <= rel <= len ==> k == rel
    ensures -(len as int) <= rel < 0 ==> k == len + rel
    ensures rel < -(len as int) ==> k == 0
    ensures rel > len ==> k == len
  {
    if rel < 0 then (if len + rel < 0 then 0 else len + rel)
    else if rel < len then rel else len
  }

  /** `Array.prototype.slice(start, end)` (section 15.4.4.10 of ECMA-262, 5.1 edition) with both arguments given. */
  function Slice<T>(s: seq<T>, start: int, end: int): (r: seq<T>)
    ensures RelativeIndex(start, |s|) < RelativeIndex(end, |s|) ==> r == s[RelativeIndex(start, |s|)..RelativeIndex(end, |s|)]
    ensures RelativeIndex(start, |s|) >= RelativeIndex(end, |s|) ==> r == []
  {
    var k, f := RelativeIndex(start, |s|), RelativeIndex(end, |s|);
    if k < f then s[k..f] else []
  }

  /** The relational `a < b` on two strings: code-unit by code-unit, a proper prefix is smaller. */
  predicate StringLess(a: string, b: string) {
    if b == [] then false
    else if a == [] then true
    else if a[0] != b[0] then a[0] < b[0]
    else StringLess(a[1..], b[1..])
  }

  // Sequence facts stated once for any element type: proving them on strings
  // directly costs the solver far more.

  lemma PrefixNext<T>(s: seq<T>, j: nat)
    requires j < |s|
    ensures s[..j + 1] == s[..j] + [s[j]]
  {
  }

  lemma PrefixAll<T>(s: seq<T>)
    ensures s[..|s|] == s
  {
  }

  lemma AppendNothing<T>(s: seq<T>)
    ensures s + [] == s && [] + s == s
  {
  }

  lemma AppendAssoc<T>(a: seq<T>, b: seq<T>, c: seq<T>)
    ensures a + (b + c) == (a + b) + c
  {
  }

  lemma DropNothing<T>(s: seq<T>)
    ensures s[0..] == s
  {
  }

  /** `path + [x] + rest`, read as the path followed by a list that starts with `x`. */
  lemma SplitAt<T>(path: seq<T>, x: T, rest: seq<T>)
    ensures [] + path == path
    ensures path + [x] + rest == path + ([x] + rest)
    ensures ([x] + rest)[0] == x && ([x] + rest)[1..] == rest
  {
  }

  /** Comparing numerals as strings is not comparing the numbers: `'10' < '2'`. */
  lemma NumeralOrderIsNotNumeric()
    ensures StringLess(NatToString(10), NatToString(2))
    ensures !StringLess(NatToString(2), NatToString(10))
  {
    assert NatToString(10) == "10";
    assert NatToString(2) == "2";
  }
}

/** The error variants of lib/errors.js, and the engine errors the core can raise. */
module Errors {

  datatype Error =
    | User(message: string)        // Errors.User: the requested command does not exist
    | Config(message: string)      // Errors.Config: the configuration is unusable here
    | TypeError(message: string)   // an engine TypeError (property of undefined, missing constructor)
    | TemplateError(message: string) // Handlebars.compile given something other than a string
    | Overflow                     // the engine's call stack overflowed (an include chain too deep)
    | RangeError(message: string)  // an engine RangeError (`new Array(NaN)`)

  datatype Result<+T> = Ok(value: T) | Err(error: Error)
}
