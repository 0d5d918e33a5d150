/**
 * The JavaScript built-ins the client relies on: `toLowerCase`/`toUpperCase`
 * restricted to the ASCII letters, `<` on strings (used by
 * `Array.prototype.sort` without a comparator), `join`, the decimal
 * rendering of a non-negative integer inside a template literal, and a
 * property read on an object literal, which also finds what the object
 * inherits from `Object.prototype`.
 */
module Text {
  import opened Wrappers

  predicate IsUpper(c: char) { 'A' <= c <= 'Z' }
  predicate IsLower(c: char) { 'a' <= c <= 'z' }
  predicate IsDigit(c: char) { '0' <= c <= '9' }

  /** `c.toLowerCase()` on ASCII letters; every other character is kept. */
  function LowerChar(c: char): (r: char)
    ensures !IsUpper(r)
    ensures IsUpper(c) ==> IsLower(r) && (r as int) - ('a' as int) == (c as int) - ('A' as int)
    ensures !IsUpper(c) ==> r == c
  {
    if IsUpper(c) then (c as int + 32) as char else c
  }

  /** `c.toUpperCase()` on ASCII letters; every other character is kept. */
  function UpperChar(c: char): (r: char)
    ensures !IsLower(r)
    ensures IsLower(c) ==> IsUpper(r) && LowerChar(r) == c
    ensures !IsLower(c) ==> r == c
  {
    if IsLower(c) then (c as int - 32) as char else c
  }

  /** `s.toLowerCase()` restricted to ASCII letters. */
  function Lower(s: string): (r: string)
    ensures |r| == |s|
    ensures forall i :: 0 <= i < |s| ==> r[i] == LowerChar(s[i])
  {
    if s == [] then [] else [LowerChar(s[0])] + Lower(s[1..])
  }

  /** `s.toUpperCase()` restricted to ASCII letters. */
  function Upper(s: string): (r: string)
    ensures |r| == |s|
    ensures forall i :: 0 <= i < |s| ==> r[i] == UpperChar(s[i])
  {
    if s == [] then [] else [UpperChar(s[0])] + Upper(s[1..])
  }

  /** Lower-casing leaves a string without upper-case letters as it is. */
  lemma LowerKeeps(s: string)
    requires forall i :: 0 <= i < |s| ==> !IsUpper(s[i])
    ensures Lower(s) == s
  {
  }

  /** A string whose characters lower-case one by one to those of t lower-cases to t. */
  lemma LowerMatches(s: string, t: string)
    requires |s| == |t| && forall j :: 0 <= j < |s| ==> LowerChar(s[j]) == t[j]
    ensures Lower(s) == t
  {
  }

  /** Lower-casing twice is lower-casing once. */
  lemma LowerIdempotent(s: string)
    ensures Lower(Lower(s)) == Lower(s)
  {
  }

  /** JavaScript's `a < b` on strings: lexicographic, a proper prefix is smaller. */
  predicate Less(a: string, b: string)
    ensures Less(a, b) ==> a != b
    ensures |a| < |b| && b[..|a|] == a ==> Less(a, b)
  {
    if a == [] then b != []
    else if b == [] then false
    else if a[0] != b[0] then a[0] < b[0]
    else
      assert |a| < |b| && b[..|a|] == a ==> b[1..][..|a| - 1] == a[1..];
      Less(a[1..], b[1..])
  }

  /** At most one of a < b and b < a holds, and neither holds exactly when a == b. */
  lemma {:induction false} LessTrichotomy(a: string, b: string)
    ensures a == b <==> !Less(a, b) && !Less(b, a)
    ensures !(Less(a, b) && Less(b, a))
  {
    if a != [] && b != [] && a[0] == b[0] {
      LessTrichotomy(a[1..], b[1..]);
      assert a == [a[0]] + a[1..] && b == [b[0]] + b[1..];
    }
  }

  /** `Less` is transitive, so with `LessTrichotomy` it is a strict total order. */
  lemma {:induction false} LessTransitive(a: string, b: string, c: string)
    requires Less(a, b) && Less(b, c)
    ensures Less(a, c)
  {
    if a != [] && b != [] && c != [] && a[0] == b[0] && b[0] == c[0] {
      LessTransitive(a[1..], b[1..], c[1..]);
    }
  }

  /** `xs.join(sep)`. */
  function Join(xs: seq<string>, sep: string): (r: string)
    ensures xs == [] ==> r == []
    ensures |xs| == 1 ==> r == xs[0]
  {
    if xs == [] then []
    else if |xs| == 1 then xs[0]
    else xs[0] + sep + Join(xs[1..], sep)
  }

  function DigitChar(d: nat): (c: char)
    requires d < 10
    ensures IsDigit(c)
  {
    ('0' as int + d) as char
  }

  predicate AllDigits(s: string)
  {
    forall i :: 0 <= i < |s| ==> IsDigit(s[i])
  }

  /** The number a string of decimal digits denotes. */
  function DigitsValue(s: string): nat
    requires AllDigits(s)
  {
    if s == [] then 0
    else DigitsValue(s[..|s| - 1]) * 10 + (s[|s| - 1] as int - '0' as int)
  }

  /** `${n}` for a non-negative integer: non-empty, all digits, no leading zero, denoting n. */
  function Decimal(n: nat): (r: string)
    ensures r != [] && AllDigits(r)
    ensures |r| > 1 ==> r[0] != '0'
    ensures DigitsValue(r) == n
  {
    if n < 10 then [DigitChar(n)]
    else
      var rest := Decimal(n / 10);
      var r := rest + [DigitChar(n % 10)];
      assert r[..|r| - 1] == rest;
      r
  }

  /** Distinct numbers are rendered as distinct strings. */
  lemma DecimalInjective(m: nat, n: nat)
    requires Decimal(m) == Decimal(n)
    ensures m == n
  {
  }

  /** True iff `s` starts with `p` (`s.startsWith(p)`). */
  predicate StartsWith(s: string, p: string)
  {
    |p| <= |s| && s[..|p|] == p
  }

  /** True iff `s` ends with `p` (`s.endsWith(p)`). */
  predicate EndsWith(s: string, p: string)
  {
    |p| <= |s| && s[|s| - |p|..] == p
  }

  /** JavaScript truthiness of a possibly absent string: present and non-empty. */
  predicate Truthy(s: Option<string>)
  {
    s.Some? && s.value != ""
  }

  /** A property value: a string, or an object (a function included) with the text a template literal gives it. */
  datatype Value = StringValue(s: string) | ObjectValue(text: string)
  {
    /** Truthiness: the empty string is falsy, every object is truthy. */
    predicate IsTruthy()
    {
      StringValue? ==> s != ""
    }

    /** `${value}`. */
    function Rendered(): string
    {
      if StringValue? then s else text
    }
  }

  /** `${Object}` and `${Object.prototype}`, in V8's wording. */
  const ObjectFunctionText := "function Object() { [native code] }"
  const ObjectPrototypeText := "[object Object]"

  /** The methods of `Object.prototype` other than `constructor`; each name has an upper-case letter. */
  const PrototypeMethods: seq<string> := ["hasOwnProperty", "isPrototypeOf", "propertyIsEnumerable",
    "toString", "toLocaleString", "valueOf", "__defineGetter__", "__defineSetter__",
    "__lookupGetter__", "__lookupSetter__"]

  /** A property every object literal inherits from `Object.prototype`; None where there is none (`undefined`). */
  function InheritedProperty(key: string): (v: Option<Value>)
    ensures v.Some? <==> key == "constructor" || key == "__proto__" || key in PrototypeMethods
    ensures v.Some? ==> v.value.ObjectValue? && v.value.IsTruthy()
    ensures key == "constructor" ==> v == Some(ObjectValue(ObjectFunctionText))
    ensures key == "__proto__" ==> v == Some(ObjectValue(ObjectPrototypeText))
  {
    if key == "constructor" then Some(ObjectValue(ObjectFunctionText))
    else if key == "__proto__" then Some(ObjectValue(ObjectPrototypeText))
    else if key in PrototypeMethods then Some(ObjectValue("function " + key + "() { [native code] }"))
    else None
  }

  /** `obj[key]` on an object literal with string values: an own property first, else an inherited one. */
  function PropertyRead(obj: map<string, string>, key: string): Option<Value>
  {
    if key in obj then Some(StringValue(obj[key])) else InheritedProperty(key)
  }

  predicate HasUpper(s: string)
  {
    exists i :: 0 <= i < |s| && IsUpper(s[i])
  }

  /** A lower-cased key reaches only the two inherited properties whose names are lower-case. */
  lemma LowerCaseInheritedNames(s: string)
    ensures InheritedProperty(Lower(s)).Some? <==> Lower(s) == "constructor" || Lower(s) == "__proto__"
  {
    var m := PrototypeMethods;
    assert IsUpper(m[0][3]) && IsUpper(m[1][2]) && IsUpper(m[2][8]) && IsUpper(m[3][2]) && IsUpper(m[4][2]);
    assert IsUpper(m[5][5]) && IsUpper(m[6][8]) && IsUpper(m[7][8]) && IsUpper(m[8][8]) && IsUpper(m[9][8]);
    assert forall i :: 0 <= i < |m| ==> HasUpper(m[i]);
    assert !HasUpper(Lower(s));
  }

  /** No element occurs twice. */
  predicate Distinct<T(==)>(s: seq<T>)
  {
    forall i, j :: 0 <= i < j < |s| ==> s[i] != s[j]
  }

  /** A sequence without repetitions has as many distinct elements as entries. */
  lemma {:induction false} DistinctElements<T>(s: seq<T>)
    requires Distinct(s)
    ensures |set x | x in s| == |s|
  {
    if s != [] {
      DistinctElements(s[1..]);
      assert (set x | x in s) == (set x | x in s[1..]) + {s[0]};
    }
  }
}
