/**
 * JSON values as the client builds and receives them, with the two pieces of JavaScript
 * semantics the core relies on: truthiness (used by `&&`, `||` and `if`) and the
 * conversion of a value to a string inside a template literal.
 */
module JsonValue {
  import opened Wrappers

  /** A JSON value. Numbers are integers here; objects map keys to values. */
  datatype Json =
    | JNull
    | JBool(b: bool)
    | JNum(n: int)
    | JStr(s: string)
    | JArr(items: seq<Json>)
    | JObj(fields: map<string, Json>)

  /** JavaScript truthiness: `null`, `false`, `0` and `""` are falsy; arrays and objects,
      even empty ones, are truthy. */
  predicate Truthy(j: Json)
    ensures Truthy(j) <==> j != JNull && j != JBool(false) && j != JNum(0) && j != JStr("")
  {
    match j
    case JNull => false
    case JBool(b) => b
    case JNum(n) => n != 0
    case JStr(s) => s != ""
    case JArr(_) => true
    case JObj(_) => true
  }

  /** Property access `j.key` on a parsed value; `None` stands for `undefined`. */
  function Property(j: Json, key: string): (r: Option<Json>)
    ensures r.Some? <==> j.JObj? && key in j.fields
    ensures r.Some? ==> r.value == j.fields[key]
  {
    if j.JObj? && key in j.fields then Some(j.fields[key]) else None
  }

  /** The spread `...(guard && { key: guard })`: the key is added exactly when the value
      is present and truthy, since spreading a falsy primitive adds nothing. */
  function SpreadIfTruthy(key: string, v: Option<Json>): (m: map<string, Json>)
    ensures key in m <==> v.Some? && Truthy(v.value)
    ensures m.Keys <= {key}
    ensures key in m ==> m[key] == v.value
  {
    if v.Some? && Truthy(v.value) then map[key := v.value] else map[]
  }

  predicate IsDigit(c: char)
  {
    '0' <= c <= '9'
  }

  predicate AllDigits(s: string)
  {
    forall i :: 0 <= i < |s| ==> IsDigit(s[i])
  }

  function DigitChar(d: nat): (c: char)
    requires d < 10
    ensures IsDigit(c) && c as int - '0' as int == d
  {
    ('0' as int + d) as char
  }

  /** Decimal digits of `n`, most significant first, without leading zeros. */
  function NatToString(n: nat): (s: string)
    ensures 1 <= |s|
    ensures AllDigits(s)
    ensures |s| > 1 ==> s[0] != '0'
    decreases n
  {
    if n < 10 then [DigitChar(n)] else NatToString(n / 10) + [DigitChar(n % 10)]
  }

  /** How JavaScript writes an integer-valued number as a string. */
  function IntToString(n: int): (s: string)
    ensures 1 <= |s|
    ensures n >= 0 ==> AllDigits(s)
    ensures n < 0 ==> s[0] == '-' && AllDigits(s[1..])
  {
    if n >= 0 then NatToString(n) else "-" + NatToString(-n)
  }

  /** The value of a string of decimal digits. */
  function ParseNat(s: string): nat
    requires AllDigits(s)
    decreases |s|
  {
    if s == [] then 0 else ParseNat(s[..|s| - 1]) * 10 + (s[|s| - 1] as int - '0' as int)
  }

  /** Reading the digits back gives the number: the decimal form loses nothing. */
  lemma {:induction false} ParseNatToString(n: nat)
    ensures ParseNat(NatToString(n)) == n
    decreases n
  {
    if n >= 10 {
      var s := NatToString(n);
      ParseNatToString(n / 10);
      assert s[..|s| - 1] == NatToString(n / 10);
    }
  }

  /** The value of the text `IntToString` writes: an optional minus sign, then digits. */
  function ParseInt(s: string): int
    requires s != [] && (if s[0] == '-' then AllDigits(s[1..]) else AllDigits(s))
  {
    if s[0] == '-' then 0 - ParseNat(s[1..]) as int else ParseNat(s)
  }

  /** Reading a number detail back gives the number, negative ones included. */
  lemma {:induction false} ParseIntToString(n: int)
    ensures ParseInt(IntToString(n)) == n
  {
    if n >= 0 {
      ParseNatToString(n);
      assert IntToString(n)[0] != '-';
    } else {
      ParseNatToString(-n);
      assert IntToString(n)[1..] == NatToString(-n);
    }
  }

  /** The longest prefix of `s` made of decimal digits. */
  function LeadingDigits(s: string): (d: string)
    ensures AllDigits(d) && d <= s
    ensures |d| < |s| ==> !IsDigit(s[|d|])
    decreases |s|
  {
    if s != [] && IsDigit(s[0]) then [s[0]] + LeadingDigits(s[1..]) else []
  }

  /** A run of digits followed by a non-digit is exactly what `LeadingDigits` picks up. */
  lemma {:induction false} LeadingDigitsOf(d: string, rest: string)
    requires AllDigits(d)
    requires rest != [] && !IsDigit(rest[0])
    ensures LeadingDigits(d + rest) == d
    decreases |d|
  {
    if d != [] {
      assert (d + rest)[1..] == d[1..] + rest;
      LeadingDigitsOf(d[1..], rest);
    }
  }

  /** `String(j)`, as used when a value is interpolated into a template literal; `None`
      when that conversion throws a `TypeError`. An object converts through its inherited
      `toString` to `[object Object]`, unless it has an own `toString` key: parsed JSON can
      only give it a non-callable value, and `valueOf` returns the object itself, so no
      primitive is found. An array joins its elements with commas, writing `null` elements
      as empty strings, and throws if one of its elements does. */
  function JsString(j: Json): (s: Option<string>)
    ensures j.JStr? ==> s == Some(j.s)
    ensures j.JObj? ==> (s.None? <==> "toString" in j.fields)
    ensures j.JNull? || j.JBool? || j.JNum? ==> s.Some?
    ensures j.JNum? ==> s == Some(IntToString(j.n))
    decreases j, 1, 0
  {
    match j
    case JNull => Some("null")
    case JBool(b) => Some(if b then "true" else "false")
    case JNum(n) => Some(IntToString(n))
    case JStr(s) => Some(s)
    case JArr(items) => JoinElements(items, j)
    case JObj(fields) => if "toString" in fields then None else Some("[object Object]")
  }

  function JoinElements(items: seq<Json>, ghost parent: Json): Option<string>
    requires forall x | x in items :: x < parent
    decreases parent, 0, |items|
  {
    if items == [] then Some("")
    else
      assert items[0] in items;
      assert forall x | x in items[1..] :: x in items;
      var head := if items[0].JNull? then Some("") else JsString(items[0]);
      if head.None? then None
      else if |items| == 1 then head
      else
        var tail := JoinElements(items[1..], parent);
        if tail.None? then None else Some(head.value + "," + tail.value)
  }

  /** Different numbers have different decimal forms. */
  lemma NatToStringInjective()
    ensures forall i: nat, j: nat :: NatToString(i) == NatToString(j) ==> i == j
  {
    forall i: nat, j: nat | NatToString(i) == NatToString(j)
      ensures i == j
    {
      ParseNatToString(i);
      ParseNatToString(j);
    }
  }

  /** No index below `n` has the same key as `n`. */
  lemma EarlierIndicesDiffer(n: nat)
    ensures forall i :: 0 <= i < n ==> NatToString(i) != NatToString(n)
  {
    forall i | 0 <= i < n
      ensures NatToString(i) != NatToString(n)
    {
      ParseNatToString(i);
      ParseNatToString(n);
    }
  }

  /** The properties of an array-like value: element `i` under the key `String(i)`, and
      no other key. */
  function IndexEntries(items: seq<Json>): (m: map<string, Json>)
    ensures forall i :: 0 <= i < |items| ==> NatToString(i) in m && m[NatToString(i)] == items[i]
    ensures forall k :: k in m ==> exists i :: 0 <= i < |items| && k == NatToString(i)
    decreases |items|
  {
    if items == [] then map[]
    else
      EarlierIndicesDiffer(|items| - 1);
      IndexEntries(items[..|items| - 1])[NatToString(|items| - 1) := items[|items| - 1]]
  }

  /** The own enumerable properties that an object spread `{...j}` copies: an object's
      fields, the indices of an array or string, and nothing for other primitives. */
  function SpreadFields(j: Json): (m: map<string, Json>)
    ensures j.JObj? ==> m == j.fields
    ensures j.JNull? || j.JBool? || j.JNum? ==> m == map[]
    ensures j.JArr? ==> forall i :: 0 <= i < |j.items| ==> NatToString(i) in m && m[NatToString(i)] == j.items[i]
    ensures j.JArr? ==> forall k :: k in m ==> exists i :: 0 <= i < |j.items| && k == NatToString(i)
    ensures j.JStr? ==> forall i :: 0 <= i < |j.s| ==> NatToString(i) in m && m[NatToString(i)] == JStr([j.s[i]])
    ensures j.JStr? ==> forall k :: k in m ==> exists i :: 0 <= i < |j.s| && k == NatToString(i)
  {
    match j
    case JObj(fields) => fields
    case JArr(items) => IndexEntries(items)
    case JStr(s) => IndexEntries(seq(|s|, i requires 0 <= i < |s| => JStr([s[i]])))
    case _ => map[]
  }
}
