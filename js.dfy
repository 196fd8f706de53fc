/** The JavaScript values and built-ins the core relies on, stated over Dafny values:
    thrown values, completions of calls into foreign services, JSON documents and their
    truthiness, `\s` / `String.prototype.trim`, `Array.prototype.join`, and the decimal
    rendering of integers that template literals perform. */
module Js {

  datatype Option<+T> = None | Some(value: T)

  /** A thrown value as the core inspects it: a non-null object, since the catch blocks that
      look at what they caught read its properties. `status` is `Some(n)` exactly when its
      `status` property is the number `n`; `message` is `Some(m)` when its `message` property
      is the string `m` (an `Error`), and `None` when it is undefined. A thrown `null` or
      `undefined` has no `JsError`. */
  datatype JsError = JsError(status: Option<int>, message: Option<string>)

  /** How a call into a foreign service ends: it returns a value or throws. */
  datatype Completion<+T> = Normal(value: T) | Throw(error: JsError)

  /** `${x}` of a value that may be undefined. */
  function Render(s: Option<string>): string {
    match s
    case Some(m) => m
    case None => "undefined"
  }

  /** The characters of `\s` in a regular expression, which are also those
      `String.prototype.trim` removes: the WhiteSpace and LineTerminator code points. */
  predicate IsSpace(c: char)
    ensures c == ' ' || c == '\t' || c == '\n' || c == '\r' ==> IsSpace(c)
    ensures ('0' <= c <= '9' || 'a' <= c <= 'z' || 'A' <= c <= 'Z'
             || c == ',' || c == '[' || c == ']' || c == '{' || c == '}' || c == '"' || c == ':')
            ==> !IsSpace(c)
  {
    || c == '\t' || c == '\n' || c == '\U{000B}' || c == '\U{000C}' || c == '\r'
    || c == ' ' || c == '\U{00A0}' || c == '\U{1680}'
    || ('\U{2000}' <= c <= '\U{200A}')
    || c == '\U{2028}' || c == '\U{2029}' || c == '\U{202F}' || c == '\U{205F}'
    || c == '\U{3000}' || c == '\U{FEFF}'
  }

  /** The length of the white space that starts `s`, as much as there is: the run `\s*`
      matches greedily and `trim` removes from the front. */
  function LeadingSpace(s: string): (k: nat)
    ensures k <= |s|
    ensures forall i :: 0 <= i < k ==> IsSpace(s[i])
    ensures k == |s| || !IsSpace(s[k])
  {
    if s != [] && IsSpace(s[0]) then 1 + LeadingSpace(s[1..]) else 0
  }

  /** The white space run of `t + u` is that of `t` when it ends inside `t`, and otherwise
      runs on into `u`. */
  lemma {:induction false} LeadingSpaceAppend(t: string, u: string)
    ensures LeadingSpace(t + u) == if LeadingSpace(t) < |t| then LeadingSpace(t) else |t| + LeadingSpace(u)
    decreases |t|
  {
    if t != [] {
      assert (t + u)[0] == t[0];
      if IsSpace(t[0]) {
        assert (t + u)[1..] == t[1..] + u;
        LeadingSpaceAppend(t[1..], u);
      }
    } else {
      assert t + u == u;
    }
  }

  /** The length of the white space that ends `s`, as much as there is. */
  function TrailingSpace(s: string): (k: nat)
    ensures k <= |s|
    ensures forall i :: |s| - k <= i < |s| ==> IsSpace(s[i])
    ensures k == |s| || !IsSpace(s[|s| - k - 1])
  {
    if s != [] && IsSpace(s[|s| - 1]) then 1 + TrailingSpace(s[..|s| - 1]) else 0
  }

  /** `String.prototype.trim`: the text between the leading and the trailing white space; it
      neither starts nor ends with white space. */
  function Trim(s: string): (r: string)
    ensures var i := LeadingSpace(s); i + |r| <= |s| && r == s[i..i + |r|]
    ensures r == [] || (!IsSpace(r[0]) && !IsSpace(r[|r| - 1]))
  {
    var i := LeadingSpace(s);
    var t := s[i..];
    var j := |t| - TrailingSpace(t);
    var r := t[..j];
    assert r == s[i..i + j];
    assert r != [] ==> r[0] == s[i] && r[j - 1] == t[|t| - TrailingSpace(t) - 1];
    r
  }

  /** What `trim` drops, before and after the text it keeps, is all white space. */
  lemma TrimDropsOnlySpace(s: string)
    ensures var i := LeadingSpace(s); var r := Trim(s);
      && (forall k :: 0 <= k < i ==> IsSpace(s[k]))
      && (forall k :: i + |r| <= k < |s| ==> IsSpace(s[k]))
  {
    var i := LeadingSpace(s);
    var t := s[i..];
    assert |Trim(s)| == |t| - TrailingSpace(t);
    forall k | i + |Trim(s)| <= k < |s| ensures IsSpace(s[k]) {
      assert s[k] == t[k - i];
    }
  }

  /** Trimming twice is trimming once. */
  lemma TrimIdempotent(s: string)
    ensures Trim(Trim(s)) == Trim(s)
  {
    var r := Trim(s);
    if r != [] {
      assert LeadingSpace(r) == 0;
      assert TrailingSpace(r) == 0;
      assert r[0..][..|r| - 0] == r;
    }
  }

  /** `parts.join(sep)`: it opens with the first part and closes with the last. */
  function Join(parts: seq<string>, sep: string): (r: string)
    ensures parts == [] ==> r == ""
    ensures parts != [] ==> parts[0] <= r
    ensures parts != [] ==> |parts[|parts| - 1]| <= |r| && r[|r| - |parts[|parts| - 1]|..] == parts[|parts| - 1]
  {
    if |parts| == 0 then ""
    else if |parts| == 1 then parts[0]
    else parts[0] + sep + Join(parts[1..], sep)
  }

  function TotalLength(parts: seq<string>): nat {
    if parts == [] then 0 else |parts[0]| + TotalLength(parts[1..])
  }

  /** Joining two non-empty lists is joining each and putting one separator between the two:
      the parts stay in their order and nothing else is inserted. */
  lemma {:induction false} JoinConcat(a: seq<string>, b: seq<string>, sep: string)
    requires a != [] && b != []
    ensures Join(a + b, sep) == Join(a, sep) + sep + Join(b, sep)
  {
    if |a| == 1 {
      assert a + b == [a[0]] + b;
      assert (a + b)[1..] == b;
    } else {
      assert (a + b)[0] == a[0];
      assert (a + b)[1..] == a[1..] + b;
      JoinConcat(a[1..], b, sep);
      var x, y, z := Join(a[1..], sep), sep, Join(b, sep);
      ConcatAssociative(a[0] + sep, x + y, z);
      ConcatAssociative(a[0] + sep, x, y);
    }
  }

  lemma ConcatAssociative(x: string, y: string, z: string)
    ensures x + (y + z) == (x + y) + z
  {
  }

  /** The joined text holds every part and one separator between each neighbouring pair. */
  lemma {:induction false} JoinLength(parts: seq<string>, sep: string)
    requires parts != []
    ensures |Join(parts, sep)| == TotalLength(parts) + (|parts| - 1) * |sep|
  {
    if |parts| > 1 {
      JoinLength(parts[1..], sep);
    }
  }

  function Digit(d: nat): (c: char)
    requires d < 10
    ensures '0' <= c <= '9'
  {
    "0123456789"[d]
  }

  predicate IsDigits(s: string) {
    forall i :: 0 <= i < |s| ==> '0' <= s[i] <= '9'
  }

  /** The decimal rendering of a natural number, without leading zeros. */
  function NatToDecimal(n: nat): (r: string)
    ensures |r| >= 1 && IsDigits(r)
    ensures |r| > 1 ==> r[0] != '0'
  {
    if n < 10 then [Digit(n)] else NatToDecimal(n / 10) + [Digit(n % 10)]
  }

  /** Reads a string of decimal digits back as a number. */
  function DecimalValue(s: string): nat
    requires IsDigits(s)
  {
    if s == [] then 0 else 10 * DecimalValue(s[..|s| - 1]) + (s[|s| - 1] as int - '0' as int)
  }

  /** The decimal rendering reads back as the number it renders. */
  lemma {:induction false} NatToDecimalRoundTrip(n: nat)
    ensures DecimalValue(NatToDecimal(n)) == n
  {
    var r := NatToDecimal(n);
    if n >= 10 {
      NatToDecimalRoundTrip(n / 10);
      assert r[..|r| - 1] == NatToDecimal(n / 10);
    }
    assert "0123456789"[n % 10] as int - '0' as int == n % 10;
  }

  /** `${n}` for an integer `n` (within the range JavaScript prints without an exponent). */
  function IntToString(n: int): (r: string)
    ensures |r| >= 1 && (r[0] == '-' <==> n < 0)
    ensures n >= 0 ==> IsDigits(r) && DecimalValue(r) == n
    ensures n < 0 ==> IsDigits(r[1..]) && DecimalValue(r[1..]) == -n
  {
    if n < 0 then
      var digits := NatToDecimal(-n);
      NatToDecimalRoundTrip(-n);
      assert ("-" + digits)[1..] == digits;
      "-" + digits
    else
      NatToDecimalRoundTrip(n);
      NatToDecimal(n)
  }

  /** The parts written one after the other, as a template literal does. */
  function Concat(parts: seq<string>): string {
    if parts == [] then "" else Concat(parts[..|parts| - 1]) + parts[|parts| - 1]
  }

  lemma ConcatStep(parts: seq<string>, k: nat)
    requires k < |parts|
    ensures Concat(parts[..k + 1]) == Concat(parts[..k]) + parts[k]
  {
    assert parts[..k + 1][..k] == parts[..k];
  }

  lemma {:induction false} ConcatPrefix(parts: seq<string>, k: nat)
    requires k <= |parts|
    ensures Concat(parts[..k]) <= Concat(parts)
    decreases |parts|
  {
    if k < |parts| {
      var n := |parts| - 1;
      assert parts[..n][..k] == parts[..k];
      ConcatPrefix(parts[..n], k);
    } else {
      assert parts[..k] == parts;
    }
  }

  lemma Concat3(p: seq<string>)
    requires |p| == 3
    ensures Concat(p) == p[0] + p[1] + p[2]
  {
    var a, b := p[..1], p[..2];
    assert a[..0] == [] && a[0] == p[0];
    assert Concat(a) == p[0];
    assert b[..1] == a && b[1] == p[1];
    assert Concat(b) == p[0] + p[1];
    assert p[..2] == b;
  }

  lemma Concat5(p: seq<string>)
    requires |p| == 5
    ensures Concat(p) == p[0] + p[1] + p[2] + p[3] + p[4]
  {
    var q := p[..3];
    Concat3(q);
    ConcatStep(p, 3);
    ConcatStep(p, 4);
    assert p[..5] == p;
  }

  lemma Concat6(p: seq<string>)
    requires |p| == 6
    ensures Concat(p) == p[0] + p[1] + p[2] + p[3] + p[4] + p[5]
  {
    Concat5(p[..5]);
    ConcatStep(p, 5);
    assert p[..6] == p;
  }

  lemma Concat11(p: seq<string>)
    requires |p| == 11
    ensures Concat(p) == p[0] + p[1] + p[2] + p[3] + p[4] + p[5] + p[6] + p[7] + p[8] + p[9] + p[10]
  {
    Concat6(p[..6]);
    ConcatStep(p, 6);
    ConcatStep(p, 7);
    ConcatStep(p, 8);
    ConcatStep(p, 9);
    ConcatStep(p, 10);
    assert p[..11] == p;
  }

  /** `s` is made of `parts` in order: each part sits at the offset where the parts before
      it end, and `s` ends where the last part ends. */
  predicate Places(s: string, parts: seq<string>) {
    && |s| == |Concat(parts)|
    && forall i :: 0 <= i < |parts| ==> At(s, |Concat(parts[..i])|, parts[i])
  }

  /** Writing the parts one after the other places every part at its offset. */
  lemma ConcatPlaces(parts: seq<string>)
    ensures Places(Concat(parts), parts)
  {
    forall i | 0 <= i < |parts| ensures At(Concat(parts), |Concat(parts[..i])|, parts[i]) {
      ConcatPrefix(parts, i + 1);
      ConcatStep(parts, i);
      PartAfterPrefix(Concat(parts[..i]), parts[i], Concat(parts));
    }
  }

  /** A text made of the parts is their concatenation: nothing else fits. */
  lemma {:induction false} PlacesDetermines(s: string, parts: seq<string>)
    requires Places(s, parts)
    ensures s == Concat(parts)
    decreases |parts|
  {
    if parts != [] {
      var n := |parts| - 1;
      var init := parts[..n];
      var k := |Concat(init)|;
      ConcatStep(parts, n);
      assert parts[..n + 1] == parts;
      assert init == parts[..n];
      var t := s[..k];
      forall i | 0 <= i < n ensures At(t, |Concat(init[..i])|, init[i]) {
        assert init[..i] == parts[..i] && init[i] == parts[i];
        ConcatPrefix(init, i + 1);
        ConcatStep(init, i);
        assert At(s, |Concat(parts[..i])|, parts[i]);
      }
      PlacesDetermines(t, init);
      assert At(s, k, parts[n]);
      assert s == t + s[k..];
    }
  }

  /** `part` occurs in `s` starting at index `i`. */
  predicate At(s: string, i: nat, part: string) {
    i + |part| <= |s| && s[i..i + |part|] == part
  }

  /** A part that follows a prefix of a text sits at the prefix's length. */
  lemma PartAfterPrefix(pre: string, part: string, s: string)
    requires pre + part <= s
    ensures At(s, |pre|, part)
  {
    var t := pre + part;
    assert s[..|t|] == t;
    assert t[|pre|..] == part;
  }

  /** A JSON document as `JSON.parse` produces it. JSON has no NaN or infinities, so a number
      is a real. */
  datatype Json =
    | JNull
    | JBool(b: bool)
    | JNumber(n: real)
    | JString(s: string)
    | JArray(items: seq<Json>)
    | JObject(fields: map<string, Json>)

  /** In JavaScript, a property read gives `undefined` (modelled as `None`) when the property
      is absent; truthiness is then: not undefined, not null, not false, not 0, not "". */
  predicate Truthy(v: Option<Json>)
    ensures !Truthy(v) <==> (|| v == None || v == Some(JNull) || v == Some(JBool(false))
                             || v == Some(JNumber(0.0)) || v == Some(JString("")))
  {
    match v
    case None => false
    case Some(JNull) => false
    case Some(JBool(b)) => b
    case Some(JNumber(n)) => n != 0.0
    case Some(JString(s)) => s != ""
    case Some(JArray(_)) => true
    case Some(JObject(_)) => true
  }

  /** `a || b` where `b` is a default value. */
  function OrDefault(v: Option<Json>, default: Json): (r: Json)
    ensures Truthy(v) ==> r == v.value
    ensures !Truthy(v) ==> r == default
  {
    if Truthy(v) then v.value else default
  }

  /** The indices `0, 1, ..., n - 1` that a `for ... of` loop over `n` elements visits, in
      that order. */
  function Indices(n: nat): (r: seq<nat>)
    ensures |r| == n && forall i :: 0 <= i < n ==> r[i] == i
  {
    if n == 0 then [] else Indices(n - 1) + [n - 1]
  }
}
