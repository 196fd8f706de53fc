/** `sanitizeLLMOutput` (server/seed-database.ts): four rewrites applied in turn to the text
    a language model returned, so that what remains looks like one JSON array:
      1. every `\r\n` or `\n`, then every tab, becomes a space;
      2. every comma followed by white space and then `]` becomes `]` (a trailing comma);
      3. when the text holds a `[` with a `]` somewhere after it, only the span from the first
         `[` to the last `]` is kept;
      4. text that does not start with `[` is wrapped in brackets. */
module Sanitize {
  import opened Js

  /** `text.replace(/\r?\n/g, " ")`: left to right, a `\r` directly before a `\n` goes with it;
      a `\r` on its own stays. */
  function ReplaceNewlines(s: string): (r: string)
    ensures |r| <= |s|
    ensures forall i :: 0 <= i < |r| ==> r[i] != '\n'
    ensures forall c :: c in r ==> c in s || c == ' '
  {
    if s == [] then []
    else if |s| >= 2 && s[0] == '\r' && s[1] == '\n' then " " + ReplaceNewlines(s[2..])
    else if s[0] == '\n' then " " + ReplaceNewlines(s[1..])
    else [s[0]] + ReplaceNewlines(s[1..])
  }

  /** Without carriage returns, the newline rewrite is a character-by-character substitution. */
  lemma {:induction false} NewlinesWithoutCarriageReturn(s: string)
    requires forall i :: 0 <= i < |s| ==> s[i] != '\r'
    ensures |ReplaceNewlines(s)| == |s|
    ensures forall i :: 0 <= i < |s| ==> ReplaceNewlines(s)[i] == if s[i] == '\n' then ' ' else s[i]
  {
    if s != [] {
      NewlinesWithoutCarriageReturn(s[1..]);
    }
  }

  /** An example: `\r\n` is one space, not two, and a lone `\r` stays. CrLfIsOneSpaceAnywhere
      and LoneCarriageReturnStays state this for every context. */
  lemma CrLfIsOneSpace()
    ensures ReplaceNewlines("a\r\nb") == "a b"
    ensures ReplaceNewlines("\r\r\n") == "\r "
  {
    assert "a\r\nb"[1..] == "\r\nb";
    assert "a\r\nb"[1..][2..] == "b";
    assert "\r\r\n"[1..] == "\r\n";
  }

  /** The rewrite works piece by piece: a text splits anywhere except between a `\r` and a
      `\n` that follows it. */
  lemma {:induction false} ReplaceNewlinesConcat(a: string, b: string)
    requires a == [] || b == [] || a[|a| - 1] != '\r' || b[0] != '\n'
    ensures ReplaceNewlines(a + b) == ReplaceNewlines(a) + ReplaceNewlines(b)
    decreases |a|
  {
    if a == [] {
      assert a + b == b;
    } else {
      var n := if |a| >= 2 && a[0] == '\r' && a[1] == '\n' then 2 else 1;
      var head := if n == 2 || a[0] == '\n' then " " else [a[0]];
      ReplaceNewlinesStep(a, b, n, head);
      var t := a[n..];
      assert (a + b)[n..] == t + b;
      ReplaceNewlinesConcat(t, b);
      var rt, rb := ReplaceNewlines(t), ReplaceNewlines(b);
      assert ReplaceNewlines(a + b) == head + (rt + rb);
      ConcatAssociative(head, rt, rb);
    }
  }

  /** One step of the rewrite of `a + b` consumes the same characters of `a` as one step of the
      rewrite of `a` alone. */
  lemma ReplaceNewlinesStep(a: string, b: string, n: nat, head: string)
    requires a != [] && (a == [] || b == [] || a[|a| - 1] != '\r' || b[0] != '\n')
    requires n == if |a| >= 2 && a[0] == '\r' && a[1] == '\n' then 2 else 1
    requires head == if n == 2 || a[0] == '\n' then " " else [a[0]]
    ensures n <= |a| && (a[n..] == [] || b == [] || a[|a| - 1] != '\r' || b[0] != '\n')
    ensures a[n..] == [] || a[n..][|a[n..]| - 1] == a[|a| - 1]
    ensures ReplaceNewlines(a) == head + ReplaceNewlines(a[n..])
    ensures ReplaceNewlines(a + b) == head + ReplaceNewlines((a + b)[n..])
  {
    var s := a + b;
    assert s[0] == a[0];
    assert |a| >= 2 ==> s[1] == a[1];
  }

  /** In any context `\r\n` is one space. */
  lemma CrLfIsOneSpaceAnywhere(a: string, b: string)
    ensures ReplaceNewlines(a + "\r\n" + b) == ReplaceNewlines(a) + " " + ReplaceNewlines(b)
  {
    var u := "\r\n" + b;
    assert a + "\r\n" + b == a + u;
    ReplaceNewlinesConcat(a, u);
    assert u[0] == '\r' && u[1] == '\n' && u[2..] == b;
  }

  /** A `\n` that no `\r` precedes is one space. */
  lemma LfIsOneSpaceAnywhere(a: string, b: string)
    requires a == [] || a[|a| - 1] != '\r'
    ensures ReplaceNewlines(a + "\n" + b) == ReplaceNewlines(a) + " " + ReplaceNewlines(b)
  {
    var u := "\n" + b;
    assert a + "\n" + b == a + u;
    ReplaceNewlinesConcat(a, u);
    assert u[0] == '\n' && u[1..] == b;
  }

  /** A `\r` that no `\n` follows stays. */
  lemma LoneCarriageReturnStays(a: string, b: string)
    requires b == [] || b[0] != '\n'
    ensures ReplaceNewlines(a + "\r" + b) == ReplaceNewlines(a) + "\r" + ReplaceNewlines(b)
  {
    var u := "\r" + b;
    assert a + "\r" + b == a + u;
    ReplaceNewlinesConcat(a, u);
    assert u[0] == '\r' && u[1..] == b;
    assert !(|u| >= 2 && u[1] == '\n');
    ConcatAssociative(ReplaceNewlines(a), "\r", ReplaceNewlines(b));
  }

  /** `text.replace(/\t/g, " ")`. */
  function ReplaceTabs(s: string): (r: string)
    ensures |r| == |s|
    ensures forall i :: 0 <= i < |s| ==> r[i] == if s[i] == '\t' then ' ' else s[i]
  {
    if s == [] then [] else [if s[0] == '\t' then ' ' else s[0]] + ReplaceTabs(s[1..])
  }

  /** `\s*]` matches at the start of `t`. */
  predicate ClosesAfterSpaces(t: string) {
    LeadingSpace(t) < |t| && t[LeadingSpace(t)] == ']'
  }

  /** `text.replace(/,(\s*])/g, "]")`: one left-to-right pass over non-overlapping matches. */
  function DropTrailingCommas(s: string): (r: string)
    ensures |r| <= |s|
    ensures forall c :: c in r ==> c in s
    decreases |s|
  {
    if s == [] then []
    else if s[0] == ',' && ClosesAfterSpaces(s[1..]) then
      var rest := s[2 + LeadingSpace(s[1..])..];
      assert s[1 + LeadingSpace(s[1..])] == ']';
      "]" + DropTrailingCommas(rest)
    else [s[0]] + DropTrailingCommas(s[1..])
  }

  /** The text without its commas and its white space. */
  function Essential(s: string): string {
    if s == [] then []
    else (if s[0] == ',' || IsSpace(s[0]) then [] else [s[0]]) + Essential(s[1..])
  }

  lemma EssentialCons(c: char, t: string)
    ensures Essential([c] + t) == (if c == ',' || IsSpace(c) then [] else [c]) + Essential(t)
  {
    assert ([c] + t)[1..] == t;
  }

  /** White space up to a `]` contributes nothing; the `]` is kept. */
  lemma {:induction false} EssentialOfClosing(t: string)
    requires ClosesAfterSpaces(t)
    ensures Essential(t) == "]" + Essential(t[LeadingSpace(t) + 1..])
    decreases |t|
  {
    if LeadingSpace(t) > 0 {
      assert LeadingSpace(t[1..]) == LeadingSpace(t) - 1;
      EssentialOfClosing(t[1..]);
      assert t[1..][LeadingSpace(t[1..]) + 1..] == t[LeadingSpace(t) + 1..];
    }
  }

  /** The trailing-comma rewrite deletes only commas and white space: every other character,
      `]` included, survives in its order. */
  lemma {:induction false} DropTrailingCommasDeletesOnlyCommasAndSpaces(s: string)
    ensures Essential(DropTrailingCommas(s)) == Essential(s)
    decreases |s|
  {
    if s == [] {
    } else if s[0] == ',' && ClosesAfterSpaces(s[1..]) {
      var rest := s[2 + LeadingSpace(s[1..])..];
      assert s[1..][LeadingSpace(s[1..]) + 1..] == rest;
      EssentialOfClosing(s[1..]);
      DropTrailingCommasDeletesOnlyCommasAndSpaces(rest);
      EssentialCons(']', DropTrailingCommas(rest));
    } else {
      DropTrailingCommasDeletesOnlyCommasAndSpaces(s[1..]);
      EssentialCons(s[0], DropTrailingCommas(s[1..]));
    }
  }

  /** A text without a trailing comma is left as it is: every comma, and all white space,
      that does not belong to a `,\s*]` match survives. */
  lemma {:induction false} NoTrailingCommaUnchanged(s: string)
    requires forall i :: 0 <= i < |s| && s[i] == ',' ==> !ClosesAfterSpaces(s[i + 1..])
    ensures DropTrailingCommas(s) == s
    decreases |s|
  {
    if s != [] {
      var t := s[1..];
      forall i | 0 <= i < |t| && t[i] == ',' ensures !ClosesAfterSpaces(t[i + 1..]) {
        assert t[i] == s[i + 1] && t[i + 1..] == s[i + 2..];
      }
      NoTrailingCommaUnchanged(t);
    }
  }

  /** The rewrite of `p + r` is the rewrite of `p` followed by that of `r` when `r` starts with
      a character that can neither extend nor close a match begun in `p`. */
  lemma {:induction false} DropTrailingCommasConcat(p: string, r: string)
    requires r == [] || (!IsSpace(r[0]) && r[0] != ']')
    ensures DropTrailingCommas(p + r) == DropTrailingCommas(p) + DropTrailingCommas(r)
    decreases |p|
  {
    if p == [] {
      assert p + r == r;
    } else {
      var m, head := DropStep(p, r);
      DropTrailingCommasConcat(p[m..], r);
      ConcatAssociative(head, DropTrailingCommas(p[m..]), DropTrailingCommas(r));
    }
  }

  /** One step of the rewrite of `p + r` consumes the same characters of `p` as one step of the
      rewrite of `p` alone, when `r` starts with neither white space nor `]`. */
  lemma DropStep(p: string, r: string) returns (m: nat, head: string)
    requires p != [] && (r == [] || (!IsSpace(r[0]) && r[0] != ']'))
    ensures 1 <= m <= |p|
    ensures DropTrailingCommas(p) == head + DropTrailingCommas(p[m..])
    ensures DropTrailingCommas(p + r) == head + DropTrailingCommas(p[m..] + r)
  {
    var s := p + r;
    var t := p[1..];
    assert s[0] == p[0] && s[1..] == t + r;
    ClosingUnaffectedByAppend(t, r);
    if p[0] == ',' && ClosesAfterSpaces(t) {
      m, head := 2 + LeadingSpace(t), "]";
      assert s[m..] == p[m..] + r;
    } else {
      m, head := 1, [p[0]];
    }
  }

  /** Appending a text that starts with neither white space nor `]` changes neither the
      leading white space nor whether `\s*]` matches at the start. */
  lemma ClosingUnaffectedByAppend(t: string, r: string)
    requires r == [] || (!IsSpace(r[0]) && r[0] != ']')
    ensures LeadingSpace(t + r) == LeadingSpace(t)
    ensures ClosesAfterSpaces(t + r) == ClosesAfterSpaces(t)
  {
    LeadingSpaceAppend(t, r);
    assert r != [] ==> LeadingSpace(r) == 0;
    var k := LeadingSpace(t);
    assert k < |t| ==> (t + r)[k] == t[k];
    assert k == |t| && r != [] ==> (t + r)[k] == r[0];
  }

  lemma DropAtMatch(w: string, q: string)
    requires forall i :: 0 <= i < |w| ==> IsSpace(w[i])
    ensures DropTrailingCommas("," + w + "]" + q) == "]" + DropTrailingCommas(q)
  {
    var r := "," + w + "]" + q;
    var t := r[1..];
    assert t == w + ("]" + q);
    LeadingSpaceAppend(w, "]" + q);
    assert LeadingSpace(w) == |w|;
    assert LeadingSpace("]" + q) == 0;
    assert t[|w|] == ']';
    assert r[2 + |w|..] == q;
  }

  /** Every `,\s*]` match becomes `]`, and the text around it is rewritten on its own. */
  lemma DropSplitAtMatch(p: string, w: string, q: string)
    requires forall i :: 0 <= i < |w| ==> IsSpace(w[i])
    ensures DropTrailingCommas(p + "," + w + "]" + q)
         == DropTrailingCommas(p) + "]" + DropTrailingCommas(q)
  {
    var r := "," + w + "]" + q;
    assert p + "," + w + "]" + q == p + r;
    DropTrailingCommasConcat(p, r);
    DropAtMatch(w, q);
  }

  /** The pass is single: a comma before another comma is not a trailing comma, and the comma
      left behind is not looked at again. */
  lemma SinglePass()
    ensures DropTrailingCommas(",,]") == ",]"
  {
    assert LeadingSpace(",]") == 0;
    assert ",,]"[1..] == ",]";
    assert ",]"[1..] == "]";
    assert LeadingSpace("]") == 0;
    assert "]"[2 + 0 - 1..] == [];
  }

  /** An example: a comma followed by a newline, spaces and `]` goes, and so does the white
      space; a comma not followed by `]` stays. DropSplitAtMatch and NoTrailingCommaUnchanged
      state this for all inputs. */
  lemma TrailingCommaBeforeSpaces()
    ensures DropTrailingCommas("2,\n ]") == "2]"
    ensures DropTrailingCommas(", 2") == ", 2"
  {
    assert "2,\n ]"[1..] == ",\n ]";
    assert LeadingSpace("\n ]") == 2;
    assert ",\n ]"[1..] == "\n ]";
    assert ",\n ]"[2 + 2..] == [];
    assert ", 2"[1..] == " 2";
    assert LeadingSpace(" 2") == 1;
    assert ", 2"[1..][1..] == "2";
  }

  /** The index of the first `c` in `s`. */
  function FirstIndexOf(s: string, c: char): (r: Option<nat>)
    ensures r.Some? ==> (r.value < |s| && s[r.value] == c
                         && forall i :: 0 <= i < r.value ==> s[i] != c)
    ensures r.None? ==> forall i :: 0 <= i < |s| ==> s[i] != c
  {
    if s == [] then None
    else if s[0] == c then Some(0)
    else match FirstIndexOf(s[1..], c)
      case None => None
      case Some(i) => Some(i + 1)
  }

  /** The index of the last `c` in `s`. */
  function LastIndexOf(s: string, c: char): (r: Option<nat>)
    ensures r.Some? ==> (r.value < |s| && s[r.value] == c
                         && forall i :: r.value < i < |s| ==> s[i] != c)
    ensures r.None? ==> forall i :: 0 <= i < |s| ==> s[i] != c
  {
    if s == [] then None
    else if s[|s| - 1] == c then Some(|s| - 1)
    else LastIndexOf(s[..|s| - 1], c)
  }

  /** `text.match(/\[.*\]/s)`: `.` matches every character, so the leftmost match starts at
      the first `[` and, `.*` being greedy, ends at the last `]`. There is a match exactly when
      some `[` has a `]` after it. */
  function BracketSpan(s: string): (r: Option<string>)
    ensures r.Some? <==> exists i, j :: 0 <= i < j < |s| && s[i] == '[' && s[j] == ']'
    ensures r.Some? ==>
      var i := FirstIndexOf(s, '[').value;
      var j := LastIndexOf(s, ']').value;
      && i < j && r.value == s[i..j + 1]
      && (forall k :: 0 <= k < i ==> s[k] != '[')
      && (forall k :: j < k < |s| ==> s[k] != ']')
  {
    match (FirstIndexOf(s, '['), LastIndexOf(s, ']'))
    case (Some(i), Some(j)) => if i < j then Some(s[i..j + 1]) else None
    case _ => None
  }

  /** Steps 1 and 2, the text that step 3 searches. */
  function Cleaned(s: string): (r: string)
    ensures |r| <= |s|
    ensures forall i :: 0 <= i < |r| ==> r[i] != '\n' && r[i] != '\t'
    ensures forall c :: c in r ==> c in s || c == ' '
  {
    var v := ReplaceNewlines(s);
    var u := ReplaceTabs(v);
    var r := DropTrailingCommas(u);
    assert forall c :: c in u ==> c in s || c == ' ' by {
      forall c | c in u ensures c in s || c == ' ' {
        var i :| 0 <= i < |u| && u[i] == c;
        assert v[i] in v;
      }
    }
    assert forall i :: 0 <= i < |r| ==> r[i] != '\n' && r[i] != '\t' by {
      forall i | 0 <= i < |r| ensures r[i] != '\n' && r[i] != '\t' {
        assert r[i] in r;
        var j :| 0 <= j < |u| && u[j] == r[i];
      }
    }
    r
  }

  /** `sanitizeLLMOutput(text)`. */
  function SanitizeLlmOutput(text: string): (r: string)
    ensures |r| > 0 && r[0] == '['
    ensures forall i :: 0 <= i < |r| ==> r[i] != '\n' && r[i] != '\t'
  {
    var t := Cleaned(text);
    var m := match BracketSpan(t) case Some(span) => span case None => t;
    if |m| > 0 && m[0] == '[' then m else "[" + m + "]"
  }

  /** When the cleaned text holds a bracket span, the result is exactly that span. */
  lemma SpanKept(text: string)
    requires BracketSpan(Cleaned(text)).Some?
    ensures SanitizeLlmOutput(text) == BracketSpan(Cleaned(text)).value
  {
  }

  /** Without a span, text that does not start with `[` is wrapped in brackets; in particular
      the empty text becomes `[]`. */
  lemma WrappedWithoutSpan(text: string)
    requires BracketSpan(Cleaned(text)).None?
    ensures var t := Cleaned(text);
      SanitizeLlmOutput(text) == if |t| > 0 && t[0] == '[' then t else "[" + t + "]"
    ensures SanitizeLlmOutput("") == "[]"
  {
  }
}
