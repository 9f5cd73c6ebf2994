/**
 * Character and string helpers shared by every component of the chatbot.
 *
 * .NET's culture-aware and Unicode-aware text operations (char.IsWhiteSpace,
 * char.IsLetter, ToLower, ToUpper, the regex classes \s, \d and \w) are
 * modelled on ASCII: every other character is left unchanged by case
 * conversion and belongs to none of the classes.
 */
module Strings {

  datatype Option<T> = None | Some(value: T)

  /** White space as Trim, IsNullOrWhiteSpace and the regex class \s see it: tab, LF, VT, FF, CR, space. */
  predicate IsSpace(c: char) { c == ' ' || ('\t' <= c <= '\r') }

  predicate IsLetter(c: char) { 'a' <= c <= 'z' || 'A' <= c <= 'Z' }

  predicate IsLowerLetter(c: char) { 'a' <= c <= 'z' }

  predicate IsDigit(c: char) { '0' <= c <= '9' }

  /** The regex class \w. */
  predicate IsWordChar(c: char) { IsLetter(c) || IsDigit(c) || c == '_' }

  function LowerChar(c: char): char
  {
    if 'A' <= c <= 'Z' then (c as int + 32) as char else c
  }

  function UpperChar(c: char): char
  {
    if 'a' <= c <= 'z' then (c as int - 32) as char else c
  }

  /** ToLowerInvariant on ASCII. */
  function Lower(s: string): (r: string)
    ensures |r| == |s|
    ensures forall i :: 0 <= i < |s| ==> r[i] == LowerChar(s[i])
  {
    seq(|s|, i requires 0 <= i < |s| => LowerChar(s[i]))
  }

  /** string.IsNullOrWhiteSpace (a string is never null in this model). */
  predicate IsBlank(s: string)
  {
    forall i :: 0 <= i < |s| ==> IsSpace(s[i])
  }

  /** string.TrimStart: drops leading white space (its properties are TrimStartDrops). */
  function TrimStart(s: string): string
  {
    if |s| > 0 && IsSpace(s[0]) then TrimStart(s[1..]) else s
  }

  /** string.TrimEnd: drops trailing white space (its properties are TrimEndDrops). */
  function TrimEnd(s: string): string
  {
    if |s| > 0 && IsSpace(s[|s| - 1]) then TrimEnd(s[..|s| - 1]) else s
  }

  /** string.Trim: drops leading and trailing white space. */
  function Trim(s: string): (r: string)
  {
    TrimEnd(TrimStart(s))
  }

  /** `part` occurs in s at position i. */
  predicate OccursAt(s: string, part: string, i: nat)
  {
    i + |part| <= |s| && s[i..i + |part|] == part
  }

  /** Ordinal string.Contains. */
  predicate Contains(s: string, part: string)
  {
    exists i: nat :: i <= |s| && OccursAt(s, part, i)
  }

  /** Ordinal-ignore-case string equality. */
  predicate EqualsIgnoreCase(a: string, b: string)
  {
    Lower(a) == Lower(b)
  }

  /** char.ToUpper(s[0]) + s.Substring(1).ToLower(): the dispatcher's way of writing a name. */
  function Capitalize(s: string): (r: string)
  {
    if s == [] then [] else [UpperChar(s[0])] + Lower(s[1..])
  }

  /** char.ToUpper(s[0]) + s.Substring(1): the knowledge engine's way of writing a name. */
  function UpperFirst(s: string): (r: string)
  {
    if s == [] then [] else [UpperChar(s[0])] + s[1..]
  }

  /** string.IndexOf(c): the first position of c, or -1. */
  function IndexOf(s: string, c: char): (r: int)
    ensures -1 <= r < |s|
    ensures r == -1 <==> c !in s
    ensures r >= 0 ==> s[r] == c && c !in s[..r]
  {
    if s == [] then -1
    else if s[0] == c then 0
    else var k := IndexOf(s[1..], c); if k == -1 then -1 else k + 1
  }

  /** End of the longest run of characters of a class starting at i (a greedy `[class]*`). */
  function Span(t: string, i: nat, inClass: char -> bool): (j: nat)
    requires i <= |t|
    ensures i <= j <= |t|
    ensures forall k :: i <= k < j ==> inClass(t[k])
    ensures j < |t| ==> !inClass(t[j])
    decreases |t| - i
  {
    if i < |t| && inClass(t[i]) then Span(t, i + 1, inClass) else i
  }

  /** Decimal digits of a natural number, as int.ToString writes them. */
  function NatToString(n: nat): (r: string)
    ensures |r| > 0 && forall i :: 0 <= i < |r| ==> IsDigit(r[i])
  {
    if n < 10 then [('0' as int + n) as char]
    else NatToString(n / 10) + [('0' as int + n % 10) as char]
  }

  /** The value of a run of decimal digits. */
  function DigitsValue(s: string): nat
    requires forall i :: 0 <= i < |s| ==> IsDigit(s[i])
  {
    if s == [] then 0
    else
      var last := s[|s| - 1];
      assert IsDigit(last);
      10 * DigitsValue(s[..|s| - 1]) + (last as int - '0' as int)
  }

  /** Reading back the decimal digits of a number gives the number. */
  lemma {:induction false} NatToStringValue(n: nat)
    ensures DigitsValue(NatToString(n)) == n
  {
    if n >= 10 {
      var front := NatToString(n / 10);
      var r := NatToString(n);
      NatToStringValue(n / 10);
      assert r[..|r| - 1] == front;
    }
  }

  const Int32Max: int := 0x7fff_ffff

  /** int.TryParse on a run of ASCII digits: fails exactly when the value does not fit in 32 bits. */
  function ParseInt32(digits: string): (r: Option<int>)
    requires forall i :: 0 <= i < |digits| ==> IsDigit(digits[i])
    ensures r.Some? <==> DigitsValue(digits) <= Int32Max
    ensures r.Some? ==> r.value == DigitsValue(digits)
  {
    var v := DigitsValue(digits);
    if v <= Int32Max then Some(v) else None
  }

  /**
   * Random.Next(|items|) used as an index: the random draw is a parameter `roll`,
   * and every element can be drawn (roll i picks items[i]).
   */
  function Pick<T>(items: seq<T>, roll: nat): (r: T)
    requires |items| > 0
    ensures r in items
    ensures roll < |items| ==> r == items[roll]
  {
    items[roll % |items|]
  }

  /**
   * The group of the leftmost match at or after p of a pattern given by where
   * it matches (Regex.Match); its properties are LeftmostIsFirst.
   */
  function Leftmost<T>(t: string, p: nat, at: (string, nat) -> Option<T>): Option<T>
    decreases |t| + 1 - p
  {
    if p > |t| then None
    else if at(t, p).Some? then at(t, p)
    else Leftmost(t, p + 1, at)
  }

  /** The search fails only when the pattern matches nowhere, and otherwise reports the first position that matches. */
  lemma {:induction false} LeftmostIsFirst<T>(t: string, p: nat, at: (string, nat) -> Option<T>)
    ensures Leftmost(t, p, at).None? <==> forall q :: p <= q <= |t| ==> at(t, q).None?
    ensures Leftmost(t, p, at).Some? ==>
      exists q :: p <= q <= |t| && at(t, q) == Leftmost(t, p, at) && forall k :: p <= k < q ==> at(t, k).None?
    decreases |t| + 1 - p
  {
    if p <= |t| && at(t, p).None? {
      LeftmostIsFirst(t, p + 1, at);
      if Leftmost(t, p, at).Some? {
        var q :| p + 1 <= q <= |t| && at(t, q) == Leftmost(t, p, at) && forall k :: p + 1 <= k < q ==> at(t, k).None?;
        assert forall k :: p <= k < q ==> at(t, k).None?;
      }
    }
  }

  // ---------------------------------------------------------------------
  // Facts about trimming and blank strings

  /** TrimStart removes exactly the leading run of white space. */
  lemma {:induction false} TrimStartDrops(s: string)
    ensures |TrimStart(s)| <= |s| && TrimStart(s) == s[|s| - |TrimStart(s)|..]
    ensures TrimStart(s) == [] || !IsSpace(TrimStart(s)[0])
    ensures forall i :: 0 <= i < |s| - |TrimStart(s)| ==> IsSpace(s[i])
  {
    if |s| > 0 && IsSpace(s[0]) {
      TrimStartDrops(s[1..]);
    }
  }

  /** TrimEnd removes exactly the trailing run of white space. */
  lemma {:induction false} TrimEndDrops(s: string)
    ensures |TrimEnd(s)| <= |s| && TrimEnd(s) == s[..|TrimEnd(s)|]
    ensures TrimEnd(s) == [] || !IsSpace(TrimEnd(s)[|TrimEnd(s)| - 1])
    ensures forall i :: |TrimEnd(s)| <= i < |s| ==> IsSpace(s[i])
  {
    if |s| > 0 && IsSpace(s[|s| - 1]) {
      TrimEndDrops(s[..|s| - 1]);
    }
  }

  /** Trimming leaves a string blank exactly when it was blank, and then empty. */
  lemma TrimBlank(s: string)
    ensures IsBlank(s) <==> Trim(s) == []
  {
    var a := TrimStart(s);
    TrimStartDrops(s);
    TrimEndDrops(a);
    if IsBlank(s) {
      TrimStartBlank(s);
    } else {
      var i :| 0 <= i < |s| && !IsSpace(s[i]);
      assert |a| > 0 && !IsSpace(a[0]);
      assert |TrimEnd(a)| > 0;
    }
  }

  lemma {:induction false} TrimStartBlank(s: string)
    requires IsBlank(s)
    ensures TrimStart(s) == []
  {
    if s != [] {
      TrimStartBlank(s[1..]);
    }
  }

  /** A string that begins and ends with visible characters is its own trim. */
  lemma TrimNoOp(s: string)
    requires s != [] && !IsSpace(s[0]) && !IsSpace(s[|s| - 1])
    ensures Trim(s) == s
  {
    assert TrimStart(s) == s;
  }

  /** A visible first character survives trimming when nothing but white space follows the end. */
  lemma TrimKeepsFront(s: string)
    requires s != [] && !IsSpace(s[0])
    ensures Trim(s) == TrimEnd(s) && TrimEnd(s) != [] && TrimEnd(s)[0] == s[0]
  {
    assert TrimStart(s) == s;
    TrimEndDrops(s);
    assert |TrimEnd(s)| > 0;
  }

  /** Leading white space of a concatenation comes from its first part when the second starts visibly. */
  lemma {:induction false} TrimStartConcat(x: string, y: string)
    requires y != [] && !IsSpace(y[0])
    ensures TrimStart(x + y) == TrimStart(x) + y
  {
    if x == [] {
      assert x + y == y;
    } else if IsSpace(x[0]) {
      TrimStartConcat(x[1..], y);
      assert (x + y)[1..] == x[1..] + y;
    }
  }

  /** Trimming a text that ends in a visible part only trims the front of what precedes it. */
  lemma TrimBeforeVisible(x: string, y: string)
    requires y != [] && !IsSpace(y[0]) && !IsSpace(y[|y| - 1])
    ensures Trim(x + y) == TrimStart(x) + y
  {
    TrimStartConcat(x, y);
    var z := TrimStart(x) + y;
    assert z[|z| - 1] == y[|y| - 1];
  }

  /** The trim of a string is blank exactly when the string is. */
  lemma TrimBlankIff(s: string)
    ensures IsBlank(Trim(s)) <==> IsBlank(s)
  {
    TrimBlank(s);
    var a := TrimStart(s);
    TrimStartDrops(s);
    TrimEndDrops(a);
    if Trim(s) != [] {
      assert Trim(s)[0] == a[0];
    }
  }

  /** Lower-casing leaves a string without upper-case letters unchanged. */
  lemma LowerNoUpper(s: string)
    requires forall i :: 0 <= i < |s| ==> !('A' <= s[i] <= 'Z')
    ensures Lower(s) == s
  {
  }
}
