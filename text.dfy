/**
 * String helpers behind every keyword rule of the analyzer: lower-casing,
 * substring search ("keyword in text.lower()"), whitespace stripping,
 * joining and the splitting used to read thresholds out of the knowledge
 * base's descriptive strings.
 */
module Text {
  import opened Common

  // ---------------------------------------------------------------------
  // Lower-casing

  /** ASCII lower-casing of one character. */
  function LowerChar(c: char): char {
    if 'A' <= c <= 'Z' then (c as int + 32) as char else c
  }

  /** `s.lower()` on ASCII text: every letter A-Z becomes a-z, nothing else changes. */
  function ToLower(s: string): (r: string)
    ensures |r| == |s|
    ensures forall i :: 0 <= i < |s| ==> r[i] == LowerChar(s[i])
  {
    if s == [] then [] else [LowerChar(s[0])] + ToLower(s[1..])
  }

  predicate IsLowerCase(s: string) {
    forall i :: 0 <= i < |s| ==> !('A' <= s[i] <= 'Z')
  }

  lemma ToLowerIsLowerCase(s: string)
    ensures IsLowerCase(ToLower(s))
    ensures IsLowerCase(s) ==> ToLower(s) == s
  {
  }

  // ---------------------------------------------------------------------
  // Substring search

  /** `sub in s` for Python strings: `sub` is a prefix of `s` or of one of its suffixes. */
  function Contains(s: string, sub: string): bool
    decreases |s|
  {
    if sub <= s then true
    else if |s| == 0 then false
    else Contains(s[1..], sub)
  }

  /** `sub` occurs in `s` starting at index `i`. */
  ghost predicate OccursAt(s: string, sub: string, i: int) {
    0 <= i && i + |sub| <= |s| && s[i..i + |sub|] == sub
  }

  /** An occurrence of `sub` anywhere in `s` is found by the recursive search. */
  lemma {:induction false} OccursImpliesContains(s: string, sub: string, i: int)
    requires OccursAt(s, sub, i)
    ensures Contains(s, sub)
    decreases i
  {
    if i == 0 {
      assert s[..|sub|] == sub;
    } else {
      assert s[1..][i - 1..i - 1 + |sub|] == s[i..i + |sub|];
      OccursImpliesContains(s[1..], sub, i - 1);
    }
  }

  /** The recursive search finds `sub` exactly when some window of `s` equals it. */
  lemma {:induction false} ContainsIffOccurs(s: string, sub: string)
    ensures Contains(s, sub) <==> exists i :: OccursAt(s, sub, i)
    decreases |s|
  {
    if sub <= s {
      assert s[0..|sub|] == sub;
      assert OccursAt(s, sub, 0);
    } else if |s| > 0 && Contains(s[1..], sub) {
      ContainsIffOccurs(s[1..], sub);
      var j :| OccursAt(s[1..], sub, j);
      assert s[1..][j..j + |sub|] == s[j + 1..j + 1 + |sub|];
      assert OccursAt(s, sub, j + 1);
    }
    forall i | OccursAt(s, sub, i) ensures Contains(s, sub) {
      OccursImpliesContains(s, sub, i);
    }
  }

  /** Every string contains itself and, in particular, every string contains its own prefixes. */
  lemma {:induction false} ContainsWindow(s: string, i: nat, j: nat)
    requires i <= j <= |s|
    ensures Contains(s, s[i..j])
  {
    assert OccursAt(s, s[i..j], i);
    ContainsIffOccurs(s, s[i..j]);
  }

  /** `any(k in s for k in keywords)`: some keyword of the list occurs in `s`. */
  function ContainsAny(s: string, keywords: seq<string>): (b: bool)
    ensures b <==> exists k :: k in keywords && Contains(s, k)
  {
    if keywords == [] then false
    else
      assert keywords[0] in keywords;
      assert forall k :: k in keywords ==> k == keywords[0] || k in keywords[1..];
      assert forall k :: k in keywords[1..] ==> k in keywords;
      Contains(s, keywords[0]) || ContainsAny(s, keywords[1..])
  }

  /** The keyword test every classifier of the analyzer applies: `any(k in text.lower() for k in keywords)`. */
  function MentionsAny(text: string, keywords: seq<string>): bool {
    ContainsAny(ToLower(text), keywords)
  }

  // ---------------------------------------------------------------------
  // Whitespace, joining, splitting

  /**
   * The ASCII characters `str.strip` and `str.split` treat as whitespace:
   * blank, tab, line feed, vertical tab, form feed, carriage return and the
   * four separators 0x1C-0x1F.
   */
  predicate IsSpace(c: char) {
    c == ' ' || '\t' <= c <= '\r' || '\U{1C}' <= c <= '\U{1F}'
  }

  function StripLeft(s: string): (r: string)
    ensures |r| <= |s| && r == s[|s| - |r|..]
    ensures r == [] || !IsSpace(r[0])
    ensures forall i :: 0 <= i < |s| - |r| ==> IsSpace(s[i])
  {
    if s != [] && IsSpace(s[0]) then StripLeft(s[1..]) else s
  }

  function StripRight(s: string): (r: string)
    ensures |r| <= |s| && r == s[..|r|]
    ensures r == [] || !IsSpace(r[|r| - 1])
    ensures forall i :: |r| <= i < |s| ==> IsSpace(s[i])
  {
    if s != [] && IsSpace(s[|s| - 1]) then StripRight(s[..|s| - 1]) else s
  }

  /** `s.strip()`: the longest window of `s` that neither starts nor ends with whitespace. */
  function Strip(s: string): string {
    StripRight(StripLeft(s))
  }

  /** A stripped string begins and ends with a non-space character, and stripping it again changes nothing. */
  lemma StripIsStripped(s: string)
    ensures var r := Strip(s); r == [] || (!IsSpace(r[0]) && !IsSpace(r[|r| - 1]))
    ensures Strip(Strip(s)) == Strip(s)
  {
    var l := StripLeft(s);
    var r := StripRight(l);
    if r != [] {
      assert r[0] == l[0];
    }
  }

  /** Stripping the left end of `a + b` never reaches `b` when `a` holds a non-space character. */
  lemma {:induction false} StripLeftAppend(a: string, b: string, i: nat)
    requires i < |a| && !IsSpace(a[i])
    ensures StripLeft(a + b) == StripLeft(a) + b
  {
    if IsSpace(a[0]) {
      assert (a + b)[1..] == a[1..] + b;
      StripLeftAppend(a[1..], b, i - 1);
    }
  }

  /** Stripping the right end of `a + b` never reaches `a` when `b` holds a non-space character. */
  lemma {:induction false} StripRightAppend(a: string, b: string, i: nat)
    requires i < |b| && !IsSpace(b[i])
    ensures StripRight(a + b) == a + StripRight(b)
  {
    if IsSpace(b[|b| - 1]) {
      assert (a + b)[..|a + b| - 1] == a + b[..|b| - 1];
      StripRightAppend(a, b[..|b| - 1], i);
    }
  }

  /** `sep.join(parts)`. */
  function Join(parts: seq<string>, sep: string): string {
    if parts == [] then []
    else if |parts| == 1 then parts[0]
    else parts[0] + sep + Join(parts[1..], sep)
  }

  /** Number of occurrences of character `c` in `s`. */
  function CountChar(s: string, c: char): nat {
    if s == [] then 0 else (if s[0] == c then 1 else 0) + CountChar(s[1..], c)
  }

  lemma {:induction false} CountCharAppend(a: string, b: string, c: char)
    ensures CountChar(a + b, c) == CountChar(a, c) + CountChar(b, c)
  {
    if a != [] {
      assert (a + b)[0] == a[0];
      assert (a + b)[1..] == a[1..] + b;
      CountCharAppend(a[1..], b, c);
    } else {
      assert a + b == b;
    }
  }

  lemma {:induction false} CountCharAbsent(s: string, c: char)
    requires c !in s
    ensures CountChar(s, c) == 0
  {
    if s != [] {
      CountCharAbsent(s[1..], c);
    }
  }

  /** Joining n lines that contain no line break with "\n" yields exactly n - 1 line breaks. */
  lemma {:induction false} JoinLineCount(lines: seq<string>)
    requires forall i :: 0 <= i < |lines| ==> '\n' !in lines[i]
    ensures CountChar(Join(lines, "\n"), '\n') == if lines == [] then 0 else |lines| - 1
  {
    if |lines| == 1 {
      CountCharAbsent(lines[0], '\n');
    } else if |lines| > 1 {
      JoinLineCount(lines[1..]);
      CountCharAbsent(lines[0], '\n');
      CountCharAppend(lines[0], "\n", '\n');
      CountCharAppend(lines[0] + "\n", Join(lines[1..], "\n"), '\n');
    }
  }

  /** `s.split(c)` for a one-character separator: the pieces between occurrences of `c`. */
  function SplitOn(s: string, c: char): (parts: seq<string>)
    ensures |parts| >= 1
  {
    if s == [] then [[]]
    else if s[0] == c then [[]] + SplitOn(s[1..], c)
    else var rest := SplitOn(s[1..], c); [[s[0]] + rest[0]] + rest[1..]
  }

  /** A string without the separator splits into itself alone. */
  lemma {:induction false} SplitOnAbsent(s: string, c: char)
    requires c !in s
    ensures SplitOn(s, c) == [s]
  {
    if s != [] {
      SplitOnAbsent(s[1..], c);
      assert [s[0]] + s[1..] == s;
    }
  }

  /** Splitting `a + [c] + b`, where `a` holds no separator, yields `a` followed by the pieces of `b`. */
  lemma {:induction false} SplitOnFirst(a: string, b: string, c: char)
    requires c !in a
    ensures SplitOn(a + [c] + b, c) == [a] + SplitOn(b, c)
  {
    if a == [] {
      assert a + [c] + b == [c] + b;
      assert ([c] + b)[1..] == b;
    } else {
      SplitOnFirst(a[1..], b, c);
      assert (a + [c] + b)[1..] == a[1..] + [c] + b;
      assert [a[0]] + a[1..] == a;
    }
  }

  /** Three separator-free pieces joined by the separator split back into those three pieces. */
  lemma {:induction false} SplitThree(a: string, b: string, c: string, sep: char)
    requires sep !in a && sep !in b && sep !in c
    ensures SplitOn(a + [sep] + b + [sep] + c, sep) == [a, b, c]
  {
    SplitOnAbsent(c, sep);
    SplitOnFirst(b, c, sep);
    assert a + [sep] + b + [sep] + c == a + [sep] + (b + [sep] + c);
    SplitOnFirst(a, b + [sep] + c, sep);
  }

  /** Lines free of the separator, joined by it, split back into the same lines. */
  lemma {:induction false} SplitJoin(lines: seq<string>, c: char)
    requires lines != []
    requires forall i :: 0 <= i < |lines| ==> c !in lines[i]
    ensures SplitOn(Join(lines, [c]), c) == lines
  {
    if |lines| == 1 {
      SplitOnAbsent(lines[0], c);
    } else {
      SplitJoin(lines[1..], c);
      SplitOnFirst(lines[0], Join(lines[1..], [c]), c);
      assert [lines[0]] + lines[1..] == lines;
    }
  }

  /** The longest prefix of `s` free of whitespace. */
  function TakeWord(s: string): (w: string)
    ensures w <= s
    ensures forall i :: 0 <= i < |w| ==> !IsSpace(w[i])
  {
    if s == [] || IsSpace(s[0]) then [] else [s[0]] + TakeWord(s[1..])
  }

  /** `s.split()[0]`: the first whitespace-separated word; `None` where Python raises IndexError. */
  function FirstWord(s: string): (r: Option<string>)
    ensures r.Some? ==> r.value != [] && forall i :: 0 <= i < |r.value| ==> !IsSpace(r.value[i])
  {
    var t := StripLeft(s);
    if t == [] then None else Some(TakeWord(t))
  }

  /** A leading run of blanks, a word and anything after a blank: the word is the first one. */
  lemma {:induction false} FirstWordOf(lead: string, w: string, rest: string)
    requires forall i :: 0 <= i < |lead| ==> lead[i] == ' '
    requires w != [] && forall i :: 0 <= i < |w| ==> !IsSpace(w[i])
    ensures FirstWord(lead + w + [' '] + rest) == Some(w)
  {
    var s := lead + w + [' '] + rest;
    StripLeftOver(lead, w + [' '] + rest);
    assert lead + (w + [' '] + rest) == s;
    TakeWordOf(w, rest);
  }

  lemma {:induction false} StripLeftOver(lead: string, t: string)
    requires forall i :: 0 <= i < |lead| ==> lead[i] == ' '
    requires t != [] && !IsSpace(t[0])
    ensures StripLeft(lead + t) == t
  {
    if lead != [] {
      assert (lead + t)[1..] == lead[1..] + t;
      StripLeftOver(lead[1..], t);
    }
  }

  lemma {:induction false} TakeWordOf(w: string, rest: string)
    requires forall i :: 0 <= i < |w| ==> !IsSpace(w[i])
    ensures TakeWord(w + [' '] + rest) == w
  {
    if w == [] {
    } else {
      assert (w + [' '] + rest)[1..] == w[1..] + [' '] + rest;
      TakeWordOf(w[1..], rest);
      assert [w[0]] + w[1..] == w;
    }
  }

  // ---------------------------------------------------------------------
  // Decimal digits

  predicate IsDigit(c: char) { '0' <= c <= '9' }

  predicate AllDigits(s: string) { forall i :: 0 <= i < |s| ==> IsDigit(s[i]) }

  function DigitValue(c: char): nat requires IsDigit(c) { c as int - '0' as int }

  function DigitChar(d: nat): (c: char)
    requires d < 10
    ensures IsDigit(c) && DigitValue(c) == d
  {
    ('0' as int + d) as char
  }

  /** The number a string of decimal digits denotes. */
  function DigitsValue(s: string): nat
    requires AllDigits(s)
  {
    if s == [] then 0 else DigitsValue(s[..|s| - 1]) * 10 + DigitValue(s[|s| - 1])
  }

  /** `int(s)` on the strings the knowledge base feeds it: decimal digits only; `None` where Python raises ValueError. */
  function ParseNat(s: string): (r: Option<nat>)
    ensures r.Some? <==> s != [] && AllDigits(s)
  {
    if s != [] && AllDigits(s) then Some(DigitsValue(s)) else None
  }

  function Pow10(k: nat): (p: nat)
    ensures p >= 1
  {
    if k == 0 then 1 else 10 * Pow10(k - 1)
  }

  /** The zero-padded decimal rendering of `n` in exactly `width` digits (strftime's %Y, %m, %d, %H, %M). */
  function PadDigits(n: nat, width: nat): (s: string)
    ensures |s| == width && AllDigits(s)
  {
    if width == 0 then [] else PadDigits(n / 10, width - 1) + [DigitChar(n % 10)]
  }

  /** Reading back a zero-padded rendering gives the number, whenever it fits in the width. */
  lemma {:induction false} PadDigitsRoundTrip(n: nat, width: nat)
    requires n < Pow10(width)
    ensures DigitsValue(PadDigits(n, width)) == n
  {
    if width > 0 {
      var s := PadDigits(n, width);
      PadDigitsRoundTrip(n / 10, width - 1);
      assert s[..|s| - 1] == PadDigits(n / 10, width - 1);
    }
  }
}
