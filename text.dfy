/**
 * The JavaScript string operations the modelled code relies on, over `string` (= `seq<char>`):
 * `trim`, `toLowerCase` / `toUpperCase` (restricted to ASCII and basic Cyrillic letters),
 * `includes`, `split` on one character, `Number.prototype.toString` for integers and
 * decimal `parseInt`.
 */
module Text {
  import opened Wrappers

  /** The characters `String.prototype.trim` removes: ECMAScript WhiteSpace and LineTerminator. */
  predicate IsSpace(c: char) {
    || c == '\t' || c == '\n' || c == '\U{000B}' || c == '\U{000C}' || c == '\r' || c == ' '
    || c == '\U{00A0}' || c == '\U{1680}' || ('\U{2000}' <= c <= '\U{200A}')
    || c == '\U{2028}' || c == '\U{2029}' || c == '\U{202F}' || c == '\U{205F}'
    || c == '\U{3000}' || c == '\U{FEFF}'
  }

  /** `trimStart`: drops the leading white space and nothing else. */
  function TrimStart(s: string): (r: string)
    ensures |r| <= |s| && r == s[|s| - |r|..]
    ensures r != [] ==> !IsSpace(r[0])
    ensures forall i :: 0 <= i < |s| - |r| ==> IsSpace(s[i])
  {
    if s != [] && IsSpace(s[0]) then TrimStart(s[1..]) else s
  }

  /** `trimEnd`: drops the trailing white space and nothing else. */
  function TrimEnd(s: string): (r: string)
    ensures |r| <= |s| && r == s[..|r|]
    ensures r != [] ==> !IsSpace(r[|r| - 1])
    ensures forall i :: |r| <= i < |s| ==> IsSpace(s[i])
  {
    if s != [] && IsSpace(s[|s| - 1]) then TrimEnd(s[..|s| - 1]) else s
  }

  /** `r` sits at offset `k` of `s` with only white space around it. */
  ghost predicate TrimmedAt(s: string, r: string, k: int) {
    && 0 <= k && k + |r| <= |s| && s[k..k + |r|] == r
    && (forall i :: 0 <= i < k ==> IsSpace(s[i]))
    && (forall i :: k + |r| <= i < |s| ==> IsSpace(s[i]))
  }

  /** `trim`: the text with its surrounding white space removed. */
  function Trim(s: string): (r: string)
    ensures exists k :: TrimmedAt(s, r, k)
    ensures r != [] ==> !IsSpace(r[0]) && !IsSpace(r[|r| - 1])
  {
    var t := TrimStart(s);
    var r := TrimEnd(t);
    assert TrimmedAt(s, r, |s| - |t|) by {
      assert s[|s| - |t|..][..|r|] == s[|s| - |t|..|s| - |t| + |r|];
    }
    r
  }

  /** `!s.trim()`: the text is empty or white space only. */
  predicate IsBlank(s: string) {
    Trim(s) == []
  }

  /** A text is blank exactly when every character in it is white space. */
  lemma BlankIffAllSpace(s: string)
    ensures IsBlank(s) <==> forall i :: 0 <= i < |s| ==> IsSpace(s[i])
  {
    var k :| TrimmedAt(s, Trim(s), k);
  }

  /** Trimming a trimmed text changes nothing. */
  lemma TrimIdempotent(s: string)
    ensures Trim(Trim(s)) == Trim(s)
  {
  }

  /** `toLowerCase` on one character: ASCII and the basic Cyrillic block. */
  function Lower(c: char): char {
    if 'A' <= c <= 'Z' then (c as int + 32) as char
    else if '\U{0410}' <= c <= '\U{042F}' then (c as int + 32) as char
    else if '\U{0400}' <= c <= '\U{040F}' then (c as int + 80) as char
    else c
  }

  /** `toUpperCase` on one character: ASCII and the basic Cyrillic block. */
  function Upper(c: char): char {
    if 'a' <= c <= 'z' then (c as int - 32) as char
    else if '\U{0430}' <= c <= '\U{044F}' then (c as int - 32) as char
    else if '\U{0450}' <= c <= '\U{045F}' then (c as int - 80) as char
    else c
  }

  function ToLower(s: string): (r: string)
    ensures |r| == |s| && forall i :: 0 <= i < |s| ==> r[i] == Lower(s[i])
  {
    seq(|s|, i requires 0 <= i < |s| => Lower(s[i]))
  }

  function ToUpper(s: string): (r: string)
    ensures |r| == |s| && forall i :: 0 <= i < |s| ==> r[i] == Upper(s[i])
  {
    seq(|s|, i requires 0 <= i < |s| => Upper(s[i]))
  }

  /** Lower-casing forgets any earlier upper-casing: the two case mappings agree on letters. */
  lemma LowerOfUpper(s: string)
    ensures ToLower(ToUpper(s)) == ToLower(s)
  {
  }

  /** Lower-casing is idempotent. */
  lemma LowerIdempotent(s: string)
    ensures ToLower(ToLower(s)) == ToLower(s)
  {
  }

  /** `p` occurs in `s` starting at index `i`. */
  ghost predicate OccursAt(s: string, p: string, i: int) {
    0 <= i && i + |p| <= |s| && s[i..i + |p|] == p
  }

  /** `s.includes(p)` */
  function Includes(s: string, p: string): (b: bool)
    ensures b <==> exists i :: OccursAt(s, p, i)
    decreases |s|
  {
    if |p| > |s| then false
    else if s[..|p|] == p then (assert OccursAt(s, p, 0); true)
    else
      var b := Includes(s[1..], p);
      assert b ==> exists i :: OccursAt(s, p, i) by {
        if b {
          var i :| OccursAt(s[1..], p, i);
          assert s[1..][i..i + |p|] == s[i + 1..i + 1 + |p|];
          assert OccursAt(s, p, i + 1);
        }
      }
      assert (exists i :: OccursAt(s, p, i)) ==> b by {
        if exists i :: OccursAt(s, p, i) {
          var i :| OccursAt(s, p, i);
          assert i != 0;
          assert s[1..][i - 1..i - 1 + |p|] == s[i..i + |p|];
          assert OccursAt(s[1..], p, i - 1);
        }
      }
      b
  }

  /** Every text includes the empty text and itself. */
  lemma IncludesTrivial(s: string)
    ensures Includes(s, "") && Includes(s, s)
  {
    assert OccursAt(s, "", 0);
    assert OccursAt(s, s, 0);
  }

  /** `i` is the first place where `p` occurs in `s`. */
  ghost predicate FirstOccurrence(s: string, p: string, i: int) {
    OccursAt(s, p, i) && forall j :: 0 <= j < i ==> !OccursAt(s, p, j)
  }

  /** An occurrence after the first character is an occurrence in the rest of the text. */
  lemma OccursShift(s: string, p: string, k: int)
    requires |s| >= 1 && k >= 1
    ensures OccursAt(s, p, k) <==> OccursAt(s[1..], p, k - 1)
  {
    if k + |p| <= |s| {
      assert s[1..][k - 1..k - 1 + |p|] == s[k..k + |p|];
    }
  }

  /** `s.replace(p, q)` with a string pattern: only the first occurrence of `p` is replaced. */
  function ReplaceFirst(s: string, p: string, q: string): (r: string)
    ensures !Includes(s, p) ==> r == s
    ensures Includes(s, p) ==>
      exists i :: FirstOccurrence(s, p, i) && r == s[..i] + q + s[i + |p|..]
    decreases |s|
  {
    if |p| > |s| then s
    else if s[..|p|] == p then
      assert FirstOccurrence(s, p, 0);
      q + s[|p|..]
    else
      var rest := ReplaceFirst(s[1..], p, q);
      IncludesStep(s, p);
      assert Includes(s, p) ==>
        exists i :: FirstOccurrence(s, p, i) && [s[0]] + rest == s[..i] + q + s[i + |p|..]
      by {
        if Includes(s, p) {
          var i :| FirstOccurrence(s[1..], p, i) && rest == s[1..][..i] + q + s[1..][i + |p|..];
          ReplaceFirstStep(s, p, q, rest, i);
        }
      }
      [s[0]] + rest
  }

  /** With no occurrence at 0, the pattern occurs in the text iff it occurs in the rest. */
  lemma IncludesStep(s: string, p: string)
    requires |p| <= |s| && s[..|p|] != p
    ensures Includes(s, p) <==> Includes(s[1..], p)
  {
    if Includes(s, p) {
      var k :| OccursAt(s, p, k);
      assert k != 0;
      OccursShift(s, p, k);
    }
    if Includes(s[1..], p) {
      var i :| OccursAt(s[1..], p, i);
      OccursShift(s, p, i + 1);
    }
  }

  /** The recursive case of `ReplaceFirst` when the rest has an occurrence of the pattern. */
  lemma ReplaceFirstStep(s: string, p: string, q: string, rest: string, i: int)
    requires 1 <= |s| && |p| <= |s| && s[..|p|] != p
    requires FirstOccurrence(s[1..], p, i) && rest == s[1..][..i] + q + s[1..][i + |p|..]
    ensures FirstOccurrence(s, p, i + 1) && [s[0]] + rest == s[..i + 1] + q + s[i + 1 + |p|..]
  {
    OccursShift(s, p, i + 1);
    forall j | 0 <= j < i + 1 ensures !OccursAt(s, p, j) {
      if j > 0 {
        OccursShift(s, p, j);
      }
    }
    SpliceCons(s, q, i, i + |p|);
  }

  lemma SpliceCons(s: string, q: string, i: int, j: int)
    requires 0 <= i <= j && j + 1 <= |s|
    ensures [s[0]] + (s[1..][..i] + q + s[1..][j..]) == s[..i + 1] + q + s[j + 1..]
  {
    assert [s[0]] + s[1..][..i] == s[..i + 1];
    assert s[1..][j..] == s[j + 1..];
  }

  /** A text that starts with the pattern has exactly that prefix replaced. */
  lemma ReplaceFirstAtStart(p: string, rest: string, q: string)
    ensures ReplaceFirst(p + rest, p, q) == q + rest
  {
    assert (p + rest)[..|p|] == p;
    assert (p + rest)[|p|..] == rest;
  }

  predicate IsDigit(c: char) {
    '0' <= c <= '9'
  }

  function DigitChar(d: nat): (c: char)
    requires d < 10
    ensures IsDigit(c)
  {
    ('0' as int + d) as char
  }

  /** The decimal rendering of a natural number, as `String(n)` gives it. */
  function NatToString(n: nat): (r: string)
    ensures |r| >= 1
    ensures forall i :: 0 <= i < |r| ==> IsDigit(r[i])
  {
    if n < 10 then [DigitChar(n)] else NatToString(n / 10) + [DigitChar(n % 10)]
  }

  /** The decimal rendering of an integer, with a leading '-' when negative. */
  function IntToString(i: int): (r: string)
    ensures r != [] && (r[0] == '-' || IsDigit(r[0]))
    ensures forall k :: 0 < k < |r| ==> IsDigit(r[k])
  {
    if i < 0 then "-" + NatToString(-i) else NatToString(i)
  }

  /** The value of a run of decimal digits. */
  function DigitsValue(ds: string): int
    requires forall i :: 0 <= i < |ds| ==> IsDigit(ds[i])
  {
    if ds == [] then 0 else DigitsValue(ds[..|ds| - 1]) * 10 + (ds[|ds| - 1] as int - '0' as int)
  }

  /** The longest prefix made of decimal digits. */
  function LeadingDigits(s: string): (r: string)
    ensures |r| <= |s| && r == s[..|r|]
    ensures forall i :: 0 <= i < |r| ==> IsDigit(r[i])
    ensures |r| < |s| ==> !IsDigit(s[|r|])
  {
    if s != [] && IsDigit(s[0]) then [s[0]] + LeadingDigits(s[1..]) else []
  }

  predicate IsHexDigit(c: char) {
    IsDigit(c) || 'a' <= c <= 'f' || 'A' <= c <= 'F'
  }

  function HexDigitValue(c: char): (v: int)
    requires IsHexDigit(c)
    ensures 0 <= v < 16
  {
    if IsDigit(c) then c as int - '0' as int
    else if 'a' <= c <= 'f' then c as int - 'a' as int + 10
    else c as int - 'A' as int + 10
  }

  /** The value of a run of hexadecimal digits. */
  function HexValue(hs: string): int
    requires forall i :: 0 <= i < |hs| ==> IsHexDigit(hs[i])
  {
    if hs == [] then 0 else HexValue(hs[..|hs| - 1]) * 16 + HexDigitValue(hs[|hs| - 1])
  }

  /** The longest prefix made of hexadecimal digits. */
  function LeadingHexDigits(s: string): (r: string)
    ensures |r| <= |s| && r == s[..|r|]
    ensures forall i :: 0 <= i < |r| ==> IsHexDigit(r[i])
    ensures |r| < |s| ==> !IsHexDigit(s[|r|])
  {
    if s != [] && IsHexDigit(s[0]) then [s[0]] + LeadingHexDigits(s[1..]) else []
  }

  /** The text after one optional leading sign. */
  function Unsigned(t: string): string {
    if t != [] && (t[0] == '-' || t[0] == '+') then t[1..] else t
  }

  /** With no radix, `parseInt` reads "0x" or "0X" as the prefix of a hexadecimal number. */
  predicate HasHexPrefix(u: string) {
    |u| >= 2 && u[0] == '0' && (u[1] == 'x' || u[1] == 'X')
  }

  /**
   * `parseInt(s)` without a radix: white space is skipped, one optional sign is read, then the
   * longest run of hexadecimal digits after a "0x" prefix or else of decimal digits; None stands
   * for NaN (no digit at all).
   */
  function ParseInt(s: string): (r: Option<int>)
    ensures var u := Unsigned(TrimStart(s));
      r.None? <==> if HasHexPrefix(u) then LeadingHexDigits(u[2..]) == [] else LeadingDigits(u) == []
    ensures var t := TrimStart(s); var u := Unsigned(t);
      !HasHexPrefix(u) && LeadingDigits(u) != [] ==>
        r == Some(if t[0] == '-' then -DigitsValue(LeadingDigits(u)) else DigitsValue(LeadingDigits(u)))
  {
    var t := TrimStart(s);
    var u := Unsigned(t);
    var negative := t != [] && t[0] == '-';
    if HasHexPrefix(u) then
      var hs := LeadingHexDigits(u[2..]);
      if hs == [] then None
      else if negative then Some(-HexValue(hs)) else Some(HexValue(hs))
    else
      var ds := LeadingDigits(u);
      if ds == [] then None
      else if negative then Some(-DigitsValue(ds)) else Some(DigitsValue(ds))
  }

  lemma {:induction false} DigitsValueOfNatToString(n: nat)
    ensures DigitsValue(NatToString(n)) == n
  {
    if n >= 10 {
      var prefix := NatToString(n / 10);
      var r := prefix + [DigitChar(n % 10)];
      assert r[..|r| - 1] == prefix;
      DigitsValueOfNatToString(n / 10);
    }
  }

  lemma {:induction false} LeadingDigitsOfDigits(ds: string)
    requires forall i :: 0 <= i < |ds| ==> IsDigit(ds[i])
    ensures LeadingDigits(ds) == ds
  {
    if ds != [] {
      LeadingDigitsOfDigits(ds[1..]);
      assert [ds[0]] + ds[1..] == ds;
    }
  }

  /** `parseInt` reads back what `String(i)` writes: the two are inverse on integers. */
  lemma ParseIntOfIntToString(i: int)
    ensures ParseInt(IntToString(i)) == Some(i)
  {
    var n: nat := if i < 0 then -i else i;
    var u := NatToString(n);
    IntToStringShape(i);
    assert !HasHexPrefix(u);
    LeadingDigitsOfDigits(u);
    DigitsValueOfNatToString(n);
  }

  /** `String(i)` starts with no white space, and past its sign it is the digits of `|i|`. */
  lemma IntToStringShape(i: int)
    ensures var s := IntToString(i);
      TrimStart(s) == s && Unsigned(s) == NatToString(if i < 0 then -i else i) && (s[0] == '-' <==> i < 0)
  {
    var s := IntToString(i);
    assert !IsSpace(s[0]);
  }

  /** The index of the first occurrence of `c` (`s.indexOf(c)` when it is present). */
  function IndexOf(s: string, c: char): (i: nat)
    requires c in s
    ensures i < |s| && s[i] == c && c !in s[..i]
  {
    if s[0] == c then 0 else 1 + IndexOf(s[1..], c)
  }

  /** The first occurrence is the only position holding `c` with no `c` before it. */
  lemma IndexOfUnique(s: string, c: char, i: nat)
    requires i < |s| && s[i] == c && c !in s[..i]
    ensures IndexOf(s, c) == i
  {
  }

  /** `s.split(sep)` for a one-character separator: the pieces between the separators. */
  function Split(s: string, sep: char): (r: seq<string>)
    ensures |r| >= 1
    ensures forall k :: 0 <= k < |r| ==> sep !in r[k]
    decreases |s|
  {
    if sep !in s then [s]
    else
      var i := IndexOf(s, sep);
      [s[..i]] + Split(s[i + 1..], sep)
  }

  /** `pieces.join(sep)` */
  function Join(pieces: seq<string>, sep: char): string
    requires |pieces| >= 1
  {
    if |pieces| == 1 then pieces[0] else pieces[0] + [sep] + Join(pieces[1..], sep)
  }

  /** Joining the pieces of a split with the same separator gives back the original text. */
  lemma {:induction false} JoinSplit(s: string, sep: char)
    ensures Join(Split(s, sep), sep) == s
    decreases |s|
  {
    if sep in s {
      var i := IndexOf(s, sep);
      var rest := Split(s[i + 1..], sep);
      var pieces := [s[..i]] + rest;
      assert Split(s, sep) == pieces;
      JoinSplit(s[i + 1..], sep);
      assert pieces[0] == s[..i] && pieces[1..] == rest;
      calc {
        Join(pieces, sep);
        s[..i] + [sep] + Join(rest, sep);
        s[..i] + [sep] + s[i + 1..];
        { assert s[..i] + [s[i]] + s[i + 1..] == s; }
        s;
      }
    }
  }

  /** A text without the separator splits into itself alone. */
  lemma SplitWithoutSeparator(s: string, sep: char)
    requires sep !in s
    ensures Split(s, sep) == [s]
  {
  }

  /** A split whose first separator is at `i` starts with the text before `i`. */
  lemma SplitFirst(x: string, sep: char, i: nat)
    requires i < |x| && x[i] == sep && sep !in x[..i]
    ensures Split(x, sep) == [x[..i]] + Split(x[i + 1..], sep)
  {
    IndexOfUnique(x, sep, i);
  }

  /** Splitting at the first separator: the text before it, then the split of the rest. */
  lemma SplitAppendNoSeparator(a: string, b: string, sep: char)
    requires sep !in a
    ensures Split(a + [sep] + b, sep) == [a] + Split(b, sep)
  {
    var x := a + [sep] + b;
    assert x[..|a|] == a && x[|a|] == sep && x[|a| + 1..] == b;
    SplitFirst(x, sep, |a|);
  }

  /** Regrouping a list that starts with `h`: `[h] + (l + r)` is `([h] + l) + r`. */
  lemma Regroup<T>(whole: seq<T>, front: seq<T>, h: T, l: seq<T>, r: seq<T>)
    requires whole == [h] + (l + r) && front == [h] + l
    ensures whole == front + r
  {
  }

  /**
   * When `a` holds a separator at `i` (its first), the split of `a + [sep] + b` is the piece
   * before `i` followed by the split of the rest, given the claim for the rest.
   */
  lemma SplitAppendStep(a: string, b: string, sep: char, i: nat)
    requires i < |a| && a[i] == sep && sep !in a[..i]
    requires Split(a[i + 1..] + [sep] + b, sep) == Split(a[i + 1..], sep) + Split(b, sep)
    ensures Split(a + [sep] + b, sep) == Split(a, sep) + Split(b, sep)
  {
    var x := a + [sep] + b;
    SliceOfAppend(a, b, sep, i);
    SplitFirst(x, sep, i);
    SplitFirst(a, sep, i);
    Regroup(Split(x, sep), Split(a, sep), a[..i], Split(a[i + 1..], sep), Split(b, sep));
  }

  /** The slices of `a + [sep] + b` around a position `i` inside `a`. */
  lemma SliceOfAppend(a: string, b: string, sep: char, i: nat)
    requires i < |a|
    ensures (a + [sep] + b)[..i] == a[..i] && (a + [sep] + b)[i] == a[i]
    ensures (a + [sep] + b)[i + 1..] == a[i + 1..] + [sep] + b
  {
  }

  /** Splitting at a separator splits the two sides independently. */
  lemma {:induction false} SplitAppend(a: string, b: string, sep: char)
    ensures Split(a + [sep] + b, sep) == Split(a, sep) + Split(b, sep)
    decreases |a|
  {
    if sep !in a {
      SplitAppendNoSeparator(a, b, sep);
    } else {
      var i := IndexOf(a, sep);
      SplitAppend(a[i + 1..], b, sep);
      SplitAppendStep(a, b, sep, i);
    }
  }

  /** The position of the last occurrence of `c` in `s`. */
  function LastIndexOf(s: string, c: char): (k: nat)
    requires c in s
    ensures k < |s| && s[k] == c && c !in s[k + 1..]
    decreases |s|
  {
    var n := |s| - 1;
    if s[n] == c then n
    else
      assert c in s[..n] by {
        var j :| 0 <= j < |s| && s[j] == c;
        assert s[..n][j] == c;
      }
      var k := LastIndexOf(s[..n], c);
      assert s[k + 1..] == s[..n][k + 1..] + [s[n]];
      k
  }

  /**
   * The last piece of a split (`s.split(sep).pop()`): the whole text when it holds no
   * separator, otherwise the text after the last separator.
   */
  lemma LastPiece(s: string, sep: char)
    ensures sep !in s ==> Split(s, sep)[|Split(s, sep)| - 1] == s
    ensures sep in s ==> Split(s, sep)[|Split(s, sep)| - 1] == s[LastIndexOf(s, sep) + 1..]
  {
    if sep in s {
      var k := LastIndexOf(s, sep);
      var front, back := s[..k], s[k + 1..];
      assert s == front + [sep] + back;
      SplitAppend(front, back, sep);
      SplitWithoutSeparator(back, sep);
      LastOfAppend(Split(s, sep), Split(front, sep), back);
    } else {
      SplitWithoutSeparator(s, sep);
    }
  }

  /** `s.split(sep).pop()`: the last piece of the split. */
  function PopPiece(s: string, sep: char): (r: string)
    ensures sep !in r
    ensures sep !in s ==> r == s
    ensures sep in s ==> r == s[LastIndexOf(s, sep) + 1..]
  {
    LastPiece(s, sep);
    var pieces := Split(s, sep);
    pieces[|pieces| - 1]
  }

  /** The last element of `front + [x]` is `x`. */
  lemma LastOfAppend<T>(whole: seq<T>, front: seq<T>, x: T)
    requires whole == front + [x]
    ensures |whole| >= 1 && whole[|whole| - 1] == x
  {
  }

  /** A text that neither starts nor ends with white space is its own trim. */
  lemma TrimUntouched(s: string)
    requires s != [] ==> !IsSpace(s[0]) && !IsSpace(s[|s| - 1])
    ensures Trim(s) == s
  {
    assert TrimStart(s) == s;
    assert TrimEnd(s) == s;
  }
}
