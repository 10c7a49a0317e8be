/**
 * Python string operations the modelled code relies on: substring search,
 * `str.split`/`str.join`/`str.replace` with a non-empty separator, the
 * character classes of Python regular expressions, `str.strip`,
 * `str.lower` and `str.title`.
 */
module Text {
  import opened Wrappers
  import opened Seqs

  /** `p` occurs in `s` starting at index `i`. */
  predicate StartsAt(s: string, i: nat, p: string)
  {
    i + |p| <= |s| && s[i..i + |p|] == p
  }

  /** `str.find(p, from)`: the leftmost occurrence of `p` at or after `from`. */
  function Find(s: string, p: string, from: nat): (r: Option<nat>)
    ensures r.Some? ==> from <= r.value && StartsAt(s, r.value, p)
    ensures r.Some? ==> forall j :: from <= j < r.value ==> !StartsAt(s, j, p)
    ensures r.None? ==> forall j :: from <= j ==> !StartsAt(s, j, p)
    decreases |s| - from
  {
    if from + |p| > |s| then None
    else if StartsAt(s, from, p) then Some(from)
    else Find(s, p, from + 1)
  }

  /** Python's `p in s`. */
  predicate Contains(s: string, p: string)
  {
    Find(s, p, 0).Some?
  }

  lemma ContainsIff(s: string, p: string)
    ensures Contains(s, p) <==> exists i :: 0 <= i <= |s| && StartsAt(s, i, p)
  {
    if Contains(s, p) {
      var i := Find(s, p, 0).value;
      assert StartsAt(s, i, p);
    }
  }

  /** Two searches that start one character apart agree once the first character is dropped. */
  lemma {:induction false} FindShift(s: string, p: string, from: nat)
    requires |s| > 0
    ensures Find(s, p, from + 1) == (match Find(s[1..], p, from)
                                     case None => None
                                     case Some(i) => Some(i + 1))
    decreases |s| - from
  {
    if from + 1 + |p| <= |s| {
      assert s[from + 1..from + 1 + |p|] == s[1..][from..from + |p|];
      if !StartsAt(s, from + 1, p) {
        FindShift(s, p, from + 1);
      }
    }
  }

  /** `sep.join(parts)`. */
  function Join(sep: string, parts: seq<string>): string
  {
    if |parts| == 0 then ""
    else if |parts| == 1 then parts[0]
    else parts[0] + sep + Join(sep, parts[1..])
  }

  /** `s.split(sep)` for a non-empty separator: cut at every non-overlapping occurrence, left to right. */
  function Split(s: string, sep: string): (r: seq<string>)
    requires |sep| > 0
    ensures |r| >= 1
    decreases |s|
  {
    match Find(s, sep, 0)
    case None => [s]
    case Some(i) => [s[..i]] + Split(s[i + |sep|..], sep)
  }

  /** Joining the pieces with the separator gives back the original text. */
  lemma {:induction false} JoinSplit(s: string, sep: string)
    requires |sep| > 0
    ensures Join(sep, Split(s, sep)) == s
    decreases |s|
  {
    match Find(s, sep, 0)
    case None =>
    case Some(i) =>
      var rest := s[i + |sep|..];
      var tail := Split(rest, sep);
      var parts := [s[..i]] + tail;
      JoinSplit(rest, sep);
      assert Split(s, sep) == parts;
      assert parts[1..] == tail;
      assert Join(sep, parts) == s[..i] + sep + Join(sep, tail);
      assert s == s[..i] + sep + rest;
  }

  /** The text before the leftmost occurrence of the separator does not contain it. */
  lemma BeforeFirstFree(s: string, sep: string, i: nat)
    requires |sep| > 0 && Find(s, sep, 0) == Some(i)
    ensures !Contains(s[..i], sep)
  {
    var piece := s[..i];
    if Contains(piece, sep) {
      var j := Find(piece, sep, 0).value;
      assert StartsAt(piece, j, sep);
      assert j + |sep| <= i;
      assert s[j..j + |sep|] == piece[j..j + |sep|];
      assert StartsAt(s, j, sep);
      assert false;
    }
  }

  /** No piece of a split contains the separator. */
  lemma {:induction false} SplitPiecesFree(s: string, sep: string, k: nat)
    requires |sep| > 0 && k < |Split(s, sep)|
    ensures !Contains(Split(s, sep)[k], sep)
    decreases |s|
  {
    match Find(s, sep, 0)
    case None =>
      SplitWhole(s, sep);
    case Some(i) =>
      var rest := s[i + |sep|..];
      SplitAt(s, sep, i);
      ConsIndex(s[..i], Split(rest, sep), k);
      if k == 0 {
        BeforeFirstFree(s, sep, i);
      } else {
        SplitPiecesFree(rest, sep, k - 1);
      }
  }

  /** `s.replace(pat, rep)` for a non-empty `pat`. */
  function ReplaceAll(s: string, pat: string, rep: string): string
    requires |pat| > 0
  {
    Join(rep, Split(s, pat))
  }

  /** Character-by-character replacement of one character by a string. */
  function MapChar(s: string, c: char, rep: string): string
  {
    if s == [] then [] else (if s[0] == c then rep else [s[0]]) + MapChar(s[1..], c, rep)
  }

  /** The first cut after a character that is not the separator is one further on. */
  lemma FindAfterOther(s: string, c: char)
    requires |s| > 0 && s[0] != c
    ensures Find(s, [c], 0) == (match Find(s[1..], [c], 0)
                                case None => None
                                case Some(i) => Some(i + 1))
  {
    assert !StartsAt(s, 0, [c]);
    FindShift(s, [c], 0);
  }

  /** The split cuts at the leftmost occurrence of the separator. */
  lemma SplitAt(s: string, sep: string, i: nat)
    requires |sep| > 0 && Find(s, sep, 0) == Some(i)
    ensures Split(s, sep) == [s[..i]] + Split(s[i + |sep|..], sep)
  {
  }

  /** Without an occurrence of the separator the text is one piece. */
  lemma SplitWhole(s: string, sep: string)
    requires |sep| > 0 && Find(s, sep, 0) == None
    ensures Split(s, sep) == [s]
  {
  }

  /** Splitting at a character: a leading other character joins the first piece. */
  lemma SplitCons(s: string, c: char)
    requires |s| > 0 && s[0] != c
    ensures var t := Split(s[1..], [c]); Split(s, [c]) == [[s[0]] + t[0]] + t[1..]
  {
    FindAfterOther(s, c);
    match Find(s[1..], [c], 0)
    case None =>
      SplitConsWhole(s, c);
    case Some(i) =>
      SplitConsAt(s, c, i);
  }

  lemma SplitConsWhole(s: string, c: char)
    requires |s| > 0 && Find(s[1..], [c], 0) == None && Find(s, [c], 0) == None
    ensures var t := Split(s[1..], [c]); Split(s, [c]) == [[s[0]] + t[0]] + t[1..]
  {
    SplitWhole(s, [c]);
    SplitWhole(s[1..], [c]);
    HeadTail(s);
  }

  lemma SplitConsAt(s: string, c: char, i: nat)
    requires |s| > 0 && Find(s[1..], [c], 0) == Some(i) && Find(s, [c], 0) == Some(i + 1)
    ensures var t := Split(s[1..], [c]); Split(s, [c]) == [[s[0]] + t[0]] + t[1..]
  {
    var t := Split(s[1..], [c]);
    var rest := Split(s[i + 2..], [c]);
    SplitAt(s[1..], [c], i);
    DropDrop(s, 1, i + 1);
    SplitAt(s, [c], i + 1);
    SliceCons(s, i + 1);
  }

  /** Splitting at a character the first part lacks: that part is the first piece. */
  lemma {:induction false} SplitAfterFree(a: string, c: char, b: string)
    requires c !in a
    ensures Split(a + [c] + b, [c]) == [a] + Split(b, [c])
    decreases |a|
  {
    var s := a + [c] + b;
    if a == [] {
      EmptyConcat([c], b);
      assert StartsAt(s, 0, [c]);
      SplitAt(s, [c], 0);
    } else {
      ConcatTail(a, [c], b);
      SplitCons(s, c);
      SplitAfterFree(a[1..], c, b);
      HeadTail(a);
    }
  }

  /** The first piece of `a + b`, when `a` lacks the separator, starts with `a`. */
  lemma {:induction false} SplitHeadFree(a: string, c: char, b: string)
    requires c !in a
    ensures Split(a + b, [c])[0] == a + Split(b, [c])[0]
    decreases |a|
  {
    if a == [] {
      EmptyConcat(a, b);
    } else {
      var s := a + b;
      ConcatTail(a, [], b);
      SplitCons(s, c);
      SplitHeadFree(a[1..], c, b);
      ConsConcat(a[0], a[1..], Split(b, [c])[0]);
      HeadTail(a);
    }
  }

  /** The split has a second piece exactly when the separator occurs. */
  lemma SplitHasSecond(s: string, c: char)
    ensures |Split(s, [c])| >= 2 <==> c in s
  {
    if c in s {
      var j :| 0 <= j < |s| && s[j] == c;
      assert StartsAt(s, j, [c]);
    }
    match Find(s, [c], 0)
    case None =>
    case Some(i) =>
      assert s[i] == c;
  }

  /** A character in front of the first part comes out in front of the joined text. */
  lemma JoinCons(sep: string, x: char, parts: seq<string>)
    requires |parts| > 0
    ensures Join(sep, [[x] + parts[0]] + parts[1..]) == [x] + Join(sep, parts)
  {
    var q := [[x] + parts[0]] + parts[1..];
    assert q[1..] == parts[1..];
  }

  lemma SplitJoinCons(s: string, c: char, rep: string)
    requires |s| > 0 && s[0] != c
    ensures Join(rep, Split(s, [c])) == [s[0]] + Join(rep, Split(s[1..], [c]))
  {
    SplitCons(s, c);
    JoinCons(rep, s[0], Split(s[1..], [c]));
  }

  /** Replacing a single character is the character-by-character map. */
  lemma {:induction false} ReplaceCharIsMap(s: string, c: char, rep: string)
    ensures ReplaceAll(s, [c], rep) == MapChar(s, c, rep)
    decreases |s|
  {
    if s == [] {
    } else if s[0] == c {
      assert StartsAt(s, 0, [c]);
      assert Split(s, [c]) == [""] + Split(s[1..], [c]);
      ReplaceCharIsMap(s[1..], c, rep);
    } else {
      SplitJoinCons(s, c, rep);
      ReplaceCharIsMap(s[1..], c, rep);
    }
  }

  /** After removing a character (or replacing it by other characters) it no longer occurs. */
  lemma {:induction false} MapCharRemoves(s: string, c: char, rep: string)
    requires c !in rep
    ensures c !in MapChar(s, c, rep)
    ensures forall d :: d != c && d !in rep && d !in s ==> d !in MapChar(s, c, rep)
  {
    if s != [] {
      MapCharRemoves(s[1..], c, rep);
    }
  }

  /** A character that is not the target passes through a character map unchanged. */
  lemma {:induction false} MapCharIdentity(s: string, c: char, rep: string)
    requires c !in s
    ensures MapChar(s, c, rep) == s
  {
    if s != [] {
      MapCharIdentity(s[1..], c, rep);
    }
  }

  /** Python's `\s` and `str.isspace()`: the Unicode whitespace characters. */
  predicate IsSpace(c: char)
  {
    ('\t' <= c <= '\r') || ('\U{1C}' <= c <= '\U{1F}') || c == ' ' || c == '\U{85}' || c == '\U{A0}'
    || c == '\U{1680}' || ('\U{2000}' <= c <= '\U{200A}') || c == '\U{2028}' || c == '\U{2029}'
    || c == '\U{202F}' || c == '\U{205F}' || c == '\U{3000}'
  }

  /** The whitespace `json.loads` skips between tokens. */
  predicate IsJsonSpace(c: char)
  {
    c == ' ' || c == '\t' || c == '\n' || c == '\r'
  }

  /** Python's `\d`, restricted to ASCII digits. */
  predicate IsDigit(c: char)
  {
    '0' <= c <= '9'
  }

  predicate IsAsciiLetter(c: char)
  {
    ('a' <= c <= 'z') || ('A' <= c <= 'Z')
  }

  /** Python's `\w`, restricted to ASCII letters, digits and the underscore. */
  predicate IsWordChar(c: char)
  {
    IsAsciiLetter(c) || IsDigit(c) || c == '_'
  }

  function DigitValue(c: char): (r: nat)
    requires IsDigit(c)
    ensures r < 10
  {
    c as int - '0' as int
  }

  /** `int(s)` of a string of ASCII digits. */
  function DecimalValue(s: string): (r: nat)
    requires forall i :: 0 <= i < |s| ==> IsDigit(s[i])
  {
    if |s| == 0 then 0 else 10 * DecimalValue(s[..|s| - 1]) + DigitValue(s[|s| - 1])
  }

  /** `s.strip()`: leading and trailing whitespace removed. */
  function Strip(s: string): (r: string)
    ensures |r| <= |s|
    ensures |r| > 0 ==> !IsSpace(r[0]) && !IsSpace(r[|r| - 1])
    ensures exists i, j ::
              && 0 <= i <= j <= |s| && r == s[i..j]
              && (forall k :: 0 <= k < i ==> IsSpace(s[k]))
              && (forall k :: j <= k < |s| ==> IsSpace(s[k]))
  {
    var i := LeadingSpace(s, 0);
    var j := TrailingEnd(s, i);
    s[i..j]
  }

  /** Index of the first non-space character at or after `i` (or `|s|`). */
  function LeadingSpace(s: string, i: nat): (r: nat)
    requires i <= |s|
    requires forall k :: 0 <= k < i ==> IsSpace(s[k])
    ensures i <= r <= |s|
    ensures forall k :: 0 <= k < r ==> IsSpace(s[k])
    ensures r < |s| ==> !IsSpace(s[r])
    decreases |s| - i
  {
    if i < |s| && IsSpace(s[i]) then LeadingSpace(s, i + 1) else i
  }

  /** One past the last non-space character at or after `lo` (or `lo`). */
  function TrailingEnd(s: string, lo: nat): (r: nat)
    requires lo <= |s|
    requires lo < |s| ==> !IsSpace(s[lo])
    ensures lo <= r <= |s|
    ensures forall k :: r <= k < |s| ==> IsSpace(s[k])
    ensures r > lo ==> !IsSpace(s[r - 1])
  {
    LastNonSpace(s, lo, |s|)
  }

  function LastNonSpace(s: string, lo: nat, j: nat): (r: nat)
    requires lo <= j <= |s|
    requires lo < |s| ==> !IsSpace(s[lo])
    requires forall k :: j <= k < |s| ==> IsSpace(s[k])
    ensures lo <= r <= j
    ensures forall k :: r <= k < |s| ==> IsSpace(s[k])
    ensures r > lo ==> !IsSpace(s[r - 1])
    decreases j
  {
    if j > lo && IsSpace(s[j - 1]) then LastNonSpace(s, lo, j - 1) else j
  }

  function LowerChar(c: char): char
  {
    if 'A' <= c <= 'Z' then (c as int + 32) as char else c
  }

  function UpperChar(c: char): char
  {
    if 'a' <= c <= 'z' then (c as int - 32) as char else c
  }

  /** `s.lower()` on ASCII letters. */
  function Lower(s: string): (r: string)
    ensures |r| == |s|
    ensures forall i :: 0 <= i < |s| ==> r[i] == LowerChar(s[i])
  {
    seq(|s|, i requires 0 <= i < |s| => LowerChar(s[i]))
  }

  /**
   * `s.title()` on ASCII letters: a letter that follows a letter is lower-cased,
   * every other letter is upper-cased.
   */
  function Title(s: string): (r: string)
    ensures |r| == |s|
    ensures forall i :: 0 <= i < |s| ==>
              r[i] == (if i > 0 && IsAsciiLetter(s[i - 1]) then LowerChar(s[i]) else UpperChar(s[i]))
  {
    seq(|s|, i requires 0 <= i < |s| =>
      if i > 0 && IsAsciiLetter(s[i - 1]) then LowerChar(s[i]) else UpperChar(s[i]))
  }

  /** Lower-casing twice changes nothing more. */
  lemma LowerIdempotent(s: string)
    ensures Lower(Lower(s)) == Lower(s)
  {
    assert forall i :: 0 <= i < |s| ==> LowerChar(LowerChar(s[i])) == LowerChar(s[i]);
  }

  /** Title-casing keeps which characters are letters. */
  lemma CaseKeepsLetters(c: char)
    ensures IsAsciiLetter(LowerChar(c)) <==> IsAsciiLetter(c)
    ensures IsAsciiLetter(UpperChar(c)) <==> IsAsciiLetter(c)
    ensures UpperChar(UpperChar(c)) == UpperChar(c) && LowerChar(LowerChar(c)) == LowerChar(c)
    ensures LowerChar(UpperChar(c)) == LowerChar(c) && UpperChar(LowerChar(c)) == UpperChar(c)
  {
  }

  /** A title-cased label is its own title case: applying `title()` again changes nothing. */
  lemma TitleIdempotent(s: string)
    ensures Title(Title(s)) == Title(s)
  {
    var t := Title(s);
    forall i | 0 <= i < |s|
      ensures Title(t)[i] == t[i]
    {
      CaseKeepsLetters(s[i]);
      if i > 0 {
        CaseKeepsLetters(s[i - 1]);
        assert IsAsciiLetter(t[i - 1]) <==> IsAsciiLetter(s[i - 1]);
      }
    }
  }

  /** `s[lo:]` of a Python slice with a non-negative start. */
  function Drop<T>(s: seq<T>, lo: nat): (r: seq<T>)
    ensures |r| == if lo <= |s| then |s| - lo else 0
  {
    if lo <= |s| then s[lo..] else []
  }

  /** `s[-k:]` of a Python slice: the last `k` elements, or all of them. */
  function LastN<T>(s: seq<T>, k: nat): (r: seq<T>)
    ensures |r| == if |s| < k then |s| else k
    ensures forall i :: 0 <= i < |r| ==> r[i] == s[|s| - |r| + i]
  {
    if |s| <= k then s else s[|s| - k..]
  }
}
