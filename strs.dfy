/**
 * The Python and JavaScript string primitives the system relies on, over
 * `seq<char>`: whitespace-word splitting (`str.split()`), joining, stripping,
 * searching, splitting on a separator, ASCII case mapping, decimal text and
 * the last-n slice of a list.
 */
module Strs {

  /** The ASCII whitespace characters (space, tab, LF, VT, FF, CR). */
  predicate IsSpace(c: char)
  {
    c == ' ' || c == '\t' || c == '\n' || c == '\r' || c == '\U{000B}' || c == '\U{000C}'
  }

  predicate AllSpace(s: string)
  {
    forall i :: 0 <= i < |s| ==> IsSpace(s[i])
  }

  /** A word of `str.split()`: non-empty and free of whitespace. */
  predicate IsWord(w: string)
  {
    |w| > 0 && forall i :: 0 <= i < |w| ==> !IsSpace(w[i])
  }

  /** Python truthiness of a string after `strip()`: it holds a non-space character. */
  predicate IsBlank(s: string)
  {
    AllSpace(s)
  }

  /** The last `n` items, for a positive `n`: Python's `xs[-n:]`, JavaScript's `xs.slice(-n)`. */
  function LastN<T>(xs: seq<T>, n: nat): (r: seq<T>)
    ensures |r| == if |xs| <= n then |xs| else n
    ensures xs == xs[..|xs| - |r|] + r
  {
    if |xs| <= n then xs else xs[|xs| - n..]
  }

  // ---------------------------------------------------------------------------
  // Words: Python's str.split() with no argument
  // ---------------------------------------------------------------------------

  /** Length of the leading run of non-whitespace characters. */
  function LeadWord(s: string): (n: nat)
    ensures n <= |s|
    ensures forall i :: 0 <= i < n ==> !IsSpace(s[i])
    ensures n == |s| || IsSpace(s[n])
  {
    if |s| == 0 || IsSpace(s[0]) then 0 else 1 + LeadWord(s[1..])
  }

  /** The maximal runs of non-whitespace characters of `s`, in order. */
  function Words(s: string): (ws: seq<string>)
    decreases |s|
  {
    if |s| == 0 then []
    else if IsSpace(s[0]) then Words(s[1..])
    else
      var n := LeadWord(s);
      [s[..n]] + Words(s[n..])
  }

  /** Every element of `Words(s)` is a word. */
  lemma {:induction false} WordsAreWords(s: string)
    ensures forall w :: w in Words(s) ==> IsWord(w)
    decreases |s|
  {
    if |s| == 0 {
    } else if IsSpace(s[0]) {
      WordsAreWords(s[1..]);
    } else {
      var n := LeadWord(s);
      WordsAreWords(s[n..]);
    }
  }

  lemma LeadWordConcat(a: string, b: string)
    ensures LeadWord(a + b) == if LeadWord(a) < |a| then LeadWord(a) else |a| + LeadWord(b)
    decreases |a|
  {
    if |a| == 0 {
      assert a + b == b;
    } else if IsSpace(a[0]) {
    } else {
      assert (a + b)[1..] == a[1..] + b;
      LeadWordConcat(a[1..], b);
    }
  }

  /** Leading whitespace does not change the words. */
  lemma {:induction false} WordsSkipSpace(sp: string, t: string)
    requires AllSpace(sp)
    ensures Words(sp + t) == Words(t)
    decreases |sp|
  {
    if |sp| > 0 {
      assert (sp + t)[1..] == sp[1..] + t;
      WordsSkipSpace(sp[1..], t);
    } else {
      assert sp + t == t;
    }
  }

  /** Two strings whose meeting point is whitespace (or who are empty) split independently. */
  predicate SpaceBoundary(a: string, b: string)
  {
    |a| == 0 || |b| == 0 || IsSpace(a[|a| - 1]) || IsSpace(b[0])
  }

  lemma {:induction false} WordsConcat(a: string, b: string)
    requires SpaceBoundary(a, b)
    ensures Words(a + b) == Words(a) + Words(b)
    decreases |a|
  {
    if |a| == 0 {
      assert a + b == b;
    } else if IsSpace(a[0]) {
      assert (a + b)[1..] == a[1..] + b;
      WordsConcat(a[1..], b);
    } else {
      var n := LeadWord(a);
      if n < |a| {
        WordsLeadThenRest(a, b);
        WordsConcat(a[n..], b);
      } else if |b| == 0 {
        assert a + b == a;
      } else {
        WordsWordThenSpace(a, b);
      }
    }
  }

  /** A leading run of non-space characters that ends inside `a` is the first word of `a + b`. */
  lemma WordsLeadThenRest(a: string, b: string)
    requires |a| > 0 && !IsSpace(a[0]) && LeadWord(a) < |a|
    ensures var n := LeadWord(a);
      Words(a + b) == [a[..n]] + Words(a[n..] + b)
  {
    var n := LeadWord(a);
    LeadWordConcat(a, b);
    assert (a + b)[0] == a[0];
    assert (a + b)[..n] == a[..n];
    assert (a + b)[n..] == a[n..] + b;
  }

  /** A word followed by a text that starts with whitespace. */
  lemma WordsWordThenSpace(a: string, b: string)
    requires |a| > 0 && LeadWord(a) == |a| && |b| > 0 && IsSpace(b[0])
    ensures Words(a) == [a] && Words(a + b) == [a] + Words(b)
  {
    assert a[..|a|] == a && a[|a|..] == [];
    LeadWordConcat(a, b);
    assert (a + b)[0] == a[0];
    assert (a + b)[..|a|] == a;
    assert (a + b)[|a|..] == b;
  }

  /** A single word splits into itself. */
  lemma WordsOfWord(w: string)
    requires IsWord(w)
    ensures Words(w) == [w]
  {
    assert LeadWord(w) == |w|;
    assert w[..|w|] == w;
    assert w[|w|..] == [];
    assert Words(w) == [w] + Words([]);
  }

  lemma WordsOfSpaces(s: string)
    requires AllSpace(s)
    ensures Words(s) == []
  {
    WordsSkipSpace(s, "");
    assert s + "" == s;
  }

  /** All words of a list of strings, concatenated in order. */
  function WordsOf(ss: seq<string>): seq<string>
  {
    if |ss| == 0 then [] else WordsOf(ss[..|ss| - 1]) + Words(ss[|ss| - 1])
  }

  lemma WordsOfAppend(ss: seq<string>, s: string)
    ensures WordsOf(ss + [s]) == WordsOf(ss) + Words(s)
  {
    assert (ss + [s])[..|ss|] == ss;
  }

  lemma {:induction false} WordsOfCons(s: string, ss: seq<string>)
    ensures WordsOf([s] + ss) == Words(s) + WordsOf(ss)
    decreases |ss|
  {
    if |ss| == 0 {
      assert [s] + ss == [s];
      assert WordsOf([s]) == WordsOf([]) + Words(s);
    } else {
      assert ([s] + ss)[..|ss|] == [s] + ss[..|ss| - 1];
      WordsOfCons(s, ss[..|ss| - 1]);
    }
  }

  /** Words of `a + " " + b` are those of `a` followed by those of `b`. */
  lemma WordsSpaceJoin(a: string, b: string)
    ensures Words(a + " " + b) == Words(a) + Words(b)
  {
    var a1 := a + " ";
    WordsConcat(a, " ");
    WordsOfSpaces(" ");
    assert Words(a1) == Words(a);
    assert IsSpace(a1[|a1| - 1]);
    WordsConcat(a1, b);
  }

  lemma {:induction false} WordsOfMember(ss: seq<string>, i: nat, w: string)
    requires i < |ss| && w in Words(ss[i])
    ensures w in WordsOf(ss)
    decreases |ss|
  {
    if i < |ss| - 1 {
      WordsOfMember(ss[..|ss| - 1], i, w);
    }
  }

  // ---------------------------------------------------------------------------
  // Join: Python's sep.join(parts) and JavaScript's parts.join(sep)
  // ---------------------------------------------------------------------------

  function Join(sep: string, parts: seq<string>): string
  {
    if |parts| == 0 then ""
    else if |parts| == 1 then parts[0]
    else Join(sep, parts[..|parts| - 1]) + sep + parts[|parts| - 1]
  }

  lemma JoinAppend(sep: string, parts: seq<string>, p: string)
    requires |parts| > 0
    ensures Join(sep, parts + [p]) == Join(sep, parts) + sep + p
  {
    assert (parts + [p])[..|parts|] == parts;
  }

  /** Joining with a space and splitting on whitespace gives back every part's words. */
  lemma {:induction false} WordsOfJoin(ss: seq<string>)
    ensures Words(Join(" ", ss)) == WordsOf(ss)
    decreases |ss|
  {
    if |ss| == 0 {
    } else if |ss| == 1 {
      assert WordsOf(ss) == WordsOf([]) + Words(ss[0]);
    } else {
      var init, last := ss[..|ss| - 1], ss[|ss| - 1];
      WordsOfJoin(init);
      var j := Join(" ", init);
      assert Join(" ", ss) == j + " " + last;
      WordsConcat(j, " ");
      WordsOfSpaces(" ");
      WordsConcat(j + " ", last);
    }
  }

  /** Joining words with single spaces and splitting again is the identity. */
  lemma {:induction false} WordsJoinWords(ws: seq<string>)
    requires forall i :: 0 <= i < |ws| ==> IsWord(ws[i])
    ensures Words(Join(" ", ws)) == ws
    decreases |ws|
  {
    WordsOfJoin(ws);
    WordsOfWords(ws);
  }

  lemma {:induction false} WordsOfWords(ws: seq<string>)
    requires forall i :: 0 <= i < |ws| ==> IsWord(ws[i])
    ensures WordsOf(ws) == ws
    decreases |ws|
  {
    if |ws| > 0 {
      WordsOfWords(ws[..|ws| - 1]);
      WordsOfWord(ws[|ws| - 1]);
    }
  }

  // ---------------------------------------------------------------------------
  // Stripping
  // ---------------------------------------------------------------------------

  function LStrip(s: string): (r: string)
    ensures |r| <= |s| && r == s[|s| - |r|..]
    ensures |r| == 0 || !IsSpace(r[0])
    ensures AllSpace(s[..|s| - |r|])
  {
    if |s| == 0 || !IsSpace(s[0]) then s else LStrip(s[1..])
  }

  function RStrip(s: string): (r: string)
    ensures |r| <= |s| && r == s[..|r|]
    ensures |r| == 0 || !IsSpace(r[|r| - 1])
    ensures AllSpace(s[|r|..])
  {
    if |s| == 0 || !IsSpace(s[|s| - 1]) then s else RStrip(s[..|s| - 1])
  }

  /** Python's `str.strip()` / JavaScript's `String.prototype.trim()` over ASCII whitespace. */
  function Strip(s: string): (r: string)
    ensures |r| <= |s|
    ensures |r| == 0 || (!IsSpace(r[0]) && !IsSpace(r[|r| - 1]))
  {
    RStrip(LStrip(s))
  }

  lemma {:induction false} LStripEmpty(s: string)
    ensures LStrip(s) == "" <==> AllSpace(s)
    decreases |s|
  {
    if |s| > 0 && IsSpace(s[0]) {
      LStripEmpty(s[1..]);
      if AllSpace(s[1..]) {
        forall i | 1 <= i < |s|
          ensures IsSpace(s[i])
        {
          assert s[i] == s[1..][i - 1];
        }
      }
    }
  }

  lemma {:induction false} RStripEmpty(s: string)
    ensures RStrip(s) == "" <==> AllSpace(s)
    decreases |s|
  {
    if |s| > 0 && IsSpace(s[|s| - 1]) {
      RStripEmpty(s[..|s| - 1]);
      if AllSpace(s[..|s| - 1]) {
        forall i | 0 <= i < |s| - 1
          ensures IsSpace(s[i])
        {
          assert s[i] == s[..|s| - 1][i];
        }
      }
    }
  }

  /** `Strip` yields the empty string exactly on all-whitespace input. */
  lemma StripEmptyIffBlank(s: string)
    ensures Strip(s) == "" <==> AllSpace(s)
  {
    var l := LStrip(s);
    LStripEmpty(s);
    RStripEmpty(l);
    if l != "" {
      assert !IsSpace(l[0]);
    }
  }

  lemma LStripKeepsWords(s: string)
    ensures Words(LStrip(s)) == Words(s)
  {
    var l := LStrip(s);
    var p := s[..|s| - |l|];
    assert s == p + l;
    WordsSkipSpace(p, l);
  }

  lemma RStripKeepsWords(s: string)
    ensures Words(RStrip(s)) == Words(s)
  {
    var r := RStrip(s);
    var q := s[|r|..];
    assert s == r + q;
    WordsConcat(r, q);
    WordsOfSpaces(q);
  }

  /** Stripping keeps the words of the text. */
  lemma StripKeepsWords(s: string)
    ensures Words(Strip(s)) == Words(s)
  {
    LStripKeepsWords(s);
    RStripKeepsWords(LStrip(s));
  }

  /** Stripping an already stripped string changes nothing. */
  lemma StripIdempotent(s: string)
    ensures Strip(Strip(s)) == Strip(s)
  {
    var r := Strip(s);
    if |r| > 0 {
      assert !IsSpace(r[0]) && !IsSpace(r[|r| - 1]);
      assert LStrip(r) == r;
      assert RStrip(r) == r;
    }
  }

  /** The non-whitespace characters of `s`, in order. */
  function NonSpace(s: string): (r: string)
    ensures |r| <= |s|
  {
    if |s| == 0 then ""
    else (if IsSpace(s[0]) then "" else [s[0]]) + NonSpace(s[1..])
  }

  lemma {:induction false} NonSpaceConcat(a: string, b: string)
    ensures NonSpace(a + b) == NonSpace(a) + NonSpace(b)
    decreases |a|
  {
    if |a| == 0 {
      assert a + b == b;
    } else {
      assert (a + b)[1..] == a[1..] + b;
      NonSpaceConcat(a[1..], b);
    }
  }

  lemma NonSpaceOfSpaces(s: string)
    requires AllSpace(s)
    ensures NonSpace(s) == ""
  {
  }

  /** Stripping removes whitespace only. */
  lemma StripKeepsNonSpace(s: string)
    ensures NonSpace(Strip(s)) == NonSpace(s)
  {
    LStripKeepsNonSpace(s);
    RStripKeepsNonSpace(LStrip(s));
  }

  lemma LStripKeepsNonSpace(s: string)
    ensures NonSpace(LStrip(s)) == NonSpace(s)
  {
    var l := LStrip(s);
    var p := s[..|s| - |l|];
    assert s == p + l;
    NonSpaceConcat(p, l);
    NonSpaceOfSpaces(p);
  }

  lemma RStripKeepsNonSpace(s: string)
    ensures NonSpace(RStrip(s)) == NonSpace(s)
  {
    var r := RStrip(s);
    var q := s[|r|..];
    assert s == r + q;
    NonSpaceConcat(r, q);
    NonSpaceOfSpaces(q);
  }

  /** The concatenation of a list of strings (Python's "".join). */
  function Concat(ss: seq<string>): string
  {
    if |ss| == 0 then "" else ss[0] + Concat(ss[1..])
  }

  lemma ConcatSingle(s: string)
    ensures Concat([s]) == s
  {
    assert [s][1..] == [];
  }

  // ---------------------------------------------------------------------------
  // Searching
  // ---------------------------------------------------------------------------

  predicate OccursAt(s: string, pat: string, i: int)
  {
    0 <= i && i + |pat| <= |s| && s[i..i + |pat|] == pat
  }

  predicate StartsWith(s: string, pre: string)
  {
    |pre| <= |s| && s[..|pre|] == pre
  }

  predicate EndsWith(s: string, suf: string)
  {
    |suf| <= |s| && s[|s| - |suf|..] == suf
  }

  /** Python's `s.find(pat)`: the first occurrence, or -1. */
  function Find(s: string, pat: string): (r: int)
    ensures -1 <= r <= |s|
    ensures r >= 0 ==> OccursAt(s, pat, r)
    ensures r >= 0 ==> forall j :: 0 <= j < r ==> !OccursAt(s, pat, j)
    ensures r == -1 ==> forall j :: 0 <= j <= |s| ==> !OccursAt(s, pat, j)
  {
    FindFrom(s, pat, 0)
  }

  function FindFrom(s: string, pat: string, k: nat): (r: int)
    requires k <= |s|
    ensures -1 <= r <= |s|
    ensures r >= 0 ==> k <= r && OccursAt(s, pat, r)
    ensures r >= 0 ==> forall j :: k <= j < r ==> !OccursAt(s, pat, j)
    ensures r == -1 ==> forall j :: k <= j <= |s| ==> !OccursAt(s, pat, j)
    decreases |s| - k
  {
    if OccursAt(s, pat, k) then k
    else if k == |s| then -1
    else FindFrom(s, pat, k + 1)
  }

  /** Python's `s.rfind(pat)`: the last occurrence, or -1. */
  function RFind(s: string, pat: string): (r: int)
    ensures -1 <= r <= |s|
    ensures r >= 0 ==> OccursAt(s, pat, r)
    ensures r >= 0 ==> forall j :: r < j <= |s| ==> !OccursAt(s, pat, j)
    ensures r == -1 ==> forall j :: 0 <= j <= |s| ==> !OccursAt(s, pat, j)
  {
    RFindBelow(s, pat, |s|)
  }

  function RFindBelow(s: string, pat: string, k: nat): (r: int)
    requires k <= |s|
    ensures -1 <= r <= k
    ensures r >= 0 ==> OccursAt(s, pat, r)
    ensures r >= 0 ==> forall j :: r < j <= k ==> !OccursAt(s, pat, j)
    ensures r == -1 ==> forall j :: 0 <= j <= k ==> !OccursAt(s, pat, j)
    decreases k
  {
    if OccursAt(s, pat, k) then k
    else if k == 0 then -1
    else RFindBelow(s, pat, k - 1)
  }

  /** Python's `pat in s` / JavaScript's `s.includes(pat)`. */
  predicate Contains(s: string, pat: string)
  {
    Find(s, pat) >= 0
  }

  // ---------------------------------------------------------------------------
  // Splitting on a separator: Python's s.split(sep) and JavaScript's s.split(sep)
  // ---------------------------------------------------------------------------

  function SplitBy(s: string, sep: string): (parts: seq<string>)
    requires |sep| > 0
    ensures |parts| >= 1
    decreases |s|
  {
    var i := Find(s, sep);
    if i < 0 then [s] else [s[..i]] + SplitBy(s[i + |sep|..], sep)
  }

  /** Splitting on a separator and joining with it gives the text back. */
  lemma {:induction false} JoinSplitBy(s: string, sep: string)
    requires |sep| > 0
    ensures Join(sep, SplitBy(s, sep)) == s
    decreases |s|
  {
    var i := Find(s, sep);
    if i >= 0 {
      var rest := s[i + |sep|..];
      JoinSplitBy(rest, sep);
      JoinCons(sep, s[..i], SplitBy(rest, sep));
      AroundOccurrence(s, sep, i);
    }
  }

  /** A text is what precedes an occurrence, the occurrence and what follows it. */
  lemma AroundOccurrence(s: string, pat: string, i: int)
    requires OccursAt(s, pat, i)
    ensures s == s[..i] + pat + s[i + |pat|..]
  {
    assert s == s[..i] + s[i..i + |pat|] + s[i + |pat|..];
  }

  lemma {:induction false} JoinCons(sep: string, p: string, parts: seq<string>)
    requires |parts| > 0
    ensures Join(sep, [p] + parts) == p + sep + Join(sep, parts)
    decreases |parts|
  {
    if |parts| == 1 {
      assert [p] + parts == [p, parts[0]];
    } else {
      var init, last := parts[..|parts| - 1], parts[|parts| - 1];
      assert ([p] + parts)[..|parts|] == [p] + init;
      JoinCons(sep, p, init);
    }
  }

  /** No part of a split contains the separator. */
  lemma {:induction false} SplitByPartsFree(s: string, sep: string)
    requires |sep| > 0
    ensures forall q :: q in SplitBy(s, sep) ==> !Contains(q, sep)
    decreases |s|
  {
    var i := Find(s, sep);
    if i >= 0 {
      SplitByPartsFree(s[i + |sep|..], sep);
      FirstPartFree(s, sep, i);
    }
  }

  /** What precedes the first occurrence does not contain the pattern. */
  lemma FirstPartFree(s: string, pat: string, i: int)
    requires |pat| > 0 && i == Find(s, pat) && i >= 0
    ensures !Contains(s[..i], pat)
  {
    var q := s[..i];
    var j := Find(q, pat);
    if j >= 0 {
      assert s[j..j + |pat|] == q[j..j + |pat|];
      assert OccursAt(s, pat, j);
      assert false;
    }
  }

  /** The first occurrence of a one-character separator is right after a part free of it. */
  lemma FindFirstSep(p: string, c: char, x: string)
    requires c !in p
    ensures Find(p + [c] + x, [c]) == |p|
  {
    var s := p + [c] + x;
    assert s[|p|..|p| + 1] == [c];
    assert OccursAt(s, [c], |p|);
    forall j | 0 <= j < |p|
      ensures !OccursAt(s, [c], j)
    {
      assert s[j] == p[j] != c;
    }
  }

  /** A text free of a one-character separator splits into itself alone. */
  lemma SplitByFree(s: string, c: char)
    requires c !in s
    ensures SplitBy(s, [c]) == [s]
  {
    forall j | 0 <= j < |s|
      ensures !OccursAt(s, [c], j)
    {
      assert s[j] != c;
    }
  }

  /** Joining parts free of a one-character separator and splitting on it gives the parts back. */
  lemma {:induction false} SplitJoinChar(c: char, ps: seq<string>)
    requires |ps| > 0
    requires forall p :: p in ps ==> c !in p
    ensures SplitBy(Join([c], ps), [c]) == ps
    decreases |ps|
  {
    if |ps| == 1 {
      SplitByFree(ps[0], c);
    } else {
      var rest := Join([c], ps[1..]);
      JoinCons([c], ps[0], ps[1..]);
      assert [ps[0]] + ps[1..] == ps;
      var s := ps[0] + [c] + rest;
      FindFirstSep(ps[0], c, rest);
      assert s[..|ps[0]|] == ps[0];
      assert s[|ps[0]| + 1..] == rest;
      SplitJoinChar(c, ps[1..]);
    }
  }

  // ---------------------------------------------------------------------------
  // ASCII case mapping
  // ---------------------------------------------------------------------------

  function LowerChar(c: char): char
  {
    if 'A' <= c <= 'Z' then (c as int + 32) as char else c
  }

  function UpperChar(c: char): char
  {
    if 'a' <= c <= 'z' then (c as int - 32) as char else c
  }

  function Lower(s: string): (r: string)
    ensures |r| == |s|
    ensures forall i :: 0 <= i < |s| ==> r[i] == LowerChar(s[i])
  {
    seq(|s|, i requires 0 <= i < |s| => LowerChar(s[i]))
  }

  lemma LowerConcat(a: string, b: string)
    ensures Lower(a + b) == Lower(a) + Lower(b)
  {
  }

  function Upper(s: string): (r: string)
    ensures |r| == |s|
    ensures forall i :: 0 <= i < |s| ==> r[i] == UpperChar(s[i])
  {
    seq(|s|, i requires 0 <= i < |s| => UpperChar(s[i]))
  }

  // ---------------------------------------------------------------------------
  // Decimal text of natural numbers (Python's str(n), int(s) and s.isdigit())
  // ---------------------------------------------------------------------------

  predicate IsDigit(c: char) { '0' <= c <= '9' }

  /** Python's `s.isdigit()` over ASCII digits: non-empty and all digits. */
  predicate IsDigits(s: string)
  {
    |s| > 0 && forall i :: 0 <= i < |s| ==> IsDigit(s[i])
  }

  function DigitChar(d: nat): char
    requires d < 10
  {
    ('0' as int + d) as char
  }

  function Decimal(n: nat): (s: string)
    ensures IsDigits(s)
  {
    if n < 10 then [DigitChar(n)] else Decimal(n / 10) + [DigitChar(n % 10)]
  }

  function DigitsValue(s: string): nat
    requires forall i :: 0 <= i < |s| ==> IsDigit(s[i])
  {
    if |s| == 0 then 0
    else
      assert IsDigit(s[|s| - 1]);
      10 * DigitsValue(s[..|s| - 1]) + (s[|s| - 1] as int - '0' as int)
  }

  /** `int(str(n)) == n`. */
  lemma {:induction false} DecimalRoundTrip(n: nat)
    ensures DigitsValue(Decimal(n)) == n
  {
    if n >= 10 {
      DecimalRoundTrip(n / 10);
      var d := Decimal(n / 10);
      assert (d + [DigitChar(n % 10)])[..|d|] == d;
    }
  }
}
