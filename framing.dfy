/**
 * Newline-delimited JSON framing as the front end reads the chat stream:
 * the text received so far is split on `'\n'`; every piece but the last is a
 * complete line, and the last piece waits in the buffer for more input.
 */
module Framing {
  import opened Strs

  /**
   * JavaScript's `s.split(c)` for a one-character separator: `SplitBy` taken
   * character by character, the form the framing proofs below induct on
   * (`SplitCharIsSplitBy`).
   */
  function SplitChar(s: string, c: char): (parts: seq<string>)
    ensures |parts| >= 1
    decreases |s|
  {
    if |s| == 0 then [""]
    else
      var rest := SplitChar(s[1..], c);
      if s[0] == c then [""] + rest else [[s[0]] + rest[0]] + rest[1..]
  }

  /** Dropping a first character that is not `c` moves the first `c` one place left. */
  lemma FindShift(s: string, c: char)
    requires |s| > 0 && s[0] != c
    ensures Find(s[1..], [c]) == (if Find(s, [c]) < 0 then -1 else Find(s, [c]) - 1)
  {
    var r, r' := Find(s, [c]), Find(s[1..], [c]);
    forall j | 0 <= j <= |s| - 1
      ensures OccursAt(s[1..], [c], j) <==> OccursAt(s, [c], j + 1)
    {
      if j + 1 <= |s| - 1 {
        assert s[1..][j..j + 1] == s[j + 1..j + 2];
      }
    }
    assert s[0..1] == [s[0]];
    if r' >= 0 {
      assert OccursAt(s, [c], r' + 1);
    }
    if r >= 0 {
      assert OccursAt(s[1..], [c], r - 1);
    }
  }

  /** The character-by-character split is `SplitBy` on the one-character separator. */
  lemma {:induction false} SplitCharIsSplitBy(s: string, c: char)
    ensures SplitChar(s, c) == SplitBy(s, [c])
    decreases |s|
  {
    if |s| > 0 {
      SplitCharIsSplitBy(s[1..], c);
      var i := Find(s, [c]);
      if s[0] == c {
        assert OccursAt(s, [c], 0);
        assert i == 0;
        assert s[1..] == s[i + 1..];
      } else {
        FindShift(s, c);
        if i < 0 {
          assert [s[0]] + s[1..] == s;
        } else {
          var i' := Find(s[1..], [c]);
          assert s[1..][..i'] == s[1..i];
          assert [s[0]] + s[1..i] == s[..i];
          assert s[1..][i' + 1..] == s[i + 1..];
        }
      }
    }
  }

  /** The pieces of `a` followed by those of `b`, the last of `a` glued to the first of `b`. */
  function Glue(pa: seq<string>, pb: seq<string>): seq<string>
    requires |pa| >= 1 && |pb| >= 1
  {
    pa[..|pa| - 1] + [pa[|pa| - 1] + pb[0]] + pb[1..]
  }

  lemma GlueEmptyHead(pa: seq<string>, pb: seq<string>)
    requires |pa| >= 1 && |pb| >= 1
    ensures Glue([""] + pa, pb) == [""] + Glue(pa, pb)
  {
    var q := [""] + pa;
    assert q[..|q| - 1] == [""] + pa[..|pa| - 1];
  }

  lemma GlueCharHead(x: char, pa: seq<string>, pb: seq<string>)
    requires |pa| >= 1 && |pb| >= 1
    ensures Glue([[x] + pa[0]] + pa[1..], pb) == [[x] + Glue(pa, pb)[0]] + Glue(pa, pb)[1..]
  {
    var q := [[x] + pa[0]] + pa[1..];
    var g := Glue(pa, pb);
    if |pa| == 1 {
      assert q == [[x] + pa[0]];
      assert g == [pa[0] + pb[0]] + pb[1..];
      assert [x] + (pa[0] + pb[0]) == ([x] + pa[0]) + pb[0];
    } else {
      assert q[..|q| - 1] == [[x] + pa[0]] + pa[1..|pa| - 1];
      assert g[0] == pa[0];
      assert g[1..] == pa[1..|pa| - 1] + [pa[|pa| - 1] + pb[0]] + pb[1..];
    }
  }

  /**
   * Splitting a concatenation: the last piece of `a` is glued to the first
   * piece of `b`; everything else is kept.
   */
  lemma {:induction false} SplitCharConcat(a: string, b: string, c: char)
    ensures SplitChar(a + b, c) == Glue(SplitChar(a, c), SplitChar(b, c))
    decreases |a|
  {
    var pb := SplitChar(b, c);
    if |a| == 0 {
      assert a + b == b;
      assert SplitChar(a, c) == [""];
      assert "" + pb[0] == pb[0];
      assert Glue([""], pb) == [pb[0]] + pb[1..] == pb;
    } else {
      assert (a + b)[1..] == a[1..] + b;
      assert (a + b)[0] == a[0];
      SplitCharConcat(a[1..], b, c);
      var pa' := SplitChar(a[1..], c);
      if a[0] == c {
        GlueEmptyHead(pa', pb);
      } else {
        GlueCharHead(a[0], pa', pb);
      }
    }
  }

  /** The joined pieces give the text back. */
  lemma {:induction false} JoinSplitChar(s: string, c: char)
    ensures Join([c], SplitChar(s, c)) == s
    decreases |s|
  {
    if |s| > 0 {
      var rest := SplitChar(s[1..], c);
      JoinSplitChar(s[1..], c);
      if s[0] == c {
        JoinCons([c], "", rest);
        assert s == [s[0]] + s[1..];
      } else {
        JoinHead([c], [s[0]], rest);
        assert s == [s[0]] + s[1..];
      }
    }
  }

  /** Prefixing the first part of a join prefixes the join. */
  lemma {:induction false} JoinHead(sep: string, p: string, parts: seq<string>)
    requires |parts| > 0
    ensures Join(sep, [p + parts[0]] + parts[1..]) == p + Join(sep, parts)
    decreases |parts|
  {
    if |parts| == 1 {
      assert [p + parts[0]] + parts[1..] == [p + parts[0]];
    } else {
      var init := parts[..|parts| - 1];
      var q := [p + parts[0]] + parts[1..];
      assert q[..|q| - 1] == [p + init[0]] + init[1..];
      JoinHead(sep, p, init);
    }
  }

  /** The complete lines of `s`: every piece but the last. */
  function CompleteLines(s: string): seq<string>
  {
    var parts := SplitChar(s, '\n');
    parts[..|parts| - 1]
  }

  /** The unterminated tail of `s`, which stays in the buffer. */
  function Remainder(s: string): string
  {
    var parts := SplitChar(s, '\n');
    parts[|parts| - 1]
  }

  /** No complete line or remainder contains a newline. */
  lemma {:induction false} SplitCharNoSeparator(s: string, c: char)
    ensures forall i, j :: 0 <= i < |SplitChar(s, c)| && 0 <= j < |SplitChar(s, c)[i]| ==> SplitChar(s, c)[i][j] != c
    decreases |s|
  {
    if |s| > 0 {
      SplitCharNoSeparator(s[1..], c);
    }
  }

  /**
   * One read of the loop: appending a chunk to the buffer and splitting yields
   * the lines that complete the text received so far.
   */
  lemma FrameStep(received: string, buffer: string, chunk: string)
    requires Remainder(received) == buffer
    ensures CompleteLines(received + chunk) == CompleteLines(received) + CompleteLines(buffer + chunk)
    ensures Remainder(received + chunk) == Remainder(buffer + chunk)
  {
    var pa := SplitChar(received, '\n');
    var pb := SplitChar(chunk, '\n');
    SplitCharConcat(received, chunk, '\n');
    SplitCharConcat(buffer, chunk, '\n');
    RemainderSplit(received);
    assert buffer == pa[|pa| - 1];
    GlueSplitOff(pa, pb);
    LinesOfGlue(received + chunk, pa, pb);
    LinesOfGlue(buffer + chunk, [buffer], pb);
  }

  lemma LinesOfGlue(s: string, pa: seq<string>, pb: seq<string>)
    requires |pa| >= 1 && |pb| >= 1 && SplitChar(s, '\n') == Glue(pa, pb)
    ensures var g := Glue(pa, pb);
      CompleteLines(s) == g[..|g| - 1] && Remainder(s) == g[|g| - 1]
  {
  }

  /** The buffered remainder holds no newline, so it splits into itself. */
  lemma RemainderSplit(s: string)
    ensures SplitChar(Remainder(s), '\n') == [Remainder(s)]
  {
    var parts := SplitChar(s, '\n');
    var r := parts[|parts| - 1];
    SplitCharNoSeparator(s, '\n');
    forall j | 0 <= j < |r|
      ensures r[j] != '\n'
    {
      assert parts[|parts| - 1][j] == r[j];
    }
    NoSeparatorSplit(r, '\n');
  }

  /** Gluing on after `pa` is gluing on after its last piece, with the other pieces in front. */
  lemma GlueSplitOff(pa: seq<string>, pb: seq<string>)
    requires |pa| >= 1 && |pb| >= 1
    ensures var g := Glue(pa, pb); var h := Glue([pa[|pa| - 1]], pb);
      g[..|g| - 1] == pa[..|pa| - 1] + h[..|h| - 1] && g[|g| - 1] == h[|h| - 1]
  {
    var g := Glue(pa, pb);
    var h := Glue([pa[|pa| - 1]], pb);
    assert g == pa[..|pa| - 1] + h;
  }

  lemma {:induction false} NoSeparatorSplit(s: string, c: char)
    requires forall j :: 0 <= j < |s| ==> s[j] != c
    ensures SplitChar(s, c) == [s]
    decreases |s|
  {
    if |s| > 0 {
      NoSeparatorSplit(s[1..], c);
      assert [s[0]] + s[1..] == s;
    }
  }

  lemma ConcatPrefix(chunks: seq<string>, i: nat)
    requires i < |chunks|
    ensures Concat(chunks[..i + 1]) == Concat(chunks[..i]) + chunks[i]
  {
    ConcatAppend(chunks[..i], chunks[i]);
    assert chunks[..i + 1] == chunks[..i] + [chunks[i]];
  }

  lemma {:induction false} ConcatAppend(ss: seq<string>, s: string)
    ensures Concat(ss + [s]) == Concat(ss) + s
    decreases |ss|
  {
    if |ss| == 0 {
      ConcatSingle(s);
      assert [] + [s] == [s];
    } else {
      assert (ss + [s])[1..] == ss[1..] + [s];
      ConcatAppend(ss[1..], s);
    }
  }
}
