/**
 * The speech-to-text client of the back end (back-end/models/stt_model.py):
 * the transcript post-processing (word corrections, sentence
 * capitalisation), the window of recent transcripts and the context prompt
 * built from it, and the transcription request with the Whisper server as an
 * oracle.
 */
module SttModel {
  import opened Wrappers
  import opened Json
  import opened Strs

  /**
   * The correction table of stt_model.py:96-117: the four first-person
   * contractions are mapped to their spelling with a capital `I`, the other
   * sixteen to themselves.
   */
  const FirstPerson: set<string> := {"i'm", "i've", "i'll", "i'd"}
  const Contractions: set<string> := {
    "can't", "don't", "didn't", "isn't", "it's", "that's", "there's", "they're",
    "wasn't", "weren't", "won't", "wouldn't", "you're", "you've", "you'll", "you'd"}

  /** How many transcripts are remembered (stt_model.py:79). */
  const Remembered: nat := 5
  /** How many of them make up the context prompt (stt_model.py:43). */
  const ContextSize: nat := 3
  /** A transcript is remembered only when it is longer than this (stt_model.py:76). */
  const MinRemembered: nat := 5

  // ---------------------------------------------------------------------------
  // Case mapping facts (ASCII)
  // ---------------------------------------------------------------------------

  function LowerAll(ws: seq<string>): (r: seq<string>)
    ensures |r| == |ws| && forall i :: 0 <= i < |ws| ==> r[i] == Lower(ws[i])
  {
    seq(|ws|, i requires 0 <= i < |ws| => Lower(ws[i]))
  }

  lemma {:induction false} LowerJoin(ws: seq<string>)
    ensures Lower(Join(" ", ws)) == Join(" ", LowerAll(ws))
    decreases |ws|
  {
    if |ws| > 1 {
      var init := ws[..|ws| - 1];
      LowerJoin(init);
      assert LowerAll(ws)[..|ws| - 1] == LowerAll(init);
      LowerConcat(Join(" ", init), " ");
      LowerConcat(Join(" ", init) + " ", ws[|ws| - 1]);
    }
  }

  lemma {:induction false} LeadWordLower(s: string)
    ensures LeadWord(Lower(s)) == LeadWord(s)
    decreases |s|
  {
    if |s| > 0 && !IsSpace(s[0]) {
      assert Lower(s)[1..] == Lower(s[1..]);
      LeadWordLower(s[1..]);
    }
  }

  /** Splitting on whitespace commutes with lower-casing. */
  lemma {:induction false} WordsLower(s: string)
    ensures Words(Lower(s)) == LowerAll(Words(s))
    decreases |s|
  {
    if |s| > 0 {
      if IsSpace(s[0]) {
        LowerSplitAt(s, 1);
        WordsLower(s[1..]);
      } else {
        var n := LeadWord(s);
        WordsLowerStep(s);
        WordsLower(s[n..]);
        assert LowerAll(Words(s)) == [Lower(s[..n])] + LowerAll(Words(s[n..]));
      }
    }
  }

  lemma WordsLowerStep(s: string)
    requires |s| > 0 && !IsSpace(s[0])
    ensures var n := LeadWord(s);
      Words(Lower(s)) == [Lower(s[..n])] + Words(Lower(s[n..]))
  {
    var n := LeadWord(s);
    LeadWordLower(s);
    WordsOfWordStart(Lower(s));
    LowerSplitAt(s, n);
  }

  lemma WordsOfWordStart(s: string)
    requires |s| > 0 && !IsSpace(s[0])
    ensures Words(s) == [s[..LeadWord(s)]] + Words(s[LeadWord(s)..])
  {
  }

  lemma LowerSplitAt(s: string, n: nat)
    requires n <= |s|
    ensures Lower(s)[..n] == Lower(s[..n]) && Lower(s)[n..] == Lower(s[n..])
  {
  }

  // ---------------------------------------------------------------------------
  // Word corrections
  // ---------------------------------------------------------------------------

  /** One word after the correction loop (stt_model.py:121-124): a key of the table, matched in lower case, is replaced. */
  function Fix(w: string): string
  {
    var l := Lower(w);
    if l in FirstPerson then "I" + l[1..]
    else if l in Contractions then l
    else w
  }

  function FixAll(ws: seq<string>): (r: seq<string>)
    ensures |r| == |ws| && forall i :: 0 <= i < |ws| ==> r[i] == Fix(ws[i])
  {
    seq(|ws|, i requires 0 <= i < |ws| => Fix(ws[i]))
  }

  /** A correction only changes letter case and keeps a word a word. */
  lemma FixKeepsWord(w: string)
    ensures Lower(Fix(w)) == Lower(w)
    ensures IsWord(w) ==> IsWord(Fix(w))
  {
    var l := Lower(w);
    if l in FirstPerson {
      FirstPersonFix(w);
    } else if l in Contractions {
      assert Lower(l) == l;
    }
  }

  lemma FirstPersonFix(w: string)
    requires Lower(w) in FirstPerson
    ensures Lower(Fix(w)) == Lower(w)
    ensures IsWord(w) ==> IsWord(Fix(w))
  {
    var l := Lower(w);
    FirstPersonStartsWithI(l);
    assert Fix(w) == "I" + l[1..];
    LowerConcat("I", l[1..]);
    assert Lower(l[1..]) == l[1..] by {
      assert Lower(l) == l;
    }
    assert l == [l[0]] + l[1..];
  }

  lemma FirstPersonStartsWithI(l: string)
    requires l in FirstPerson
    ensures |l| > 1 && l[0] == 'i' && l[1] == '\''
  {
  }

  lemma FixAllKeepsWords(ws: seq<string>)
    ensures LowerAll(FixAll(ws)) == LowerAll(ws)
    ensures (forall i :: 0 <= i < |ws| ==> IsWord(ws[i])) ==>
      forall i :: 0 <= i < |ws| ==> IsWord(FixAll(ws)[i])
  {
    forall i | 0 <= i < |ws| ensures Lower(FixAll(ws)[i]) == Lower(ws[i]) && (IsWord(ws[i]) ==> IsWord(FixAll(ws)[i])) {
      FixKeepsWord(ws[i]);
    }
  }

  // ---------------------------------------------------------------------------
  // Sentence capitalisation
  // ---------------------------------------------------------------------------

  /** Position `i` of `s` starts a piece of `s.split('. ')`. */
  predicate PieceStart(s: string, i: int)
  {
    i == 0 || (2 <= i <= |s| && s[i - 2..i] == ". ")
  }

  /** Python's `str.capitalize()`: the first character upper case, the rest lower case. */
  function Capitalize(p: string): (r: string)
    ensures |r| == |p|
  {
    if |p| == 0 then "" else [UpperChar(p[0])] + Lower(p[1..])
  }

  /** `p[:1].upper() + p[1:]`: the first character upper case, the rest untouched. */
  function UpperFirst(p: string): (r: string)
    ensures |r| == |p|
  {
    if |p| == 0 then "" else [UpperChar(p[0])] + p[1..]
  }

  /** One piece: `capitalize()` when `lowerRest`, `UpperFirst` otherwise. */
  function CasePiece(p: string, lowerRest: bool): (r: string)
    ensures |r| == |p|
  {
    if lowerRest then Capitalize(p) else UpperFirst(p)
  }

  function CasePieces(ps: seq<string>, lowerRest: bool): (r: seq<string>)
    ensures |r| == |ps| && forall i :: 0 <= i < |ps| ==> r[i] == CasePiece(ps[i], lowerRest)
  {
    seq(|ps|, i requires 0 <= i < |ps| => CasePiece(ps[i], lowerRest))
  }

  /** `'. '.join(f(s) for s in text.split('. '))` (stt_model.py:130). */
  function Sentences(text: string, lowerRest: bool): string
  {
    Join(". ", CasePieces(SplitBy(text, ". "), lowerRest))
  }

  /** The same, character by character: piece starts upper case, the other characters lower case or kept. */
  function CaseAt(s: string, lowerRest: bool): (r: string)
    ensures |r| == |s|
    ensures forall i :: 0 <= i < |s| ==>
      r[i] == if PieceStart(s, i) then UpperChar(s[i]) else if lowerRest then LowerChar(s[i]) else s[i]
  {
    seq(|s|, i requires 0 <= i < |s| =>
      if PieceStart(s, i) then UpperChar(s[i]) else if lowerRest then LowerChar(s[i]) else s[i])
  }

  lemma CasePieceAt(p: string, lowerRest: bool)
    requires forall j :: 0 <= j <= |p| ==> !OccursAt(p, ". ", j)
    ensures CasePiece(p, lowerRest) == CaseAt(p, lowerRest)
  {
    var a, b := CasePiece(p, lowerRest), CaseAt(p, lowerRest);
    forall j | 0 <= j < |p| ensures a[j] == b[j] {
      if j >= 2 {
        assert !OccursAt(p, ". ", j - 2);
      }
    }
  }

  lemma CaseAtPrefix(s: string, i: nat, lowerRest: bool)
    requires i <= |s|
    requires forall j :: 0 <= j < i ==> !OccursAt(s, ". ", j)
    ensures CaseAt(s, lowerRest)[..i] == CaseAt(s[..i], lowerRest)
  {
    var p := s[..i];
    var l, r := CaseAt(s, lowerRest)[..i], CaseAt(p, lowerRest);
    forall j | 0 <= j < i ensures l[j] == r[j] {
      if j >= 2 {
        assert !OccursAt(s, ". ", j - 2);
        assert s[j - 2..j] == p[j - 2..j];
      }
    }
  }

  lemma CaseAtRest(s: string, i: nat, lowerRest: bool)
    requires OccursAt(s, ". ", i)
    ensures CaseAt(s, lowerRest)[i + 2..] == CaseAt(s[i + 2..], lowerRest)
  {
    var rest := s[i + 2..];
    var l, r := CaseAt(s, lowerRest)[i + 2..], CaseAt(rest, lowerRest);
    forall k | 0 <= k < |rest| ensures l[k] == r[k] {
      PieceStartShift(s, i, k);
      assert s[k + i + 2] == rest[k];
    }
  }

  lemma PieceStartShift(s: string, i: nat, k: nat)
    requires OccursAt(s, ". ", i) && k <= |s| - i - 2
    ensures PieceStart(s, k + i + 2) == PieceStart(s[i + 2..], k)
  {
    var rest, j := s[i + 2..], k + i + 2;
    if k == 0 {
      assert s[j - 2..j] == ". ";
    } else if k == 1 {
      assert s[j - 2] == ' ';
    } else {
      assert s[j - 2..j] == rest[k - 2..k];
    }
  }

  lemma CaseAtSplit(s: string, i: nat, lowerRest: bool)
    requires OccursAt(s, ". ", i)
    requires forall j :: 0 <= j < i ==> !OccursAt(s, ". ", j)
    ensures CaseAt(s, lowerRest) == CaseAt(s[..i], lowerRest) + ". " + CaseAt(s[i + 2..], lowerRest)
  {
    CaseAtPrefix(s, i, lowerRest);
    CaseAtSeparator(s, i, lowerRest);
  }

  lemma CaseAtSeparator(s: string, i: nat, lowerRest: bool)
    requires OccursAt(s, ". ", i)
    ensures CaseAt(s, lowerRest) == CaseAt(s, lowerRest)[..i] + ". " + CaseAt(s[i + 2..], lowerRest)
  {
    var c := CaseAt(s, lowerRest);
    assert c[i..i + 2] == ". " by {
      SeparatorChars(s, i);
      assert c[i..i + 2] == [c[i], c[i + 1]];
    }
    assert c == c[..i] + c[i..i + 2] + c[i + 2..];
    CaseAtRest(s, i, lowerRest);
  }

  lemma SeparatorChars(s: string, i: nat)
    requires OccursAt(s, ". ", i)
    ensures s[i] == '.' && s[i + 1] == ' ' && !PieceStart(s, i + 1)
  {
    assert s[i..i + 2] == ". ";
    assert s[i] == s[i..i + 2][0] && s[i + 1] == s[i..i + 2][1];
  }

  /** Splitting on `'. '`, changing the case of each piece and joining is the character-wise rule. */
  lemma {:induction false} SentencesAt(s: string, lowerRest: bool)
    ensures Sentences(s, lowerRest) == CaseAt(s, lowerRest)
    decreases |s|
  {
    var i := Find(s, ". ");
    if i < 0 {
      CasePieceAt(s, lowerRest);
      assert CasePieces([s], lowerRest) == [CasePiece(s, lowerRest)];
    } else {
      SentencesStep(s, i, lowerRest);
      FirstPieceAt(s, i, lowerRest);
      SentencesAt(s[i + 2..], lowerRest);
      CaseAtSplit(s, i, lowerRest);
    }
  }

  /** The first sentence is cased on its own and the rest is handled the same way. */
  lemma SentencesStep(s: string, i: int, lowerRest: bool)
    requires i == Find(s, ". ") && i >= 0
    ensures Sentences(s, lowerRest) == CasePiece(s[..i], lowerRest) + ". " + Sentences(s[i + 2..], lowerRest)
  {
    var p, ps := s[..i], SplitBy(s[i + 2..], ". ");
    var cp := CasePiece(p, lowerRest);
    assert SplitBy(s, ". ") == [p] + ps;
    assert CasePieces([p] + ps, lowerRest) == [cp] + CasePieces(ps, lowerRest);
    JoinCons(". ", cp, CasePieces(ps, lowerRest));
  }

  lemma FirstPieceAt(s: string, i: int, lowerRest: bool)
    requires i == Find(s, ". ") && i >= 0
    ensures CasePiece(s[..i], lowerRest) == CaseAt(s[..i], lowerRest)
  {
    var p := s[..i];
    forall j | 0 <= j <= |p| ensures !OccursAt(p, ". ", j) {
      if OccursAt(p, ". ", j) {
        assert s[j..j + 2] == p[j..j + 2];
        assert OccursAt(s, ". ", j);
      }
    }
    CasePieceAt(p, lowerRest);
  }

  // ---------------------------------------------------------------------------
  // _post_process_transcript
  // ---------------------------------------------------------------------------

  function Corrected(transcript: string): string
  {
    Join(" ", FixAll(Words(transcript)))
  }

  /**
   * `_post_process_transcript` as written (stt_model.py:90-136): the
   * `capitalize()` at line 130 lower-cases everything after the first
   * character of a sentence, undoing corrections such as `I'm`.
   */
  function PostProcessAsWritten(transcript: string): string
  {
    if transcript == "" then transcript
    else UpperFirst(Sentences(Corrected(transcript), true))
  }

  /** `_post_process_transcript` with only the first letter of each sentence raised, so corrections stand. */
  function PostProcess(transcript: string): string
  {
    if transcript == "" then transcript
    else UpperFirst(Sentences(Corrected(transcript), false))
  }

  lemma UpperFirstCaseAt(s: string, lowerRest: bool)
    ensures UpperFirst(CaseAt(s, lowerRest)) == CaseAt(s, lowerRest)
  {
  }

  lemma CaseAtLower(s: string)
    ensures CaseAt(s, true) == CaseAt(Lower(s), true)
    ensures Lower(CaseAt(s, true)) == Lower(s)
  {
    var l := Lower(s);
    assert CaseAt(s, true) == CaseAt(l, true) by {
      forall i | 2 <= i <= |s| ensures PieceStart(s, i) == PieceStart(l, i) {
        assert l[i - 2..i] == [LowerChar(s[i - 2]), LowerChar(s[i - 1])];
        assert s[i - 2..i] == [s[i - 2], s[i - 1]];
      }
    }
    LowerOfCaseAt(s);
  }

  lemma LowerOfCaseAt(s: string)
    ensures Lower(CaseAt(s, true)) == Lower(s)
  {
  }

  /** Post-processing (as written) only changes letter case and spacing: the lower-cased words are those of the input. */
  lemma PostProcessAsWrittenWords(t: string)
    ensures Words(Lower(PostProcessAsWritten(t))) == LowerAll(Words(t))
  {
    if t != "" {
      var ws := Words(t);
      var j := Corrected(t);
      SentencesAt(j, true);
      UpperFirstCaseAt(j, true);
      CaseAtLower(j);
      LowerJoin(FixAll(ws));
      FixAllKeepsWords(ws);
      WordsAreWords(t);
      forall i | 0 <= i < |ws| ensures IsWord(LowerAll(ws)[i]) {
        assert ws[i] in ws;
      }
      WordsJoinWords(LowerAll(ws));
    }
  }

  /** An empty transcript is returned unchanged (stt_model.py:92-93). */
  lemma EmptyTranscriptUnchanged()
    ensures PostProcess("") == "" && PostProcessAsWritten("") == ""
  {
  }

  /** As written, post-processing twice gives the same text as once. */
  lemma PostProcessAsWrittenIdempotent(t: string)
    ensures PostProcessAsWritten(PostProcessAsWritten(t)) == PostProcessAsWritten(t)
  {
    if t != "" {
      var j1 := Corrected(t);
      var o1 := PostProcessAsWritten(t);
      SentencesAt(j1, true);
      UpperFirstCaseAt(j1, true);
      assert o1 == CaseAt(j1, true);
      if o1 != "" {
        var j2 := Corrected(o1);
        SentencesAt(j2, true);
        UpperFirstCaseAt(j2, true);
        CaseAtLower(j1);
        CaseAtLower(j2);
        LowerJoin(FixAll(Words(o1)));
        FixAllKeepsWords(Words(o1));
        WordsLower(o1);
        PostProcessAsWrittenWords(t);
        LowerJoin(FixAll(Words(t)));
        FixAllKeepsWords(Words(t));
        assert Lower(j2) == Lower(j1);
      }
    }
  }

  lemma CorrectedExample()
    ensures Corrected("a i'm") == "a I'm"
  {
    ExampleWords();
    ExampleFixes();
    assert Join(" ", ["a", "I'm"]) == "a I'm";
  }

  lemma ExampleWords()
    ensures Words("a i'm") == ["a", "i'm"]
  {
    assert Words("a") == ["a"] by {
      WordsOfWord("a");
    }
    assert Words("i'm") == ["i'm"] by {
      WordsOfWord("i'm");
    }
    assert Words("a i'm") == Words("a") + Words("i'm") by {
      assert "a i'm" == "a" + " " + "i'm";
      WordsSpaceJoin("a", "i'm");
    }
  }

  lemma ExampleFixes()
    ensures FixAll(["a", "i'm"]) == ["a", "I'm"]
  {
    assert Fix("a") == "a" by {
      assert Lower("a") == "a";
    }
    assert Fix("i'm") == "I'm" by {
      assert Lower("i'm") == "i'm";
      assert "I" + "i'm"[1..] == "I'm";
    }
  }

  /** As written, a correction after the first word is lower-cased again: `"a i'm"` becomes `"A i'm"`. */
  lemma CorrectionUndoneAsWritten()
    ensures PostProcessAsWritten("a i'm") == "A i'm"
  {
    CorrectedExample();
    SentencesAt("a I'm", true);
    UpperFirstCaseAt("a I'm", true);
    CaseAtExample(true);
  }

  /** With the correction, the same input keeps `I'm`. */
  lemma CorrectionKept()
    ensures PostProcess("a i'm") == "A I'm"
  {
    CorrectedExample();
    SentencesAt("a I'm", false);
    UpperFirstCaseAt("a I'm", false);
    CaseAtExample(false);
  }

  /** The corrected example has one sentence: only its first letter is raised. */
  lemma CaseAtExample(lowerRest: bool)
    ensures CaseAt("a I'm", lowerRest) == if lowerRest then "A i'm" else "A I'm"
  {
    var j := "a I'm";
    assert forall k :: 0 <= k < |j| ==> j[k] != '.';
    NoDotNoPieceStart(j);
  }

  /** Without a full stop, only the start of a text starts a piece. */
  lemma NoDotNoPieceStart(s: string)
    requires forall k :: 0 <= k < |s| ==> s[k] != '.'
    ensures forall k :: 0 < k <= |s| ==> !PieceStart(s, k)
  {
    forall k | 2 <= k <= |s| ensures !PieceStart(s, k) {
      assert s[k - 2..k][0] == s[k - 2];
    }
  }

  /**
   * With the correction, post-processing raises the first letter of each
   * sentence and leaves every other character of the corrected, single-spaced
   * words as the correction table spells it.
   */
  lemma PostProcessKeepsCorrections(t: string)
    requires t != ""
    ensures var j := Corrected(t);
      var r := PostProcess(t);
      && |r| == |j|
      && forall i :: 0 <= i < |j| ==> r[i] == if PieceStart(j, i) then UpperChar(j[i]) else j[i]
  {
    var j := Corrected(t);
    SentencesAt(j, false);
    UpperFirstCaseAt(j, false);
  }

  // ---------------------------------------------------------------------------
  // The transcript window and the request
  // ---------------------------------------------------------------------------

  /** `" ".join(previous[-3:]) if previous else ""` (stt_model.py:43). */
  function Context(previous: seq<string>): string
  {
    if previous == [] then "" else Join(" ", previous[|previous| - (if |previous| < ContextSize then |previous| else ContextSize)..])
  }

  /** `previous_transcripts` after a transcript (stt_model.py:76-79). */
  function Remember(previous: seq<string>, transcript: string): seq<string>
  {
    if transcript != "" && |transcript| > MinRemembered then
      var a := previous + [transcript];
      if |a| <= Remembered then a else a[|a| - Remembered..]
    else previous
  }

  /** A window as the model keeps it: at most five transcripts, each longer than five characters. */
  predicate WindowOk(previous: seq<string>)
  {
    |previous| <= Remembered && forall i :: 0 <= i < |previous| ==> |previous[i]| > MinRemembered
  }

  /**
   * Remembering keeps the window well-formed; a long enough transcript
   * becomes the newest entry and the rest are the most recent earlier ones.
   */
  lemma RememberKeepsWindow(previous: seq<string>, t: string)
    requires WindowOk(previous)
    ensures var r := Remember(previous, t);
      && WindowOk(r)
      && (|t| > MinRemembered ==> |r| > 0 && r[|r| - 1] == t && r[..|r| - 1] == previous[|previous| - (|r| - 1)..])
      && (|t| <= MinRemembered ==> r == previous)
  {
    var r := Remember(previous, t);
    if |t| > MinRemembered {
      var a := previous + [t];
      forall i | 0 <= i < |r| ensures |r[i]| > MinRemembered {
        assert r[i] == a[|a| - |r| + i];
      }
    }
  }

  /**
   * The context of a well-formed window is empty exactly when the window is,
   * and holds the words of its last three transcripts.
   */
  lemma ContextOfWindow(previous: seq<string>)
    requires WindowOk(previous)
    ensures (Context(previous) == "") <==> (previous == [])
    ensures previous != [] ==>
      Words(Context(previous)) == WordsOf(previous[|previous| - (if |previous| < ContextSize then |previous| else ContextSize)..])
  {
    if previous != [] {
      var n := if |previous| < ContextSize then |previous| else ContextSize;
      var last := previous[|previous| - n..];
      WordsOfJoin(last);
      assert |last[|last| - 1]| > MinRemembered;
      assert |Join(" ", last)| >= |last[|last| - 1]|;
    }
  }

  /** A request to the Whisper server: the language and the context prompt. */
  datatype WhisperRequest = WhisperRequest(language: string, prompt: string)

  /** The server: the decoded JSON of a 200 response; None for another status or a request exception. */
  type Whisper = WhisperRequest -> Option<Value>

  /** The transcript read from a 200 response (stt_model.py:67-71); None when reading it raises. */
  function TranscriptOf(body: Value): Option<string>
  {
    if !body.JObj? then None
    else
      var text := if "text" in body.fields then body.fields["text"] else JStr("");
      if text.JStr? then Some(PostProcess(Strip(text.s))) else None
  }

  /** The result and the new window of `transcribe` (stt_model.py:19-88). */
  datatype Transcription = Transcription(transcript: Option<string>, previous: seq<string>)

  function TranscribeSpec(language: string, previous: seq<string>, whisper: Whisper): Transcription
  {
    match whisper(WhisperRequest(language, Context(previous)))
    case None => Transcription(None, previous)
    case Some(body) =>
      match TranscriptOf(body)
      case None => Transcription(None, previous)
      case Some(t) => Transcription(Some(t), Remember(previous, t))
  }

  lemma TranscribeOk(language: string, previous: seq<string>, whisper: Whisper, t: string)
    requires var body := whisper(WhisperRequest(language, Context(previous)));
      body.Some? && TranscriptOf(body.value) == Some(t)
    ensures TranscribeSpec(language, previous, whisper) == Transcription(Some(t), Remember(previous, t))
  {
  }

  /** A response whose transcript cannot be read leaves the window as it was. */
  lemma UnreadableKeepsWindow(language: string, previous: seq<string>, whisper: Whisper)
    requires var body := whisper(WhisperRequest(language, Context(previous)));
      body.Some? && TranscriptOf(body.value).None?
    ensures TranscribeSpec(language, previous, whisper) == Transcription(None, previous)
  {
  }

  /** A failed request leaves the window as it was. */
  lemma FailedRequestKeepsWindow(language: string, previous: seq<string>, whisper: Whisper)
    requires whisper(WhisperRequest(language, Context(previous))).None?
    ensures TranscribeSpec(language, previous, whisper) == Transcription(None, previous)
  {
  }

  class SpeechToTextModel {
    var language: string
    var previousTranscripts: seq<string>

    /** `SpeechToTextModel()` (stt_model.py:13-17). */
    constructor()
      ensures language == "en" && previousTranscripts == []
    {
      language := "en";
      previousTranscripts := [];
    }

    /** `set_language(code)` (stt_model.py:138-140): the next request carries `code`. */
    method SetLanguage(code: string)
      modifies this
      ensures language == code && previousTranscripts == old(previousTranscripts)
    {
      language := code;
    }

    /** `transcribe(audio)` (stt_model.py:19-88), the audio encoding left to the server oracle. */
    method Transcribe(whisper: Whisper) returns (r: Option<string>)
      modifies this
      ensures Transcription(r, previousTranscripts) == TranscribeSpec(language, old(previousTranscripts), whisper)
      ensures language == old(language)
    {
      var context := if previousTranscripts != [] then Context(previousTranscripts) else "";
      var response := whisper(WhisperRequest(language, context));
      if response.None? {
        FailedRequestKeepsWindow(language, previousTranscripts, whisper);
        return None;
      }
      var transcript := TranscriptOf(response.value);
      if transcript.None? {
        UnreadableKeepsWindow(language, previousTranscripts, whisper);
        return None;
      }
      var t := transcript.value;
      TranscribeOk(language, previousTranscripts, whisper, t);
      RememberTranscript(t);
      return Some(t);
    }

    /** The window update of `transcribe` (stt_model.py:76-79). */
    method RememberTranscript(t: string)
      modifies this
      ensures previousTranscripts == Remember(old(previousTranscripts), t)
      ensures language == old(language)
    {
      if t != "" && |t| > MinRemembered {
        previousTranscripts := previousTranscripts + [t];
        if |previousTranscripts| > Remembered {
          previousTranscripts := previousTranscripts[|previousTranscripts| - Remembered..];
        }
      }
    }
  }
}
