/**
 * The language-model client: the intervention request, which falls back
 * to the type's static prompt on any failure; the posture-vision request,
 * which falls back to a fixed Indonesian sentence; and the clean-up of a
 * model answer, which strips markdown emphasis and heading markers. The
 * HTTP exchanges themselves are abstract outcomes.
 */
module Glm {
  import opened Text
  import Prompts

  /** How the intervention request ends: it throws (network, timeout or
      decoding); a non-ok status; an ok answer whose first choice carries
      this content (`None` when the path is missing or null). */
  datatype ChatOutcome = ChatThrew | ChatNotOk(status: int) | ChatOk(content: Option<string>)

  /** How the vision request ends; an ok answer carries the first choice's
      `reasoning_content` and `content`. */
  datatype VisionOutcome = VisionThrew | VisionNotOk(status: int) | VisionOk(reasoning: Option<string>, content: Option<string>)

  const VisionFallback: string := "Tidak bisa menganalisis postur."

  /** `x || ""` for an optional string. */
  function OrEmpty(x: Option<string>): (r: string)
    ensures x.Some? ==> r == x.value
    ensures x.None? ==> r == ""
  {
    if x.Some? then x.value else ""
  }

  // ---------------------------------------------------------------------
  // getAIIntervention

  /** `getAIIntervention(context)`, where `outcome` is how the request
      carrying `Prompts.GeneratePrompt(context)` ended: the static prompt
      for the type on a failure or an empty answer, the trimmed answer
      otherwise. */
  function GetAIIntervention(context: Prompts.PromptContext, outcome: ChatOutcome): (r: string)
    ensures !outcome.ChatOk? ==> r == Prompts.StaticPrompt(context.kind)
    ensures outcome.ChatOk? && OrEmpty(outcome.content) == "" ==> r == Prompts.StaticPrompt(context.kind)
    ensures outcome.ChatOk? && OrEmpty(outcome.content) != "" ==> r == Trim(outcome.content.value)
  {
    match outcome
    case ChatThrew => Prompts.StaticPrompt(context.kind)
    case ChatNotOk(_) => Prompts.StaticPrompt(context.kind)
    case ChatOk(content) =>
      var message := OrEmpty(content);
      if message == "" then Prompts.StaticPrompt(context.kind) else Trim(message)
  }

  /** The intervention text is empty exactly when the model answered with
      nothing but white space: emptiness is checked before trimming, and
      every static prompt is non-empty. */
  lemma InterventionEmptyIff(context: Prompts.PromptContext, outcome: ChatOutcome)
    ensures GetAIIntervention(context, outcome) == "" <==>
      outcome.ChatOk? && OrEmpty(outcome.content) != "" && AllSpace(outcome.content.value)
  {
    if outcome.ChatOk? && OrEmpty(outcome.content) != "" {
      TrimEmpty(outcome.content.value);
    }
  }

  // ---------------------------------------------------------------------
  // analyzePostureVision

  /** `reasoning_content || content || ""`. */
  function VisionText(reasoning: Option<string>, content: Option<string>): (r: string)
    ensures OrEmpty(reasoning) != "" ==> r == reasoning.value
    ensures OrEmpty(reasoning) == "" ==> r == OrEmpty(content)
  {
    if OrEmpty(reasoning) != "" then reasoning.value else OrEmpty(content)
  }

  /** `analyzePostureVision(imageUrl)`, where `outcome` is how the request
      ended: the fixed sentence on a failure or an empty answer, the
      trimmed answer otherwise, the reasoning text taking precedence. */
  function AnalyzePostureVision(outcome: VisionOutcome): (r: string)
    ensures !outcome.VisionOk? ==> r == VisionFallback
    ensures outcome.VisionOk? && OrEmpty(outcome.reasoning) != "" ==> r == Trim(outcome.reasoning.value)
    ensures outcome.VisionOk? && OrEmpty(outcome.reasoning) == "" && OrEmpty(outcome.content) != "" ==>
      r == Trim(outcome.content.value)
    ensures outcome.VisionOk? && OrEmpty(outcome.reasoning) == "" && OrEmpty(outcome.content) == "" ==>
      r == VisionFallback
  {
    match outcome
    case VisionThrew => VisionFallback
    case VisionNotOk(_) => VisionFallback
    case VisionOk(reasoning, content) =>
      var message := VisionText(reasoning, content);
      if message == "" then VisionFallback else Trim(message)
  }

  /** The analysis is empty exactly when the chosen answer is white space
      only; it never depends on the content when reasoning text is there. */
  lemma AnalysisEmptyIff(outcome: VisionOutcome)
    ensures AnalyzePostureVision(outcome) == "" <==>
      outcome.VisionOk? && VisionText(outcome.reasoning, outcome.content) != ""
      && AllSpace(VisionText(outcome.reasoning, outcome.content))
    ensures outcome.VisionOk? && OrEmpty(outcome.reasoning) != "" ==>
      forall c :: AnalyzePostureVision(VisionOk(outcome.reasoning, c)) == AnalyzePostureVision(outcome)
  {
    if outcome.VisionOk? && VisionText(outcome.reasoning, outcome.content) != "" {
      TrimEmpty(VisionText(outcome.reasoning, outcome.content));
    }
  }

  // ---------------------------------------------------------------------
  // parseAIResponse

  /** The first replacement, of every `**` by nothing: drops each pair,
      scanning left to right. */
  function RemoveDoubleStars(s: string): (r: string)
    ensures |r| <= |s|
    ensures '*' !in s ==> r == s
  {
    if |s| < 2 then s
    else if s[0] == '*' && s[1] == '*' then RemoveDoubleStars(s[2..])
    else [s[0]] + RemoveDoubleStars(s[1..])
  }

  /** The second replacement, of every `*` by nothing. */
  function RemoveStars(s: string): (r: string)
    ensures '*' !in r
    ensures '*' !in s ==> r == s
    ensures |r| <= |s|
  {
    if s == [] then []
    else if s[0] == '*' then RemoveStars(s[1..])
    else [s[0]] + RemoveStars(s[1..])
  }

  /** Dropping the pairs first and then the single stars drops exactly the
      stars. */
  lemma {:induction false} StarsAfterPairs(s: string)
    ensures RemoveStars(RemoveDoubleStars(s)) == RemoveStars(s)
  {
    if |s| >= 2 {
      if s[0] == '*' && s[1] == '*' {
        StarsAfterPairs(s[2..]);
        assert RemoveStars(s) == RemoveStars(s[1..]) == RemoveStars(s[2..]);
      } else {
        StarsAfterPairs(s[1..]);
        assert ([s[0]] + RemoveDoubleStars(s[1..]))[1..] == RemoveDoubleStars(s[1..]);
      }
    }
  }

  /** Without a star there is no pair to drop. */
  lemma {:induction false} NoPairsWithoutStars(s: string)
    requires '*' !in s
    ensures RemoveDoubleStars(s) == s
  {
    if |s| >= 2 {
      NoPairsWithoutStars(s[1..]);
    }
  }

  /** `^` in a multiline pattern: the start, or just after a line terminator
      of the input. */
  predicate AtLineStart(s: string, p: nat)
    requires p <= |s|
  {
    p == 0 || IsLineTerminator(s[p - 1])
  }

  /** The end of the run of `#` starting at `p`. */
  function HashRunEnd(s: string, p: nat): (q: nat)
    requires p <= |s|
    ensures p <= q <= |s|
    ensures forall k :: p <= k < q ==> s[k] == '#'
    ensures q < |s| ==> s[q] != '#'
    decreases |s| - p
  {
    if p < |s| && s[p] == '#' then HashRunEnd(s, p + 1) else p
  }

  /** The length of the match of `#+\s` at `p`, or 0 when there is none: the
      longest run of `#` must be followed by white space, since a shorter
      run is followed by `#`. */
  function HeadingLength(s: string, p: nat): (n: nat)
    requires p <= |s|
    ensures n == 0 || (n >= 2 && p + n <= |s|)
  {
    var q := HashRunEnd(s, p);
    if q > p && q < |s| && IsSpace(s[q]) then q - p + 1 else 0
  }

  /** The third replacement, of every line-initial run of `#` followed by
      one white-space character by nothing, from index `p`: each match at a
      line start is dropped and the scan resumes after it. */
  function StripHeadingsFrom(s: string, p: nat): (r: string)
    requires p <= |s|
    ensures |r| <= |s| - p
    decreases |s| - p
  {
    if p == |s| then []
    else if AtLineStart(s, p) && HeadingLength(s, p) > 0 then StripHeadingsFrom(s, p + HeadingLength(s, p))
    else [s[p]] + StripHeadingsFrom(s, p + 1)
  }

  function StripHeadings(s: string): string
  {
    StripHeadingsFrom(s, 0)
  }

  /** Stripping headings only drops characters. */
  lemma {:induction false} StripKeepsAbsent(s: string, p: nat, c: char)
    requires p <= |s| && c !in s
    ensures c !in StripHeadingsFrom(s, p)
    decreases |s| - p
  {
    if p < |s| {
      if AtLineStart(s, p) && HeadingLength(s, p) > 0 {
        StripKeepsAbsent(s, p + HeadingLength(s, p), c);
      } else {
        StripKeepsAbsent(s, p + 1, c);
      }
    }
  }

  /** Without a `#` there is no heading marker to strip. */
  lemma {:induction false} StripWithoutHashes(s: string, p: nat)
    requires p <= |s| && '#' !in s
    ensures StripHeadingsFrom(s, p) == s[p..]
    decreases |s| - p
  {
    if p < |s| {
      assert HashRunEnd(s, p) == p;
      StripWithoutHashes(s, p + 1);
      assert s[p..] == [s[p]] + s[p + 1..];
    }
  }

  /** A line made of one or more `#`, one white-space character and text
      without `#` loses exactly its marker. */
  lemma HeadingLine(hashes: string, space: char, rest: string)
    requires hashes != [] && forall k :: 0 <= k < |hashes| ==> hashes[k] == '#'
    requires IsSpace(space) && '#' !in rest
    ensures StripHeadings(hashes + [space] + rest) == rest
  {
    var s := hashes + [space] + rest;
    assert forall k :: 0 <= k < |hashes| ==> s[k] == '#';
    assert s[|hashes|] == space;
    HashRunAt(s, 0, |hashes|);
    assert HeadingLength(s, 0) == |hashes| + 1;
    assert '#' !in s[|hashes| + 1..] by {
      assert s[|hashes| + 1..] == rest;
    }
    StripTailWithoutHashes(s, |hashes| + 1);
    assert s[|hashes| + 1..] == rest;
  }

  /** The run of `#` from `p` ends at `q` when `s[p..q]` is all `#` and
      `s[q]` is not. */
  lemma {:induction false} HashRunAt(s: string, p: nat, q: nat)
    requires p <= q < |s| && s[q] != '#'
    requires forall k :: p <= k < q ==> s[k] == '#'
    ensures HashRunEnd(s, p) == q
    decreases q - p
  {
    if p < q {
      HashRunAt(s, p + 1, q);
    }
  }

  /** Stripping works line by line: text that ends with a line terminator
      (or is empty) and the text after it are stripped independently, since
      no heading marker reaches past a line terminator. */
  lemma StripLines(a: string, b: string)
    requires a == [] || IsLineTerminator(a[|a| - 1])
    ensures StripHeadings(a + b) == StripHeadings(a) + StripHeadings(b)
  {
    StripBeforeLineEnd(a, b, 0);
  }

  /** Two heading lines, as in a typical answer, both lose their markers. */
  lemma TwoHeadingLines()
    ensures StripHeadings("# a\n## b") == "a\nb"
  {
    assert "# a\n## b" == "# a\n" + "## b";
    assert "# a\n" == "#" + [' '] + "a\n";
    assert "## b" == "##" + [' '] + "b";
    StripLines("# a\n", "## b");
    HeadingLine("#", ' ', "a\n");
    HeadingLine("##", ' ', "b");
  }

  lemma StripBeforeLineEnd(a: string, b: string, p: nat)
    requires p <= |a| && (a == [] || IsLineTerminator(a[|a| - 1]))
    ensures StripHeadingsFrom(a + b, p) == StripHeadingsFrom(a, p) + StripHeadingsFrom(b, 0)
  {
    forall j | p <= j < |a|
      ensures SameScanAt(a + b, a, 0, j)
    {
      SameScanBeforeLineEnd(a, b, j);
    }
    StripPrefix(a + b, a, p);
    StripAfterLineEnd(a, b, 0);
  }

  lemma SameScanBeforeLineEnd(a: string, b: string, p: nat)
    requires p < |a| && IsLineTerminator(a[|a| - 1])
    ensures SameScanAt(a + b, a, 0, p)
  {
    var s := a + b;
    assert p > 0 ==> s[p - 1] == a[p - 1];
    HashRunInLine(a, b, p);
    assert s[p] == a[p];
  }

  /** When `t` is scanned like the start of `s` from `i` to its end, the scan
      of `s` from `i` is the scan of `t` followed by the scan of the rest. */
  lemma {:induction false} StripPrefix(s: string, t: string, i: nat)
    requires |t| <= |s| && i <= |t|
    requires forall j :: i <= j < |t| ==> SameScanAt(s, t, 0, j)
    ensures StripHeadingsFrom(s, i) == StripHeadingsFrom(t, i) + StripHeadingsFrom(s, |t|)
    decreases |t| - i
  {
    if i < |t| {
      ShiftedStep(s, t, 0, i);
      var k := Resume(t, i);
      var rest := StripHeadingsFrom(s, |t|);
      calc {
        StripHeadingsFrom(s, i);
        { ScanStep(s, i); }
        Kept(s, i) + StripHeadingsFrom(s, Resume(s, i));
        Kept(t, i) + StripHeadingsFrom(s, k);
        { StripPrefix(s, t, k); }
        Kept(t, i) + (StripHeadingsFrom(t, k) + rest);
        (Kept(t, i) + StripHeadingsFrom(t, k)) + rest;
        { ScanStep(t, i); }
        StripHeadingsFrom(t, i) + rest;
      }
    }
  }

  lemma {:induction false} HashRunInLine(a: string, b: string, p: nat)
    requires p < |a| && a[|a| - 1] != '#'
    ensures HashRunEnd(a + b, p) == HashRunEnd(a, p) < |a|
    decreases |a| - p
  {
    assert (a + b)[p] == a[p];
    if a[p] == '#' {
      HashRunInLine(a, b, p + 1);
    }
  }

  lemma StripAfterLineEnd(a: string, b: string, i: nat)
    requires i <= |b| && (a == [] || IsLineTerminator(a[|a| - 1]))
    ensures StripHeadingsFrom(a + b, |a| + i) == StripHeadingsFrom(b, i)
  {
    forall j | i <= j < |b|
      ensures SameScanAt(a + b, b, |a|, j)
    {
      SameScanAfterLineEnd(a, b, j);
    }
    StripShifted(a + b, b, |a|, i);
  }

  /** Position `off + j` of `s` is scanned exactly as position `j` of `t`. */
  predicate SameScanAt(s: string, t: string, off: nat, j: nat)
    requires off + j < |s| && j < |t|
  {
    AtLineStart(s, off + j) == AtLineStart(t, j) && HeadingLength(s, off + j) == HeadingLength(t, j) && s[off + j] == t[j]
  }

  /** When `t` is scanned like `s` from `off` on, the two scans produce the
      same text. */
  lemma {:induction false} StripShifted(s: string, t: string, off: nat, i: nat)
    requires off + |t| == |s| && i <= |t|
    requires forall j :: i <= j < |t| ==> SameScanAt(s, t, off, j)
    ensures StripHeadingsFrom(s, off + i) == StripHeadingsFrom(t, i)
    decreases |t| - i
  {
    if i < |t| {
      ShiftedStep(s, t, off, i);
      calc {
        StripHeadingsFrom(s, off + i);
        { ScanStep(s, off + i); }
        Kept(s, off + i) + StripHeadingsFrom(s, Resume(s, off + i));
        Kept(t, i) + StripHeadingsFrom(s, off + Resume(t, i));
        { StripShifted(s, t, off, Resume(t, i)); }
        Kept(t, i) + StripHeadingsFrom(t, Resume(t, i));
        { ScanStep(t, i); }
        StripHeadingsFrom(t, i);
      }
    }
  }

  /** The text one step of the scan from `p` keeps. */
  function Kept(s: string, p: nat): string
    requires p < |s|
  {
    if AtLineStart(s, p) && HeadingLength(s, p) > 0 then [] else [s[p]]
  }

  /** The position one step of the scan from `p` resumes at. */
  function Resume(s: string, p: nat): (q: nat)
    requires p < |s|
    ensures p < q <= |s|
  {
    if AtLineStart(s, p) && HeadingLength(s, p) > 0 then p + HeadingLength(s, p) else p + 1
  }

  /** One step of the scan: the kept text, then the scan from where it resumes. */
  lemma ScanStep(s: string, p: nat)
    requires p < |s|
    ensures StripHeadingsFrom(s, p) == Kept(s, p) + StripHeadingsFrom(s, Resume(s, p))
  {
  }

  /** Positions scanned alike keep the same text and resume alike. */
  lemma ShiftedStep(s: string, t: string, off: nat, i: nat)
    requires off + |t| <= |s| && i < |t| && SameScanAt(s, t, off, i)
    ensures Kept(s, off + i) == Kept(t, i) && Resume(s, off + i) == off + Resume(t, i)
  {
  }

  /** After the line terminator the scan sees what it sees in `b` alone. */
  lemma SameScanAfterLineEnd(a: string, b: string, i: nat)
    requires i < |b| && (a == [] || IsLineTerminator(a[|a| - 1]))
    ensures AtLineStart(a + b, |a| + i) == AtLineStart(b, i)
    ensures HeadingLength(a + b, |a| + i) == HeadingLength(b, i)
    ensures (a + b)[|a| + i] == b[i]
  {
    var s := a + b;
    assert i == 0 && a != [] ==> s[|a| - 1] == a[|a| - 1];
    assert i > 0 ==> s[|a| + i - 1] == b[i - 1];
    HashRunShift(a, b, i);
    var q := HashRunEnd(b, i);
    if q < |b| {
      assert s[|a| + q] == b[q];
    }
  }

  lemma {:induction false} HashRunShift(a: string, b: string, i: nat)
    requires i <= |b|
    ensures HashRunEnd(a + b, |a| + i) == |a| + HashRunEnd(b, i)
    decreases |b| - i
  {
    if i < |b| {
      assert (a + b)[|a| + i] == b[i];
      if b[i] == '#' {
        HashRunShift(a, b, i + 1);
      }
    }
  }

  /** From an index after which no `#` occurs, nothing is stripped. */
  lemma {:induction false} StripTailWithoutHashes(s: string, p: nat)
    requires p <= |s| && '#' !in s[p..]
    ensures StripHeadingsFrom(s, p) == s[p..]
    decreases |s| - p
  {
    if p < |s| {
      assert s[p] == s[p..][0];
      assert HashRunEnd(s, p) == p;
      assert s[p + 1..] == s[p..][1..];
      StripTailWithoutHashes(s, p + 1);
      assert s[p..] == [s[p]] + s[p + 1..];
    }
  }

  /** `parseAIResponse`. */
  function ParseAIResponse(text: string): (r: string)
    ensures '*' !in r
  {
    var unstarred := RemoveStars(RemoveDoubleStars(text));
    StripKeepsAbsent(unstarred, 0, '*');
    TrimKeepsCharacters(StripHeadings(unstarred), '*');
    Trim(StripHeadings(unstarred))
  }

  /** The cleaned answer holds no `*`; text with no `*` and no `#` is only
      trimmed. */
  lemma ParseAIResponseProperties(text: string)
    ensures '*' !in ParseAIResponse(text)
    ensures '*' !in text && '#' !in text ==> ParseAIResponse(text) == Trim(text)
  {
    if '*' !in text && '#' !in text {
      NoPairsWithoutStars(text);
      StripWithoutHashes(text, 0);
    }
  }

  /** The stars are removed in full, pairs or not. */
  lemma ParseIgnoresStars(text: string)
    ensures ParseAIResponse(text) == Trim(StripHeadings(RemoveStars(text)))
  {
    StarsAfterPairs(text);
  }
}
