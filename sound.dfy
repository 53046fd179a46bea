/**
 * The sound manager: short tone cues and text-to-speech. Tone synthesis is
 * reduced to the log `cues` of cues played; the speech synthesiser to the
 * log `speech` of the calls made on it and its `paused` flag. `speak`
 * splits its text into sentences and speaks them one utterance at a time,
 * each end or error of an utterance moving on to the next sentence.
 */
module Sound {
  import opened Text

  datatype Cue = Notification | SessionComplete | BreakEnd | PostureWarning | PostureGood

  /** A call on the speech synthesiser. */
  datatype SpeechCall = Cancel | Resume | Utter(text: string, lang: string)

  /** The language `speak` uses when the caller gives none. */
  const DefaultLang: string := "id-ID"

  // ---------------------------------------------------------------------
  // The sentence split: text.match(/[^.!?]+[.!?]+/g) || [text]

  predicate IsTerminator(c: char)
  {
    c == '.' || c == '!' || c == '?'
  }

  /** The end of the run, starting at `i`, of characters that are
      terminators (`term`) or non-terminators (`!term`). */
  function RunEnd(s: string, i: nat, term: bool): (j: nat)
    requires i <= |s|
    ensures i <= j <= |s|
    ensures forall k :: i <= k < j ==> IsTerminator(s[k]) == term
    ensures j < |s| ==> IsTerminator(s[j]) != term
    decreases |s| - i
  {
    if i < |s| && IsTerminator(s[i]) == term then RunEnd(s, i + 1, term) else i
  }

  /** A match of the pattern: one or more non-terminators followed by one
      or more terminators. */
  predicate IsChunk(c: string)
  {
    && |c| >= 2
    && !IsTerminator(c[0])
    && IsTerminator(c[|c| - 1])
    && (forall k :: 0 < k < |c| && IsTerminator(c[k - 1]) ==> IsTerminator(c[k]))
  }

  /** The successive matches of the global pattern from index `p`. */
  function MatchesFrom(s: string, p: nat): (r: seq<string>)
    requires p <= |s|
    ensures forall m :: 0 <= m < |r| ==> IsChunk(r[m])
    decreases |s| - p
  {
    if p == |s| then []
    else if IsTerminator(s[p]) then MatchesFrom(s, p + 1)
    else
      var q := RunEnd(s, p, false);
      if q == |s| then []
      else
        var e := RunEnd(s, q, true);
        var c := s[p..e];
        assert IsChunk(c) by {
          assert c[0] == s[p] && c[|c| - 1] == s[e - 1];
          forall k | 0 < k < |c| && IsTerminator(c[k - 1]) ensures IsTerminator(c[k]) {
            assert c[k - 1] == s[p + k - 1] && c[k] == s[p + k];
          }
        }
        [c] + MatchesFrom(s, e)
  }

  function Concat(ss: seq<string>): string
  {
    if ss == [] then [] else ss[0] + Concat(ss[1..])
  }

  /** `joined` is `s[a..b]`, only terminators come between `p` and `a`, no
      terminator comes after `b`, and a non-empty stretch starts with a
      non-terminator and ends with a terminator. */
  ghost predicate Span(s: string, p: int, a: int, b: int, joined: string)
  {
    && 0 <= p <= a <= b <= |s|
    && joined == s[a..b]
    && (forall k :: p <= k < a ==> IsTerminator(s[k]))
    && (forall k :: b <= k < |s| ==> !IsTerminator(s[k]))
    && (a < b ==> !IsTerminator(s[a]) && IsTerminator(s[b - 1]))
  }

  /** The matches, joined, are one contiguous stretch of the text: only
      terminators come before it and no terminator comes after it. So
      nothing between the first and the last match is lost, and the text
      after the last terminator is dropped. */
  lemma {:induction false} MatchesSpan(s: string, p: nat) returns (a: nat, b: nat)
    requires p <= |s|
    ensures Span(s, p, a, b, Concat(MatchesFrom(s, p)))
    decreases |s| - p
  {
    if p == |s| {
      a, b := p, p;
    } else if IsTerminator(s[p]) {
      a, b := MatchesSpan(s, p + 1);
    } else {
      var q := RunEnd(s, p, false);
      if q == |s| {
        a, b := p, p;
      } else {
        var e := RunEnd(s, q, true);
        var a', b' := MatchesSpan(s, e);
        MatchStep(s, p, q, e, a', b');
        a, b := p, b';
      }
    }
  }

  /** The inductive step of `MatchesSpan` for a text that starts, at `p`,
      with a match ending at `e`. */
  lemma MatchStep(s: string, p: nat, q: nat, e: nat, a: nat, b: nat)
    requires p < |s| && !IsTerminator(s[p])
    requires q == RunEnd(s, p, false) && q < |s| && e == RunEnd(s, q, true)
    requires Span(s, e, a, b, Concat(MatchesFrom(s, e)))
    ensures Span(s, p, p, b, Concat(MatchesFrom(s, p)))
  {
    var rest := MatchesFrom(s, e);
    assert a == e;
    assert MatchesFrom(s, p) == [s[p..e]] + rest;
    assert Concat([s[p..e]] + rest) == s[p..e] + Concat(rest);
    assert s[p..e] + s[e..b] == s[p..b];
  }

  /** There is no match exactly when no terminator follows a non-terminator. */
  lemma {:induction false} MatchesEmptyIff(s: string, p: nat)
    requires p <= |s|
    ensures MatchesFrom(s, p) == [] <==>
      forall i, j :: p <= i < j < |s| && !IsTerminator(s[i]) ==> !IsTerminator(s[j])
    decreases |s| - p
  {
    if p < |s| {
      if IsTerminator(s[p]) {
        MatchesEmptyIff(s, p + 1);
      } else {
        var q := RunEnd(s, p, false);
        if q < |s| {
          assert !IsTerminator(s[p]) && IsTerminator(s[q]);
        } else {
          forall i, j | p <= i < j < |s| && !IsTerminator(s[i]) ensures !IsTerminator(s[j]) {
          }
        }
      }
    }
  }

  /** `text.match(...) || [text]`: the matches, or the whole text as the
      one chunk when there is none. */
  function Sentences(text: string): (r: seq<string>)
    ensures |r| >= 1
    ensures MatchesFrom(text, 0) == [] ==> r == [text]
    ensures MatchesFrom(text, 0) != [] ==> forall m :: 0 <= m < |r| ==> IsChunk(r[m])
  {
    var ms := MatchesFrom(text, 0);
    if ms == [] then [text] else ms
  }

  /** The utterances the sentences become: each trimmed, in order. */
  function Utterances(ss: seq<string>, lang: string): (r: seq<SpeechCall>)
    ensures |r| == |ss|
    ensures forall k :: 0 <= k < |ss| ==> r[k] == Utter(Trim(ss[k]), lang)
  {
    if ss == [] then [] else [Utter(Trim(ss[0]), lang)] + Utterances(ss[1..], lang)
  }

  /** The calls `speak` makes before the first utterance ends. */
  function SpeakStart(text: string, lang: string, wasPaused: bool): (r: seq<SpeechCall>)
    ensures |r| == if wasPaused then 3 else 2
    ensures r[0] == Cancel && r[|r| - 1] == Utter(Trim(Sentences(text)[0]), lang)
    ensures wasPaused ==> r[1] == Resume
  {
    var first := Utter(Trim(Sentences(text)[0]), lang);
    if wasPaused then [Cancel, Resume, first] else [Cancel, first]
  }

  class SoundManager {
    const hasAudio: bool
    const hasSpeech: bool
    var cues: seq<Cue>
    var speech: seq<SpeechCall>
    var paused: bool

    // The state of the latest `speak` call's `speakNext` closure.
    var sentences: seq<string>
    var index: nat
    var lang: string
    /** The utterances the latest `speak` call has issued so far. */
    ghost var issued: seq<SpeechCall>

    /** The latest call has spoken, in order, every sentence up to and
        including the one at `index`. */
    ghost predicate Valid()
      reads this
    {
      && index <= |sentences|
      && issued == Utterances(sentences[..if index < |sentences| then index + 1 else index], lang)
    }

    constructor (hasAudio: bool, hasSpeech: bool, paused: bool)
      ensures this.hasAudio == hasAudio && this.hasSpeech == hasSpeech && this.paused == paused
      ensures cues == [] && speech == [] && sentences == [] && Valid()
    {
      this.hasAudio := hasAudio;
      this.hasSpeech := hasSpeech;
      this.paused := paused;
      cues := [];
      speech := [];
      sentences := [];
      index := 0;
      lang := DefaultLang;
      issued := [];
    }

    /** One of the five cue methods; without an audio context nothing plays. */
    method Play(c: Cue)
      modifies this
      ensures cues == if hasAudio then old(cues) + [c] else old(cues)
      ensures speech == old(speech) && paused == old(paused)
      ensures sentences == old(sentences) && index == old(index) && lang == old(lang) && issued == old(issued)
    {
      if hasAudio {
        cues := cues + [c];
      }
    }

    /** `speakNext`: speaks the sentence at `index`, if there is one. */
    method SpeakNext()
      requires index <= |sentences|
      requires issued == Utterances(sentences[..index], lang)
      modifies this
      ensures Valid()
      ensures speech == old(speech) + if index < |sentences| then [Utter(Trim(sentences[index]), lang)] else []
      ensures cues == old(cues) && paused == old(paused)
      ensures sentences == old(sentences) && index == old(index) && lang == old(lang)
    {
      if index >= |sentences| {
        return;
      }
      var u := Utter(Trim(sentences[index]), lang);
      speech := speech + [u];
      UtterancesSnoc(sentences, index, lang);
      issued := issued + [u];
    }

    /** Cancels ongoing speech and resumes a paused synthesiser. */
    method Interrupt()
      modifies this
      ensures speech == old(speech) + if old(paused) then [Cancel, Resume] else [Cancel]
      ensures !paused && cues == old(cues)
      ensures sentences == old(sentences) && index == old(index) && lang == old(lang) && issued == old(issued)
    {
      speech := speech + [Cancel];
      if paused {
        speech := speech + [Resume];
        paused := false;
      }
    }

    /** `speak(text, lang)`: without a synthesiser nothing happens;
        otherwise ongoing speech is cancelled, a paused synthesiser is
        resumed, and the first sentence is spoken. */
    method Speak(text: string, language: string)
      modifies this
      ensures !hasSpeech ==> unchanged(this)
      ensures hasSpeech ==> Valid() && sentences == Sentences(text) && index == 0 && lang == language
      ensures hasSpeech ==> !paused
      ensures speech == old(speech) + if hasSpeech then SpeakStart(text, language, old(paused)) else []
      ensures cues == old(cues)
    {
      if !hasSpeech {
        return;
      }
      ghost var before := speech;
      ghost var wasPaused := paused;
      Interrupt();
      ghost var prefix := if wasPaused then [Cancel, Resume] else [Cancel];
      var ss := Sentences(text);
      Begin(ss, language);
      assert speech == before + prefix + [Utter(Trim(ss[0]), language)];
      assert SpeakStart(text, language, wasPaused) == prefix + [Utter(Trim(ss[0]), language)];
    }

    /** Installs the sentences of a new `speak` call and speaks the first. */
    method Begin(ss: seq<string>, language: string)
      requires |ss| >= 1
      modifies this
      ensures Valid() && sentences == ss && index == 0 && lang == language
      ensures speech == old(speech) + [Utter(Trim(ss[0]), language)]
      ensures cues == old(cues) && paused == old(paused)
    {
      sentences := ss;
      index := 0;
      lang := language;
      issued := [];
      assert sentences[..0] == [];
      SpeakNext();
    }

    /** The end (or error) of the utterance at `index`: moves to the next
        sentence and speaks it, stopping after the last. */
    method OnUtteranceDone()
      requires Valid() && index < |sentences|
      modifies this
      ensures Valid()
      ensures index == old(index) + 1
      ensures speech == old(speech) + if index < |sentences| then [Utter(Trim(sentences[index]), lang)] else []
      ensures index == |sentences| ==> issued == Utterances(sentences, lang)
      ensures cues == old(cues) && paused == old(paused) && sentences == old(sentences) && lang == old(lang)
    {
      index := index + 1;
      SpeakNext();
      if index == |sentences| {
        assert sentences[..index] == sentences;
      }
    }
  }

  /** Speaking one more sentence adds its utterance at the end. */
  lemma UtterancesSnoc(ss: seq<string>, i: nat, lang: string)
    requires i < |ss|
    ensures Utterances(ss[..i + 1], lang) == Utterances(ss[..i], lang) + [Utter(Trim(ss[i]), lang)]
  {
    assert ss[..i + 1] == ss[..i] + [ss[i]];
    UtterancesAppend(ss[..i], [ss[i]], lang);
    assert Utterances([ss[i]], lang) == [Utter(Trim(ss[i]), lang)];
  }

  lemma {:induction false} UtterancesAppend(a: seq<string>, b: seq<string>, lang: string)
    ensures Utterances(a + b, lang) == Utterances(a, lang) + Utterances(b, lang)
  {
    if a == [] {
      assert a + b == b;
    } else {
      assert (a + b)[0] == a[0];
      assert (a + b)[1..] == a[1..] + b;
      UtterancesAppend(a[1..], b, lang);
      calc {
        Utterances(a + b, lang);
        [Utter(Trim(a[0]), lang)] + Utterances(a[1..] + b, lang);
        [Utter(Trim(a[0]), lang)] + (Utterances(a[1..], lang) + Utterances(b, lang));
        ([Utter(Trim(a[0]), lang)] + Utterances(a[1..], lang)) + Utterances(b, lang);
      }
    }
  }
}
