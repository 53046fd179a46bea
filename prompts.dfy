/**
 * The intervention prompts: a template per intervention type, of which
 * only the overwork template holds a `{sessionCount}` placeholder and only
 * the procrastination template a `{userPattern}` placeholder; the prompt
 * generator fills the first occurrence of each; and the static fallback
 * message per type, also exported as a table keyed by the type's name.
 */
module Prompts {
  import opened Text

  datatype Intervention = Posture | Hydration | Stretch | Movement | Procrastination | Overwork | Reflection

  datatype PromptContext = PromptContext(
    kind: Intervention,
    sessionCount: Option<int>,
    lastReminderTime: Option<string>,
    userPattern: Option<string>)

  const SessionCountPlaceholder: string := "{" + "sessionCount}"
  const UserPatternPlaceholder: string := "{" + "userPattern}"

  // ---------------------------------------------------------------------
  // The templates, written in short pieces
  //
  // Each template is the concatenation of its literal, cut into pieces of at
  // most 30 characters. A fact about the characters of a long literal makes
  // the solver expand all of them at once, which is beyond its budget; a
  // fact about one short piece is cheap, and the fact about a template
  // follows piece by piece (the `Piece` lemmas below).

  const PostureTemplate: string :=
    "User has been working for a "
    + "while. Remind them about "
    + "posture.\nContext: They tend "
    + "to slouch when focused.\nBe "
    + "direct and strict."

  const HydrationTemplate: string :=
    "User needs to drink "
    + "water.\nContext: They often "
    + "forget to hydrate.\nBe firm "
    + "but caring."

  const StretchTemplate: string :=
    "User has been sitting too "
    + "long. Tell them to stretch or "
    + "move.\nContext: Sitting for "
    + "extended periods is "
    + "harmful.\nBe commanding."

  const MovementTemplate: string :=
    "User needs to move "
    + "around.\nContext: Physical "
    + "movement improves focus and "
    + "health.\nBe encouraging but "
    + "firm."

  const ProcrastinationHead: string :=
    "User is "
    + "procrastinating.\nContext: "

  const ProcrastinationTail: string :=
    "\nConfront them directly. No "
    + "sympathy."

  const OverworkHead: string :=
    "User has completed "

  const OverworkTail: string :=
    " sessions without proper "
    + "breaks.\nContext: Overworking "
    + "leads to burnout.\nForce them "
    + "to take a real break. Be "
    + "strict."

  const ReflectionTemplate: string :=
    "Session just ended. Ask user "
    + "a reflection "
    + "question.\nContext: Help them "
    + "identify what blocked focus "
    + "or what went well.\nBe curious "
    + "and analytical."

  /** `PROMPTS[type]`. */
  function Template(k: Intervention): (r: string)
    ensures r != ""
  {
    match k
    case Posture => PostureTemplate
    case Hydration => HydrationTemplate
    case Stretch => StretchTemplate
    case Movement => MovementTemplate
    case Procrastination => ProcrastinationHead + UserPatternPlaceholder + ProcrastinationTail
    case Overwork => OverworkHead + SessionCountPlaceholder + OverworkTail
    case Reflection => ReflectionTemplate
  }

  // ---------------------------------------------------------------------
  // Replacing a placeholder

  /** A pattern whose first character the text lacks does not occur in it,
      so replacing it changes nothing. */
  lemma ReplaceAbsent(t: string, pat: string, rep: string)
    requires pat != [] && pat[0] !in t
    ensures !Contains(t, pat)
    ensures ReplaceFirst(t, pat, rep) == t
  {
    forall i | 0 <= i <= |t| - |pat| ensures !OccursAt(t, pat, i) {
      assert t[i..i + |pat|][0] == t[i];
    }
  }

  /** A text made of a head, a placeholder and a tail, where the
      placeholder's first character occurs in neither head nor tail nor
      later in the placeholder, holds no other pattern starting with that
      character but differing in its second. */
  lemma MismatchAbsent(head: string, ph: string, tail: string, pat: string, rep: string)
    requires |ph| >= 2 && |pat| >= 2 && ph[0] == pat[0] && ph[1] != pat[1]
    requires pat[0] !in head && pat[0] !in tail && pat[0] !in ph[1..]
    ensures !Contains(head + ph + tail, pat)
    ensures ReplaceFirst(head + ph + tail, pat, rep) == head + ph + tail
  {
    var t := head + ph + tail;
    forall i | 0 <= i <= |t| - |pat| ensures !OccursAt(t, pat, i) {
      assert t[i..i + |pat|][0] == t[i] && t[i..i + |pat|][1] == t[i + 1];
      if i < |head| {
        assert t[i] == head[i];
      } else if i == |head| {
        assert t[i + 1] == ph[1];
      } else if i < |head| + |ph| {
        assert t[i] == ph[1..][i - |head| - 1];
      } else {
        assert t[i] == tail[i - |head| - |ph|];
      }
    }
  }

  /** The placeholder after a head that lacks its first character is the
      first occurrence, and exactly it is replaced. */
  lemma ReplaceAfterHead(head: string, pat: string, tail: string, rep: string)
    requires pat != [] && pat[0] !in head
    ensures Contains(head + pat + tail, pat)
    ensures ReplaceFirst(head + pat + tail, pat, rep) == head + rep + tail
  {
    var t := head + pat + tail;
    assert t[|head|..|head| + |pat|] == pat;
    assert OccursAt(t, pat, |head|);
    forall j | 0 <= j < |head| ensures !OccursAt(t, pat, j) {
      assert t[j] == head[j];
      if j + |pat| <= |t| {
        assert t[j..j + |pat|][0] == t[j];
      }
    }
    var i := IndexOf(t, pat).value;
    assert i == |head|;
    assert t[..i] == head && t[i + |pat|..] == tail;
  }

  /** The literal parts of the templates hold no `{`. */
  lemma LiteralsBraceFree()
    ensures '{' !in PostureTemplate && '{' !in HydrationTemplate && '{' !in StretchTemplate
    ensures '{' !in MovementTemplate && '{' !in ReflectionTemplate
    ensures '{' !in OverworkHead && '{' !in OverworkTail
    ensures '{' !in ProcrastinationHead && '{' !in ProcrastinationTail
    ensures PlaceholderShape(SessionCountPlaceholder, 's') && PlaceholderShape(UserPatternPlaceholder, 'u')
  {
    PlainTemplatesBraceFree();
    HeadsAndTailsBraceFree();
    SessionCountShape();
    UserPatternShape();
  }

  lemma PlainTemplatesBraceFree()
    ensures '{' !in PostureTemplate && '{' !in HydrationTemplate && '{' !in StretchTemplate
    ensures '{' !in MovementTemplate && '{' !in ReflectionTemplate
  {
    PostureBraceFree();
    HydrationBraceFree();
    StretchBraceFree();
    MovementBraceFree();
    ReflectionBraceFree();
  }

  lemma HeadsAndTailsBraceFree()
    ensures '{' !in OverworkHead && '{' !in OverworkTail
    ensures '{' !in ProcrastinationHead && '{' !in ProcrastinationTail
  {
    OverworkBraceFree();
    ProcrastinationBraceFree();
  }

  lemma PostureBraceFree()
    ensures '{' !in PostureTemplate
  {
    PosturePiece1(); PosturePiece2(); PosturePiece3(); PosturePiece4(); PosturePiece5();
  }

  lemma PosturePiece1() ensures '{' !in "User has been working for a " {}
  lemma PosturePiece2() ensures '{' !in "while. Remind them about " {}
  lemma PosturePiece3() ensures '{' !in "posture.\nContext: They tend " {}
  lemma PosturePiece4() ensures '{' !in "to slouch when focused.\nBe " {}
  lemma PosturePiece5() ensures '{' !in "direct and strict." {}

  lemma HydrationBraceFree()
    ensures '{' !in HydrationTemplate
  {
    HydrationPiece1(); HydrationPiece2(); HydrationPiece3(); HydrationPiece4();
  }

  lemma HydrationPiece1() ensures '{' !in "User needs to drink " {}
  lemma HydrationPiece2() ensures '{' !in "water.\nContext: They often " {}
  lemma HydrationPiece3() ensures '{' !in "forget to hydrate.\nBe firm " {}
  lemma HydrationPiece4() ensures '{' !in "but caring." {}

  lemma StretchBraceFree()
    ensures '{' !in StretchTemplate
  {
    StretchPiece1(); StretchPiece2(); StretchPiece3(); StretchPiece4(); StretchPiece5();
  }

  lemma StretchPiece1() ensures '{' !in "User has been sitting too " {}
  lemma StretchPiece2() ensures '{' !in "long. Tell them to stretch or " {}
  lemma StretchPiece3() ensures '{' !in "move.\nContext: Sitting for " {}
  lemma StretchPiece4() ensures '{' !in "extended periods is " {}
  lemma StretchPiece5() ensures '{' !in "harmful.\nBe commanding." {}

  lemma MovementBraceFree()
    ensures '{' !in MovementTemplate
  {
    MovementPiece1(); MovementPiece2(); MovementPiece3(); MovementPiece4(); MovementPiece5();
  }

  lemma MovementPiece1() ensures '{' !in "User needs to move " {}
  lemma MovementPiece2() ensures '{' !in "around.\nContext: Physical " {}
  lemma MovementPiece3() ensures '{' !in "movement improves focus and " {}
  lemma MovementPiece4() ensures '{' !in "health.\nBe encouraging but " {}
  lemma MovementPiece5() ensures '{' !in "firm." {}

  lemma ReflectionBraceFree()
    ensures '{' !in ReflectionTemplate
  {
    ReflectionPiece1(); ReflectionPiece2(); ReflectionPiece3(); ReflectionPiece4(); ReflectionPiece5(); ReflectionPiece6();
  }

  lemma ReflectionPiece1() ensures '{' !in "Session just ended. Ask user " {}
  lemma ReflectionPiece2() ensures '{' !in "a reflection " {}
  lemma ReflectionPiece3() ensures '{' !in "question.\nContext: Help them " {}
  lemma ReflectionPiece4() ensures '{' !in "identify what blocked focus " {}
  lemma ReflectionPiece5() ensures '{' !in "or what went well.\nBe curious " {}
  lemma ReflectionPiece6() ensures '{' !in "and analytical." {}

  lemma OverworkBraceFree()
    ensures '{' !in OverworkHead && '{' !in OverworkTail
  {
    OverworkPiece1(); OverworkPiece2(); OverworkPiece3(); OverworkPiece4(); OverworkPiece5(); OverworkPiece6();
  }

  lemma OverworkPiece1() ensures '{' !in "User has completed " {}
  lemma OverworkPiece2() ensures '{' !in " sessions without proper " {}
  lemma OverworkPiece3() ensures '{' !in "breaks.\nContext: Overworking " {}
  lemma OverworkPiece4() ensures '{' !in "leads to burnout.\nForce them " {}
  lemma OverworkPiece5() ensures '{' !in "to take a real break. Be " {}
  lemma OverworkPiece6() ensures '{' !in "strict." {}

  lemma ProcrastinationBraceFree()
    ensures '{' !in ProcrastinationHead && '{' !in ProcrastinationTail
  {
    ProcrastinationPiece1(); ProcrastinationPiece2(); ProcrastinationPiece3(); ProcrastinationPiece4();
  }

  lemma ProcrastinationPiece1() ensures '{' !in "User is " {}
  lemma ProcrastinationPiece2() ensures '{' !in "procrastinating.\nContext: " {}
  lemma ProcrastinationPiece3() ensures '{' !in "\nConfront them directly. No " {}
  lemma ProcrastinationPiece4() ensures '{' !in "sympathy." {}


  /** A placeholder: `{`, then a name starting with `c`, with no other `{`. */
  predicate PlaceholderShape(ph: string, c: char)
  {
    |ph| >= 2 && ph[0] == '{' && '{' !in ph[1..] && ph[1] == c
  }

  lemma SessionCountShape()
    ensures PlaceholderShape(SessionCountPlaceholder, 's')
  {
    assert SessionCountPlaceholder[1..] == "sessionCount}";
  }

  lemma UserPatternShape()
    ensures PlaceholderShape(UserPatternPlaceholder, 'u')
  {
    assert UserPatternPlaceholder[1..] == "userPattern}";
  }

  lemma OverworkPlaceholders()
    ensures Contains(Template(Overwork), SessionCountPlaceholder)
    ensures !Contains(Template(Overwork), UserPatternPlaceholder)
  {
    LiteralsBraceFree();
    ReplaceAfterHead(OverworkHead, SessionCountPlaceholder, OverworkTail, "");
    MismatchAbsent(OverworkHead, SessionCountPlaceholder, OverworkTail, UserPatternPlaceholder, "");
  }

  lemma ProcrastinationPlaceholders()
    ensures Contains(Template(Procrastination), UserPatternPlaceholder)
    ensures !Contains(Template(Procrastination), SessionCountPlaceholder)
  {
    LiteralsBraceFree();
    ReplaceAfterHead(ProcrastinationHead, UserPatternPlaceholder, ProcrastinationTail, "");
    MismatchAbsent(ProcrastinationHead, UserPatternPlaceholder, ProcrastinationTail, SessionCountPlaceholder, "");
  }

  /** Only the overwork template holds `{sessionCount}`, only the
      procrastination template holds `{userPattern}`, and the other five
      hold no `{` at all. */
  lemma Placeholders(k: Intervention)
    ensures Contains(Template(k), SessionCountPlaceholder) <==> k == Overwork
    ensures Contains(Template(k), UserPatternPlaceholder) <==> k == Procrastination
    ensures k != Overwork && k != Procrastination ==> '{' !in Template(k)
  {
    LiteralsBraceFree();
    if k == Overwork {
      OverworkPlaceholders();
    } else if k == Procrastination {
      ProcrastinationPlaceholders();
    } else {
      ReplaceAbsent(Template(k), SessionCountPlaceholder, "");
      ReplaceAbsent(Template(k), UserPatternPlaceholder, "");
    }
  }

  // ---------------------------------------------------------------------
  // generatePrompt

  /** The template with a present session count written over the first
      `{sessionCount}`, then a present, non-empty user pattern written over
      the first `{userPattern}`. */
  function GeneratePrompt(ctx: PromptContext): (r: string)
    ensures ctx.sessionCount.None? && (ctx.userPattern.None? || ctx.userPattern.value == "") ==> r == Template(ctx.kind)
  {
    var p := Template(ctx.kind);
    var p' := if ctx.sessionCount.Some? then ReplaceFirst(p, SessionCountPlaceholder, IntToString(ctx.sessionCount.value)) else p;
    if ctx.userPattern.Some? && ctx.userPattern.value != "" then ReplaceFirst(p', UserPatternPlaceholder, ctx.userPattern.value)
    else p'
  }

  lemma NumeralHasNoBrace(n: int)
    ensures '{' !in IntToString(n)
  {
    var s := NatToString(if n < 0 then -n else n);
    assert forall i :: 0 <= i < |s| ==> s[i] != '{';
  }

  /** The generated prompt for each type: every type but overwork and
      procrastination gets its template verbatim; overwork gets the session
      count's numeral in place of the placeholder when a count is given;
      procrastination gets the user pattern when a non-empty one is given;
      otherwise the placeholder stays as written. */
  lemma {:induction false} GeneratedPrompt(ctx: PromptContext)
    ensures ctx.kind != Overwork && ctx.kind != Procrastination ==> GeneratePrompt(ctx) == Template(ctx.kind)
    ensures ctx.kind == Overwork && ctx.sessionCount.Some? ==>
      GeneratePrompt(ctx) == OverworkHead + IntToString(ctx.sessionCount.value) + OverworkTail
    ensures ctx.kind == Overwork && ctx.sessionCount.None? ==> GeneratePrompt(ctx) == Template(Overwork)
    ensures ctx.kind == Procrastination && ctx.userPattern.Some? && ctx.userPattern.value != "" ==>
      GeneratePrompt(ctx) == ProcrastinationHead + ctx.userPattern.value + ProcrastinationTail
    ensures ctx.kind == Procrastination && (ctx.userPattern.None? || ctx.userPattern.value == "") ==>
      GeneratePrompt(ctx) == Template(Procrastination)
  {
    if ctx.kind == Overwork {
      OverworkPrompt(ctx);
    } else if ctx.kind == Procrastination {
      ProcrastinationPrompt(ctx);
    } else {
      LiteralsBraceFree();
      Placeholders(ctx.kind);
      var count := if ctx.sessionCount.Some? then IntToString(ctx.sessionCount.value) else "";
      var pattern := if ctx.userPattern.Some? then ctx.userPattern.value else "";
      ReplaceAbsent(Template(ctx.kind), SessionCountPlaceholder, count);
      ReplaceAbsent(Template(ctx.kind), UserPatternPlaceholder, pattern);
    }
  }

  lemma OverworkPrompt(ctx: PromptContext)
    requires ctx.kind == Overwork
    ensures ctx.sessionCount.Some? ==> GeneratePrompt(ctx) == OverworkHead + IntToString(ctx.sessionCount.value) + OverworkTail
    ensures ctx.sessionCount.None? ==> GeneratePrompt(ctx) == Template(Overwork)
  {
    LiteralsBraceFree();
    var pattern := if ctx.userPattern.Some? then ctx.userPattern.value else "";
    if ctx.sessionCount.Some? {
      var count := IntToString(ctx.sessionCount.value);
      ReplaceAfterHead(OverworkHead, SessionCountPlaceholder, OverworkTail, count);
      NumeralHasNoBrace(ctx.sessionCount.value);
      ReplaceAbsent(OverworkHead + count + OverworkTail, UserPatternPlaceholder, pattern);
    } else {
      MismatchAbsent(OverworkHead, SessionCountPlaceholder, OverworkTail, UserPatternPlaceholder, pattern);
    }
  }

  lemma ProcrastinationPrompt(ctx: PromptContext)
    requires ctx.kind == Procrastination
    ensures ctx.userPattern.Some? && ctx.userPattern.value != "" ==>
      GeneratePrompt(ctx) == ProcrastinationHead + ctx.userPattern.value + ProcrastinationTail
    ensures ctx.userPattern.None? || ctx.userPattern.value == "" ==> GeneratePrompt(ctx) == Template(Procrastination)
  {
    LiteralsBraceFree();
    var count := if ctx.sessionCount.Some? then IntToString(ctx.sessionCount.value) else "";
    var pattern := if ctx.userPattern.Some? then ctx.userPattern.value else "";
    MismatchAbsent(ProcrastinationHead, UserPatternPlaceholder, ProcrastinationTail, SessionCountPlaceholder, count);
    ReplaceAfterHead(ProcrastinationHead, UserPatternPlaceholder, ProcrastinationTail, pattern);
  }

  // ---------------------------------------------------------------------
  // Static prompts

  /** `getStaticPrompt`: defined for every type. */
  function StaticPrompt(k: Intervention): (r: string)
    ensures r != []
  {
    match k
    case Posture => "Check your posture. Sit up straight."
    case Hydration => "Drink water. Now."
    case Stretch => "Stand up. Stretch for 2 minutes."
    case Movement => "Walk around for 5 minutes."
    case Procrastination => "Stop avoiding work. Start now."
    case Overwork => "You've worked enough. Take a real break."
    case Reflection => "What blocked you just now?"
  }

  /** Each type has its own fallback message. */
  lemma StaticPromptsDistinct(a: Intervention, b: Intervention)
    ensures a != b ==> StaticPrompt(a) != StaticPrompt(b)
  {
    StaticPromptLength(a);
    StaticPromptLength(b);
    if a != b && |StaticPrompt(a)| == |StaticPrompt(b)| {
      assert StaticPrompt(Movement)[1] == 'a' && StaticPrompt(Reflection)[1] == 'h';
    }
  }

  /** The lengths of the fallback messages: only movement and reflection
      share one. */
  lemma StaticPromptLength(k: Intervention)
    ensures |StaticPrompt(k)| ==
      match k
      case Posture => 36
      case Hydration => 17
      case Stretch => 32
      case Movement => 26
      case Procrastination => 30
      case Overwork => 40
      case Reflection => 26
  {
  }

  /** The name a type goes by in requests and in the exported table. */
  function TypeName(k: Intervention): string
  {
    match k
    case Posture => "posture"
    case Hydration => "hydration"
    case Stretch => "stretch"
    case Movement => "movement"
    case Procrastination => "procrastination"
    case Overwork => "overwork"
    case Reflection => "reflection"
  }

  /** The type a name stands for, if any. */
  function ParseType(name: string): (r: Option<Intervention>)
    ensures r.Some? ==> TypeName(r.value) == name
  {
    if name == "posture" then Some(Posture)
    else if name == "hydration" then Some(Hydration)
    else if name == "stretch" then Some(Stretch)
    else if name == "movement" then Some(Movement)
    else if name == "procrastination" then Some(Procrastination)
    else if name == "overwork" then Some(Overwork)
    else if name == "reflection" then Some(Reflection)
    else None
  }

  /** Every type's name reads back as the type. */
  lemma ParseTypeName(k: Intervention)
    ensures ParseType(TypeName(k)) == Some(k)
  {
  }

  /** `staticPrompts`: the static messages keyed by type name. */
  const StaticPromptTable: map<string, string> := map[
    "posture" := StaticPrompt(Posture),
    "hydration" := StaticPrompt(Hydration),
    "stretch" := StaticPrompt(Stretch),
    "movement" := StaticPrompt(Movement),
    "procrastination" := StaticPrompt(Procrastination),
    "overwork" := StaticPrompt(Overwork),
    "reflection" := StaticPrompt(Reflection)]

  /** The exported table has exactly the seven type names as keys and
      agrees with `getStaticPrompt` on each. */
  lemma StaticPromptTableAgrees(name: string)
    ensures name in StaticPromptTable <==> ParseType(name).Some?
    ensures name in StaticPromptTable ==> StaticPromptTable[name] == StaticPrompt(ParseType(name).value)
  {
  }
}
