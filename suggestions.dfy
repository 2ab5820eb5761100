/**
 * The "R.K AI" quick-suggestion resolver: a fixed, ordered chain of keyword
 * tests over the lower-cased prompt that picks one of five canned answers.
 */
module Suggestions {
  import opened Wrappers
  import opened Text
  import opened Catalog

  datatype AISuggestion = AISuggestion(text: string, tag: string)

  const RESTORATION := AISuggestion(
    "Suggest: Gentle dust & scratch removal + warm tone colorization.", "Restoration")
  const FRAMING := AISuggestion(
    "Suggest: Matte black slim frame for modern interiors or oak finish for warm tones.", "Frame")
  const ID_PHOTO := AISuggestion(
    "Use plain white background, neutral expression. We ensure compliance.", "ID")
  const EVENT_SHOOT := AISuggestion(
    "Recommend our Event Shoot + 50 edited highlights package.", "Shoot")
  /** The answer when no keyword group matches. */
  const CLASSIC_STYLE := AISuggestion(
    "Try our classic color pop + soft vignette — great for portraits.", "Style")

  /** A keyword group and the answer it selects. */
  datatype Rule = Rule(keywords: seq<string>, answer: AISuggestion)

  /** The keyword groups in the order the resolver tries them. */
  const RULES: seq<Rule> := [
    Rule(["old", "restore", "vintage"], RESTORATION),
    Rule(["frame", "wall"], FRAMING),
    Rule(["passport", "id"], ID_PHOTO),
    Rule(["wedding", "event"], EVENT_SHOOT)
  ]

  /** Some keyword of the group occurs in `p`. */
  predicate MentionsAny(p: string, keywords: seq<string>) {
    keywords != [] && (Contains(p, keywords[0]) || MentionsAny(p, keywords[1..]))
  }

  /** Reference reading of the resolver: the answer of the first group that matches. */
  ghost function FirstMatch(rules: seq<Rule>, p: string): AISuggestion {
    if rules == [] then CLASSIC_STYLE
    else if MentionsAny(p, rules[0].keywords) then rules[0].answer
    else FirstMatch(rules[1..], p)
  }

  lemma {:induction false} FirstMatchIsFirst(rules: seq<Rule>, p: string, g: nat)
    requires g < |rules| && MentionsAny(p, rules[g].keywords)
    requires forall h :: 0 <= h < g ==> !MentionsAny(p, rules[h].keywords)
    ensures FirstMatch(rules, p) == rules[g].answer
  {
    if g > 0 {
      assert !MentionsAny(p, rules[0].keywords);
      assert forall h :: 0 <= h < g - 1 ==> rules[1..][h] == rules[h + 1];
      FirstMatchIsFirst(rules[1..], p, g - 1);
    }
  }

  lemma {:induction false} FirstMatchDefault(rules: seq<Rule>, p: string)
    requires forall h :: 0 <= h < |rules| ==> !MentionsAny(p, rules[h].keywords)
    ensures FirstMatch(rules, p) == CLASSIC_STYLE
  {
    if rules != [] {
      assert forall h :: 0 <= h < |rules| - 1 ==> rules[1..][h] == rules[h + 1];
      FirstMatchDefault(rules[1..], p);
    }
  }

  lemma MentionsTwo(p: string, a: string, b: string)
    ensures MentionsAny(p, [a, b]) <==> Contains(p, a) || Contains(p, b)
  {
    assert [a, b][1..] == [b];
    assert [b][1..] == [];
    assert !MentionsAny(p, []);
    assert MentionsAny(p, [b]) <==> Contains(p, b);
  }

  lemma MentionsThree(p: string, a: string, b: string, c: string)
    ensures MentionsAny(p, [a, b, c]) <==> Contains(p, a) || Contains(p, b) || Contains(p, c)
  {
    assert [a, b, c][1..] == [b, c];
    MentionsTwo(p, b, c);
  }

  /** The reference reading of the table, written out group by group. */
  lemma FirstMatchChain(p: string)
    ensures FirstMatch(RULES, p) ==
      if MentionsAny(p, RULES[0].keywords) then RESTORATION
      else if MentionsAny(p, RULES[1].keywords) then FRAMING
      else if MentionsAny(p, RULES[2].keywords) then ID_PHOTO
      else if MentionsAny(p, RULES[3].keywords) then EVENT_SHOOT
      else CLASSIC_STYLE
  {
    if MentionsAny(p, RULES[0].keywords) {
      FirstMatchIsFirst(RULES, p, 0);
    } else if MentionsAny(p, RULES[1].keywords) {
      FirstMatchIsFirst(RULES, p, 1);
    } else if MentionsAny(p, RULES[2].keywords) {
      FirstMatchIsFirst(RULES, p, 2);
    } else if MentionsAny(p, RULES[3].keywords) {
      FirstMatchIsFirst(RULES, p, 3);
    } else {
      FirstMatchDefault(RULES, p);
    }
  }

  /** Each group of the table tests exactly the keywords of the resolver's chain. */
  lemma RuleTests(p: string)
    ensures MentionsAny(p, RULES[0].keywords) <==>
      Contains(p, "old") || Contains(p, "restore") || Contains(p, "vintage")
    ensures MentionsAny(p, RULES[1].keywords) <==> Contains(p, "frame") || Contains(p, "wall")
    ensures MentionsAny(p, RULES[2].keywords) <==> Contains(p, "passport") || Contains(p, "id")
    ensures MentionsAny(p, RULES[3].keywords) <==> Contains(p, "wedding") || Contains(p, "event")
  {
    MentionsThree(p, "old", "restore", "vintage");
    MentionsTwo(p, "frame", "wall");
    MentionsTwo(p, "passport", "id");
    MentionsTwo(p, "wedding", "event");
  }

  /**
   * `runAiSuggestion`: lower-case the prompt, then test the keyword groups in
   * order and take the first that matches, or the classic style answer.
   */
  function Resolve(prompt: string): (s: AISuggestion)
    ensures s == FirstMatch(RULES, Lower(prompt))
  {
    var p := Lower(prompt);
    RuleTests(p);
    FirstMatchChain(p);
    if Contains(p, "old") || Contains(p, "restore") || Contains(p, "vintage") then RESTORATION
    else if Contains(p, "frame") || Contains(p, "wall") then FRAMING
    else if Contains(p, "passport") || Contains(p, "id") then ID_PHOTO
    else if Contains(p, "wedding") || Contains(p, "event") then EVENT_SHOOT
    else CLASSIC_STYLE
  }

  /** The default answer comes back exactly when no keyword group matches. */
  lemma ResolveDefault(prompt: string)
    ensures Resolve(prompt) == CLASSIC_STYLE <==>
      forall g :: 0 <= g < |RULES| ==> !MentionsAny(Lower(prompt), RULES[g].keywords)
  {
    FirstMatchChain(Lower(prompt));
  }

  /** Prompts that differ only in letter case get the same answer. */
  lemma ResolveIgnoresCase(p: string, q: string)
    requires SameIgnoringCase(p, q)
    ensures Resolve(p) == Resolve(q)
  {
    LowerIgnoresCase(p, q);
  }

  /** Lower-casing the prompt first changes nothing. */
  lemma ResolveLowered(prompt: string)
    ensures Resolve(Lower(prompt)) == Resolve(prompt)
  {
    LowerIdempotent(prompt);
  }

  /** An answer is the first group whose keywords the lower-cased prompt mentions. */
  lemma ResolveGroup(prompt: string, g: nat)
    requires g < |RULES| && MentionsAny(Lower(prompt), RULES[g].keywords)
    requires forall h :: 0 <= h < g ==> !MentionsAny(Lower(prompt), RULES[h].keywords)
    ensures Resolve(prompt) == RULES[g].answer
  {
    FirstMatchIsFirst(RULES, Lower(prompt), g);
  }

  /** Every prompt gets one of the five canned answers. */
  lemma ResolveAnswers(prompt: string)
    ensures Resolve(prompt) in [RESTORATION, FRAMING, ID_PHOTO, EVENT_SHOOT, CLASSIC_STYLE]
  {
  }

  /** No catalog tag equals "Restoration", ignoring case. */
  lemma RestorationHasNoService(t: string)
    requires t == "Restoration"
    ensures FindTag(SERVICES, t) == None
  {
    var c := SERVICES;
    DiffersLength(c[0].tag, t);
    DiffersLength(c[1].tag, t);
    DiffersLength(c[2].tag, t);
    DiffersLength(c[3].tag, t);
    DiffersLength(c[4].tag, t);
    DiffersLength(c[5].tag, t);
    assert FindTag(c[6..], t) == None;
    assert FindTag(c[5..], t) == None;
    assert FindTag(c[4..], t) == None;
    assert FindTag(c[3..], t) == None;
    assert FindTag(c[2..], t) == None;
    assert FindTag(c[1..], t) == None;
  }

  /** No catalog tag equals "Style", ignoring case. */
  lemma StyleHasNoService(t: string)
    requires t == "Style"
    ensures FindTag(SERVICES, t) == None
  {
    var c := SERVICES;
    DiffersAt(c[0].tag, t, 0);
    DiffersAt(c[1].tag, t, 0);
    DiffersLength(c[2].tag, t);
    DiffersLength(c[3].tag, t);
    DiffersAt(c[4].tag, t, 1);
    DiffersLength(c[5].tag, t);
    assert FindTag(c[6..], t) == None;
    assert FindTag(c[5..], t) == None;
    assert FindTag(c[4..], t) == None;
    assert FindTag(c[3..], t) == None;
    assert FindTag(c[2..], t) == None;
    assert FindTag(c[1..], t) == None;
  }

  /** "Frame" finds the basic frame, the first service tagged Frame. */
  lemma FramingFindsFrame(t: string)
    requires t == "Frame"
    ensures FindTag(SERVICES, t) == Some(SERVICES[1])
  {
    DiffersAt(SERVICES[0].tag, t, 0);
  }

  /** "ID" finds the passport photos. */
  lemma IdFindsPassport(t: string)
    requires t == "ID"
    ensures FindTag(SERVICES, t) == Some(SERVICES[3])
  {
    DiffersLength(SERVICES[0].tag, t);
    DiffersLength(SERVICES[1].tag, t);
    DiffersLength(SERVICES[2].tag, t);
  }

  /** "Shoot" finds the mini event shoot. */
  lemma ShootFindsEvent(t: string)
    requires t == "Shoot"
    ensures FindTag(SERVICES, t) == Some(SERVICES[4])
  {
    DiffersAt(SERVICES[0].tag, t, 0);
    DiffersAt(SERVICES[1].tag, t, 0);
    DiffersLength(SERVICES[2].tag, t);
    DiffersLength(SERVICES[3].tag, t);
  }

  /**
   * "Use suggestion" finds a service for the Frame, ID and Shoot answers and
   * for no other: the catalog has no "Restoration" or "Style" tag.
   */
  lemma SuggestionTargets(prompt: string)
    ensures var s := Resolve(prompt);
      FindTag(SERVICES, s.tag) ==
        if s == FRAMING then Some(SERVICES[1])
        else if s == ID_PHOTO then Some(SERVICES[3])
        else if s == EVENT_SHOOT then Some(SERVICES[4])
        else None
  {
    var s := Resolve(prompt);
    ResolveAnswers(prompt);
    if s == RESTORATION {
      RestorationHasNoService(s.tag);
    } else if s == FRAMING {
      FramingFindsFrame(s.tag);
    } else if s == ID_PHOTO {
      IdFindsPassport(s.tag);
    } else if s == EVENT_SHOOT {
      ShootFindsEvent(s.tag);
    } else {
      StyleHasNoService(s.tag);
    }
  }
}
