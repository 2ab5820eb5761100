/**
 * Worked prompts for the suggestion resolver: precedence between groups,
 * raw-substring matching, case-insensitivity and the default answer.
 * Each prompt is passed as a parameter fixed by its precondition, and the
 * keyword facts about it are proved apart from the resolver itself.
 */
module SuggestionExamples {
  import opened Text
  import opened Suggestions

  /** No copy of `sub` can sit in `s` when one of its characters is missing from `s`. */
  lemma Lacks(s: string, sub: string, c: char)
    requires c in sub && c !in s
    ensures !Contains(s, sub)
  {
    ContainsChars(s, sub);
  }

  lemma RestoreOldFrameKeywords(p: string)
    requires p == "restore old frame"
    ensures Lower(p) == p && Contains(p, "restore") && Contains(p, "frame")
  {
    LowerKeeps(p);
    assert p[..7] == "restore" && p[12..17] == "frame";
    ContainsWithin(p, "restore", 0);
    ContainsWithin(p, "frame", 12);
  }

  /** "restore old frame" mentions the first and the second group: the first wins. */
  lemma RestoreBeatsFrame(p: string)
    requires p == "restore old frame"
    ensures MentionsAny(Lower(p), RULES[1].keywords)
    ensures Resolve(p) == RESTORATION
  {
    RestoreOldFrameKeywords(p);
    RuleTests(p);
    ResolveGroup(p, 0);
  }

  /** Matching is by raw substring: "gold" contains "old", so a frame request is read as a restoration. */
  lemma GoldFrameIsRestoration(p: string)
    requires p == "gold frame"
    ensures Resolve(p) == RESTORATION
  {
    LowerKeeps(p);
    assert p[1..4] == "old";
    ContainsWithin(p, "old", 1);
    RuleTests(p);
    ResolveGroup(p, 0);
  }

  lemma BrideWeddingKeywords(p: string)
    requires p == "bride wedding"
    ensures !Contains(p, "old") && !Contains(p, "restore") && Contains(p, "id")
  {
    assert p[2..4] == "id";
    ContainsWithin(p, "id", 2);
    Lacks(p, "old", 'o');
    Lacks(p, "restore", 'o');
  }

  lemma BrideWeddingMoreKeywords(p: string)
    requires p == "bride wedding"
    ensures !Contains(p, "vintage") && !Contains(p, "frame") && !Contains(p, "wall")
  {
    Lacks(p, "vintage", 'v');
    Lacks(p, "frame", 'f');
    Lacks(p, "wall", 'a');
  }

  /** A lower-case prompt that misses the first two groups and says "id" gets the ID answer. */
  lemma IdGroupWins(p: string)
    requires Lower(p) == p
    requires !Contains(p, "old") && !Contains(p, "restore") && !Contains(p, "vintage")
    requires !Contains(p, "frame") && !Contains(p, "wall") && Contains(p, "id")
    ensures Resolve(p) == ID_PHOTO
  {
    RuleTests(p);
    ResolveGroup(p, 2);
  }

  /** "bride" contains "id", and the ID group is tested before the wedding group. */
  lemma BrideWeddingIsId(p: string)
    requires p == "bride wedding"
    ensures Resolve(p) == ID_PHOTO
  {
    LowerKeeps(p);
    BrideWeddingKeywords(p);
    BrideWeddingMoreKeywords(p);
    IdGroupWins(p);
  }

  lemma MakeItPopKeywords(p: string)
    requires p == "make it pop"
    ensures !Contains(p, "old") && !Contains(p, "restore") && !Contains(p, "vintage")
  {
    Lacks(p, "old", 'l');
    Lacks(p, "restore", 'r');
    Lacks(p, "vintage", 'v');
  }

  lemma MakeItPopFrameKeywords(p: string)
    requires p == "make it pop"
    ensures !Contains(p, "frame") && !Contains(p, "wall")
  {
    Lacks(p, "frame", 'f');
    Lacks(p, "wall", 'w');
  }

  lemma MakeItPopMoreKeywords(p: string)
    requires p == "make it pop"
    ensures !Contains(p, "passport") && !Contains(p, "id")
    ensures !Contains(p, "wedding") && !Contains(p, "event")
  {
    Lacks(p, "passport", 's');
    Lacks(p, "id", 'd');
    Lacks(p, "wedding", 'w');
    Lacks(p, "event", 'v');
  }

  /** A prompt that mentions no keyword gets the classic style answer. */
  lemma MakeItPopIsDefault(p: string)
    requires p == "make it pop"
    ensures Resolve(p) == CLASSIC_STYLE
  {
    LowerKeeps(p);
    MakeItPopKeywords(p);
    MakeItPopFrameKeywords(p);
    MakeItPopMoreKeywords(p);
    RuleTests(p);
    ResolveDefault(p);
  }

  /** Capitals in the prompt do not hide a keyword. */
  lemma ShoutedVintageIsRestoration(p: string)
    requires p == "VINTAGE Portrait"
    ensures Resolve(p) == RESTORATION
  {
    var l := Lower(p);
    assert l[..7] == "vintage";
    ContainsWithin(l, "vintage", 0);
    RuleTests(l);
    ResolveGroup(p, 0);
  }
}
