/** Reading skills out of a text, and printing a profile so that they can be read back. */
module Resume {
  import opened Common
  import opened Models
  import opened Profiles

  // -------------------------------------------------------------------------
  // The parser
  // -------------------------------------------------------------------------

  /** `\w`, over ASCII. */
  predicate IsWord(c: char) {
    'a' <= c <= 'z' || 'A' <= c <= 'Z' || '0' <= c <= '9' || c == '_'
  }

  /** `\b`: exactly one of the two sides of a position is a word character. */
  predicate Boundary(text: string, i: int) {
    (0 < i <= |text| && IsWord(text[i - 1])) != (0 <= i < |text| && IsWord(text[i]))
  }

  /** The pattern matches at position `i`, ignoring case. */
  predicate MatchesAt(text: string, skill: string, i: int) {
    OccursAt(Lower(text), Lower(skill), i) && Boundary(text, i) && Boundary(text, i + |skill|)
  }

  predicate Matches(text: string, skill: string) {
    exists i :: 0 <= i <= |text| - |skill| && MatchesAt(text, skill, i)
  }

  /** The word characters: letters, digits and the underscore. */
  lemma WordTable(c: char)
    ensures IsWord(c) <==> c in UPPER || c in LOWER || c in "0123456789_"
  {
    forall i | 0 <= i < 26
      ensures UPPER[i] as int == 'A' as int + i && LOWER[i] as int == 'a' as int + i
    {
      Alphabet(i);
    }
    if 'A' <= c <= 'Z' {
      assert c == UPPER[c as int - 65];
    }
    if 'a' <= c <= 'z' {
      assert c == LOWER[c as int - 97];
    }
    if '0' <= c <= '9' {
      assert c == "0123456789_"[c as int - 48];
    }
  }

  lemma WordUpToCase(c: char, d: char)
    requires LowerChar(c) == LowerChar(d)
    ensures IsWord(c) <==> IsWord(d)
  {
  }

  /** A skill matches where it occurs up to case, unless what it starts or ends with runs on: where it starts (or ends)
      with a word character, no word character may be next to it, and where it does not, one must be. */
  lemma MatchMeans(text: string, skill: string, i: nat)
    requires skill != "" && i + |skill| <= |text|
    ensures MatchesAt(text, skill, i) <==>
            && Lower(text[i..i + |skill|]) == Lower(skill)
            && (IsWord(skill[0]) <==> i == 0 || !IsWord(text[i - 1]))
            && (IsWord(skill[|skill| - 1]) <==> i + |skill| == |text| || !IsWord(text[i + |skill|]))
  {
    var n := |skill|;
    assert Lower(text)[i..i + n] == Lower(text[i..i + n]);
    if Lower(text[i..i + n]) == Lower(skill) {
      assert Lower(text[i..i + n])[0] == Lower(skill)[0] && Lower(text[i..i + n])[n - 1] == Lower(skill)[n - 1];
      WordUpToCase(text[i], skill[0]);
      WordUpToCase(text[i + n - 1], skill[n - 1]);
    }
  }

  /** `skills` with one more, after all that are at least as long. */
  function Inserted(skills: seq<string>, skill: string): seq<string> {
    if skills == [] || |skills[|skills| - 1]| >= |skill| then skills + [skill]
    else Inserted(skills[..|skills| - 1], skill) + [skills[|skills| - 1]]
  }

  /** Longest first; skills of one length stay in order. */
  function LongestFirst(skills: seq<string>): seq<string> {
    if skills == [] then [] else Inserted(LongestFirst(skills[..|skills| - 1]), skills[|skills| - 1])
  }

  /** The matching skills in order, the first of each up to case. */
  function Found(text: string, skills: seq<string>): seq<string> {
    if skills == [] then []
    else
      var before, skill := Found(text, skills[..|skills| - 1]), skills[|skills| - 1];
      if Matches(text, skill) && Lower(skill) !in Keys(before) then before + [skill] else before
  }

  method ParseResume(text: string, taxonomy: seq<string>) returns (found: seq<string>)
    ensures found == if text == "" then [] else Found(text, LongestFirst(taxonomy))
  {
    if text == "" || taxonomy == [] {
      return [];
    }
    var skills := LongestFirst(taxonomy);
    var seenLower: set<string> := {};
    found := [];
    for i := 0 to |skills|
      invariant found == Found(text, skills[..i]) && seenLower == Keys(found)
    {
      assert skills[..i + 1][..i] == skills[..i];
      if Matches(text, skills[i]) {
        var key := Lower(skills[i]);
        if key !in seenLower {
          KeysAppend(found, [skills[i]]);
          seenLower := seenLower + {key};
          found := found + [skills[i]];
        }
      }
    }
    assert skills[..|skills|] == skills;
  }

  function OfLength(skills: seq<string>, n: nat): seq<string> {
    if skills == [] then []
    else
      var before, last := OfLength(skills[..|skills| - 1], n), skills[|skills| - 1];
      if |last| == n then before + [last] else before
  }

  predicate Descending(skills: seq<string>) {
    forall i, j :: 0 <= i < j < |skills| ==> |skills[i]| >= |skills[j]|
  }

  lemma {:induction false} InsertedMultiset(skills: seq<string>, skill: string)
    ensures multiset(Inserted(skills, skill)) == multiset(skills) + multiset{skill}
  {
    if skills != [] && |skills[|skills| - 1]| < |skill| {
      var init, last := skills[..|skills| - 1], skills[|skills| - 1];
      InsertedMultiset(init, skill);
      assert skills == init + [last];
    }
  }

  lemma InsertedMember(skills: seq<string>, skill: string, s: string)
    requires s in Inserted(skills, skill)
    ensures s == skill || s in skills
  {
    InsertedMultiset(skills, skill);
    assert s in multiset(Inserted(skills, skill));
    assert s in multiset(skills) + multiset{skill};
  }

  lemma {:induction false} InsertedDescends(skills: seq<string>, skill: string)
    requires Descending(skills)
    ensures Descending(Inserted(skills, skill))
  {
    if skills != [] && |skills[|skills| - 1]| < |skill| {
      var init, last := skills[..|skills| - 1], skills[|skills| - 1];
      InsertedDescends(init, skill);
      forall s | s in Inserted(init, skill)
        ensures |s| >= |last|
      {
        InsertedMember(init, skill, s);
      }
    }
  }

  lemma {:induction false} InsertedKeepsOrder(skills: seq<string>, skill: string, n: nat)
    ensures OfLength(Inserted(skills, skill), n) == OfLength(skills + [skill], n)
  {
    assert (skills + [skill])[..|skills|] == skills;
    if skills != [] && |skills[|skills| - 1]| < |skill| {
      var init, last := skills[..|skills| - 1], skills[|skills| - 1];
      InsertedKeepsOrder(init, skill, n);
      assert (init + [skill])[..|init|] == init;
      var r := Inserted(init, skill);
      assert (r + [last])[..|r|] == r;
    }
  }

  lemma {:induction false} LongestFirstSorts(skills: seq<string>)
    ensures multiset(LongestFirst(skills)) == multiset(skills) && Descending(LongestFirst(skills))
  {
    if skills != [] {
      var init, last := skills[..|skills| - 1], skills[|skills| - 1];
      LongestFirstSorts(init);
      InsertedMultiset(LongestFirst(init), last);
      InsertedDescends(LongestFirst(init), last);
      assert skills == init + [last];
    }
  }

  /** The order the taxonomy is tried in is stable: the skills of one length stay as the taxonomy has them. */
  lemma {:induction false} LongestFirstIsStable(skills: seq<string>, n: nat)
    ensures OfLength(LongestFirst(skills), n) == OfLength(skills, n)
  {
    if skills != [] {
      var init, last := skills[..|skills| - 1], skills[|skills| - 1];
      LongestFirstIsStable(init, n);
      InsertedKeepsOrder(LongestFirst(init), last, n);
      assert (LongestFirst(init) + [last])[..|LongestFirst(init)|] == LongestFirst(init);
    }
  }

  /** Each skill at most once up to case, and exactly those the taxonomy has and the text matches. */
  lemma {:induction false} FoundKeys(text: string, skills: seq<string>)
    ensures DistinctKeys(Found(text, skills))
    ensures forall s :: s in Found(text, skills) ==> s in skills && Matches(text, s)
    ensures forall s :: s in skills && Matches(text, s) ==> Lower(s) in Keys(Found(text, skills))
  {
    if skills != [] {
      var init, last := skills[..|skills| - 1], skills[|skills| - 1];
      FoundKeys(text, init);
      assert skills == init + [last];
      var before := Found(text, init);
      KeysAppend(before, [last]);
      if Lower(last) !in Keys(before) {
        DistinctAppend(before, last);
      }
    }
  }

  lemma ParsedSkills(text: string, taxonomy: seq<string>)
    ensures var found := Found(text, LongestFirst(taxonomy));
            && DistinctKeys(found)
            && (forall s :: s in found ==> s in taxonomy && Matches(text, s))
            && (forall s :: s in taxonomy && Matches(text, s) ==> Lower(s) in Keys(found))
  {
    var skills := LongestFirst(taxonomy);
    LongestFirstSorts(taxonomy);
    assert forall s :: s in skills <==> s in multiset(skills);
    assert forall s :: s in taxonomy <==> s in multiset(taxonomy);
    FoundKeys(text, skills);
  }

  /** No matching skill before position `i` is the same up to case. */
  predicate FirstMatch(text: string, skills: seq<string>, i: nat) {
    && i < |skills| && Matches(text, skills[i])
    && forall j :: 0 <= j < i && Matches(text, skills[j]) ==> Lower(skills[j]) != Lower(skills[i])
  }

  predicate PickedFrom(text: string, skills: seq<string>, at: seq<nat>, result: seq<string>) {
    && |at| == |result| && Increasing(at)
    && forall k :: 0 <= k < |at| ==> FirstMatch(text, skills, at[k]) && result[k] == skills[at[k]]
  }

  lemma OneMorePicked(text: string, skills: seq<string>, at: seq<nat>, result: seq<string>, i: nat)
    requires PickedFrom(text, skills, at, result) && FirstMatch(text, skills, i)
    requires forall k :: 0 <= k < |at| ==> at[k] < i
    ensures PickedFrom(text, skills, at + [i], result + [skills[i]])
  {
  }

  lemma MatchedBefore(text: string, skills: seq<string>, i: nat)
    requires i < |skills| && Matches(text, skills[i]) && Lower(skills[i]) !in Keys(Found(text, skills[..i]))
    ensures FirstMatch(text, skills, i)
  {
    FoundKeys(text, skills[..i]);
    assert forall j :: 0 <= j < i ==> skills[j] in skills[..i];
  }

  lemma {:induction false} FoundPrefix(text: string, skills: seq<string>, n: nat) returns (at: seq<nat>)
    requires n <= |skills|
    ensures PickedFrom(text, skills, at, Found(text, skills[..n])) && forall k :: 0 <= k < |at| ==> at[k] < n
  {
    if n == 0 {
      at := [];
    } else {
      at := FoundPrefix(text, skills, n - 1);
      assert skills[..n][..n - 1] == skills[..n - 1];
      if Matches(text, skills[n - 1]) && Lower(skills[n - 1]) !in Keys(Found(text, skills[..n - 1])) {
        MatchedBefore(text, skills, n - 1);
        OneMorePicked(text, skills, at, Found(text, skills[..n - 1]), n - 1);
        at := at + [n - 1];
      }
    }
  }

  /** The parser reports the skills in the order they are tried in, longest first, and each in the first spelling that
      matches. */
  lemma FoundPositions(text: string, taxonomy: seq<string>) returns (at: seq<nat>)
    ensures PickedFrom(text, LongestFirst(taxonomy), at, Found(text, LongestFirst(taxonomy)))
  {
    var skills := LongestFirst(taxonomy);
    at := FoundPrefix(text, skills, |skills|);
    assert skills[..|skills|] == skills;
  }

  // -------------------------------------------------------------------------
  // The printer
  // -------------------------------------------------------------------------

  function Join(separator: string, parts: seq<string>): string {
    if parts == [] then ""
    else if |parts| == 1 then parts[0]
    else Join(separator, parts[..|parts| - 1]) + separator + parts[|parts| - 1]
  }

  /** Joining piece by piece: the parts in order, with one separator between any two. */
  lemma {:induction false} JoinConcat(separator: string, parts: seq<string>, more: seq<string>)
    requires parts != [] && more != []
    ensures Join(separator, parts + more) == Join(separator, parts) + separator + Join(separator, more)
  {
    var n := |more| - 1;
    assert (parts + more)[..|parts| + n] == parts + more[..n];
    if n == 0 {
      assert parts + more[..n] == parts;
    } else {
      JoinConcat(separator, parts, more[..n]);
      JoinMoved(Join(separator, parts), separator, Join(separator, more[..n]), separator, more[n]);
    }
  }

  lemma JoinMoved(a: string, b: string, c: string, d: string, e: string)
    ensures (a + b + c) + d + e == a + b + (c + d + e)
  {
  }

  /** An integer as Python prints it. */
  function Shown(n: int): string {
    if n < 0 then "-" + Decimal(-n) else Decimal(n)
  }

  /** A shown integer is its number, behind a minus sign if it is negative. */
  lemma ShownMeans(n: int)
    ensures n >= 0 ==> (forall c :: c in Shown(n) ==> IsDigit(c)) && Numeral(Shown(n)) == n
    ensures n < 0 ==> Shown(n) == "-" + Shown(-n)
  {
    if n >= 0 {
      DecimalMeans(n);
    }
  }

  function FormatProfile(profile: UserProfile): string {
    Join("\n", ["Name: " + profile.name,
                "Skills: " + Join(", ", profile.skills),
                "Experience: " + Shown(profile.experienceYears) + " years",
                "Education: " + profile.education,
                "Target Role: " + profile.targetRole])
  }

  /** The five lines, around the list of skills. */
  lemma FormatLines(profile: UserProfile) returns (left: string, right: string)
    ensures FormatProfile(profile) == left + Join(", ", profile.skills) + right
    ensures left != "" && left[|left| - 1] == ' ' && right != "" && right[0] == '\n'
  {
    var a, b := "Name: " + profile.name, "Skills: " + Join(", ", profile.skills);
    var c := "Experience: " + Shown(profile.experienceYears) + " years";
    var d, e := "Education: " + profile.education, "Target Role: " + profile.targetRole;
    JoinFive(a, b, c, d, e);
    left, right := a + "\n" + "Skills: ", "\n" + c + "\n" + d + "\n" + e;
    assert a + "\n" + b == left + Join(", ", profile.skills);
  }

  lemma JoinFive(a: string, b: string, c: string, d: string, e: string)
    ensures Join("\n", [a, b, c, d, e]) == a + "\n" + b + "\n" + c + "\n" + d + "\n" + e
    ensures Join("\n", [a, b, c, d, e]) == (a + "\n" + b) + ("\n" + c + "\n" + d + "\n" + e)
  {
    assert [a, b, c, d, e][..4] == [a, b, c, d] && [a, b, c, d][..3] == [a, b, c] && [a, b, c][..2] == [a, b];
    assert [a, b][..1] == [a];
    assert Join("\n", [a, b]) == a + "\n" + b;
    assert Join("\n", [a, b, c]) == a + "\n" + b + "\n" + c;
    assert Join("\n", [a, b, c, d]) == a + "\n" + b + "\n" + c + "\n" + d;
  }

  /** Where a skill stands in the list, and what is around it: nothing, or the separator. */
  lemma {:induction false} ListedSkill(skills: seq<string>, i: nat) returns (before: string, after: string)
    requires i < |skills|
    ensures Join(", ", skills) == before + skills[i] + after
    ensures before == "" || before[|before| - 1] == ' '
    ensures after == "" || after[0] == ','
  {
    var n := |skills| - 1;
    if n == 0 {
      before, after := "", "";
    } else if i == n {
      before, after := Join(", ", skills[..n]) + ", ", "";
    } else {
      before, after := ListedSkill(skills[..n], i);
      assert before + skills[i] + (after + ", " + skills[n]) == (before + skills[i] + after) + ", " + skills[n];
      after := after + ", " + skills[n];
    }
  }

  lemma LowerOccurs(before: string, part: string, after: string)
    ensures OccursAt(Lower(before + part + after), Lower(part), |before|)
  {
    var text := before + part + after;
    assert Lower(text)[|before|..|before| + |part|] == Lower(part);
  }

  /** It starts and ends with a word character. */
  predicate WordEnded(skill: string) {
    skill != "" && IsWord(skill[0]) && IsWord(skill[|skill| - 1])
  }

  /** A skill between two non-word characters matches there exactly when it starts and ends with a word
      character. */
  lemma SurroundedMatches(before: string, skill: string, after: string)
    requires skill != "" && before != "" && after != ""
    requires !IsWord(before[|before| - 1]) && !IsWord(after[0])
    ensures MatchesAt(before + skill + after, skill, |before|) <==> WordEnded(skill)
  {
    var text := before + skill + after;
    LowerOccurs(before, skill, after);
    assert text[|before| - 1] == before[|before| - 1] && text[|before|] == skill[0];
    assert text[|before| + |skill| - 1] == skill[|skill| - 1] && text[|before| + |skill|] == after[0];
  }

  lemma PrintedSkill(profile: UserProfile, i: nat) returns (left: string, right: string)
    requires i < |profile.skills|
    ensures FormatProfile(profile) == left + profile.skills[i] + right
    ensures left != "" && left[|left| - 1] == ' ' && right != "" && (right[0] == ',' || right[0] == '\n')
  {
    var before, after := ListedSkill(profile.skills, i);
    var heading, rest := FormatLines(profile);
    left, right := heading + before, after + rest;
    Around(heading, before, profile.skills[i], after, rest);
  }

  lemma Around(heading: string, before: string, skill: string, after: string, rest: string)
    requires heading != "" && heading[|heading| - 1] == ' ' && rest != "" && rest[0] == '\n'
    requires before == "" || before[|before| - 1] == ' '
    requires after == "" || after[0] == ','
    ensures var left, right := heading + before, after + rest;
            && heading + (before + skill + after) + rest == left + skill + right
            && left[|left| - 1] == ' ' && (right[0] == ',' || right[0] == '\n')
  {
  }

  /** In the printed profile, the place where a skill is listed matches it exactly when the skill starts and ends
      with a word character. */
  lemma ListedMatches(profile: UserProfile, i: nat) returns (position: nat)
    requires i < |profile.skills| && profile.skills[i] != ""
    ensures var text, skill := FormatProfile(profile), profile.skills[i];
            && OccursAt(Lower(text), Lower(skill), position)
            && (MatchesAt(text, skill, position) <==> WordEnded(skill))
  {
    var left, right := PrintedSkill(profile, i);
    LowerOccurs(left, profile.skills[i], right);
    SurroundedMatches(left, profile.skills[i], right);
    position := |left|;
  }

  // -------------------------------------------------------------------------
  // Exactly which skills are read back
  // -------------------------------------------------------------------------

  /** What the parser finds in the printed profile. */
  function ReadBack(profile: UserProfile, taxonomy: seq<string>): seq<string> {
    Found(FormatProfile(profile), LongestFirst(taxonomy))
  }

  lemma MatchesUpToCase(text: string, s: string, t: string)
    requires Lower(s) == Lower(t)
    ensures Matches(text, s) <==> Matches(text, t)
  {
    assert |Lower(s)| == |s| && |Lower(t)| == |t|;
    assert forall i :: MatchesAt(text, s, i) <==> MatchesAt(text, t, i);
  }

  /** Of the taxonomy, up to case, exactly the skills that the printed text matches anywhere are read back, and
      none twice. */
  lemma ReadBackIsMatched(profile: UserProfile, taxonomy: seq<string>, s: string)
    requires Lower(s) in Keys(taxonomy)
    ensures DistinctKeys(ReadBack(profile, taxonomy))
    ensures Lower(s) in Keys(ReadBack(profile, taxonomy)) <==> Matches(FormatProfile(profile), s)
  {
    var text := FormatProfile(profile);
    ParsedSkills(text, taxonomy);
    if Matches(text, s) {
      var t :| t in taxonomy && Lower(t) == Lower(s);
      MatchesUpToCase(text, s, t);
    }
    if Lower(s) in Keys(ReadBack(profile, taxonomy)) {
      var t :| t in ReadBack(profile, taxonomy) && Lower(t) == Lower(s);
      MatchesUpToCase(text, s, t);
    }
  }

  /** Every skill of the taxonomy that starts and ends with a word character is read back. */
  lemma PrintedSkillsAreRead(profile: UserProfile, taxonomy: seq<string>)
    ensures forall s :: s in profile.skills && WordEnded(s) && Lower(s) in Keys(taxonomy) ==>
                          Lower(s) in Keys(ReadBack(profile, taxonomy))
  {
    forall s | s in profile.skills && WordEnded(s) && Lower(s) in Keys(taxonomy)
      ensures Lower(s) in Keys(ReadBack(profile, taxonomy))
    {
      var i :| 0 <= i < |profile.skills| && profile.skills[i] == s;
      var position := ListedMatches(profile, i);
      ReadBackIsMatched(profile, taxonomy, s);
    }
  }

  ghost predicate OccursOnce(text: string, s: string) {
    forall i, j :: OccursAt(text, s, i) && OccursAt(text, s, j) ==> i == j
  }

  /** A skill that the printed text has only where it is listed is read back exactly when it starts and ends with
      a word character. */
  lemma ReadBackOfOneOccurrence(profile: UserProfile, taxonomy: seq<string>, s: string)
    requires s in profile.skills && s != "" && Lower(s) in Keys(taxonomy)
    requires OccursOnce(Lower(FormatProfile(profile)), Lower(s))
    ensures Lower(s) in Keys(ReadBack(profile, taxonomy)) <==> WordEnded(s)
  {
    var i :| 0 <= i < |profile.skills| && profile.skills[i] == s;
    var position := ListedMatches(profile, i);
    ReadBackIsMatched(profile, taxonomy, s);
  }

  // -------------------------------------------------------------------------
  // Field by field
  // -------------------------------------------------------------------------

  /** The pieces of the printed text between its separators: labels and fields. */
  function Fields(profile: UserProfile): seq<string> {
    ["Name", profile.name, "Skills"] + profile.skills
    + ["Experience", Shown(profile.experienceYears) + " years",
       "Education", profile.education, "Target Role", profile.targetRole]
  }

  predicate Separator(c: char) {
    c == ',' || c == ':' || c == '\n'
  }

  /** A skill that cannot reach across a separator of the printed text. */
  predicate FitsAField(s: string) {
    s != "" && s[0] != ' ' && forall i :: 0 <= i < |s| ==> !Separator(s[i])
  }

  predicate InAny(fields: seq<string>, s: string) {
    exists f :: f in fields && Matches(f, s)
  }

  lemma LowerConcat(a: string, b: string)
    ensures Lower(a + b) == Lower(a) + Lower(b)
  {
  }

  lemma OccursShifted(pre: string, b: string, s: string, i: nat)
    ensures OccursAt(pre + b, s, |pre| + i) <==> OccursAt(b, s, i)
  {
    if i + |s| <= |b| {
      assert (pre + b)[|pre| + i..|pre| + i + |s|] == b[i..i + |s|];
    }
  }

  lemma OccursKept(a: string, post: string, s: string, i: nat)
    requires i + |s| <= |a|
    ensures OccursAt(a + post, s, i) <==> OccursAt(a, s, i)
  {
    assert (a + post)[i..i + |s|] == a[i..i + |s|];
  }

  lemma BoundaryShifted(pre: string, b: string, i: nat)
    requires pre != "" && !IsWord(pre[|pre| - 1]) && i <= |b|
    ensures Boundary(pre + b, |pre| + i) <==> Boundary(b, i)
  {
    if i > 0 {
      assert (pre + b)[|pre| + i - 1] == b[i - 1];
    }
  }

  lemma BoundaryKept(a: string, post: string, i: nat)
    requires post != "" && !IsWord(post[0]) && i <= |a|
    ensures Boundary(a + post, i) <==> Boundary(a, i)
  {
  }

  /** What stands behind a text that starts with another character does not matter to a match in the text. */
  lemma MatchBefore(a: string, post: string, s: string, i: nat)
    requires post != "" && !IsWord(post[0]) && i + |s| <= |a|
    ensures MatchesAt(a + post, s, i) <==> MatchesAt(a, s, i)
  {
    LowerConcat(a, post);
    OccursKept(Lower(a), Lower(post), Lower(s), i);
    BoundaryKept(a, post, i);
    BoundaryKept(a, post, i + |s|);
  }

  /** Nor does what stands in front of it and ends with another character. */
  lemma MatchBehind(pre: string, b: string, s: string, i: nat)
    requires pre != "" && !IsWord(pre[|pre| - 1]) && i + |s| <= |b|
    ensures MatchesAt(pre + b, s, |pre| + i) <==> MatchesAt(b, s, i)
  {
    LowerConcat(pre, b);
    OccursShifted(Lower(pre), Lower(b), Lower(s), i);
    BoundaryShifted(pre, b, i);
    BoundaryShifted(pre, b, i + |s|);
  }

  lemma DiffersAt(text: string, s: string, i: nat, k: nat)
    requires k < |s| && i + |s| <= |text| && text[i + k] != s[k]
    ensures !OccursAt(text, s, i)
  {
    assert text[i..i + |s|][k] == text[i + k];
  }

  lemma NoMatchAcross(a: string, c: char, b: string, s: string, i: nat)
    requires Separator(c) && FitsAField(s) && i <= |a| < i + |s| <= |a| + 1 + |b|
    ensures !MatchesAt(a + [c] + b, s, i)
  {
    DiffersAt(Lower(a + [c] + b), Lower(s), i, |a| - i);
  }

  lemma MatchesLeft(a: string, middle: string, b: string, s: string)
    requires middle != "" && !IsWord(middle[0]) && Matches(a, s)
    ensures Matches(a + middle + b, s)
  {
    var i :| 0 <= i <= |a| - |s| && MatchesAt(a, s, i);
    MatchBefore(a, middle + b, s, i);
    assert a + middle + b == a + (middle + b);
    assert MatchesAt(a + middle + b, s, i);
  }

  lemma MatchesThere(text: string, s: string, i: nat)
    requires i + |s| <= |text| && MatchesAt(text, s, i)
    ensures Matches(text, s)
  {
  }

  lemma MatchesRight(pre: string, b: string, s: string)
    requires pre != "" && !IsWord(pre[|pre| - 1]) && Matches(b, s)
    ensures Matches(pre + b, s)
  {
    var i :| 0 <= i <= |b| - |s| && MatchesAt(b, s, i);
    MatchBehind(pre, b, s, i);
    MatchesThere(pre + b, s, |pre| + i);
  }

  lemma MatchIsOnOneSide(a: string, c: char, b: string, s: string, i: nat)
    requires Separator(c) && FitsAField(s) && i + |s| <= |a| + 1 + |b| && MatchesAt(a + [c] + b, s, i)
    ensures Matches(a, s) || Matches(b, s)
  {
    if i + |s| <= |a| {
      assert a + [c] + b == a + ([c] + b);
      MatchBefore(a, [c] + b, s, i);
    } else if i > |a| {
      var j: nat := i - |a| - 1;
      MatchBehind(a + [c], b, s, j);
      assert MatchesAt(b, s, j);
    } else {
      NoMatchAcross(a, c, b, s, i);
    }
  }

  /** A text in two parts around a separator matches a skill exactly when one of the parts does. */
  lemma MatchesSplit(a: string, c: char, b: string, s: string)
    requires Separator(c) && FitsAField(s)
    ensures Matches(a + [c] + b, s) <==> Matches(a, s) || Matches(b, s)
  {
    if Matches(a + [c] + b, s) {
      MatchIsSomewhere(a, c, b, s);
    }
    if Matches(a, s) {
      MatchesLeft(a, [c], b, s);
    }
    if Matches(b, s) {
      MatchesRight(a + [c], b, s);
    }
  }

  lemma MatchIsSomewhere(a: string, c: char, b: string, s: string)
    requires Separator(c) && FitsAField(s) && Matches(a + [c] + b, s)
    ensures Matches(a, s) || Matches(b, s)
  {
    var i :| 0 <= i <= |a + [c] + b| - |s| && MatchesAt(a + [c] + b, s, i);
    MatchIsOnOneSide(a, c, b, s, i);
  }

  lemma MatchesBehindSpace(x: string, s: string)
    requires FitsAField(s)
    ensures Matches(" " + x, s) <==> Matches(x, s)
  {
    if Matches(x, s) {
      MatchesRight(" ", x, s);
    }
    if Matches(" " + x, s) {
      var i :| 0 <= i <= |" " + x| - |s| && MatchesAt(" " + x, s, i);
      MatchIsNotTheSpace(x, s, i);
    }
  }

  lemma NotAtTheSpace(x: string, s: string)
    requires FitsAField(s) && |s| <= |x| + 1
    ensures !MatchesAt(" " + x, s, 0)
  {
    DiffersAt(Lower(" " + x), Lower(s), 0, 0);
  }

  lemma MatchIsNotTheSpace(x: string, s: string, i: nat)
    requires FitsAField(s) && i + |s| <= |x| + 1 && MatchesAt(" " + x, s, i)
    ensures Matches(x, s)
  {
    NotAtTheSpace(x, s);
    var j: nat := i - 1;
    MatchBehind(" ", x, s, j);
    assert MatchesAt(x, s, j);
  }

  lemma MatchesLabelled(line: string, name: string, x: string, s: string)
    requires line == name + [':'] + (" " + x) && FitsAField(s)
    ensures Matches(line, s) <==> Matches(name, s) || Matches(x, s)
  {
    MatchesSplit(name, ':', " " + x, s);
    MatchesBehindSpace(x, s);
  }

  lemma {:induction false} MatchesJoined(skills: seq<string>, s: string)
    requires FitsAField(s)
    ensures Matches(Join(", ", skills), s) <==> InAny(skills, s)
  {
    if |skills| == 1 {
      assert skills[0] in skills;
    } else if |skills| > 1 {
      var init, last := skills[..|skills| - 1], skills[|skills| - 1];
      MatchesJoined(init, s);
      assert Join(", ", skills) == Join(", ", init) + [','] + (" " + last);
      MatchesSplit(Join(", ", init), ',', " " + last, s);
      MatchesBehindSpace(last, s);
      assert skills == init + [last];
      assert forall f :: f in skills <==> f in init || f == last;
    }
  }

  lemma MatchesLines(a: string, b: string, c: string, d: string, e: string, s: string)
    requires FitsAField(s)
    ensures Matches(Join("\n", [a, b, c, d, e]), s)
            <==> Matches(a, s) || Matches(b, s) || Matches(c, s) || Matches(d, s) || Matches(e, s)
  {
    JoinFive(a, b, c, d, e);
    assert "\n" == ['\n'];
    MatchesSplit(a, '\n', b, s);
    MatchesSplit(a + "\n" + b, '\n', c, s);
    MatchesSplit(a + "\n" + b + "\n" + c, '\n', d, s);
    MatchesSplit(a + "\n" + b + "\n" + c + "\n" + d, '\n', e, s);
  }

  lemma LinesOf(profile: UserProfile) returns (lines: seq<string>)
    ensures |lines| == 5 && FormatProfile(profile) == Join("\n", lines)
    ensures lines[0] == "Name" + [':'] + (" " + profile.name)
    ensures lines[1] == "Skills" + [':'] + (" " + Join(", ", profile.skills))
    ensures lines[2] == "Experience" + [':'] + (" " + (Shown(profile.experienceYears) + " years"))
    ensures lines[3] == "Education" + [':'] + (" " + profile.education)
    ensures lines[4] == "Target Role" + [':'] + (" " + profile.targetRole)
  {
    lines := ["Name: " + profile.name,
              "Skills: " + Join(", ", profile.skills),
              "Experience: " + Shown(profile.experienceYears) + " years",
              "Education: " + profile.education,
              "Target Role: " + profile.targetRole];
  }

  /** The printed profile matches a skill exactly when one of its labels or fields does. */
  lemma FieldsDecide(profile: UserProfile, s: string)
    requires FitsAField(s)
    ensures Matches(FormatProfile(profile), s) <==> InAny(Fields(profile), s)
  {
    var lines := LinesOf(profile);
    assert lines == [lines[0], lines[1], lines[2], lines[3], lines[4]];
    MatchesLines(lines[0], lines[1], lines[2], lines[3], lines[4], s);
    MatchesLabelled(lines[0], "Name", profile.name, s);
    MatchesLabelled(lines[1], "Skills", Join(", ", profile.skills), s);
    MatchesLabelled(lines[2], "Experience", Shown(profile.experienceYears) + " years", s);
    MatchesLabelled(lines[3], "Education", profile.education, s);
    MatchesLabelled(lines[4], "Target Role", profile.targetRole, s);
    MatchesJoined(profile.skills, s);
    InFields(profile, s);
  }

  lemma InFields(profile: UserProfile, s: string)
    ensures InAny(Fields(profile), s)
            <==> || Matches("Name", s) || Matches(profile.name, s) || Matches("Skills", s) || InAny(profile.skills, s)
                 || Matches("Experience", s) || Matches(Shown(profile.experienceYears) + " years", s)
                 || Matches("Education", s) || Matches(profile.education, s)
                 || Matches("Target Role", s) || Matches(profile.targetRole, s)
  {
    var front := ["Name", profile.name, "Skills"];
    var back := ["Experience", Shown(profile.experienceYears) + " years",
                 "Education", profile.education, "Target Role", profile.targetRole];
    assert forall f :: f in Fields(profile) <==> f in front || f in profile.skills || f in back;
    assert forall f :: f in front <==> f == "Name" || f == profile.name || f == "Skills";
    assert back[0] in back && back[1] in back && back[2] in back && back[3] in back && back[4] in back && back[5] in back;
  }

  lemma MatchesItself(s: string, t: string)
    requires s != "" && Lower(s) == Lower(t)
    ensures Matches(s, t) <==> WordEnded(s)
    ensures WordEnded(s) <==> WordEnded(t)
  {
    assert |Lower(s)| == |s| && |Lower(t)| == |t|;
    assert Lower(s)[0..|s|] == Lower(s);
    assert LowerChar(s[0]) == LowerChar(t[0]) && LowerChar(s[|s| - 1]) == LowerChar(t[|s| - 1]);
    assert MatchesAt(s, t, 0) <==> WordEnded(s);
  }

  /** Exactly which skills of the taxonomy survive printing and parsing: those that start and end with a word
      character, and those that another field, another skill or a label matches. */
  lemma ReadBackByField(profile: UserProfile, taxonomy: seq<string>, s: string)
    requires s in profile.skills && FitsAField(s) && Lower(s) in Keys(taxonomy)
    ensures Lower(s) in Keys(ReadBack(profile, taxonomy))
            <==> WordEnded(s) || exists f :: f in Fields(profile) && Lower(f) != Lower(s) && Matches(f, s)
  {
    ReadBackIsMatched(profile, taxonomy, s);
    FieldsDecide(profile, s);
    MatchesItself(s, s);
    assert s in Fields(profile);
    forall f | f in Fields(profile) && Lower(f) == Lower(s)
      ensures Matches(f, s) <==> WordEnded(s)
    {
      assert |Lower(f)| == |f| && |Lower(s)| == |s|;
      MatchesItself(f, s);
    }
  }

  // -------------------------------------------------------------------------
  // Skills that start or end in punctuation
  // -------------------------------------------------------------------------

  /** A skill that ends with another character matches only where a word character follows. */
  lemma EndsBeforeWord(text: string, skill: string, i: nat)
    requires skill != "" && !IsWord(skill[|skill| - 1]) && MatchesAt(text, skill, i)
    ensures i + |skill| < |text| && IsWord(text[i + |skill|])
  {
    var j := i + |skill| - 1;
    assert Lower(text)[i..i + |skill|][|skill| - 1] == Lower(skill)[|skill| - 1];
    assert LowerChar(text[j]) == LowerChar(skill[|skill| - 1]);
  }

  lemma NeedsPlus(f: string)
    requires '+' !in f
    ensures !Matches(f, "C++")
  {
    forall i: nat | i + 3 <= |f|
      ensures !MatchesAt(f, "C++", i)
    {
      DiffersAt(Lower(f), Lower("C++"), i, 1);
    }
  }

  lemma OnlyTheSkillHasPlus(profile: UserProfile, f: string)
    requires profile.skills == ["C++"] && '+' !in profile.name && '+' !in profile.education && '+' !in profile.targetRole
    requires f in Fields(profile) && f != "C++"
    ensures '+' !in f
  {
    assert '+' !in Shown(profile.experienceYears) + " years";
    var front := ["Name", profile.name, "Skills"];
    var back := ["Experience", Shown(profile.experienceYears) + " years",
                 "Education", profile.education, "Target Role", profile.targetRole];
    assert f in front || f in profile.skills || f in back;
    assert forall g :: g in front ==> '+' !in g;
    assert forall g :: g in back ==> '+' !in g;
  }

  /** A profile whose one skill is C++, and that has no other plus sign, prints a text from which C++ is not read
      back, although the taxonomy has it. */
  lemma CppIsLost(profile: UserProfile, taxonomy: seq<string>)
    requires profile.skills == ["C++"] && '+' !in profile.name && '+' !in profile.education && '+' !in profile.targetRole
    requires Lower("C++") in Keys(taxonomy)
    ensures Lower("C++") !in Keys(ReadBack(profile, taxonomy))
  {
    ReadBackByField(profile, taxonomy, "C++");
    forall f | f in Fields(profile) && Lower(f) != Lower("C++")
      ensures !Matches(f, "C++")
    {
      OnlyTheSkillHasPlus(profile, f);
      NeedsPlus(f);
    }
  }

  lemma AspNetMatches()
    ensures Matches("ASP.NET", ".NET")
  {
    OccursShifted(Lower("ASP"), Lower(".NET"), Lower(".NET"), 0);
    LowerConcat("ASP", ".NET");
    assert "ASP" + ".NET" == "ASP.NET";
    assert MatchesAt("ASP.NET", ".NET", 3);
  }

  /** .NET is read back beside ASP.NET, although it does not start with a word character. */
  lemma DotNetBesideAspNet(profile: UserProfile, taxonomy: seq<string>)
    requires profile.skills == ["ASP.NET", ".NET"] && Lower(".NET") in Keys(taxonomy)
    ensures Lower(".NET") in Keys(ReadBack(profile, taxonomy)) && !WordEnded(".NET")
  {
    ReadBackByField(profile, taxonomy, ".NET");
    assert profile.skills[0] in profile.skills && profile.skills[0] in Fields(profile);
    assert |Lower("ASP.NET")| != |Lower(".NET")|;
    AspNetMatches();
  }
}
