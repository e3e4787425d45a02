/** Profile skills: creation, patches, and the difference the form sends. */
module Profiles {
  import opened Common
  import opened Models
  import opened Gap

  datatype ProfileError = NameRequired | TargetRoleRequired | SkillsRequired | SkillEmpty | SkillTooLong | SkillCount

  const MAX_SKILLS := 30
  const MAX_LENGTH := 100

  predicate DistinctKeys(skills: seq<string>) {
    forall i, j :: 0 <= i < j < |skills| ==> Lower(skills[i]) != Lower(skills[j])
  }

  /** What every stored profile satisfies. */
  predicate ValidSkills(skills: seq<string>) {
    && 1 <= |skills| <= MAX_SKILLS
    && DistinctKeys(skills)
    && forall s :: s in skills ==> s != "" && Stripped(s) && |s| <= MAX_LENGTH
  }

  /** The skills a list names, up to case and surrounding space. */
  function NamedKeys(skills: seq<string>): set<string> {
    set s | s in skills && Strip(s) != "" :: Lower(Strip(s))
  }

  lemma NamedKeysMean(skills: seq<string>, key: string)
    ensures key in NamedKeys(skills)
            <==> exists i :: 0 <= i < |skills| && Strip(skills[i]) != "" && Lower(Strip(skills[i])) == key
  {
    if i :| 0 <= i < |skills| && Strip(skills[i]) != "" && Lower(Strip(skills[i])) == key {
      assert skills[i] in skills;
    }
  }

  // -------------------------------------------------------------------------
  // Creation
  // -------------------------------------------------------------------------

  function Deduped(skills: seq<string>): seq<string> {
    if skills == [] then []
    else
      var before := Deduped(skills[..|skills| - 1]);
      var s := Strip(skills[|skills| - 1]);
      if Lower(s) in Keys(before) then before else before + [s]
  }

  lemma KeysAppend(skills: seq<string>, more: seq<string>)
    ensures Keys(skills + more) == Keys(skills) + Keys(more)
  {
    forall key
      ensures key in Keys(skills + more) <==> key in Keys(skills) + Keys(more)
    {
      assert forall s :: s in skills + more <==> s in skills || s in more;
    }
  }

  lemma DistinctAppend(skills: seq<string>, s: string)
    requires DistinctKeys(skills) && Lower(s) !in Keys(skills)
    ensures DistinctKeys(skills + [s])
  {
    assert forall i :: 0 <= i < |skills| ==> Lower(skills[i]) in Keys(skills);
  }

  lemma {:induction false} DedupedShape(skills: seq<string>)
    ensures DistinctKeys(Deduped(skills)) && |Deduped(skills)| <= |skills|
    ensures Keys(Deduped(skills)) == set s | s in skills :: Lower(Strip(s))
  {
    if skills != [] {
      var init, last := skills[..|skills| - 1], skills[|skills| - 1];
      assert skills == init + [last];
      DedupedShape(init);
      KeysAppend(Deduped(init), [Strip(last)]);
      assert (set s | s in skills :: Lower(Strip(s))) == (set s | s in init :: Lower(Strip(s))) + {Lower(Strip(last))};
      if Lower(Strip(last)) !in Keys(Deduped(init)) {
        DistinctAppend(Deduped(init), Strip(last));
      }
    }
  }

  lemma {:induction false} DedupedMembers(skills: seq<string>, s: string)
    requires s in Deduped(skills)
    ensures Stripped(s) && exists raw :: raw in skills && Strip(raw) == s
  {
    var init, last := skills[..|skills| - 1], skills[|skills| - 1];
    if s in Deduped(init) {
      DedupedMembers(init, s);
    } else {
      StripIsStripped(last);
    }
  }

  /** Nothing before position `i` names the same skill. */
  predicate NamedFirst(skills: seq<string>, i: nat) {
    i < |skills| && forall j :: 0 <= j < i ==> Lower(Strip(skills[j])) != Lower(Strip(skills[i]))
  }

  /** `result` has the skills at these positions, stripped. */
  predicate TakenFrom(skills: seq<string>, at: seq<nat>, result: seq<string>) {
    && |at| == |result| && Increasing(at)
    && forall k :: 0 <= k < |at| ==> at[k] < |skills| && result[k] == Strip(skills[at[k]]) && NamedFirst(skills, at[k])
  }

  lemma OneMoreTaken(skills: seq<string>, at: seq<nat>, result: seq<string>, i: nat)
    requires TakenFrom(skills, at, result) && NamedFirst(skills, i) && forall k :: 0 <= k < |at| ==> at[k] < i
    ensures TakenFrom(skills, at + [i], result + [Strip(skills[i])])
  {
  }

  lemma NamedBefore(skills: seq<string>, i: nat)
    requires i < |skills| && Lower(Strip(skills[i])) !in Keys(Deduped(skills[..i]))
    ensures NamedFirst(skills, i)
  {
    DedupedShape(skills[..i]);
    assert forall j :: 0 <= j < i ==> skills[j] in skills[..i];
  }

  lemma {:induction false} DedupedPrefix(skills: seq<string>, n: nat) returns (at: seq<nat>)
    requires n <= |skills|
    ensures TakenFrom(skills, at, Deduped(skills[..n])) && forall k :: 0 <= k < |at| ==> at[k] < n
  {
    if n == 0 {
      at := [];
    } else {
      at := DedupedPrefix(skills, n - 1);
      assert skills[..n][..n - 1] == skills[..n - 1];
      if Lower(Strip(skills[n - 1])) !in Keys(Deduped(skills[..n - 1])) {
        NamedBefore(skills, n - 1);
        OneMoreTaken(skills, at, Deduped(skills[..n - 1]), n - 1);
        at := at + [n - 1];
      }
    }
  }

  /** The list keeps the first spelling of each skill, stripped, in the order of the first occurrences. */
  lemma DedupedPositions(skills: seq<string>) returns (at: seq<nat>)
    ensures TakenFrom(skills, at, Deduped(skills))
  {
    at := DedupedPrefix(skills, |skills|);
    assert skills[..|skills|] == skills;
  }

  method DeduplicateSkills(skills: seq<string>) returns (unique: seq<string>, hadDuplicates: bool)
    ensures unique == Deduped(skills)
    ensures hadDuplicates <==> |Deduped(skills)| < |skills|
  {
    var seen: set<string> := {};
    unique := [];
    for i := 0 to |skills|
      invariant unique == Deduped(skills[..i]) && seen == Keys(unique)
    {
      assert skills[..i + 1][..i] == skills[..i];
      var key := Lower(Strip(skills[i]));
      if key !in seen {
        seen := seen + {key};
        KeysAppend(unique, [Strip(skills[i])]);
        unique := unique + [Strip(skills[i])];
      }
    }
    assert skills[..|skills|] == skills;
    hadDuplicates := |unique| < |skills|;
  }

  /** The first skill that is blank or too long decides the error. */
  function SkillError(skills: seq<string>): Option<ProfileError> {
    if skills == [] then None
    else if Strip(skills[0]) == "" then Some(SkillEmpty)
    else if |Strip(skills[0])| > MAX_LENGTH then Some(SkillTooLong)
    else SkillError(skills[1..])
  }

  function Created(name: string, skills: seq<string>, experienceYears: int, education: string, targetRole: string)
    : Result<UserProfile, ProfileError>
  {
    if Strip(name) == "" then Err(NameRequired)
    else if Strip(targetRole) == "" then Err(TargetRoleRequired)
    else if skills == [] then Err(SkillsRequired)
    else if SkillError(skills).Some? then Err(SkillError(skills).value)
    else if !(1 <= |Deduped(skills)| <= MAX_SKILLS) then Err(SkillCount)
    else Ok(UserProfile(Strip(name), Deduped(skills), experienceYears, Strip(education), Strip(targetRole)))
  }

  method CheckSkills(skills: seq<string>) returns (error: Option<ProfileError>)
    ensures error == SkillError(skills)
  {
    for i := 0 to |skills|
      invariant SkillError(skills) == SkillError(skills[i..])
    {
      if Strip(skills[i]) == "" {
        return Some(SkillEmpty);
      }
      if |Strip(skills[i])| > MAX_LENGTH {
        return Some(SkillTooLong);
      }
    }
    error := None;
  }

  method CreateProfile(name: string, skills: seq<string>, experienceYears: int, education: string, targetRole: string)
    returns (profile: Result<UserProfile, ProfileError>, duplicatesRemoved: bool)
    ensures profile == Created(name, skills, experienceYears, education, targetRole)
    ensures duplicatesRemoved <==> profile.Ok? && |profile.value.skills| < |skills|
  {
    if name == "" || Strip(name) == "" {
      return Err(NameRequired), false;
    }
    if targetRole == "" || Strip(targetRole) == "" {
      return Err(TargetRoleRequired), false;
    }
    if |skills| == 0 {
      return Err(SkillsRequired), false;
    }
    var error := CheckSkills(skills);
    if error.Some? {
      return Err(error.value), false;
    }
    var deduped, hadDuplicates := DeduplicateSkills(skills);
    if |deduped| < 1 || |deduped| > MAX_SKILLS {
      return Err(SkillCount), false;
    }
    profile := Ok(UserProfile(Strip(name), deduped, experienceYears, Strip(education), Strip(targetRole)));
    duplicatesRemoved := hadDuplicates;
  }

  lemma {:induction false} NoSkillError(skills: seq<string>)
    ensures SkillError(skills).None? <==> forall s :: s in skills ==> Strip(s) != "" && |Strip(s)| <= MAX_LENGTH
  {
    if skills != [] {
      NoSkillError(skills[1..]);
      assert skills == [skills[0]] + skills[1..];
    }
  }

  /** Skills with distinct keys are as many as their keys. */
  lemma {:induction false} KeyCount(skills: seq<string>)
    requires DistinctKeys(skills)
    ensures |Keys(skills)| == |skills|
  {
    if skills != [] {
      var n := |skills| - 1;
      KeyCount(skills[..n]);
      KeysAppend(skills[..n], [skills[n]]);
      assert skills == skills[..n] + [skills[n]];
      assert Keys([skills[n]]) == {Lower(skills[n])};
    }
  }

  lemma DedupedAll(skills: seq<string>)
    requires skills != [] && forall s :: s in skills ==> Strip(s) != "" && |Strip(s)| <= MAX_LENGTH
    ensures var deduped := Deduped(skills);
            && Keys(deduped) == NamedKeys(skills) && |deduped| == |NamedKeys(skills)| >= 1
            && (|deduped| <= MAX_SKILLS ==> ValidSkills(deduped))
  {
    var deduped := Deduped(skills);
    DedupedShape(skills);
    KeyCount(deduped);
    assert NamedKeys(skills) == set s | s in skills :: Lower(Strip(s));
    assert Lower(Strip(skills[0])) in NamedKeys(skills);
    forall s | s in deduped
      ensures s != "" && Stripped(s) && |s| <= MAX_LENGTH
    {
      DedupedMembers(skills, s);
    }
  }

  /** When creation succeeds, and what it stores: the named skills up to case, at most thirty of them. */
  lemma CreationAccepted(name: string, skills: seq<string>, experienceYears: int, education: string, targetRole: string)
    ensures var r := Created(name, skills, experienceYears, education, targetRole);
            && (r.Ok? <==>
                  && Strip(name) != "" && Strip(targetRole) != "" && skills != []
                  && (forall s :: s in skills ==> Strip(s) != "" && |Strip(s)| <= MAX_LENGTH)
                  && |NamedKeys(skills)| <= MAX_SKILLS)
            && (r.Ok? ==> ValidSkills(r.value.skills) && Keys(r.value.skills) == NamedKeys(skills))
  {
    NoSkillError(skills);
    if SkillError(skills).None? && skills != [] {
      DedupedAll(skills);
    }
  }

  /** Skill number `i` is blank or too long, and the first that is. */
  predicate FirstBad(skills: seq<string>, i: nat) {
    && i < |skills| && (Strip(skills[i]) == "" || |Strip(skills[i])| > MAX_LENGTH)
    && forall j :: 0 <= j < i ==> Strip(skills[j]) != "" && |Strip(skills[j])| <= MAX_LENGTH
  }

  lemma {:induction false} FirstBadDecides(skills: seq<string>, i: nat)
    requires FirstBad(skills, i)
    ensures SkillError(skills) == Some(if Strip(skills[i]) == "" then SkillEmpty else SkillTooLong)
  {
    if i > 0 {
      assert FirstBad(skills[1..], i - 1);
      FirstBadDecides(skills[1..], i - 1);
    }
  }

  /** Which error a creation reports: the name first, then the role, then that there are no skills, then the first skill
      that is blank or too long, and the number of skills only when nothing else is wrong. */
  lemma CreationErrors(name: string, skills: seq<string>, experienceYears: int, education: string, targetRole: string)
    ensures var r := Created(name, skills, experienceYears, education, targetRole);
            if Strip(name) == "" then r == Err(NameRequired)
            else if Strip(targetRole) == "" then r == Err(TargetRoleRequired)
            else if skills == [] then r == Err(SkillsRequired)
            else
              && (forall i: nat :: FirstBad(skills, i) ==>
                    r == Err(if Strip(skills[i]) == "" then SkillEmpty else SkillTooLong))
              && ((forall s :: s in skills ==> Strip(s) != "" && |Strip(s)| <= MAX_LENGTH) && |NamedKeys(skills)| > 30 ==>
                    r == Err(SkillCount))
  {
    forall i: nat | FirstBad(skills, i)
      ensures SkillError(skills) == Some(if Strip(skills[i]) == "" then SkillEmpty else SkillTooLong)
    {
      FirstBadDecides(skills, i);
    }
    NoSkillError(skills);
    if SkillError(skills).None? && skills != [] {
      DedupedAll(skills);
    }
  }

  // -------------------------------------------------------------------------
  // Updates
  // -------------------------------------------------------------------------

  /** `current` with the added skills appended that are not there yet, up to case. */
  function AddAll(current: seq<string>, added: seq<string>): seq<string> {
    if added == [] then current
    else
      var before := AddAll(current, added[..|added| - 1]);
      var s := Strip(added[|added| - 1]);
      if s != "" && Lower(s) !in Keys(before) then before + [s] else before
  }

  function NewSkills(current: seq<string>, added: seq<string>, removed: seq<string>): seq<string> {
    Among(AddAll(current, added), NamedKeys(removed), false)
  }

  function Updated(profile: UserProfile, added: seq<string>, removed: seq<string>): Result<UserProfile, ProfileError> {
    var skills := NewSkills(profile.skills, added, removed);
    if exists s :: s in skills && |s| > MAX_LENGTH then Err(SkillTooLong)
    else if !(1 <= |skills| <= MAX_SKILLS) then Err(SkillCount)
    else Ok(profile.(skills := skills))
  }

  method AddSkills(current: seq<string>, added: seq<string>) returns (skills: seq<string>)
    ensures skills == AddAll(current, added)
  {
    skills := current;
    var existingLower := Keys(current);
    for i := 0 to |added|
      invariant skills == AddAll(current, added[..i]) && existingLower == Keys(skills)
    {
      assert added[..i + 1][..i] == added[..i];
      var s := Strip(added[i]);
      if s != "" && Lower(s) !in existingLower {
        KeysAppend(skills, [s]);
        skills := skills + [s];
        existingLower := existingLower + {Lower(s)};
      }
    }
    assert added[..|added|] == added;
  }

  method AnyTooLong(skills: seq<string>) returns (found: bool)
    ensures found <==> exists s :: s in skills && |s| > MAX_LENGTH
  {
    for i := 0 to |skills|
      invariant forall j :: 0 <= j < i ==> |skills[j]| <= MAX_LENGTH
    {
      if |skills[i]| > MAX_LENGTH {
        return true;
      }
    }
    found := false;
  }

  /** `update_profile`; an absent list of skills is an empty one. */
  method UpdateProfile(profile: UserProfile, added: seq<string>, removed: seq<string>)
    returns (updated: Result<UserProfile, ProfileError>)
    ensures updated == Updated(profile, added, removed)
  {
    var all := profile.skills;
    if added != [] {
      all := AddSkills(all, added);
    }
    var current := all;
    if removed != [] {
      var _, kept := Split(all, NamedKeys(removed));
      current := kept;
    } else {
      NothingAmongNone(all);
      assert NamedKeys(removed) == {};
    }
    assert current == NewSkills(profile.skills, added, removed);
    var tooLong := AnyTooLong(current);
    if tooLong {
      return Err(SkillTooLong);
    }
    if |current| < 1 || |current| > MAX_SKILLS {
      return Err(SkillCount);
    }
    updated := Ok(profile.(skills := current));
  }

  lemma {:induction false} NothingAmongNone(skills: seq<string>)
    ensures Among(skills, {}, false) == skills
  {
    if skills != [] {
      NothingAmongNone(skills[1..]);
    }
  }

  /** Adding keeps the old list as it is, in front. */
  lemma {:induction false} AddAllKeeps(current: seq<string>, added: seq<string>)
    ensures |current| <= |AddAll(current, added)| && AddAll(current, added)[..|current|] == current
  {
    if added != [] {
      AddAllKeeps(current, added[..|added| - 1]);
    }
  }

  lemma {:induction false} AddAllKeys(current: seq<string>, added: seq<string>)
    ensures Keys(AddAll(current, added)) == Keys(current) + NamedKeys(added)
    ensures DistinctKeys(current) ==> DistinctKeys(AddAll(current, added))
  {
    if added != [] {
      var init, last := added[..|added| - 1], added[|added| - 1];
      assert added == init + [last];
      AddAllKeys(current, init);
      var before := AddAll(current, init);
      KeysAppend(before, [Strip(last)]);
      assert Keys([Strip(last)]) == {Lower(Strip(last))};
      assert NamedKeys(added) == NamedKeys(init) + NamedKeys([last]);
      assert NamedKeys([last]) == if Strip(last) != "" then {Lower(Strip(last))} else {};
      if Lower(Strip(last)) !in Keys(before) && DistinctKeys(before) {
        DistinctAppend(before, Strip(last));
      }
    }
  }

  /** What is appended is named by the request, and new up to case. */
  lemma {:induction false} AddAllMembers(current: seq<string>, added: seq<string>, s: string)
    requires s in AddAll(current, added) && s !in current
    ensures s != "" && Stripped(s) && Lower(s) !in Keys(current) && exists raw :: raw in added && Strip(raw) == s
  {
    if added != [] {
      var init, last := added[..|added| - 1], added[|added| - 1];
      if s in AddAll(current, init) {
        AddAllMembers(current, init, s);
      } else {
        StripIsStripped(last);
        AddAllKeys(current, init);
      }
    }
  }

  lemma EmptyKeyDiffers(s: string)
    requires s != ""
    ensures Lower("") != Lower(s)
  {
    assert |Lower("")| == 0 && |Lower(s)| == |s|;
  }

  lemma AddedBefore(current: seq<string>, added: seq<string>, i: nat)
    requires i < |added| && Strip(added[i]) != "" && Lower(Strip(added[i])) !in Keys(AddAll(current, added[..i]))
    ensures NamedFirst(added, i)
  {
    AddAllKeys(current, added[..i]);
    EmptyKeyDiffers(Strip(added[i]));
    assert forall j :: 0 <= j < i ==> added[j] in added[..i];
  }

  lemma {:induction false} AddAllPrefix(current: seq<string>, added: seq<string>, n: nat) returns (at: seq<nat>)
    requires n <= |added|
    ensures |current| <= |AddAll(current, added[..n])| && forall k :: 0 <= k < |at| ==> at[k] < n
    ensures TakenFrom(added, at, AddAll(current, added[..n])[|current|..])
  {
    if n == 0 {
      at := [];
    } else {
      at := AddAllPrefix(current, added, n - 1);
      assert added[..n][..n - 1] == added[..n - 1];
      var before, s := AddAll(current, added[..n - 1]), Strip(added[n - 1]);
      if s != "" && Lower(s) !in Keys(before) {
        AddedBefore(current, added, n - 1);
        OneMoreTaken(added, at, before[|current|..], n - 1);
        assert (before + [s])[|current|..] == before[|current|..] + [s];
        at := at + [n - 1];
      }
    }
  }

  /** What is appended stands in the order of the request, each skill in its first spelling, stripped. */
  lemma AddAllPositions(current: seq<string>, added: seq<string>) returns (at: seq<nat>)
    ensures |current| <= |AddAll(current, added)| && TakenFrom(added, at, AddAll(current, added)[|current|..])
  {
    at := AddAllPrefix(current, added, |added|);
    assert added[..|added|] == added;
  }

  lemma {:induction false} DistinctAmong(skills: seq<string>, keys: set<string>)
    requires DistinctKeys(skills)
    ensures DistinctKeys(Among(skills, keys, false))
  {
    if skills != [] {
      var rest := skills[1..];
      assert forall i :: 0 <= i < |rest| ==> rest[i] == skills[i + 1];
      DistinctAmong(rest, keys);
      var tail := Among(rest, keys, false);
      forall i | 0 <= i < |tail|
        ensures Lower(tail[i]) != Lower(skills[0])
      {
        AmongMembers(rest, keys, false, tail[i]);
        var j :| 0 <= j < |rest| && rest[j] == tail[i];
        assert rest[j] == skills[j + 1];
      }
    }
  }

  lemma KeysAmong(skills: seq<string>, keys: set<string>)
    ensures Keys(Among(skills, keys, false)) == Keys(skills) - keys
  {
    forall key
      ensures key in Keys(Among(skills, keys, false)) <==> key in Keys(skills) - keys
    {
      if key in Keys(Among(skills, keys, false)) {
        var s :| s in Among(skills, keys, false) && Lower(s) == key;
        AmongMembers(skills, keys, false, s);
      }
      if key in Keys(skills) - keys {
        var s :| s in skills && Lower(s) == key;
        AmongMembers(skills, keys, false, s);
      }
    }
  }

  /** The effect of a patch on the list: skills up to case are (old and added) without removed, and what
      survives of the old list comes first, in its old order. */
  lemma PatchEffect(current: seq<string>, added: seq<string>, removed: seq<string>)
    requires DistinctKeys(current)
    ensures var skills := NewSkills(current, added, removed);
            && Keys(skills) == Keys(current) + NamedKeys(added) - NamedKeys(removed)
            && DistinctKeys(skills)
            && Among(current, NamedKeys(removed), false) <= skills
  {
    AddAllKeeps(current, added);
    AddAllKeys(current, added);
    var all := AddAll(current, added);
    KeysAmong(all, NamedKeys(removed));
    DistinctAmong(all, NamedKeys(removed));
    AmongAppend(all[..|current|], all[|current|..], NamedKeys(removed), false);
    assert all == all[..|current|] + all[|current|..];
  }

  /** The new list is what is left of the old one, followed by what is left of the skills appended. */
  lemma PatchOrder(current: seq<string>, added: seq<string>, removed: seq<string>)
    ensures |current| <= |AddAll(current, added)|
    ensures NewSkills(current, added, removed)
            == Among(current, NamedKeys(removed), false)
               + Among(AddAll(current, added)[|current|..], NamedKeys(removed), false)
  {
    AddAllKeeps(current, added);
    var all := AddAll(current, added);
    AmongAppend(current, all[|current|..], NamedKeys(removed), false);
    assert all == current + all[|current|..];
  }

  /** A skill of the new list is an old one, or one the request adds. */
  lemma NewSkill(current: seq<string>, added: seq<string>, removed: seq<string>, s: string)
    requires s in NewSkills(current, added, removed)
    ensures Lower(s) !in NamedKeys(removed)
    ensures s in current || (s != "" && Stripped(s) && Lower(s) !in Keys(current)
                             && exists raw :: raw in added && Strip(raw) == s)
  {
    AmongMembers(AddAll(current, added), NamedKeys(removed), false, s);
    if s !in current {
      AddAllMembers(current, added, s);
    }
  }

  /** The lengths that can make a patch fail: those of skills it would really add. */
  predicate AddedFit(current: seq<string>, added: seq<string>, removed: seq<string>) {
    forall raw :: raw in added && Strip(raw) != "" && Lower(Strip(raw)) !in Keys(current) + NamedKeys(removed) ==>
                    |Strip(raw)| <= MAX_LENGTH
  }

  lemma LongSkillsAreAdded(current: seq<string>, added: seq<string>, removed: seq<string>)
    requires DistinctKeys(current) && forall s :: s in current ==> |s| <= MAX_LENGTH
    ensures (forall s :: s in NewSkills(current, added, removed) ==> |s| <= MAX_LENGTH)
            <==> AddedFit(current, added, removed)
  {
    var skills := NewSkills(current, added, removed);
    PatchEffect(current, added, removed);
    if AddedFit(current, added, removed) {
      forall s | s in skills
        ensures |s| <= MAX_LENGTH
      {
        NewSkill(current, added, removed, s);
      }
    }
    if forall s :: s in skills ==> |s| <= MAX_LENGTH {
      forall raw | raw in added && Strip(raw) != "" && Lower(Strip(raw)) !in Keys(current) + NamedKeys(removed)
        ensures |Strip(raw)| <= MAX_LENGTH
      {
        assert Lower(Strip(raw)) in Keys(skills);
        var s :| s in skills && Lower(s) == Lower(Strip(raw));
        assert |Lower(s)| == |s| && |Lower(Strip(raw))| == |Strip(raw)|;
      }
    }
  }

  /** Exactly when a patch of a valid profile is accepted, and that it leaves a valid one. */
  lemma UpdateAccepted(profile: UserProfile, added: seq<string>, removed: seq<string>)
    requires ValidSkills(profile.skills)
    ensures var r := Updated(profile, added, removed);
            && (r.Ok? <==>
                  && 1 <= |Keys(profile.skills) + NamedKeys(added) - NamedKeys(removed)| <= MAX_SKILLS
                  && AddedFit(profile.skills, added, removed))
            && (r.Ok? ==> ValidSkills(r.value.skills))
  {
    var skills := NewSkills(profile.skills, added, removed);
    PatchEffect(profile.skills, added, removed);
    KeyCount(skills);
    LongSkillsAreAdded(profile.skills, added, removed);
    forall s | s in skills
      ensures s != "" && Stripped(s)
    {
      NewSkill(profile.skills, added, removed, s);
    }
  }

  /** Which error a patch reports, and that it changes nothing but the skills. */
  lemma UpdateErrors(profile: UserProfile, added: seq<string>, removed: seq<string>)
    requires ValidSkills(profile.skills)
    ensures var r := Updated(profile, added, removed);
            && (!AddedFit(profile.skills, added, removed) ==> r == Err(SkillTooLong))
            && (r.Err? && AddedFit(profile.skills, added, removed) ==> r == Err(SkillCount))
            && (r.Ok? ==> r.value.(skills := []) == profile.(skills := []))
  {
    LongSkillsAreAdded(profile.skills, added, removed);
  }

  // -------------------------------------------------------------------------
  // Any sequence of patches
  // -------------------------------------------------------------------------

  datatype SkillPatch = SkillPatch(added: seq<string>, removed: seq<string>)

  /** The profile after a sequence of patches, of which the rejected ones leave it alone. */
  function After(profile: UserProfile, patches: seq<SkillPatch>): UserProfile {
    if patches == [] then profile
    else
      var before := After(profile, patches[..|patches| - 1]);
      var patch := patches[|patches| - 1];
      match Updated(before, patch.added, patch.removed)
      case Ok(next) => next
      case Err(_) => before
  }

  /** The skills up to case, computed from the requests alone. */
  function KeysAfter(profile: UserProfile, patches: seq<SkillPatch>): set<string> {
    if patches == [] then Keys(profile.skills)
    else
      var n := |patches| - 1;
      var before := KeysAfter(profile, patches[..n]);
      if Updated(After(profile, patches[..n]), patches[n].added, patches[n].removed).Ok?
      then before + NamedKeys(patches[n].added) - NamedKeys(patches[n].removed)
      else before
  }

  lemma {:induction false} PatchesKeepSkillsValid(profile: UserProfile, patches: seq<SkillPatch>)
    requires ValidSkills(profile.skills)
    ensures ValidSkills(After(profile, patches).skills)
    ensures Keys(After(profile, patches).skills) == KeysAfter(profile, patches)
  {
    if patches != [] {
      var n := |patches| - 1;
      PatchesKeepSkillsValid(profile, patches[..n]);
      var before := After(profile, patches[..n]);
      UpdateAccepted(before, patches[n].added, patches[n].removed);
      PatchEffect(before.skills, patches[n].added, patches[n].removed);
    }
  }

  // -------------------------------------------------------------------------
  // The difference the form sends
  // -------------------------------------------------------------------------

  function SetOf(skills: seq<string>): set<string> {
    set s | s in skills
  }

  /** The skills the form adds can all be stored as they are. */
  predicate CleanAdditions(before: seq<string>, additions: set<string>) {
    && (forall s :: s in additions ==> s != "" && Stripped(s) && Lower(s) !in Keys(before))
    && (forall s, t :: s in additions && t in additions && Lower(s) == Lower(t) ==> s == t)
  }

  /** The difference between a valid profile and a form, in any order it may be listed in. */
  ghost predicate IsDifference(before: seq<string>, form: set<string>, added: seq<string>, removed: seq<string>) {
    SetOf(added) == form - SetOf(before) && SetOf(removed) == SetOf(before) - form
  }

  /** What the difference leaves: the skills kept, and those really appended. */
  lemma DifferenceApplied(before: seq<string>, form: set<string>, added: seq<string>, removed: seq<string>)
    requires ValidSkills(before) && IsDifference(before, form, added, removed)
    ensures forall s :: s in before ==> (s in NewSkills(before, added, removed) <==> s in form)
    ensures forall s :: s !in before ==>
                          (s in NewSkills(before, added, removed) <==> s in AddAll(before, added))
  {
    AddAllKeeps(before, added);
    var all := AddAll(before, added);
    assert all == all[..|before|] + all[|before|..];
    forall s | s in all
      ensures s in NewSkills(before, added, removed) <==> Lower(s) !in NamedKeys(removed)
    {
      AmongMembers(all, NamedKeys(removed), false, s);
    }
    forall s | s !in all
      ensures s !in NewSkills(before, added, removed)
    {
      AmongMembers(all, NamedKeys(removed), false, s);
    }
    forall s | s in before
      ensures Lower(s) in NamedKeys(removed) <==> s !in form
    {
      RemovedKey(before, form, removed, s);
    }
    forall s | s in all && s !in before
      ensures Lower(s) !in NamedKeys(removed)
    {
      AddAllMembers(before, added, s);
      RemovedAreOld(before, removed, Lower(s));
    }
  }

  lemma RemovedKey(before: seq<string>, form: set<string>, removed: seq<string>, s: string)
    requires ValidSkills(before) && SetOf(removed) == SetOf(before) - form && s in before
    ensures Lower(s) in NamedKeys(removed) <==> s !in form
  {
    forall r | r in removed
      ensures r in before && Strip(r) == r && r != ""
    {
      assert r in SetOf(removed);
      StrippedUnchanged(r);
    }
    if Lower(s) in NamedKeys(removed) {
      var r :| r in removed && Strip(r) != "" && Lower(Strip(r)) == Lower(s);
      var i :| 0 <= i < |before| && before[i] == r;
      var j :| 0 <= j < |before| && before[j] == s;
      assert r in SetOf(removed) && i == j;
    }
    if s !in form {
      assert s in SetOf(removed);
    }
  }

  lemma RemovedAreOld(before: seq<string>, removed: seq<string>, key: string)
    requires ValidSkills(before) && SetOf(removed) <= SetOf(before) && key !in Keys(before)
    ensures key !in NamedKeys(removed)
  {
    if key in NamedKeys(removed) {
      var r :| r in removed && Strip(r) != "" && Lower(Strip(r)) == key;
      assert r in SetOf(removed) && r in before;
      StrippedUnchanged(r);
    }
  }

  /** Adding appends exactly the additions, as they are, when and only when they are clean. */
  lemma AdditionsAppended(before: seq<string>, added: seq<string>, additions: set<string>)
    requires SetOf(added) == additions && additions !! SetOf(before)
    ensures (forall s :: s !in before ==> (s in AddAll(before, added) <==> s in additions))
            <==> CleanAdditions(before, additions)
  {
    assert forall s :: s in additions ==> s !in before by {
      assert forall s :: s in before ==> s in SetOf(before);
    }
    if CleanAdditions(before, additions) {
      CleanAreAppended(before, added, additions);
    }
    if forall s :: s !in before ==> (s in AddAll(before, added) <==> s in additions) {
      AppendedAreClean(before, added, additions);
    }
  }

  lemma CleanAreAppended(before: seq<string>, added: seq<string>, additions: set<string>)
    requires SetOf(added) == additions && CleanAdditions(before, additions)
    ensures forall s :: s !in before ==> (s in AddAll(before, added) <==> s in additions)
  {
    var all := AddAll(before, added);
    assert forall s :: s in added <==> s in SetOf(added);
    forall s | s in added
      ensures Strip(s) == s
    {
      StrippedUnchanged(s);
    }
    forall s | s in all && s !in before
      ensures s in additions
    {
      AddAllMembers(before, added, s);
    }
    forall s | s in additions
      ensures s in all
    {
      AddAllKeys(before, added);
      assert Lower(Strip(s)) in NamedKeys(added);
      var t :| t in all && Lower(t) == Lower(s);
      assert forall x :: x in before ==> Lower(x) in Keys(before);
      AddAllMembers(before, added, t);
    }
  }

  lemma AppendedAreClean(before: seq<string>, added: seq<string>, additions: set<string>)
    requires SetOf(added) == additions && forall s :: s in additions ==> s !in before
    requires forall s :: s !in before ==> (s in AddAll(before, added) <==> s in additions)
    ensures CleanAdditions(before, additions)
  {
    var all := AddAll(before, added);
    AddAllKeeps(before, added);
    assert all == all[..|before|] + all[|before|..];
    forall s | s in additions
      ensures s in all[|before|..] && s != "" && Stripped(s) && Lower(s) !in Keys(before)
    {
      assert s in all;
      AddAllMembers(before, added, s);
    }
    AppendedDistinct(before, added);
  }

  lemma {:induction false} AppendedDistinct(current: seq<string>, added: seq<string>)
    ensures |current| <= |AddAll(current, added)|
    ensures DistinctKeys(AddAll(current, added)[|current|..])
  {
    if added != [] {
      var init, s := added[..|added| - 1], Strip(added[|added| - 1]);
      AppendedDistinct(current, init);
      var before := AddAll(current, init);
      if s != "" && Lower(s) !in Keys(before) {
        var tail := before[|current|..];
        assert forall t :: t in tail ==> t in before && Lower(t) in Keys(before);
        DistinctAppend(tail, s);
        assert AddAll(current, added)[|current|..] == tail + [s];
      }
    }
  }

  lemma {:induction false} DistinctCount(skills: seq<string>)
    requires DistinctKeys(skills)
    ensures |SetOf(skills)| == |skills|
  {
    if skills != [] {
      var n := |skills| - 1;
      DistinctCount(skills[..n]);
      assert skills == skills[..n] + [skills[n]];
      assert SetOf(skills) == SetOf(skills[..n]) + {skills[n]};
    }
  }

  /** Saving the form makes the profile's skills exactly the form's if and only if what the form adds can be
      stored as it is, and the form is a valid number of short enough skills. */
  lemma FormRoundTrip(profile: UserProfile, form: set<string>, added: seq<string>, removed: seq<string>)
    requires ValidSkills(profile.skills) && IsDifference(profile.skills, form, added, removed)
    ensures var r := Updated(profile, added, removed);
            (r.Ok? && SetOf(r.value.skills) == form)
            <==>
            && CleanAdditions(profile.skills, form - SetOf(profile.skills))
            && 1 <= |form| <= MAX_SKILLS
            && (forall s :: s in form ==> |s| <= MAX_LENGTH)
  {
    var before := profile.skills;
    var skills := NewSkills(before, added, removed);
    DifferenceApplied(before, form, added, removed);
    AdditionsAppended(before, added, form - SetOf(before));
    PatchEffect(before, added, removed);
    DistinctCount(skills);
    assert SetOf(skills) == form <==> forall s :: s in skills <==> s in form;
  }

  /** Two spellings of one skill: adding a spelling the profile already has in another case, while removing the
      old one, loses the skill. */
  lemma CaseChangeLosesTheSkill()
    ensures var profile := UserProfile("n", ["Go", "sql"], 1, "", "t");
            var r := Updated(profile, ["SQL"], ["sql"]);
            r.Ok? && r.value.skills == ["Go"]
  {
    assert Strip("SQL") == "SQL" && Strip("sql") == "sql";
    assert Lower("SQL") == Lower("sql") == "sql" && Lower("Go") == "go";
    var profile := UserProfile("n", ["Go", "sql"], 1, "", "t");
    assert "sql" in Keys(profile.skills);
    assert ["SQL"][..0] == [];
    assert AddAll(profile.skills, ["SQL"]) == profile.skills;
    assert NamedKeys(["sql"]) == {"sql"};
    assert ["Go", "sql"][1..] == ["sql"] && ["sql"][1..] == [];
    assert Among(["sql"], {"sql"}, false) == [];
    assert NewSkills(profile.skills, ["SQL"], ["sql"]) == ["Go"];
  }
}
