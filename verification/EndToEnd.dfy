/** From a stored analysis through the roadmap endpoints to the match: what the pieces say together. */
module EndToEnd {
  import opened Common
  import opened Models
  import opened Gap
  import opened Roadmap
  import opened Profiles
  import opened Store
  import opened Tenancy
  import opened Endpoints

  /** The skills, up to case, of the resources whose last patch by the user says completed. */
  function Learned(phases: seq<Phase>, calls: seq<Call>, user: string, roadmapId: string): set<string> {
    set p, i | 0 <= p < |phases| && 0 <= i < |phases[p].resources|
               && ResourceAfter(phases[p].resources[i], calls, user, roadmapId).completed ::
      Lower(phases[p].resources[i].skill)
  }

  lemma LearnedIsCompleted(after: seq<Phase>, before: seq<Phase>, calls: seq<Call>, user: string, roadmapId: string)
    requires FlagsAfter(after, before, calls, user, roadmapId)
    ensures CompletedKeys(after) == Learned(before, calls, user, roadmapId)
  {
    forall p, i | At(before, p, i)
      ensures after[p].resources[i] == ResourceAfter(before[p].resources[i], calls, user, roadmapId)
    {
    }
    forall key
      ensures key in CompletedKeys(after) <==> key in Learned(before, calls, user, roadmapId)
    {
      if key in CompletedKeys(after) {
        var p, i :| 0 <= p < |after| && 0 <= i < |after[p].resources| && after[p].resources[i].completed
                    && Lower(after[p].resources[i].skill) == key;
        assert At(before, p, i);
      }
      if key in Learned(before, calls, user, roadmapId) {
        var p, i :| 0 <= p < |before| && 0 <= i < |before[p].resources|
                    && ResourceAfter(before[p].resources[i], calls, user, roadmapId).completed
                    && Lower(before[p].resources[i].skill) == key;
        assert At(before, p, i);
      }
    }
  }

  /** The match of a roadmap that was generated from a stored gap and then patched by anyone. */
  lemma MatchOfStoredRoadmap(env: Env, setNull: bool, s: Store, c: Call, profile: UserProfile, job: Job, calls: seq<Call>)
    requires Inv(s) && FreshRun(env, setNull, s, [c] + calls) && c.request.CreateRoadmap?
    requires Lookup(s.analyses, c.request.analysisId, c.user).Some?
    requires Lookup(s.analyses, c.request.analysisId, c.user).value.gap == GapOf(profile, job)
    ensures var end := Final(env, setNull, s, [c] + calls);
            && Lookup(end.roadmaps, c.newId, c.user).Some?
            && var generated := Generated(GapOf(profile, job), env.catalogue, c.ids);
               MatchOf(profile, job, end.roadmaps[c.newId].value.phases)
               == Percentage(|Among(job.requiredSkills,
                                    Keys(profile.skills) + Learned(generated, calls, c.user, c.newId), true)|,
                             |job.requiredSkills|)
  {
    assert ([c] + calls)[0] == c && ([c] + calls)[1..] == calls;
    HandleKeepsInv(env, setNull, s, c);
    var s' := Handle(env, setNull, s, c).0;
    LastWriteWins(env, setNull, s', calls, c.user, c.newId);
    var generated := Generated(GapOf(profile, job), env.catalogue, c.ids);
    LearnedIsCompleted(Final(env, setNull, s', calls).roadmaps[c.newId].value.phases, generated, calls, c.user, c.newId);
  }

  // -------------------------------------------------------------------------
  // Runs in parts
  // -------------------------------------------------------------------------

  lemma {:induction false} RunInParts(env: Env, setNull: bool, s: Store, first: seq<Call>, rest: seq<Call>)
    requires FreshRun(env, setNull, s, first + rest)
    ensures FreshRun(env, setNull, s, first) && FreshRun(env, setNull, Final(env, setNull, s, first), rest)
    ensures Final(env, setNull, s, first + rest) == Final(env, setNull, Final(env, setNull, s, first), rest)
    decreases |first|
  {
    if first == [] {
      assert first + rest == rest;
    } else {
      assert (first + rest)[0] == first[0] && (first + rest)[1..] == first[1..] + rest;
      RunInParts(env, setNull, Handle(env, setNull, s, first[0]).0, first[1..], rest);
    }
  }

  /** A request that may change the user's profile. */
  predicate ChangesProfile(c: Call, user: string, id: string) {
    c.user == user && (c.request.PatchProfile? || c.request.DeleteProfile?) && c.request.profileId == id
  }

  lemma OtherProfilesStay(env: Env, setNull: bool, s: Store, c: Call, user: string, id: string)
    requires FreshCall(s, c) && Has(s.profiles, id, user) && !ChangesProfile(c, user, id)
    ensures var s' := Handle(env, setNull, s, c).0;
            Has(s'.profiles, id, user) && s'.profiles[id] == s.profiles[id]
  {
  }

  lemma {:induction false} ProfileStays(env: Env, setNull: bool, s: Store, calls: seq<Call>, user: string, id: string)
    requires FreshRun(env, setNull, s, calls) && Lookup(s.profiles, id, user).Some?
    requires forall c :: c in calls ==> !ChangesProfile(c, user, id)
    ensures Lookup(Final(env, setNull, s, calls).profiles, id, user) == Lookup(s.profiles, id, user)
    decreases |calls|
  {
    if calls != [] {
      assert calls[0] in calls;
      OtherProfilesStay(env, setNull, s, calls[0], user, id);
      ProfileStays(env, setNull, Handle(env, setNull, s, calls[0]).0, calls[1..], user, id);
    }
  }

  // -------------------------------------------------------------------------
  // What a profile becomes
  // -------------------------------------------------------------------------

  /** What a profile says, its skills up to case. */
  datatype Outline = Outline(name: string, years: int, education: string, role: string, keys: set<string>)

  function OutlineOf(profile: UserProfile): Outline {
    Outline(profile.name, profile.experienceYears, profile.education, profile.targetRole, Keys(profile.skills))
  }

  function Given<T>(given: Option<T>, before: T): T {
    match given
    case Some(value) => value
    case None => before
  }

  function WithPatch(o: Outline, patch: ProfilePatch): Outline {
    if !Patchable(o.keys, patch) then o
    else Outline(Given(patch.name, o.name), Given(patch.experienceYears, o.years), Given(patch.education, o.education),
                 Given(patch.targetRole, o.role), KeysLeft(o.keys, patch))
  }

  /** The outline after the user's patches of the profile, in order; nobody else's requests count. */
  function OutlineAfter(o: Outline, calls: seq<Call>, user: string, id: string): Outline
    decreases |calls|
  {
    if calls == [] then o
    else
      var c := calls[0];
      OutlineAfter(if c.user == user && c.request.PatchProfile? && c.request.profileId == id
                   then WithPatch(o, c.request.patch) else o, calls[1..], user, id)
  }

  predicate Deletes(c: Call, user: string, id: string) {
    c.user == user && c.request == DeleteProfile(id)
  }

  lemma PatchOutlined(before: UserProfile, after: UserProfile, patch: ProfilePatch)
    ensures Patchable(Keys(before.skills), patch) && AsPatched(before, after, patch) ==>
              OutlineOf(after) == WithPatch(OutlineOf(before), patch)
  {
  }

  lemma OwnPatch(env: Env, setNull: bool, s: Store, c: Call)
    requires Inv(s) && c.request.PatchProfile? && Has(s.profiles, c.request.profileId, c.user)
    ensures var (s', id) := (Handle(env, setNull, s, c).0, c.request.profileId);
            && Has(s'.profiles, id, c.user)
            && OutlineOf(s'.profiles[id].value.profile)
               == WithPatch(OutlineOf(s.profiles[id].value.profile), c.request.patch)
  {
    var (s', reply) := Handle(env, setNull, s, c);
    var before := s.profiles[c.request.profileId].value.profile;
    ProfilePatching(env, setNull, s, c);
    if Patchable(Keys(before.skills), c.request.patch) {
      PatchOutlined(before, reply.body.profile.profile, c.request.patch);
    }
  }

  lemma ProfileStep(env: Env, setNull: bool, s: Store, c: Call, user: string, id: string)
    requires Inv(s) && FreshCall(s, c) && Has(s.profiles, id, user) && !Deletes(c, user, id)
    ensures var s' := Handle(env, setNull, s, c).0;
            && Has(s'.profiles, id, user)
            && OutlineOf(s'.profiles[id].value.profile)
               == OutlineAfter(OutlineOf(s.profiles[id].value.profile), [c], user, id)
  {
    assert [c][1..] == [];
    if c.user == user && c.request.PatchProfile? && c.request.profileId == id {
      OwnPatch(env, setNull, s, c);
    } else {
      OtherProfilesStay(env, setNull, s, c, user, id);
    }
  }

  /** In every run in which its owner does not delete it, a profile becomes exactly what its owner's patches make of it:
      each accepted one sets the fields it gives and changes the skills, up to case, as it says; rejected ones and all
      other requests, by anyone, leave it alone. */
  lemma {:induction false} ProfileAfterRun(env: Env, setNull: bool, s: Store, calls: seq<Call>, user: string,
                                           id: string)
    requires Inv(s) && FreshRun(env, setNull, s, calls) && Has(s.profiles, id, user)
    requires forall c :: c in calls ==> !Deletes(c, user, id)
    ensures var end := Final(env, setNull, s, calls);
            && Has(end.profiles, id, user)
            && OutlineOf(end.profiles[id].value.profile)
               == OutlineAfter(OutlineOf(s.profiles[id].value.profile), calls, user, id)
    decreases |calls|
  {
    if calls != [] {
      assert calls[0] in calls;
      var s' := Handle(env, setNull, s, calls[0]).0;
      HandleKeepsInv(env, setNull, s, calls[0]);
      ProfileStep(env, setNull, s, calls[0], user, id);
      ProfileAfterRun(env, setNull, s', calls[1..], user, id);
      assert [calls[0]][1..] == [];
    }
  }

  lemma {:induction false} GapStays(env: Env, setNull: bool, s: Store, calls: seq<Call>, user: string, id: string)
    requires FreshRun(env, setNull, s, calls) && Lookup(s.analyses, id, user).Some?
    ensures Lookup(Final(env, setNull, s, calls).analyses, id, user).Some?
    ensures Lookup(Final(env, setNull, s, calls).analyses, id, user).value.gap == Lookup(s.analyses, id, user).value.gap
    decreases |calls|
  {
    if calls != [] {
      GapStays(env, setNull, Handle(env, setNull, s, calls[0]).0, calls[1..], user, id);
    }
  }

  /** What a user asks for who creates a profile, analyses it against a job and has a roadmap generated. */
  predicate Journey(env: Env, profile: Call, analysis: Call, roadmap: Call) {
    && profile.user == analysis.user == roadmap.user
    && profile.request.CreateProfile? && Requested(profile).Ok?
    && analysis.request.CreateAnalysis? && analysis.request.profileId == profile.newId
    && analysis.request.jobId in env.jobs
    && roadmap.request == CreateRoadmap(analysis.newId)
  }

  /** The profile a creation request asks for. */
  function Requested(c: Call): Result<UserProfile, ProfileError>
    requires c.request.CreateProfile?
  {
    Created(c.request.name, c.request.skills, c.request.experienceYears, c.request.education, c.request.targetRole)
  }

  lemma AnalysisOfTheProfile(env: Env, setNull: bool, s: Store, profile: Call, between: seq<Call>, analysis: Call,
                             roadmap: Call)
    requires FreshRun(env, setNull, s, [profile] + between + [analysis]) && Journey(env, profile, analysis, roadmap)
    requires forall c :: c in between ==> !ChangesProfile(c, profile.user, profile.newId)
    ensures var end := Final(env, setNull, s, [profile] + between + [analysis]);
            && Lookup(end.analyses, analysis.newId, profile.user).Some?
            && Lookup(end.analyses, analysis.newId, profile.user).value.gap
               == GapOf(Requested(profile).value, env.jobs[analysis.request.jobId])
  {
    RunInParts(env, setNull, s, [profile] + between, [analysis]);
    RunInParts(env, setNull, s, [profile], between);
    assert [profile][1..] == [] && [analysis][1..] == [];
    var s1 := Final(env, setNull, s, [profile]);
    ProfileStays(env, setNull, s1, between, profile.user, profile.newId);
  }

  /** From profile to match over HTTP. A user creates a profile, analyses it against a job and has a roadmap
      generated; anyone may send anything before, in between and afterwards, except that the user leaves the profile
      alone until it is analysed. Then the match recalculated from the stored roadmap is the rounded share of the
      job's required skills that the profile has or that a resource teaches whose last patch by this user says
      completed. */
  lemma MatchOverHttp(env: Env, setNull: bool, s: Store, profile: Call, between: seq<Call>, analysis: Call,
                      middle: seq<Call>, roadmap: Call, after: seq<Call>)
    requires Inv(s) && Journey(env, profile, analysis, roadmap)
    requires FreshRun(env, setNull, s, [profile] + between + [analysis] + middle + ([roadmap] + after))
    requires forall c :: c in between ==> !ChangesProfile(c, profile.user, profile.newId)
    ensures var end := Final(env, setNull, s, [profile] + between + [analysis] + middle + ([roadmap] + after));
            var (p, job) := (Requested(profile).value, env.jobs[analysis.request.jobId]);
            && Lookup(end.roadmaps, roadmap.newId, profile.user).Some?
            && var generated := Generated(GapOf(p, job), env.catalogue, roadmap.ids);
               MatchOf(p, job, end.roadmaps[roadmap.newId].value.phases)
               == Percentage(|Among(job.requiredSkills,
                                    Keys(p.skills) + Learned(generated, after, profile.user, roadmap.newId), true)|,
                             |job.requiredSkills|)
  {
    var first := [profile] + between + [analysis];
    RunInParts(env, setNull, s, first + middle, [roadmap] + after);
    RunInParts(env, setNull, s, first, middle);
    AnalysisOfTheProfile(env, setNull, s, profile, between, analysis, roadmap);
    GapStays(env, setNull, Final(env, setNull, s, first), middle, profile.user, analysis.newId);
    RunKeepsInv(env, setNull, s, first + middle);
    MatchOfStoredRoadmap(env, setNull, Final(env, setNull, s, first + middle), roadmap, Requested(profile).value,
                         env.jobs[analysis.request.jobId], after);
  }
}
