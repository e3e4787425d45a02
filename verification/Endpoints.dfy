/** What each endpoint answers and stores, said in terms of the request and of what its user has. */
module Endpoints {
  import opened Common
  import opened Models
  import opened Gap
  import opened Roadmap
  import opened RefreshTokens
  import opened RoadmapRecords
  import opened Profiles
  import opened Store

  /** The user has a record under the id. */
  predicate Has<T>(records: map<string, Owned<T>>, id: string, user: string) {
    id in records && records[id].owner == user
  }

  // -------------------------------------------------------------------------
  // Profiles
  // -------------------------------------------------------------------------

  /** What a creation request must meet. */
  ghost predicate Acceptable(r: Request)
    requires r.CreateProfile?
  {
    && Strip(r.name) != "" && Strip(r.targetRole) != "" && r.skills != []
    && (forall skill :: skill in r.skills ==> Strip(skill) != "" && |Strip(skill)| <= 100)
    && |NamedKeys(r.skills)| <= 30
  }

  /** The profile has what was asked for, each text in its own field and without the white space around it. */
  ghost predicate AsAsked(profile: UserProfile, r: Request)
    requires r.CreateProfile?
  {
    && profile.name == Strip(r.name)
    && profile.experienceYears == r.experienceYears
    && profile.education == Strip(r.education)
    && profile.targetRole == Strip(r.targetRole)
    && ValidSkills(profile.skills) && Keys(profile.skills) == NamedKeys(r.skills)
  }

  lemma CreatedAsAsked(r: Request)
    requires r.CreateProfile?
    ensures var created := Created(r.name, r.skills, r.experienceYears, r.education, r.targetRole);
            (created.Ok? <==> Acceptable(r)) && (created.Ok? ==> AsAsked(created.value, r))
  {
    CreationAccepted(r.name, r.skills, r.experienceYears, r.education, r.targetRole);
  }

  /** POST /profiles: 201 exactly for a name and a role that are not blank and at least one skill, none blank or over 100
      characters and at most thirty different ones; what is stored is what was asked for. */
  lemma ProfileCreation(env: Env, setNull: bool, s: Store, c: Call)
    requires FreshCall(s, c) && c.request.CreateProfile?
    ensures var (s', reply) := Handle(env, setNull, s, c);
            if Acceptable(c.request) then
              && reply.status == 201 && reply.code == "" && reply.body.ProfileBody?
              && var stored := reply.body.profile;
                 && s' == s.(profiles := s.profiles[c.newId := Owned(c.user, stored)])
                 && stored.id == c.newId && stored.createdAt == stored.updatedAt == c.now
                 && AsAsked(stored.profile, c.request)
            else reply == Reply(400, "PROFILE_INVALID", Nothing) && s' == s
  {
    CreatedAsAsked(c.request);
  }

  lemma ProfileReading(env: Env, setNull: bool, s: Store, c: Call)
    requires c.request.GetProfile?
    ensures var (s', reply) := Handle(env, setNull, s, c);
            && s' == s
            && reply == if Has(s.profiles, c.request.profileId, c.user)
                        then Reply(200, "", ProfileBody(s.profiles[c.request.profileId].value))
                        else Reply(404, "NOT_FOUND", Nothing)
  {
  }

  /** A given value is taken over and an absent one leaves the old value. */
  predicate Overrides<T(==)>(given: Option<T>, before: T, after: T) {
    (given.Some? ==> after == given.value) && (given.None? ==> after == before)
  }

  /** The skills, up to case, that a patch leaves. */
  function KeysLeft(keys: set<string>, patch: ProfilePatch): set<string> {
    keys + NamedKeys(patch.added) - NamedKeys(patch.removed)
  }

  /** Whether a profile with these skills takes the patch: 1 to 30 skills are left, and what is new is short enough. */
  predicate Patchable(keys: set<string>, patch: ProfilePatch) {
    && 1 <= |KeysLeft(keys, patch)| <= 30
    && forall raw :: raw in patch.added && Strip(raw) != "" && Lower(Strip(raw)) !in keys + NamedKeys(patch.removed) ==>
                       |Strip(raw)| <= 100
  }

  /** The skills are (old and added) without removed, and each other field is the given one or the old one. */
  ghost predicate AsPatched(before: UserProfile, after: UserProfile, patch: ProfilePatch) {
    && Overrides(patch.name, before.name, after.name)
    && Overrides(patch.experienceYears, before.experienceYears, after.experienceYears)
    && Overrides(patch.education, before.education, after.education)
    && Overrides(patch.targetRole, before.targetRole, after.targetRole)
    && ValidSkills(after.skills) && Keys(after.skills) == KeysLeft(Keys(before.skills), patch)
  }

  lemma UpdatedAsPatched(profile: UserProfile, patch: ProfilePatch)
    requires ValidSkills(profile.skills)
    ensures var updated := Updated(profile, patch.added, patch.removed);
            && (updated.Ok? <==> Patchable(Keys(profile.skills), patch))
            && (updated.Ok? ==> AsPatched(profile, Overridden(updated.value, patch), patch))
  {
    UpdateAccepted(profile, patch.added, patch.removed);
    PatchEffect(profile.skills, patch.added, patch.removed);
  }

  lemma PatchRefused(s: Store, setNull: bool, c: Call)
    requires Inv(s) && c.request.PatchProfile? && Has(s.profiles, c.request.profileId, c.user)
    requires !Patchable(Keys(s.profiles[c.request.profileId].value.profile.skills), c.request.patch)
    ensures HandleProfile(s, setNull, c) == (s, Reply(400, "PROFILE_INVALID", Nothing))
  {
    assert ProfileOk(s, c.request.profileId);
    UpdatedAsPatched(s.profiles[c.request.profileId].value.profile, c.request.patch);
  }

  lemma PatchTaken(s: Store, setNull: bool, c: Call) returns (after: ProfileRecord)
    requires Inv(s) && c.request.PatchProfile? && Has(s.profiles, c.request.profileId, c.user)
    requires Patchable(Keys(s.profiles[c.request.profileId].value.profile.skills), c.request.patch)
    ensures HandleProfile(s, setNull, c)
            == (s.(profiles := s.profiles[c.request.profileId := Owned(c.user, after)]), Reply(200, "", ProfileBody(after)))
    ensures var before := s.profiles[c.request.profileId].value;
            && after.id == before.id && after.createdAt == before.createdAt && after.updatedAt == c.now
            && AsPatched(before.profile, after.profile, c.request.patch)
  {
    var r := s.profiles[c.request.profileId].value;
    assert ProfileOk(s, c.request.profileId);
    UpdatedAsPatched(r.profile, c.request.patch);
    var working := Updated(r.profile, c.request.patch.added, c.request.patch.removed).value;
    after := r.(profile := Overridden(working, c.request.patch), updatedAt := c.now);
  }

  /** PATCH /profiles/{id}: 200 exactly for the user's own profile and a list of skills that stays valid. Each of the
      four other fields is the given value, or stays as it was; id, owner and creation time stay; nothing else changes. */
  lemma ProfilePatching(env: Env, setNull: bool, s: Store, c: Call)
    requires Inv(s) && c.request.PatchProfile?
    ensures var (s', reply) := Handle(env, setNull, s, c);
            var id := c.request.profileId;
            if !Has(s.profiles, id, c.user) then reply == Reply(404, "NOT_FOUND", Nothing) && s' == s
            else if Patchable(Keys(s.profiles[id].value.profile.skills), c.request.patch) then
              && reply.status == 200 && reply.code == "" && reply.body.ProfileBody?
              && var (before, after) := (s.profiles[id].value, reply.body.profile);
                 && s' == s.(profiles := s.profiles[id := Owned(c.user, after)])
                 && after.id == before.id && after.createdAt == before.createdAt && after.updatedAt == c.now
                 && AsPatched(before.profile, after.profile, c.request.patch)
            else reply == Reply(400, "PROFILE_INVALID", Nothing) && s' == s
  {
    if Has(s.profiles, c.request.profileId, c.user) {
      if Patchable(Keys(s.profiles[c.request.profileId].value.profile.skills), c.request.patch) {
        var after := PatchTaken(s, setNull, c);
      } else {
        PatchRefused(s, setNull, c);
      }
    }
  }

  /** What a PATCH answered is what is read next. */
  lemma PatchIsRead(env: Env, setNull: bool, s: Store, patch: Call, get: Call)
    requires patch.request.PatchProfile? && get.user == patch.user
    requires get.request == GetProfile(patch.request.profileId)
    requires Handle(env, setNull, s, patch).1.status == 200
    ensures Handle(env, setNull, Handle(env, setNull, s, patch).0, get).1 == Handle(env, setNull, s, patch).1
  {
  }

  /** DELETE /profiles/{id}: 204 exactly for the user's own profile, which is then gone; where references are cleared,
      its analyses lose theirs, and nothing else changes. */
  lemma ProfileDeletion(env: Env, setNull: bool, s: Store, c: Call)
    requires c.request.DeleteProfile?
    ensures var (s', reply) := Handle(env, setNull, s, c);
            var id := c.request.profileId;
            if !Has(s.profiles, id, c.user) then reply == Reply(404, "NOT_FOUND", Nothing) && s' == s
            else
              && reply == Reply(204, "", Nothing)
              && s'.profiles == s.profiles - {id}
              && s'.roadmaps == s.roadmaps && s'.analyses.Keys == s.analyses.Keys
              && forall a :: a in s.analyses ==>
                   && s'.analyses[a].owner == s.analyses[a].owner
                   && s'.analyses[a].value
                      == if setNull && s.analyses[a].value.profileId == id
                         then s.analyses[a].value.(profileId := "") else s.analyses[a].value
  {
  }

  // -------------------------------------------------------------------------
  // Analyses
  // -------------------------------------------------------------------------

  /** POST /analyses: the profile is looked for first and must be the user's, then the job, which is anyone's. The
      analysis is of that profile against that job, under their ids; its categories come from the missing skills and
      the matched ones, in this order. */
  lemma AnalysisCreation(env: Env, setNull: bool, s: Store, c: Call)
    requires FreshCall(s, c) && c.request.CreateAnalysis?
    ensures var (s', reply) := Handle(env, setNull, s, c);
            var (profileId, jobId) := (c.request.profileId, c.request.jobId);
            if !Has(s.profiles, profileId, c.user) then reply == Reply(404, "PROFILE_NOT_FOUND", Nothing) && s' == s
            else if jobId !in env.jobs then reply == Reply(404, "JOB_NOT_FOUND", Nothing) && s' == s
            else
              && reply.status == 201 && reply.code == "" && reply.body.AnalysisBody?
              && var stored := reply.body.analysis;
                 && s' == s.(analyses := s.analyses[c.newId := Owned(c.user, stored)])
                 && stored.id == c.newId && stored.profileId == profileId && stored.jobId == jobId
                 && stored.createdAt == c.now
                 && stored.gap == GapOf(s.profiles[profileId].value.profile, env.jobs[jobId])
                 && stored.categorization
                    == env.categorize(stored.gap.missingRequired + stored.gap.missingPreferred,
                                      stored.gap.matchedRequired + stored.gap.matchedPreferred)
  {
  }

  lemma AnalysisReading(env: Env, setNull: bool, s: Store, c: Call)
    requires c.request.GetAnalysis?
    ensures var (s', reply) := Handle(env, setNull, s, c);
            && s' == s
            && reply == if Has(s.analyses, c.request.analysisId, c.user)
                        then Reply(200, "", AnalysisBody(s.analyses[c.request.analysisId].value))
                        else Reply(404, "ANALYSIS_NOT_FOUND", Nothing)
  {
  }

  // -------------------------------------------------------------------------
  // Roadmaps
  // -------------------------------------------------------------------------

  /** POST /roadmaps: 201 exactly for the user's own analysis; the roadmap is generated from its gap. */
  lemma RoadmapCreation(env: Env, setNull: bool, s: Store, c: Call)
    requires FreshCall(s, c) && c.request.CreateRoadmap?
    ensures var (s', reply) := Handle(env, setNull, s, c);
            var analysisId := c.request.analysisId;
            if !Has(s.analyses, analysisId, c.user) then reply == Reply(404, "ANALYSIS_NOT_FOUND", Nothing) && s' == s
            else
              && reply.status == 201 && reply.code == "" && reply.body.RoadmapBody?
              && var stored := reply.body.roadmap;
                 && s' == s.(roadmaps := s.roadmaps[c.newId := Owned(c.user, stored)])
                 && stored.id == c.newId && stored.analysisId == analysisId
                 && stored.createdAt == stored.updatedAt == c.now
                 && stored.phases == Generated(s.analyses[analysisId].value.gap, env.catalogue, c.ids)
  {
  }

  /** The roadmaps differ in one flag at most: that of the resource with the id. */
  ghost predicate OnlyFlag(before: seq<Phase>, after: seq<Phase>, resourceId: string, completed: bool) {
    && |after| == |before|
    && (forall p :: 0 <= p < |before| ==>
          after[p].period == before[p].period && |after[p].resources| == |before[p].resources|)
    && (forall p, i :: At(before, p, i) ==>
          var (old_, new_) := (before[p].resources[i], after[p].resources[i]);
          && new_.(completed := old_.completed) == old_
          && new_.completed == if old_.id == resourceId then completed else old_.completed)
  }

  /** The roadmap lists a resource with the id. */
  ghost predicate Lists(phases: seq<Phase>, resourceId: string) {
    exists p, i :: At(phases, p, i) && phases[p].resources[i].id == resourceId
  }

  lemma PatchedFlag(v: RoadmapValue, resourceId: string, completed: bool, now: Instant)
    ensures var patched := Patched(v, resourceId, completed, now);
            && (patched.Some? <==> Lists(v.phases, resourceId))
            && (patched.Some? ==>
                  && patched.value.id == v.id && patched.value.analysisId == v.analysisId
                  && patched.value.createdAt == v.createdAt && patched.value.updatedAt == now
                  && OnlyFlag(v.phases, patched.value.phases, resourceId, completed))
  {
    if HasResource(v.phases, resourceId) {
      var p, i :| 0 <= p < |v.phases| && 0 <= i < |v.phases[p].resources| && v.phases[p].resources[i].id == resourceId;
      assert At(v.phases, p, i);
    }
  }

  /** PATCH /roadmaps/{id}/resources/{rid}: a roadmap that is missing or someone else's is told apart from a resource
      that is not in it; otherwise the flag of that resource is set and nothing else but the timestamp changes. */
  lemma ResourcePatching(env: Env, setNull: bool, s: Store, c: Call)
    requires c.request.PatchResource?
    ensures var (s', reply) := Handle(env, setNull, s, c);
            var (id, resourceId) := (c.request.roadmapId, c.request.resourceId);
            if !Has(s.roadmaps, id, c.user) then reply == Reply(404, "ROADMAP_NOT_FOUND", Nothing) && s' == s
            else if !Lists(s.roadmaps[id].value.phases, resourceId) then
              reply == Reply(404, "RESOURCE_NOT_FOUND", Nothing) && s' == s
            else
              && reply.status == 200 && reply.code == "" && reply.body.RoadmapBody?
              && var (before, after) := (s.roadmaps[id].value, reply.body.roadmap);
                 && s' == s.(roadmaps := s.roadmaps[id := Owned(c.user, after)])
                 && after.id == before.id && after.analysisId == before.analysisId
                 && after.createdAt == before.createdAt && after.updatedAt == c.now
                 && OnlyFlag(before.phases, after.phases, resourceId, c.request.completed)
  {
    if Has(s.roadmaps, c.request.roadmapId, c.user) {
      PatchedFlag(s.roadmaps[c.request.roadmapId].value, c.request.resourceId, c.request.completed, c.now);
    }
  }
}
