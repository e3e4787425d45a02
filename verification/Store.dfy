/** What the profile, analysis and roadmap endpoints do to the stored records, whatever holds them. */
module Store {
  import opened Common
  import opened Models
  import opened Gap
  import opened Roadmap
  import opened RefreshTokens
  import opened RoadmapRecords
  import opened Profiles

  datatype ProfileRecord = ProfileRecord(id: string, profile: UserProfile, createdAt: Instant, updatedAt: Instant)

  datatype AnalysisRecord = AnalysisRecord(
    id: string,
    profileId: string,
    jobId: string,
    gap: GapResult,
    categorization: Categorization,
    createdAt: Instant)

  datatype Store = Store(
    profiles: map<string, Owned<ProfileRecord>>,
    analyses: map<string, Owned<AnalysisRecord>>,
    roadmaps: map<string, Owned<RoadmapValue>>)

  const EMPTY := Store(map[], map[], map[])

  /** The job catalogue, the resource catalogue and the categorizer: shared by all users, changed by none. */
  datatype Env = Env(
    jobs: map<string, Job>,
    catalogue: seq<Resource>,
    categorize: (seq<string>, seq<string>) -> Categorization)

  datatype ProfilePatch = ProfilePatch(
    added: seq<string>,
    removed: seq<string>,
    name: Option<string>,
    experienceYears: Option<int>,
    education: Option<string>,
    targetRole: Option<string>)

  datatype Request =
    | CreateProfile(name: string, skills: seq<string>, experienceYears: int, education: string, targetRole: string)
    | GetProfile(profileId: string)
    | PatchProfile(profileId: string, patch: ProfilePatch)
    | DeleteProfile(profileId: string)
    | CreateAnalysis(profileId: string, jobId: string)
    | GetAnalysis(analysisId: string)
    | CreateRoadmap(analysisId: string)
    | PatchResource(roadmapId: string, resourceId: string, completed: bool)

  /** A validated request of an authenticated user, with the clock and the ids the handler would draw. */
  datatype Call = Call(user: string, request: Request, newId: string, ids: nat -> string, now: Instant)

  datatype Body =
    | Nothing
    | ProfileBody(profile: ProfileRecord)
    | AnalysisBody(analysis: AnalysisRecord)
    | RoadmapBody(roadmap: RoadmapValue)

  datatype Reply = Reply(status: nat, code: string, body: Body)

  function Refused(status: nat, code: string): Reply {
    Reply(status, code, Nothing)
  }

  // -------------------------------------------------------------------------
  // The handlers
  // -------------------------------------------------------------------------

  /** The direct field overrides of a PATCH; an absent field stays as it is. */
  function Overridden(profile: UserProfile, patch: ProfilePatch): UserProfile {
    UserProfile(
      if patch.name.Some? then patch.name.value else profile.name,
      profile.skills,
      if patch.experienceYears.Some? then patch.experienceYears.value else profile.experienceYears,
      if patch.education.Some? then patch.education.value else profile.education,
      if patch.targetRole.Some? then patch.targetRole.value else profile.targetRole)
  }

  function AddProfile(s: Store, user: string, r: ProfileRecord): Store {
    s.(profiles := s.profiles[r.id := Owned(user, r)])
  }

  function AddAnalysis(s: Store, user: string, r: AnalysisRecord): Store {
    s.(analyses := s.analyses[r.id := Owned(user, r)])
  }

  function AddRoadmap(s: Store, user: string, r: RoadmapValue): Store {
    s.(roadmaps := s.roadmaps[r.id := Owned(user, r)])
  }

  /** ON DELETE SET NULL on `analyses.profile_id`, where the database enforces it; NULL reads back as "". */
  function Detached(a: Owned<AnalysisRecord>, profileId: string): Owned<AnalysisRecord> {
    if a.value.profileId == profileId then a.(value := a.value.(profileId := "")) else a
  }

  function DropProfile(s: Store, setNull: bool, id: string): Store {
    s.(profiles := s.profiles - {id},
       analyses := if setNull then map a | a in s.analyses :: Detached(s.analyses[a], id) else s.analyses)
  }

  function AnalysisOf(env: Env, c: Call, profile: UserProfile): AnalysisRecord
    requires c.request.CreateAnalysis? && c.request.jobId in env.jobs
  {
    var gap := GapOf(profile, env.jobs[c.request.jobId]);
    AnalysisRecord(c.newId, c.request.profileId, c.request.jobId, gap,
                   env.categorize(gap.missingRequired + gap.missingPreferred, gap.matchedRequired + gap.matchedPreferred),
                   c.now)
  }

  function RoadmapOf(env: Env, c: Call, gap: GapResult): RoadmapValue
    requires c.request.CreateRoadmap?
  {
    RoadmapValue(c.newId, c.request.analysisId, Generated(gap, env.catalogue, c.ids), c.now, c.now)
  }

  function HandleProfile(s: Store, setNull: bool, c: Call): (Store, Reply)
    requires c.request.CreateProfile? || c.request.GetProfile? || c.request.PatchProfile? || c.request.DeleteProfile?
  {
    match c.request
    case CreateProfile(name, skills, years, education, targetRole) =>
      (match Created(name, skills, years, education, targetRole)
       case Err(_) => (s, Refused(400, "PROFILE_INVALID"))
       case Ok(profile) =>
         var r := ProfileRecord(c.newId, profile, c.now, c.now);
         (AddProfile(s, c.user, r), Reply(201, "", ProfileBody(r))))
    case GetProfile(id) =>
      (match Lookup(s.profiles, id, c.user)
       case None => (s, Refused(404, "NOT_FOUND"))
       case Some(r) => (s, Reply(200, "", ProfileBody(r))))
    case PatchProfile(id, patch) =>
      (match Lookup(s.profiles, id, c.user)
       case None => (s, Refused(404, "NOT_FOUND"))
       case Some(r) =>
         match Updated(r.profile, patch.added, patch.removed)
         case Err(_) => (s, Refused(400, "PROFILE_INVALID"))
         case Ok(working) =>
           var r' := r.(profile := Overridden(working, patch), updatedAt := c.now);
           (s.(profiles := s.profiles[id := Owned(c.user, r')]), Reply(200, "", ProfileBody(r'))))
    case DeleteProfile(id) =>
      (match Lookup(s.profiles, id, c.user)
       case None => (s, Refused(404, "NOT_FOUND"))
       case Some(_) => (DropProfile(s, setNull, id), Reply(204, "", Nothing)))
  }

  function HandleAnalysis(env: Env, s: Store, c: Call): (Store, Reply)
    requires c.request.CreateAnalysis? || c.request.GetAnalysis?
  {
    match c.request
    case CreateAnalysis(profileId, jobId) =>
      (match Lookup(s.profiles, profileId, c.user)
       case None => (s, Refused(404, "PROFILE_NOT_FOUND"))
       case Some(p) =>
         if jobId !in env.jobs then (s, Refused(404, "JOB_NOT_FOUND"))
         else
           var r := AnalysisOf(env, c, p.profile);
           (AddAnalysis(s, c.user, r), Reply(201, "", AnalysisBody(r))))
    case GetAnalysis(id) =>
      (match Lookup(s.analyses, id, c.user)
       case None => (s, Refused(404, "ANALYSIS_NOT_FOUND"))
       case Some(r) => (s, Reply(200, "", AnalysisBody(r))))
  }

  function HandleRoadmap(env: Env, s: Store, c: Call): (Store, Reply)
    requires c.request.CreateRoadmap? || c.request.PatchResource?
  {
    match c.request
    case CreateRoadmap(analysisId) =>
      (match Lookup(s.analyses, analysisId, c.user)
       case None => (s, Refused(404, "ANALYSIS_NOT_FOUND"))
       case Some(a) =>
         var r := RoadmapOf(env, c, a.gap);
         (AddRoadmap(s, c.user, r), Reply(201, "", RoadmapBody(r))))
    case PatchResource(id, resourceId, completed) =>
      (match Lookup(s.roadmaps, id, c.user)
       case None => (s, Refused(404, "ROADMAP_NOT_FOUND"))
       case Some(v) =>
         match Patched(v, resourceId, completed, c.now)
         case None => (s, Refused(404, "RESOURCE_NOT_FOUND"))
         case Some(v') => (s.(roadmaps := s.roadmaps[id := Owned(c.user, v')]), Reply(200, "", RoadmapBody(v'))))
  }

  /** One request. `setNull` says whether deleting a profile clears `profile_id` of its analyses. */
  function Handle(env: Env, setNull: bool, s: Store, c: Call): (Store, Reply) {
    if c.request.CreateProfile? || c.request.GetProfile? || c.request.PatchProfile? || c.request.DeleteProfile?
    then HandleProfile(s, setNull, c)
    else if c.request.CreateAnalysis? || c.request.GetAnalysis? then HandleAnalysis(env, s, c)
    else HandleRoadmap(env, s, c)
  }

  // -------------------------------------------------------------------------
  // Runs
  // -------------------------------------------------------------------------

  /** The drawn ids are new: neither stored, nor still referred to by an analysis of a deleted profile. */
  ghost predicate FreshCall(s: Store, c: Call) {
    && c.newId != "" && FreshIds(c.ids)
    && c.newId !in s.profiles && c.newId !in s.analyses && c.newId !in s.roadmaps
    && forall a :: a in s.analyses ==> s.analyses[a].value.profileId != c.newId
  }

  ghost predicate FreshRun(env: Env, setNull: bool, s: Store, calls: seq<Call>)
    decreases |calls|
  {
    calls == [] || (FreshCall(s, calls[0]) && FreshRun(env, setNull, Handle(env, setNull, s, calls[0]).0, calls[1..]))
  }

  function Final(env: Env, setNull: bool, s: Store, calls: seq<Call>): Store
    decreases |calls|
  {
    if calls == [] then s else Final(env, setNull, Handle(env, setNull, s, calls[0]).0, calls[1..])
  }

  function Replies(env: Env, setNull: bool, s: Store, calls: seq<Call>): (replies: seq<Reply>)
    ensures |replies| == |calls|
    decreases |calls|
  {
    if calls == [] then []
    else
      var (s', reply) := Handle(env, setNull, s, calls[0]);
      [reply] + Replies(env, setNull, s', calls[1..])
  }

  // -------------------------------------------------------------------------
  // The invariant: records that refer to each other have one owner
  // -------------------------------------------------------------------------

  ghost predicate RoadmapOk(s: Store, id: string)
    requires id in s.roadmaps
  {
    var r := s.roadmaps[id];
    && r.value.id == id && DistinctIds(r.value.phases)
    && r.value.analysisId in s.analyses && s.analyses[r.value.analysisId].owner == r.owner
  }

  ghost predicate AnalysisOk(s: Store, id: string)
    requires id in s.analyses
  {
    var a := s.analyses[id];
    && a.value.id == id
    && (a.value.profileId in s.profiles ==> s.profiles[a.value.profileId].owner == a.owner)
  }

  ghost predicate ProfileOk(s: Store, id: string)
    requires id in s.profiles
  {
    id != "" && s.profiles[id].value.id == id && ValidSkills(s.profiles[id].value.profile.skills)
  }

  ghost predicate Inv(s: Store) {
    && (forall id {:trigger ProfileOk(s, id)} :: id in s.profiles ==> ProfileOk(s, id))
    && (forall id {:trigger AnalysisOk(s, id)} :: id in s.analyses ==> AnalysisOk(s, id))
    && (forall id {:trigger RoadmapOk(s, id)} :: id in s.roadmaps ==> RoadmapOk(s, id))
  }

  /** What a request stores as skills is valid. */
  lemma StoredSkillsValid(s: Store, c: Call)
    requires Inv(s)
    ensures c.request.CreateProfile? ==>
              var r := Created(c.request.name, c.request.skills, c.request.experienceYears, c.request.education,
                               c.request.targetRole);
              r.Ok? ==> ValidSkills(r.value.skills)
    ensures c.request.PatchProfile? && Lookup(s.profiles, c.request.profileId, c.user).Some? ==>
              var r := Updated(Lookup(s.profiles, c.request.profileId, c.user).value.profile, c.request.patch.added,
                               c.request.patch.removed);
              r.Ok? ==> ValidSkills(r.value.skills)
  {
    if c.request.CreateProfile? {
      CreationAccepted(c.request.name, c.request.skills, c.request.experienceYears, c.request.education,
                       c.request.targetRole);
    }
    if c.request.PatchProfile? && Lookup(s.profiles, c.request.profileId, c.user).Some? {
      assert ProfileOk(s, c.request.profileId);
      UpdateAccepted(Lookup(s.profiles, c.request.profileId, c.user).value.profile, c.request.patch.added,
                     c.request.patch.removed);
    }
  }

  lemma ProfileStepKeepsInv(s: Store, setNull: bool, c: Call)
    requires Inv(s) && FreshCall(s, c)
    requires c.request.CreateProfile? || c.request.GetProfile? || c.request.PatchProfile? || c.request.DeleteProfile?
    ensures Inv(HandleProfile(s, setNull, c).0)
  {
    var s' := HandleProfile(s, setNull, c).0;
    forall id | id in s'.profiles
      ensures ProfileOk(s', id)
    {
      if id in s.profiles {
        assert ProfileOk(s, id);
      }
      StoredSkillsValid(s, c);
    }
    forall id | id in s'.analyses
      ensures AnalysisOk(s', id)
    {
      assert AnalysisOk(s, id);
    }
    forall id | id in s'.roadmaps
      ensures RoadmapOk(s', id)
    {
      assert RoadmapOk(s, id);
    }
  }

  lemma AnalysisStepKeepsInv(env: Env, s: Store, c: Call)
    requires Inv(s) && FreshCall(s, c) && (c.request.CreateAnalysis? || c.request.GetAnalysis?)
    ensures Inv(HandleAnalysis(env, s, c).0)
  {
    var s' := HandleAnalysis(env, s, c).0;
    forall id | id in s'.profiles
      ensures ProfileOk(s', id)
    {
      assert ProfileOk(s, id);
    }
    forall id | id in s'.analyses
      ensures AnalysisOk(s', id)
    {
      assert id in s.analyses ==> AnalysisOk(s, id);
    }
    forall id | id in s'.roadmaps
      ensures RoadmapOk(s', id)
    {
      assert RoadmapOk(s, id);
    }
  }

  lemma NewRoadmapOk(env: Env, s: Store, c: Call)
    requires FreshCall(s, c) && c.request.CreateRoadmap? && Lookup(s.analyses, c.request.analysisId, c.user).Some?
    ensures var s' := HandleRoadmap(env, s, c).0;
            c.newId in s'.roadmaps && RoadmapOk(s', c.newId)
  {
    GeneratedDistinct(Lookup(s.analyses, c.request.analysisId, c.user).value.gap, env.catalogue, c.ids);
  }

  lemma PatchedRoadmapOk(env: Env, s: Store, c: Call, id: string)
    requires c.request.PatchResource? && id in s.roadmaps && RoadmapOk(s, id)
    ensures var s' := HandleRoadmap(env, s, c).0;
            id in s'.roadmaps && RoadmapOk(s', id)
  {
    WithCompletedKeepsIds(s.roadmaps[id].value.phases, c.request.resourceId, c.request.completed);
  }

  lemma OnlyRoadmapsChanged(s: Store, s': Store)
    requires Inv(s) && s'.profiles == s.profiles && s'.analyses == s.analyses
    requires forall id {:trigger RoadmapOk(s', id)} :: id in s'.roadmaps ==> RoadmapOk(s', id)
    ensures Inv(s')
  {
    forall id | id in s'.profiles
      ensures ProfileOk(s', id)
    {
      assert ProfileOk(s, id);
    }
    forall id | id in s'.analyses
      ensures AnalysisOk(s', id)
    {
      assert AnalysisOk(s, id);
    }
  }

  lemma RoadmapStepKeepsInv(env: Env, s: Store, c: Call)
    requires Inv(s) && FreshCall(s, c) && (c.request.CreateRoadmap? || c.request.PatchResource?)
    ensures Inv(HandleRoadmap(env, s, c).0)
  {
    var s' := HandleRoadmap(env, s, c).0;
    forall id | id in s'.roadmaps
      ensures RoadmapOk(s', id)
    {
      if id !in s.roadmaps {
        NewRoadmapOk(env, s, c);
      } else {
        assert RoadmapOk(s, id);
        if c.request.PatchResource? {
          PatchedRoadmapOk(env, s, c, id);
        }
      }
    }
    OnlyRoadmapsChanged(s, s');
  }

  lemma HandleKeepsInv(env: Env, setNull: bool, s: Store, c: Call)
    requires Inv(s) && FreshCall(s, c)
    ensures Inv(Handle(env, setNull, s, c).0)
  {
    if c.request.CreateProfile? || c.request.GetProfile? || c.request.PatchProfile? || c.request.DeleteProfile? {
      ProfileStepKeepsInv(s, setNull, c);
    } else if c.request.CreateAnalysis? || c.request.GetAnalysis? {
      AnalysisStepKeepsInv(env, s, c);
    } else {
      RoadmapStepKeepsInv(env, s, c);
    }
  }

  /** In every reachable store, a roadmap has the owner of its analysis and an analysis that of its profile, and
      every profile's skills are valid. */
  lemma {:induction false} RunKeepsInv(env: Env, setNull: bool, s: Store, calls: seq<Call>)
    requires Inv(s) && FreshRun(env, setNull, s, calls)
    ensures Inv(Final(env, setNull, s, calls))
    decreases |calls|
  {
    if calls != [] {
      HandleKeepsInv(env, setNull, s, calls[0]);
      RunKeepsInv(env, setNull, Handle(env, setNull, s, calls[0]).0, calls[1..]);
    }
  }
}
