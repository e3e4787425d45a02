/** The endpoints, written once over whichever backend the application was started with. */
module Handlers {
  import opened Common
  import opened Models
  import opened Gap
  import opened RefreshTokens
  import opened RoadmapObjects
  import opened RoadmapRecords
  import opened Profiles
  import opened Store
  import opened Repositories

  datatype Backend =
    | InMemory(
        profiles: InMemoryProfileRepository,
        analyses: InMemoryAnalysisRepository,
        roadmaps: InMemoryRoadmapRepository)
    | Sql(
        db: Database,
        profileRows: SqlProfileRepository,
        analysisRows: SqlAnalysisRepository,
        roadmapRows: SqlRoadmapRepository)

  ghost function Footprint(b: Backend): set<object>
    reads if b.InMemory? then {b.roadmaps} else {}
  {
    match b
    case InMemory(profiles, analyses, roadmaps) => {profiles, analyses, roadmaps} + roadmaps.repr
    case Sql(db, _, _, _) => {db}
  }

  ghost predicate BackendOk(b: Backend)
    reads Footprint(b)
  {
    match b
    case InMemory(profiles, analyses, roadmaps) =>
      && roadmaps.Valid() && profiles !in roadmaps.repr && analyses !in roadmaps.repr
      && roadmaps.owners.Keys == roadmaps.records.Keys
    case Sql(db, profileRows, analysisRows, roadmapRows) =>
      db.Valid() && profileRows.db == db && analysisRows.db == db && roadmapRows.db == db
  }

  ghost function View(b: Backend): Store
    requires BackendOk(b)
    reads Footprint(b)
  {
    match b
    case InMemory(profiles, analyses, roadmaps) => Store(profiles.View(), analyses.View(), roadmaps.View())
    case Sql(db, _, _, _) => db.View()
  }

  /** Only a database that enforces foreign keys clears references to a deleted profile. */
  function SetsNull(b: Backend): bool {
    b.Sql? && b.db.enforcesForeignKeys
  }

  // -------------------------------------------------------------------------
  // The repository protocol: one contract for both backends
  // -------------------------------------------------------------------------

  method CreateProfileForUser(b: Backend, user: string, profile: UserProfile, newId: string, now: Instant)
    returns (record: ProfileRecord)
    requires BackendOk(b) && newId != "" && newId !in View(b).profiles
    modifies Footprint(b)
    ensures BackendOk(b) && Footprint(b) == old(Footprint(b))
    ensures record == ProfileRecord(newId, profile, now, now)
    ensures View(b) == AddProfile(old(View(b)), user, record)
  {
    match b
    case InMemory(profiles, analyses, roadmaps) =>
      record := profiles.CreateForUser(user, profile, newId, now);
      assert unchanged(analyses, roadmaps, roadmaps.repr);
    case Sql(db, rows, _, _) => record := rows.CreateForUser(user, profile, newId, now);
  }

  function GetProfileForUser(b: Backend, profileId: string, user: string): (record: Option<ProfileRecord>)
    requires BackendOk(b)
    reads Footprint(b)
    ensures record == Lookup(View(b).profiles, profileId, user)
  {
    match b
    case InMemory(profiles, _, _) => profiles.GetForUser(profileId, user)
    case Sql(_, rows, _, _) => rows.GetForUser(profileId, user)
  }

  method UpdateProfileForUser(b: Backend, profileId: string, user: string, profile: UserProfile, now: Instant)
    returns (updated: Option<ProfileRecord>)
    requires BackendOk(b)
    modifies Footprint(b)
    ensures BackendOk(b) && Footprint(b) == old(Footprint(b))
    ensures var found := old(Lookup(View(b).profiles, profileId, user));
            && updated == (if found.Some? then Some(found.value.(profile := profile, updatedAt := now)) else None)
            && View(b) == if found.Some?
                          then old(View(b)).(profiles := old(View(b)).profiles[profileId := Owned(user, updated.value)])
                          else old(View(b))
  {
    match b
    case InMemory(profiles, analyses, roadmaps) =>
      updated := profiles.UpdateForUser(profileId, user, profile, now);
      assert unchanged(analyses, roadmaps, roadmaps.repr);
    case Sql(_, rows, _, _) => updated := rows.UpdateForUser(profileId, user, profile, now);
  }

  method DeleteProfileForUser(b: Backend, profileId: string, user: string) returns (deleted: bool)
    requires BackendOk(b)
    modifies Footprint(b)
    ensures BackendOk(b) && Footprint(b) == old(Footprint(b))
    ensures deleted <==> old(Lookup(View(b).profiles, profileId, user)).Some?
    ensures View(b) == if deleted then DropProfile(old(View(b)), SetsNull(b), profileId) else old(View(b))
  {
    match b
    case InMemory(profiles, analyses, roadmaps) =>
      deleted := profiles.DeleteForUser(profileId, user);
      assert unchanged(analyses, roadmaps, roadmaps.repr);
    case Sql(_, rows, _, _) => deleted := rows.DeleteForUser(profileId, user);
  }

  method CreateAnalysisForUser(b: Backend, user: string, record: AnalysisRecord) returns (stored: AnalysisRecord)
    requires BackendOk(b) && record.id !in View(b).analyses
    modifies Footprint(b)
    ensures BackendOk(b) && Footprint(b) == old(Footprint(b))
    ensures stored == record && View(b) == AddAnalysis(old(View(b)), user, record)
  {
    match b
    case InMemory(profiles, analyses, roadmaps) =>
      stored := analyses.CreateForUser(user, record);
      assert unchanged(profiles, roadmaps, roadmaps.repr);
    case Sql(_, _, rows, _) => stored := rows.CreateForUser(user, record);
  }

  function GetAnalysisForUser(b: Backend, analysisId: string, user: string): (record: Option<AnalysisRecord>)
    requires BackendOk(b)
    reads Footprint(b)
    ensures record == Lookup(View(b).analyses, analysisId, user)
  {
    match b
    case InMemory(_, analyses, _) => analyses.GetForUser(analysisId, user)
    case Sql(_, _, rows, _) => rows.GetForUser(analysisId, user)
  }

  method KeepRoadmap(roadmaps: InMemoryRoadmapRepository, user: string, record: RoadmapRecord)
    returns (stored: RoadmapValue)
    requires roadmaps.Valid() && roadmaps.Separate(record)
    modifies roadmaps
    ensures roadmaps.Valid() && roadmaps.repr == old(roadmaps.repr) + {record} + record.parts
    ensures roadmaps.records.Keys == old(roadmaps.records.Keys) + {record.id}
    ensures roadmaps.owners.Keys == old(roadmaps.owners.Keys) + {record.id}
    ensures stored == old(record.Value()) && roadmaps.View() == old(roadmaps.View())[stored.id := Owned(user, stored)]
  {
    var kept := roadmaps.CreateForUser(user, record);
    stored := kept.Value();
  }

  /** The analysis must be the user's own: only then does the join find the owner the sidecar map records. */
  method CreateRoadmapForUser(b: Backend, user: string, record: RoadmapRecord) returns (stored: RoadmapValue)
    requires BackendOk(b) && record.Valid() && record.id !in View(b).roadmaps
    requires record !in Footprint(b) && record.parts !! Footprint(b)
    requires Lookup(View(b).analyses, record.analysisId, user).Some?
    modifies Footprint(b)
    ensures BackendOk(b)
    ensures Footprint(b) == old(Footprint(b)) + if b.InMemory? then {record} + record.parts else {}
    ensures stored == old(record.Value()) && View(b) == AddRoadmap(old(View(b)), user, stored)
  {
    if b.InMemory? {
      stored := KeepRoadmap(b.roadmaps, user, record);
    } else {
      stored := b.roadmapRows.CreateForUser(user, record.Value());
    }
  }

  function GetRoadmapForUser(b: Backend, roadmapId: string, user: string): (record: Option<RoadmapValue>)
    requires BackendOk(b)
    reads Footprint(b)
    ensures record == Lookup(View(b).roadmaps, roadmapId, user)
  {
    match b
    case InMemory(_, _, roadmaps) =>
      (match roadmaps.GetForUser(roadmapId, user)
       case None => None
       case Some(kept) => Some(kept.Value()))
    case Sql(_, _, _, rows) =>
      rows.GetForUser(roadmapId, user)
  }

  method CompleteResource(b: Backend, roadmapId: string, resourceId: string, user: string, completed: bool,
                          now: Instant)
    returns (updated: Option<RoadmapValue>)
    requires b.InMemory? && BackendOk(b)
    modifies b.roadmaps.Touched(roadmapId, resourceId)
    ensures BackendOk(b) && Footprint(b) == old(Footprint(b))
    ensures var found := old(Lookup(View(b).roadmaps, roadmapId, user));
            && updated == (if found.Some? then Patched(found.value, resourceId, completed, now) else None)
            && View(b) == if updated.Some?
                          then old(View(b)).(roadmaps := old(View(b)).roadmaps[roadmapId := Owned(user, updated.value)])
                          else old(View(b))
  {
    var kept := b.roadmaps.UpdateResourceForUser(roadmapId, resourceId, user, completed, now);
    updated := if kept.Some? then Some(kept.value.Value()) else None;
  }

  method UpdateResourceForUser(b: Backend, roadmapId: string, resourceId: string, user: string, completed: bool,
                               now: Instant)
    returns (updated: Option<RoadmapValue>)
    requires BackendOk(b)
    modifies Footprint(b)
    ensures BackendOk(b) && Footprint(b) == old(Footprint(b))
    ensures var found := old(Lookup(View(b).roadmaps, roadmapId, user));
            && updated == (if found.Some? then Patched(found.value, resourceId, completed, now) else None)
            && View(b) == if updated.Some?
                          then old(View(b)).(roadmaps := old(View(b)).roadmaps[roadmapId := Owned(user, updated.value)])
                          else old(View(b))
  {
    if b.InMemory? {
      updated := CompleteResource(b, roadmapId, resourceId, user, completed, now);
    } else {
      updated := b.roadmapRows.UpdateResourceForUser(roadmapId, resourceId, user, completed, now);
    }
  }

  // -------------------------------------------------------------------------
  // The endpoints
  // -------------------------------------------------------------------------

  method CreateProfileHandler(b: Backend, env: Env, c: Call) returns (reply: Reply)
    requires BackendOk(b) && FreshCall(View(b), c) && c.request.CreateProfile?
    modifies Footprint(b)
    ensures BackendOk(b) && Footprint(b) == old(Footprint(b))
    ensures (View(b), reply) == Handle(env, SetsNull(b), old(View(b)), c)
  {
    var body := c.request;
    var profile, _ := Profiles.CreateProfile(body.name, body.skills, body.experienceYears, body.education, body.targetRole);
    if profile.Err? {
      return Refused(400, "PROFILE_INVALID");
    }
    var record := CreateProfileForUser(b, c.user, profile.value, c.newId, c.now);
    reply := Reply(201, "", ProfileBody(record));
  }

  lemma ProfileRead(env: Env, setNull: bool, s: Store, c: Call)
    requires c.request.GetProfile?
    ensures var found := Lookup(s.profiles, c.request.profileId, c.user);
            Handle(env, setNull, s, c)
            == (s, if found.None? then Refused(404, "NOT_FOUND") else Reply(200, "", ProfileBody(found.value)))
  {
  }

  method GetProfileHandler(b: Backend, env: Env, c: Call) returns (reply: Reply)
    requires BackendOk(b) && c.request.GetProfile?
    ensures (View(b), reply) == Handle(env, SetsNull(b), View(b), c)
  {
    var record := GetProfileForUser(b, c.request.profileId, c.user);
    ProfileRead(env, SetsNull(b), View(b), c);
    if record.None? {
      return Refused(404, "NOT_FOUND");
    }
    reply := Reply(200, "", ProfileBody(record.value));
  }

  lemma ProfilePatched(env: Env, setNull: bool, s: Store, c: Call, record: ProfileRecord)
    requires c.request.PatchProfile?
    requires var found := Lookup(s.profiles, c.request.profileId, c.user);
             && found.Some?
             && var working := Updated(found.value.profile, c.request.patch.added, c.request.patch.removed);
             && working.Ok?
             && record == found.value.(profile := Overridden(working.value, c.request.patch), updatedAt := c.now)
    ensures Handle(env, setNull, s, c)
            == (s.(profiles := s.profiles[c.request.profileId := Owned(c.user, record)]),
                Reply(200, "", ProfileBody(record)))
  {
  }

  method PatchProfileHandler(b: Backend, env: Env, c: Call) returns (reply: Reply)
    requires BackendOk(b) && c.request.PatchProfile?
    modifies Footprint(b)
    ensures BackendOk(b) && Footprint(b) == old(Footprint(b))
    ensures (View(b), reply) == Handle(env, SetsNull(b), old(View(b)), c)
  {
    var patch := c.request.patch;
    var existing := GetProfileForUser(b, c.request.profileId, c.user);
    if existing.None? {
      return Refused(404, "NOT_FOUND");
    }
    var working := UpdateProfile(existing.value.profile, patch.added, patch.removed);
    if working.Err? {
      return Refused(400, "PROFILE_INVALID");
    }
    ghost var s := View(b);
    var updated := UpdateProfileForUser(b, c.request.profileId, c.user, Overridden(working.value, patch), c.now);
    if updated.None? {
      assert false; // the handler's defensive 404 cannot be reached
    }
    reply := Reply(200, "", ProfileBody(updated.value));
    ProfilePatched(env, SetsNull(b), s, c, updated.value);
  }

  method DeleteProfileHandler(b: Backend, env: Env, c: Call) returns (reply: Reply)
    requires BackendOk(b) && c.request.DeleteProfile?
    modifies Footprint(b)
    ensures BackendOk(b) && Footprint(b) == old(Footprint(b))
    ensures (View(b), reply) == Handle(env, SetsNull(b), old(View(b)), c)
  {
    var deleted := DeleteProfileForUser(b, c.request.profileId, c.user);
    if !deleted {
      return Refused(404, "NOT_FOUND");
    }
    reply := Reply(204, "", Nothing);
  }

  method CreateAnalysisHandler(b: Backend, env: Env, c: Call) returns (reply: Reply)
    requires BackendOk(b) && FreshCall(View(b), c) && c.request.CreateAnalysis?
    modifies Footprint(b)
    ensures BackendOk(b) && Footprint(b) == old(Footprint(b))
    ensures (View(b), reply) == Handle(env, SetsNull(b), old(View(b)), c)
  {
    var found := GetProfileForUser(b, c.request.profileId, c.user);
    if found.None? {
      return Refused(404, "PROFILE_NOT_FOUND");
    }
    if c.request.jobId !in env.jobs {
      return Refused(404, "JOB_NOT_FOUND");
    }
    var gap := AnalyzeGap(found.value.profile, env.jobs[c.request.jobId]);
    var missing := gap.missingRequired + gap.missingPreferred;
    var matched := gap.matchedRequired + gap.matchedPreferred;
    var record := AnalysisRecord(c.newId, c.request.profileId, c.request.jobId, gap, env.categorize(missing, matched),
                                 c.now);
    var stored := CreateAnalysisForUser(b, c.user, record);
    reply := Reply(201, "", AnalysisBody(stored));
  }

  lemma AnalysisRead(env: Env, setNull: bool, s: Store, c: Call)
    requires c.request.GetAnalysis?
    ensures var found := Lookup(s.analyses, c.request.analysisId, c.user);
            Handle(env, setNull, s, c)
            == (s, if found.None? then Refused(404, "ANALYSIS_NOT_FOUND") else Reply(200, "", AnalysisBody(found.value)))
  {
  }

  method GetAnalysisHandler(b: Backend, env: Env, c: Call) returns (reply: Reply)
    requires BackendOk(b) && c.request.GetAnalysis?
    ensures (View(b), reply) == Handle(env, SetsNull(b), View(b), c)
  {
    var record := GetAnalysisForUser(b, c.request.analysisId, c.user);
    AnalysisRead(env, SetsNull(b), View(b), c);
    if record.None? {
      return Refused(404, "ANALYSIS_NOT_FOUND");
    }
    reply := Reply(200, "", AnalysisBody(record.value));
  }

  lemma RoadmapCreated(env: Env, setNull: bool, s: Store, c: Call, record: RoadmapValue)
    requires c.request.CreateRoadmap?
    requires var found := Lookup(s.analyses, c.request.analysisId, c.user);
             found.Some? && record == RoadmapOf(env, c, found.value.gap)
    ensures Handle(env, setNull, s, c) == (AddRoadmap(s, c.user, record), Reply(201, "", RoadmapBody(record)))
  {
  }

  method CreateRoadmapHandler(b: Backend, env: Env, catalogue: seq<LearningResource>, c: Call) returns (reply: Reply)
    requires BackendOk(b) && FreshCall(View(b), c) && c.request.CreateRoadmap?
    requires Values(catalogue) == env.catalogue
    modifies Footprint(b)
    ensures BackendOk(b) && fresh(Footprint(b) - old(Footprint(b)))
    ensures (View(b), reply) == Handle(env, SetsNull(b), old(View(b)), c)
  {
    var found := GetAnalysisForUser(b, c.request.analysisId, c.user);
    if found.None? {
      return Refused(404, "ANALYSIS_NOT_FOUND");
    }
    ghost var s := View(b);
    var record := NewRecord(c.newId, c.request.analysisId, found.value.gap, catalogue, c.ids, c.now, Footprint(b));
    var stored := CreateRoadmapForUser(b, c.user, record);
    reply := Reply(201, "", RoadmapBody(stored));
    RoadmapCreated(env, SetsNull(b), s, c, stored);
  }

  lemma ResourcePatched(env: Env, setNull: bool, s: Store, c: Call, updated: Option<RoadmapValue>)
    requires c.request.PatchResource?
    requires var found := Lookup(s.roadmaps, c.request.roadmapId, c.user);
             updated == if found.Some? then Patched(found.value, c.request.resourceId, c.request.completed, c.now) else None
    ensures Handle(env, setNull, s, c)
            == if updated.Some?
               then (s.(roadmaps := s.roadmaps[c.request.roadmapId := Owned(c.user, updated.value)]),
                     Reply(200, "", RoadmapBody(updated.value)))
               else if Lookup(s.roadmaps, c.request.roadmapId, c.user).Some? then (s, Refused(404, "RESOURCE_NOT_FOUND"))
               else (s, Refused(404, "ROADMAP_NOT_FOUND"))
  {
  }

  /** A missing roadmap and a missing resource are told apart by a second lookup. */
  method PatchResourceHandler(b: Backend, env: Env, c: Call) returns (reply: Reply)
    requires BackendOk(b) && c.request.PatchResource?
    modifies Footprint(b)
    ensures BackendOk(b) && Footprint(b) == old(Footprint(b))
    ensures (View(b), reply) == Handle(env, SetsNull(b), old(View(b)), c)
  {
    ghost var s := View(b);
    var updated := UpdateResourceForUser(b, c.request.roadmapId, c.request.resourceId, c.user, c.request.completed, c.now);
    ResourcePatched(env, SetsNull(b), s, c, updated);
    if updated.Some? {
      return Reply(200, "", RoadmapBody(updated.value));
    }
    var existing := GetRoadmapForUser(b, c.request.roadmapId, c.user);
    if existing.None? {
      return Refused(404, "ROADMAP_NOT_FOUND");
    }
    reply := Refused(404, "RESOURCE_NOT_FOUND");
  }

  // -------------------------------------------------------------------------
  // The application
  // -------------------------------------------------------------------------

  /** What a handler gets from the application: the repositories, the catalogues and the categorizer. */
  datatype Extensions = Extensions(backend: Backend, env: Env, catalogue: seq<LearningResource>)

  /** The catalogue is what it was loaded as, and no stored roadmap shares a resource with it. */
  ghost predicate Valid(ext: Extensions)
    reads Footprint(ext.backend), ext.catalogue
  {
    && BackendOk(ext.backend)
    && Values(ext.catalogue) == ext.env.catalogue
    && forall r :: r in ext.catalogue ==> r !in Footprint(ext.backend)
  }

  method ServeProfile(b: Backend, env: Env, c: Call) returns (reply: Reply)
    requires BackendOk(b) && FreshCall(View(b), c)
    requires c.request.CreateProfile? || c.request.GetProfile? || c.request.PatchProfile? || c.request.DeleteProfile?
    modifies Footprint(b)
    ensures BackendOk(b) && Footprint(b) == old(Footprint(b))
    ensures (View(b), reply) == Handle(env, SetsNull(b), old(View(b)), c)
  {
    if c.request.CreateProfile? {
      reply := CreateProfileHandler(b, env, c);
    } else if c.request.GetProfile? {
      reply := GetProfileHandler(b, env, c);
    } else if c.request.PatchProfile? {
      reply := PatchProfileHandler(b, env, c);
    } else {
      reply := DeleteProfileHandler(b, env, c);
    }
  }

  method ServeOther(b: Backend, env: Env, catalogue: seq<LearningResource>, c: Call) returns (reply: Reply)
    requires BackendOk(b) && FreshCall(View(b), c) && Values(catalogue) == env.catalogue
    requires c.request.CreateAnalysis? || c.request.GetAnalysis? || c.request.CreateRoadmap? || c.request.PatchResource?
    modifies Footprint(b)
    ensures BackendOk(b) && fresh(Footprint(b) - old(Footprint(b)))
    ensures (View(b), reply) == Handle(env, SetsNull(b), old(View(b)), c)
  {
    if c.request.CreateAnalysis? {
      reply := CreateAnalysisHandler(b, env, c);
    } else if c.request.GetAnalysis? {
      reply := GetAnalysisHandler(b, env, c);
    } else if c.request.CreateRoadmap? {
      reply := CreateRoadmapHandler(b, env, catalogue, c);
    } else {
      reply := PatchResourceHandler(b, env, c);
    }
  }

  /** One authenticated request. The catalogue's objects stay as they are, and stay apart from every roadmap. */
  method Serve(ext: Extensions, c: Call) returns (reply: Reply)
    requires Valid(ext) && FreshCall(View(ext.backend), c)
    modifies Footprint(ext.backend)
    ensures Valid(ext) && fresh(Footprint(ext.backend) - old(Footprint(ext.backend)))
    ensures (View(ext.backend), reply) == Handle(ext.env, SetsNull(ext.backend), old(View(ext.backend)), c)
  {
    if c.request.CreateProfile? || c.request.GetProfile? || c.request.PatchProfile? || c.request.DeleteProfile? {
      reply := ServeProfile(ext.backend, ext.env, c);
    } else {
      reply := ServeOther(ext.backend, ext.env, ext.catalogue, c);
    }
    assert unchanged(ext.catalogue);
  }

  /** Any sequence of requests: the replies are those of the specification's run, on either backend. */
  method ServeAll(ext: Extensions, calls: seq<Call>) returns (replies: seq<Reply>)
    requires Valid(ext) && FreshRun(ext.env, SetsNull(ext.backend), View(ext.backend), calls)
    modifies Footprint(ext.backend)
    ensures Valid(ext) && fresh(Footprint(ext.backend) - old(Footprint(ext.backend)))
    ensures View(ext.backend) == Final(ext.env, SetsNull(ext.backend), old(View(ext.backend)), calls)
    ensures replies == Replies(ext.env, SetsNull(ext.backend), old(View(ext.backend)), calls)
    decreases |calls|
  {
    if calls == [] {
      return [];
    }
    var first := Serve(ext, calls[0]);
    var rest := ServeAll(ext, calls[1..]);
    replies := [first] + rest;
  }
}
