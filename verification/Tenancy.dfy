/** Users do not see each other, and the two ways of holding the records answer alike. */
module Tenancy {
  import opened Common
  import opened Models
  import opened Roadmap
  import opened RoadmapRecords
  import opened Profiles
  import opened Store

  // -------------------------------------------------------------------------
  // What one user can see
  // -------------------------------------------------------------------------

  datatype View = View(
    profiles: map<string, ProfileRecord>,
    analyses: map<string, AnalysisRecord>,
    roadmaps: map<string, RoadmapValue>)

  function ViewOf(s: Store, user: string): View {
    View(OwnedBy(s.profiles, user), OwnedBy(s.analyses, user), OwnedBy(s.roadmaps, user))
  }

  lemma LookupInView<T>(records: map<string, Owned<T>>, id: string, user: string)
    ensures Lookup(records, id, user) == if id in OwnedBy(records, user) then Some(OwnedBy(records, user)[id]) else None
  {
  }

  lemma PutOwn<T>(records: map<string, Owned<T>>, id: string, user: string, value: T)
    ensures OwnedBy(records[id := Owned(user, value)], user) == OwnedBy(records, user)[id := value]
  {
  }

  lemma PutOther<T>(records: map<string, Owned<T>>, id: string, user: string, value: T, other: string)
    requires other != user && (id in records ==> records[id].owner == user)
    ensures OwnedBy(records[id := Owned(user, value)], other) == OwnedBy(records, other)
  {
  }

  lemma DropOwn<T>(records: map<string, Owned<T>>, id: string, user: string)
    ensures OwnedBy(records - {id}, user) == OwnedBy(records, user) - {id}
  {
  }

  lemma DropOther<T>(records: map<string, Owned<T>>, id: string, other: string)
    requires id in records && records[id].owner != other
    ensures OwnedBy(records - {id}, other) == OwnedBy(records, other)
  {
  }

  function DetachedIn(analyses: map<string, AnalysisRecord>, profileId: string): map<string, AnalysisRecord> {
    map a | a in analyses :: if analyses[a].profileId == profileId then analyses[a].(profileId := "") else analyses[a]
  }

  lemma DropProfileOwn(s: Store, setNull: bool, id: string, user: string)
    ensures ViewOf(DropProfile(s, setNull, id), user)
            == var v := ViewOf(s, user);
               v.(profiles := v.profiles - {id}, analyses := if setNull then DetachedIn(v.analyses, id) else v.analyses)
  {
    DropOwn(s.profiles, id, user);
    if setNull {
      assert OwnedBy(DropProfile(s, setNull, id).analyses, user) == DetachedIn(OwnedBy(s.analyses, user), id);
    }
  }

  lemma DropProfileOther(s: Store, setNull: bool, id: string, other: string)
    requires Inv(s) && id in s.profiles && s.profiles[id].owner != other
    ensures ViewOf(DropProfile(s, setNull, id), other) == ViewOf(s, other)
  {
    DropOther(s.profiles, id, other);
    forall a | a in s.analyses && s.analyses[a].owner == other
      ensures Detached(s.analyses[a], id) == s.analyses[a]
    {
      assert AnalysisOk(s, a);
    }
    assert OwnedBy(DropProfile(s, setNull, id).analyses, other) == OwnedBy(s.analyses, other);
  }

  // -------------------------------------------------------------------------
  // One request depends only on, and changes only, what its user can see
  // -------------------------------------------------------------------------

  lemma ProfileStepInView(s: Store, t: Store, setNull: bool, c: Call)
    requires c.request.CreateProfile? || c.request.GetProfile? || c.request.PatchProfile? || c.request.DeleteProfile?
    requires ViewOf(s, c.user) == ViewOf(t, c.user)
    ensures HandleProfile(s, setNull, c).1 == HandleProfile(t, setNull, c).1
    ensures ViewOf(HandleProfile(s, setNull, c).0, c.user) == ViewOf(HandleProfile(t, setNull, c).0, c.user)
  {
    if c.request.CreateProfile? {
      var created := Created(c.request.name, c.request.skills, c.request.experienceYears, c.request.education,
                             c.request.targetRole);
      if created.Ok? {
        var r := ProfileRecord(c.newId, created.value, c.now, c.now);
        PutOwn(s.profiles, c.newId, c.user, r);
        PutOwn(t.profiles, c.newId, c.user, r);
      }
    } else {
      var id := c.request.profileId;
      LookupInView(s.profiles, id, c.user);
      LookupInView(t.profiles, id, c.user);
      if c.request.DeleteProfile? {
        DropProfileOwn(s, setNull, id, c.user);
        DropProfileOwn(t, setNull, id, c.user);
      } else if c.request.PatchProfile? && Lookup(s.profiles, id, c.user).Some? {
        var r := Lookup(s.profiles, id, c.user).value;
        var updated := Updated(r.profile, c.request.patch.added, c.request.patch.removed);
        if updated.Ok? {
          var r' := r.(profile := Overridden(updated.value, c.request.patch), updatedAt := c.now);
          PutOwn(s.profiles, id, c.user, r');
          PutOwn(t.profiles, id, c.user, r');
        }
      }
    }
  }

  lemma AnalysisStepInView(env: Env, s: Store, t: Store, c: Call)
    requires c.request.CreateAnalysis? || c.request.GetAnalysis?
    requires ViewOf(s, c.user) == ViewOf(t, c.user)
    ensures HandleAnalysis(env, s, c).1 == HandleAnalysis(env, t, c).1
    ensures ViewOf(HandleAnalysis(env, s, c).0, c.user) == ViewOf(HandleAnalysis(env, t, c).0, c.user)
  {
    if c.request.CreateAnalysis? {
      var id := c.request.profileId;
      LookupInView(s.profiles, id, c.user);
      LookupInView(t.profiles, id, c.user);
      var found := Lookup(s.profiles, id, c.user);
      if found.Some? && c.request.jobId in env.jobs {
        var r := AnalysisOf(env, c, found.value.profile);
        PutOwn(s.analyses, r.id, c.user, r);
        PutOwn(t.analyses, r.id, c.user, r);
      }
    } else {
      LookupInView(s.analyses, c.request.analysisId, c.user);
      LookupInView(t.analyses, c.request.analysisId, c.user);
    }
  }

  lemma RoadmapStepInView(env: Env, s: Store, t: Store, c: Call)
    requires c.request.CreateRoadmap? || c.request.PatchResource?
    requires ViewOf(s, c.user) == ViewOf(t, c.user)
    ensures HandleRoadmap(env, s, c).1 == HandleRoadmap(env, t, c).1
    ensures ViewOf(HandleRoadmap(env, s, c).0, c.user) == ViewOf(HandleRoadmap(env, t, c).0, c.user)
  {
    if c.request.CreateRoadmap? {
      var id := c.request.analysisId;
      LookupInView(s.analyses, id, c.user);
      LookupInView(t.analyses, id, c.user);
      var found := Lookup(s.analyses, id, c.user);
      if found.Some? {
        var r := RoadmapOf(env, c, found.value.gap);
        PutOwn(s.roadmaps, r.id, c.user, r);
        PutOwn(t.roadmaps, r.id, c.user, r);
      }
    } else {
      var id := c.request.roadmapId;
      LookupInView(s.roadmaps, id, c.user);
      LookupInView(t.roadmaps, id, c.user);
      var found := Lookup(s.roadmaps, id, c.user);
      if found.Some? {
        var patched := Patched(found.value, c.request.resourceId, c.request.completed, c.now);
        if patched.Some? {
          PutOwn(s.roadmaps, id, c.user, patched.value);
          PutOwn(t.roadmaps, id, c.user, patched.value);
        }
      }
    }
  }

  /** The reply, and the user's part of the new store, depend only on the user's part of the store. */
  lemma StepInView(env: Env, setNull: bool, s: Store, t: Store, c: Call)
    requires ViewOf(s, c.user) == ViewOf(t, c.user)
    ensures Handle(env, setNull, s, c).1 == Handle(env, setNull, t, c).1
    ensures ViewOf(Handle(env, setNull, s, c).0, c.user) == ViewOf(Handle(env, setNull, t, c).0, c.user)
  {
    if c.request.CreateProfile? || c.request.GetProfile? || c.request.PatchProfile? || c.request.DeleteProfile? {
      ProfileStepInView(s, t, setNull, c);
    } else if c.request.CreateAnalysis? || c.request.GetAnalysis? {
      AnalysisStepInView(env, s, t, c);
    } else {
      RoadmapStepInView(env, s, t, c);
    }
  }

  /** A request changes nothing of what another user has. */
  lemma StepBesideView(env: Env, setNull: bool, s: Store, c: Call, other: string)
    requires Inv(s) && FreshCall(s, c) && other != c.user
    ensures ViewOf(Handle(env, setNull, s, c).0, other) == ViewOf(s, other)
  {
    match c.request
    case CreateProfile(name, skills, years, education, targetRole) =>
      var created := Created(name, skills, years, education, targetRole);
      if created.Ok? {
        PutOther(s.profiles, c.newId, c.user, ProfileRecord(c.newId, created.value, c.now, c.now), other);
      }
    case GetProfile(_) =>
    case PatchProfile(id, patch) =>
      if Lookup(s.profiles, id, c.user).Some? {
        var r := Lookup(s.profiles, id, c.user).value;
        var updated := Updated(r.profile, patch.added, patch.removed);
        if updated.Ok? {
          var r' := r.(profile := Overridden(updated.value, patch), updatedAt := c.now);
          PutOther(s.profiles, id, c.user, r', other);
        }
      }
    case DeleteProfile(id) =>
      if Lookup(s.profiles, id, c.user).Some? {
        DropProfileOther(s, setNull, id, other);
      }
    case CreateAnalysis(profileId, jobId) =>
      var found := Lookup(s.profiles, profileId, c.user);
      if found.Some? && jobId in env.jobs {
        PutOther(s.analyses, c.newId, c.user, AnalysisOf(env, c, found.value.profile), other);
      }
    case GetAnalysis(_) =>
    case CreateRoadmap(analysisId) =>
      var found := Lookup(s.analyses, analysisId, c.user);
      if found.Some? {
        PutOther(s.roadmaps, c.newId, c.user, RoadmapOf(env, c, found.value.gap), other);
      }
    case PatchResource(id, resourceId, completed) =>
      var found := Lookup(s.roadmaps, id, c.user);
      if found.Some? {
        var patched := Patched(found.value, resourceId, completed, c.now);
        if patched.Some? {
          PutOther(s.roadmaps, id, c.user, patched.value, other);
        }
      }
  }

  // -------------------------------------------------------------------------
  // Noninterference over runs
  // -------------------------------------------------------------------------

  /** The run with only one user's requests in it. */
  function Only(calls: seq<Call>, user: string): seq<Call> {
    if calls == [] then []
    else (if calls[0].user == user then [calls[0]] else []) + Only(calls[1..], user)
  }

  /** The replies one user gets in the whole run. */
  function RepliesTo(env: Env, setNull: bool, s: Store, calls: seq<Call>, user: string): seq<Reply>
    decreases |calls|
  {
    if calls == [] then []
    else
      var (s', reply) := Handle(env, setNull, s, calls[0]);
      (if calls[0].user == user then [reply] else []) + RepliesTo(env, setNull, s', calls[1..], user)
  }

  lemma {:induction false} RepliesInView(env: Env, setNull: bool, s: Store, t: Store, calls: seq<Call>, user: string)
    requires Inv(s) && FreshRun(env, setNull, s, calls) && ViewOf(s, user) == ViewOf(t, user)
    ensures RepliesTo(env, setNull, s, calls, user) == Replies(env, setNull, t, Only(calls, user))
    decreases |calls|
  {
    if calls != [] {
      var c, rest := calls[0], calls[1..];
      var s' := Handle(env, setNull, s, c).0;
      HandleKeepsInv(env, setNull, s, c);
      if c.user == user {
        StepInView(env, setNull, s, t, c);
        RepliesInView(env, setNull, s', Handle(env, setNull, t, c).0, rest, user);
        assert Only(calls, user)[1..] == Only(rest, user);
      } else {
        StepBesideView(env, setNull, s, c, user);
        RepliesInView(env, setNull, s', t, rest, user);
        assert Only(calls, user) == Only(rest, user);
      }
    }
  }

  /** Deleting every other user's requests from a run leaves every reply to this user as it was. */
  lemma Noninterference(env: Env, setNull: bool, calls: seq<Call>, user: string)
    requires FreshRun(env, setNull, EMPTY, calls)
    ensures RepliesTo(env, setNull, EMPTY, calls, user) == Replies(env, setNull, EMPTY, Only(calls, user))
  {
    RepliesInView(env, setNull, EMPTY, EMPTY, calls, user);
  }

  /** A record of another user cannot be told from no record at all. */
  lemma ForeignLooksMissing(env: Env, setNull: bool, s: Store, c: Call, id: string)
    requires id in s.profiles ==> s.profiles[id].owner != c.user
    requires id in s.analyses ==> s.analyses[id].owner != c.user
    requires id in s.roadmaps ==> s.roadmaps[id].owner != c.user
    ensures Handle(env, setNull, s, c).1
            == Handle(env, setNull, Store(s.profiles - {id}, s.analyses - {id}, s.roadmaps - {id}), c).1
  {
    var t := Store(s.profiles - {id}, s.analyses - {id}, s.roadmaps - {id});
    assert OwnedBy(t.profiles, c.user) == OwnedBy(s.profiles, c.user);
    assert OwnedBy(t.analyses, c.user) == OwnedBy(s.analyses, c.user);
    assert OwnedBy(t.roadmaps, c.user) == OwnedBy(s.roadmaps, c.user);
    StepInView(env, setNull, s, t, c);
  }

  lemma {:induction false} OnlyOthers(calls: seq<Call>, user: string)
    requires forall c :: c in calls ==> c.user != user
    ensures Only(calls, user) == []
  {
    if calls != [] {
      assert calls[0] in calls;
      OnlyOthers(calls[1..], user);
    }
  }

  lemma {:induction false} OnlyConcat(calls: seq<Call>, more: seq<Call>, user: string)
    ensures Only(calls + more, user) == Only(calls, user) + Only(more, user)
  {
    if calls == [] {
      assert calls + more == more;
    } else {
      var head := if calls[0].user == user then [calls[0]] else [];
      OnlyConcat(calls[1..], more, user);
      assert (calls + more)[0] == calls[0] && (calls + more)[1..] == calls[1..] + more;
      assert head + (Only(calls[1..], user) + Only(more, user)) == head + Only(calls[1..], user) + Only(more, user);
    }
  }

  /** A profile reads back as it was created, whatever other users do in between. */
  lemma ReadBack(env: Env, setNull: bool, create: Call, between: seq<Call>, get: Call)
    requires create.request.CreateProfile? && get.request == GetProfile(create.newId) && get.user == create.user
    requires forall c :: c in between ==> c.user != create.user
    requires FreshRun(env, setNull, EMPTY, [create] + between + [get])
    ensures var replies := RepliesTo(env, setNull, EMPTY, [create] + between + [get], create.user);
            |replies| == 2 && (replies[0].status == 201 ==> replies[1] == Reply(200, "", replies[0].body))
  {
    var user := create.user;
    Noninterference(env, setNull, [create] + between + [get], user);
    OnlyConcat([create] + between, [get], user);
    OnlyConcat([create], between, user);
    OnlyOthers(between, user);
    assert Only([create], user) == [create] && Only([get], user) == [get];
    assert [create] + [get] == [create, get];
    assert [create, get][1..] == [get];
  }

  // -------------------------------------------------------------------------
  // The last write wins
  // -------------------------------------------------------------------------

  predicate Sets(c: Call, user: string, roadmapId: string, resourceId: string) {
    && c.user == user && c.request.PatchResource?
    && c.request.roadmapId == roadmapId && c.request.resourceId == resourceId
  }

  /** What the user's last patch of the resource said, or the flag it had before the run. */
  function LastFlag(calls: seq<Call>, user: string, roadmapId: string, resourceId: string, flag: bool): bool {
    if calls == [] then flag
    else LastFlag(calls[1..], user, roadmapId, resourceId,
                  if Sets(calls[0], user, roadmapId, resourceId) then calls[0].request.completed else flag)
  }

  function ResourceAfter(r: Resource, calls: seq<Call>, user: string, roadmapId: string): Resource {
    r.(completed := LastFlag(calls, user, roadmapId, r.id, r.completed))
  }

  /** The roadmap differs from the one before the run in nothing but the flags, and those are the last ones sent. */
  ghost predicate FlagsAfter(after: seq<Phase>, before: seq<Phase>, calls: seq<Call>, user: string, roadmapId: string) {
    && |after| == |before|
    && (forall p :: 0 <= p < |before| ==>
          after[p].period == before[p].period && |after[p].resources| == |before[p].resources|)
    && (forall p, i :: At(before, p, i) ==>
          after[p].resources[i] == ResourceAfter(before[p].resources[i], calls, user, roadmapId))
  }

  /** One request changes the flags of a roadmap only if it is its owner's patch of that roadmap. */
  lemma FlagsStep(env: Env, setNull: bool, s: Store, c: Call, user: string, roadmapId: string)
    requires Inv(s) && FreshCall(s, c) && Lookup(s.roadmaps, roadmapId, user).Some?
    ensures var s' := Handle(env, setNull, s, c).0;
            && Lookup(s'.roadmaps, roadmapId, user).Some?
            && var (v, v') := (s.roadmaps[roadmapId].value, s'.roadmaps[roadmapId].value);
               v'.phases == if c.user == user && c.request.PatchResource? && c.request.roadmapId == roadmapId
                            then WithCompleted(v.phases, c.request.resourceId, c.request.completed) else v.phases
  {
    if c.request.PatchResource? && c.request.roadmapId == roadmapId && c.user == user {
      var phases := s.roadmaps[roadmapId].value.phases;
      if !HasResource(phases, c.request.resourceId) {
        NothingToComplete(phases, c.request.resourceId, c.request.completed);
      }
    }
  }

  lemma NothingToComplete(phases: seq<Phase>, id: string, completed: bool)
    requires !HasResource(phases, id)
    ensures WithCompleted(phases, id, completed) == phases
  {
    var after := WithCompleted(phases, id, completed);
    forall p | 0 <= p < |phases|
      ensures after[p] == phases[p]
    {
      assert after[p].resources == phases[p].resources;
    }
  }

  lemma FlagsCompose(before: seq<Phase>, middle: seq<Phase>, after: seq<Phase>, calls: seq<Call>, user: string,
                     roadmapId: string)
    requires calls != [] && FlagsAfter(after, middle, calls[1..], user, roadmapId)
    requires var c := calls[0];
             middle == if c.user == user && c.request.PatchResource? && c.request.roadmapId == roadmapId
                       then WithCompleted(before, c.request.resourceId, c.request.completed) else before
    ensures FlagsAfter(after, before, calls, user, roadmapId)
  {
    forall p, i | At(before, p, i)
      ensures after[p].resources[i] == ResourceAfter(before[p].resources[i], calls, user, roadmapId)
    {
      assert At(middle, p, i);
    }
  }

  /** In every run, a roadmap stays its owner's, and each flag is the one its owner sent last, whatever anyone else
      does in between; nothing else of its phases changes. */
  lemma {:induction false} LastWriteWins(env: Env, setNull: bool, s: Store, calls: seq<Call>, user: string,
                                         roadmapId: string)
    requires Inv(s) && FreshRun(env, setNull, s, calls) && Lookup(s.roadmaps, roadmapId, user).Some?
    ensures var end := Final(env, setNull, s, calls);
            && Lookup(end.roadmaps, roadmapId, user).Some?
            && FlagsAfter(end.roadmaps[roadmapId].value.phases, s.roadmaps[roadmapId].value.phases, calls, user,
                          roadmapId)
    decreases |calls|
  {
    if calls != [] {
      var s' := Handle(env, setNull, s, calls[0]).0;
      HandleKeepsInv(env, setNull, s, calls[0]);
      FlagsStep(env, setNull, s, calls[0], user, roadmapId);
      LastWriteWins(env, setNull, s', calls[1..], user, roadmapId);
      FlagsCompose(s.roadmaps[roadmapId].value.phases, s'.roadmaps[roadmapId].value.phases,
                   Final(env, setNull, s', calls[1..]).roadmaps[roadmapId].value.phases, calls, user, roadmapId);
    }
  }

  // -------------------------------------------------------------------------
  // With and without ON DELETE SET NULL
  // -------------------------------------------------------------------------

  function Attached(profiles: map<string, Owned<ProfileRecord>>, a: AnalysisRecord): AnalysisRecord {
    if a.profileId in profiles then a else a.(profileId := "")
  }

  /** The store in which analyses of deleted profiles no longer say which profile they were for. */
  function Nulled(s: Store): Store {
    s.(analyses := map a | a in s.analyses :: s.analyses[a].(value := Attached(s.profiles, s.analyses[a].value)))
  }

  /** A reply with `profile_id` blank on an analysis whose profile is gone, and otherwise the same. */
  function Shown(s: Store, reply: Reply): Reply {
    if reply.body.AnalysisBody? then reply.(body := AnalysisBody(Attached(s.profiles, reply.body.analysis))) else reply
  }

  function ShownReplies(env: Env, s: Store, calls: seq<Call>): seq<Reply>
    decreases |calls|
  {
    if calls == [] then []
    else
      var (s', reply) := Handle(env, false, s, calls[0]);
      [Shown(s, reply)] + ShownReplies(env, s', calls[1..])
  }

  lemma DropNulled(s: Store, id: string)
    requires Inv(s) && id in s.profiles
    ensures DropProfile(Nulled(s), true, id) == Nulled(DropProfile(s, false, id))
  {
    var left, right := DropProfile(Nulled(s), true, id), Nulled(DropProfile(s, false, id));
    forall a | a in s.analyses
      ensures left.analyses[a] == right.analyses[a]
    {
    }
    assert left.analyses == right.analyses;
  }

  lemma ProfileStepNulled(s: Store, c: Call)
    requires c.request.CreateProfile? || c.request.GetProfile? || c.request.PatchProfile? || c.request.DeleteProfile?
    requires Inv(s) && FreshCall(s, c)
    ensures HandleProfile(Nulled(s), true, c) == (Nulled(HandleProfile(s, false, c).0), HandleProfile(s, false, c).1)
  {
    var s' := HandleProfile(s, false, c).0;
    if c.request.DeleteProfile? {
      if Lookup(s.profiles, c.request.profileId, c.user).Some? {
        DropNulled(s, c.request.profileId);
      }
    } else {
      assert forall id :: id in s.profiles ==> id in s'.profiles;
      assert Nulled(s').analyses == Nulled(s).analyses;
    }
  }

  lemma AnalysisStepNulled(env: Env, s: Store, c: Call)
    requires c.request.CreateAnalysis? || c.request.GetAnalysis?
    requires Inv(s) && FreshCall(s, c)
    ensures HandleAnalysis(env, Nulled(s), c)
            == (Nulled(HandleAnalysis(env, s, c).0), Shown(s, HandleAnalysis(env, s, c).1))
  {
    var s' := HandleAnalysis(env, s, c).0;
    assert s'.profiles == s.profiles;
    if c.request.CreateAnalysis? {
      var found := Lookup(s.profiles, c.request.profileId, c.user);
      if found.Some? && c.request.jobId in env.jobs {
        var r := AnalysisOf(env, c, found.value.profile);
        assert Nulled(s').analyses == Nulled(s).analyses[r.id := Owned(c.user, r)];
      }
    }
  }

  lemma RoadmapStepNulled(env: Env, s: Store, c: Call)
    requires c.request.CreateRoadmap? || c.request.PatchResource?
    ensures HandleRoadmap(env, Nulled(s), c) == (Nulled(HandleRoadmap(env, s, c).0), HandleRoadmap(env, s, c).1)
  {
    var s' := HandleRoadmap(env, s, c).0;
    assert s'.profiles == s.profiles && s'.analyses == s.analyses;
  }

  lemma {:induction false} RepliesNulled(env: Env, s: Store, calls: seq<Call>)
    requires Inv(s) && FreshRun(env, false, s, calls)
    ensures Replies(env, true, Nulled(s), calls) == ShownReplies(env, s, calls)
    decreases |calls|
  {
    if calls != [] {
      HandleKeepsInv(env, false, s, calls[0]);
      StepNulled(env, s, calls[0]);
      RepliesNulled(env, Handle(env, false, s, calls[0]).0, calls[1..]);
    }
  }

  lemma StepNulled(env: Env, s: Store, c: Call)
    requires Inv(s) && FreshCall(s, c)
    ensures Handle(env, true, Nulled(s), c)
            == (Nulled(Handle(env, false, s, c).0), Shown(s, Handle(env, false, s, c).1))
  {
    if c.request.CreateProfile? || c.request.GetProfile? || c.request.PatchProfile? || c.request.DeleteProfile? {
      ProfileStepNulled(s, c);
    } else if c.request.CreateAnalysis? || c.request.GetAnalysis? {
      AnalysisStepNulled(env, s, c);
    } else {
      RoadmapStepNulled(env, s, c);
    }
  }

  /** Ids that are new to the store that keeps references are new to the one that clears them. */
  lemma {:induction false} FreshRunNulled(env: Env, s: Store, calls: seq<Call>)
    requires Inv(s) && FreshRun(env, false, s, calls)
    ensures FreshRun(env, true, Nulled(s), calls)
    decreases |calls|
  {
    if calls != [] {
      assert FreshCall(Nulled(s), calls[0]);
      HandleKeepsInv(env, false, s, calls[0]);
      StepNulled(env, s, calls[0]);
      FreshRunNulled(env, Handle(env, false, s, calls[0]).0, calls[1..]);
    }
  }

  /** A backend that clears the references to a deleted profile and one that keeps them give the same status,
      error code and record to every request of every run, up to `profile_id` of an analysis whose profile was
      deleted. */
  lemma BackendsAgree(env: Env, calls: seq<Call>)
    requires FreshRun(env, false, EMPTY, calls)
    ensures Replies(env, true, EMPTY, calls) == ShownReplies(env, EMPTY, calls)
  {
    assert Nulled(EMPTY) == EMPTY;
    RepliesNulled(env, EMPTY, calls);
  }

  ghost predicate NoneDetached(s: Store) {
    forall a :: a in s.analyses ==> s.analyses[a].value.profileId in s.profiles
  }

  lemma {:induction false} ShownUnchanged(env: Env, s: Store, calls: seq<Call>)
    requires NoneDetached(s) && forall c :: c in calls ==> !c.request.DeleteProfile?
    ensures ShownReplies(env, s, calls) == Replies(env, false, s, calls)
    decreases |calls|
  {
    if calls != [] {
      assert calls[0] in calls;
      ShownUnchanged(env, Handle(env, false, s, calls[0]).0, calls[1..]);
    }
  }

  /** Without a profile deletion, every reply is the same. */
  lemma BackendsAgreeWithoutDeletion(env: Env, calls: seq<Call>)
    requires FreshRun(env, false, EMPTY, calls) && forall c :: c in calls ==> !c.request.DeleteProfile?
    ensures Replies(env, true, EMPTY, calls) == Replies(env, false, EMPTY, calls)
  {
    BackendsAgree(env, calls);
    ShownUnchanged(env, EMPTY, calls);
  }
}
