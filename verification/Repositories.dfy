/** The two ways of holding the records: dictionaries with ownership beside them, and database rows that carry
    their owner, or inherit it from the row they refer to. */
module Repositories {
  import opened Common
  import opened Models
  import opened Roadmap
  import opened RefreshTokens
  import opened RoadmapRecords
  import opened Store
  import opened Mappers

  // -------------------------------------------------------------------------
  // In memory
  // -------------------------------------------------------------------------

  class InMemoryProfileRepository {
    var records: map<string, ProfileRecord>
    var owners: map<string, string>

    ghost function View(): map<string, Owned<ProfileRecord>>
      reads this
    {
      Joined(owners, records)
    }

    constructor ()
      ensures View() == map[]
    {
      records, owners := map[], map[];
    }

    method Create(profile: UserProfile, newId: string, now: Instant) returns (record: ProfileRecord)
      modifies `records
      ensures record == ProfileRecord(newId, profile, now, now) && records == old(records)[newId := record]
    {
      record := ProfileRecord(newId, profile, now, now);
      records := records[record.id := record];
    }

    method Update(profileId: string, profile: UserProfile, now: Instant) returns (updated: Option<ProfileRecord>)
      modifies `records
      ensures updated == if profileId in old(records)
                         then Some(old(records)[profileId].(profile := profile, updatedAt := now)) else None
      ensures records == if updated.Some? then old(records)[profileId := updated.value] else old(records)
    {
      if profileId !in records {
        return None;
      }
      var existing := records[profileId];
      var next := ProfileRecord(existing.id, profile, existing.createdAt, now);
      records := records[profileId := next];
      updated := Some(next);
    }

    method Delete(profileId: string) returns (deleted: bool)
      modifies `records
      ensures deleted <==> profileId in old(records)
      ensures records == old(records) - {profileId}
    {
      deleted := profileId in records;
      records := records - {profileId};
    }

    method CreateForUser(user: string, profile: UserProfile, newId: string, now: Instant)
      returns (record: ProfileRecord)
      modifies this
      ensures record == ProfileRecord(newId, profile, now, now)
      ensures View() == old(View())[newId := Owned(user, record)]
    {
      record := Create(profile, newId, now);
      owners := owners[record.id := user];
    }

    function GetForUser(profileId: string, user: string): (record: Option<ProfileRecord>)
      reads this
      ensures record == Lookup(View(), profileId, user)
    {
      if profileId !in owners || owners[profileId] != user then None
      else if profileId in records then Some(records[profileId]) else None
    }

    method UpdateForUser(profileId: string, user: string, profile: UserProfile, now: Instant)
      returns (updated: Option<ProfileRecord>)
      modifies this
      ensures var found := old(Lookup(View(), profileId, user));
              && updated == (if found.Some? then Some(found.value.(profile := profile, updatedAt := now)) else None)
              && View() == if found.Some? then old(View())[profileId := Owned(user, updated.value)] else old(View())
    {
      if profileId !in owners || owners[profileId] != user {
        return None;
      }
      updated := Update(profileId, profile, now);
    }

    /** The owner goes first, then the record. */
    method DeleteForUser(profileId: string, user: string) returns (deleted: bool)
      modifies this
      ensures deleted <==> old(Lookup(View(), profileId, user)).Some?
      ensures View() == if deleted then old(View()) - {profileId} else old(View())
    {
      if profileId !in owners || owners[profileId] != user {
        return false;
      }
      owners := owners - {profileId};
      deleted := Delete(profileId);
    }
  }

  class InMemoryAnalysisRepository {
    var records: map<string, AnalysisRecord>
    var owners: map<string, string>

    ghost function View(): map<string, Owned<AnalysisRecord>>
      reads this
    {
      Joined(owners, records)
    }

    constructor ()
      ensures View() == map[]
    {
      records, owners := map[], map[];
    }

    method Create(record: AnalysisRecord) returns (stored: AnalysisRecord)
      modifies `records
      ensures stored == record && records == old(records)[record.id := record]
    {
      records := records[record.id := record];
      stored := record;
    }

    method CreateForUser(user: string, record: AnalysisRecord) returns (stored: AnalysisRecord)
      modifies this
      ensures stored == record && View() == old(View())[record.id := Owned(user, record)]
    {
      stored := Create(record);
      owners := owners[stored.id := user];
    }

    function GetForUser(analysisId: string, user: string): (record: Option<AnalysisRecord>)
      reads this
      ensures record == Lookup(View(), analysisId, user)
    {
      if analysisId !in owners || owners[analysisId] != user then None
      else if analysisId in records then Some(records[analysisId]) else None
    }
  }

  // -------------------------------------------------------------------------
  // The database
  // -------------------------------------------------------------------------

  datatype Tables = Tables(
    profiles: map<string, ProfileRow>,
    analyses: map<string, AnalysisRow>,
    roadmaps: map<string, RoadmapRow>)

  /** The row is one the mapper wrote. */
  predicate AnalysisRowOk(row: AnalysisRow) {
    AnalysisFromRow(row).Some? && row == AnalysisToRow(row.userId, AnalysisFromRow(row).value)
  }

  ghost predicate RoadmapRowOk(row: RoadmapRow) {
    RoadmapFromRow(row).Some? && row == RoadmapToRow(RoadmapFromRow(row).value)
    && DistinctIds(RoadmapFromRow(row).value.phases)
  }

  /** Keys are ids, rows are readable, and every roadmap's foreign key leads to an analysis. */
  ghost predicate TablesOk(t: Tables) {
    && (forall id :: id in t.profiles ==> id != "" && t.profiles[id].id == id)
    && (forall id :: id in t.analyses ==> t.analyses[id].id == id && AnalysisRowOk(t.analyses[id]))
    && (forall id :: id in t.roadmaps ==>
          t.roadmaps[id].id == id && RoadmapRowOk(t.roadmaps[id]) && t.roadmaps[id].analysisId in t.analyses)
  }

  ghost function ProfilesOf(t: Tables): map<string, Owned<ProfileRecord>> {
    map id | id in t.profiles :: Owned(t.profiles[id].userId, ProfileFromRow(t.profiles[id]))
  }

  ghost function AnalysesOf(t: Tables): map<string, Owned<AnalysisRecord>>
    requires TablesOk(t)
  {
    map id | id in t.analyses :: Owned(t.analyses[id].userId, AnalysisFromRow(t.analyses[id]).value)
  }

  /** A roadmap belongs to the user of its analysis. */
  ghost function RoadmapsOf(t: Tables): map<string, Owned<RoadmapValue>>
    requires TablesOk(t)
  {
    map id | id in t.roadmaps ::
      Owned(t.analyses[t.roadmaps[id].analysisId].userId, RoadmapFromRow(t.roadmaps[id]).value)
  }

  ghost function StoreOf(t: Tables): Store
    requires TablesOk(t)
  {
    Store(ProfilesOf(t), AnalysesOf(t), RoadmapsOf(t))
  }

  lemma PutProfileRow(t: Tables, row: ProfileRow)
    requires TablesOk(t) && row.id != ""
    ensures var t' := t.(profiles := t.profiles[row.id := row]);
            TablesOk(t') && StoreOf(t') == AddProfile(StoreOf(t), row.userId, ProfileFromRow(row))
  {
    var t' := t.(profiles := t.profiles[row.id := row]);
    assert TablesOk(t');
    assert ProfilesOf(t') == ProfilesOf(t)[row.id := Owned(row.userId, ProfileFromRow(row))];
  }

  lemma AnalysisRowTables(t: Tables, row: AnalysisRow)
    requires TablesOk(t) && row.id !in t.analyses && AnalysisRowOk(row)
    ensures TablesOk(t.(analyses := t.analyses[row.id := row]))
  {
  }

  lemma AnalysisRowView(t: Tables, row: AnalysisRow)
    requires TablesOk(t) && TablesOk(t.(analyses := t.analyses[row.id := row]))
    requires row.id !in t.analyses && AnalysisRowOk(row)
    ensures AnalysesOf(t.(analyses := t.analyses[row.id := row]))
            == AnalysesOf(t)[row.id := Owned(row.userId, AnalysisFromRow(row).value)]
  {
  }

  /** Roadmaps depend on the analyses only through their owners. */
  lemma RoadmapsFollowOwners(t: Tables, t': Tables)
    requires TablesOk(t) && TablesOk(t') && t.roadmaps == t'.roadmaps
    requires forall a :: a in t.analyses ==> a in t'.analyses && t'.analyses[a].userId == t.analyses[a].userId
    ensures RoadmapsOf(t) == RoadmapsOf(t')
  {
  }

  lemma PutAnalysisRow(t: Tables, user: string, r: AnalysisRecord)
    requires TablesOk(t) && r.id !in t.analyses
    ensures var t' := t.(analyses := t.analyses[r.id := AnalysisToRow(user, r)]);
            TablesOk(t') && StoreOf(t') == AddAnalysis(StoreOf(t), user, r)
  {
    var row := AnalysisToRow(user, r);
    AnalysisRoundTrip(user, r);
    AnalysisRowTables(t, row);
    AnalysisRowView(t, row);
    RoadmapsFollowOwners(t, t.(analyses := t.analyses[row.id := row]));
  }

  lemma RoadmapRowTables(t: Tables, row: RoadmapRow)
    requires TablesOk(t) && row.analysisId in t.analyses && RoadmapRowOk(row)
    ensures TablesOk(t.(roadmaps := t.roadmaps[row.id := row]))
  {
    var roadmaps := t.roadmaps[row.id := row];
    forall id | id in roadmaps
      ensures roadmaps[id].id == id && RoadmapRowOk(roadmaps[id]) && roadmaps[id].analysisId in t.analyses
    {
      if id != row.id {
        assert roadmaps[id] == t.roadmaps[id];
      }
    }
  }

  lemma RoadmapRowView(t: Tables, row: RoadmapRow)
    requires TablesOk(t) && TablesOk(t.(roadmaps := t.roadmaps[row.id := row]))
    requires row.analysisId in t.analyses && RoadmapRowOk(row)
    ensures RoadmapsOf(t.(roadmaps := t.roadmaps[row.id := row]))
            == RoadmapsOf(t)[row.id := Owned(t.analyses[row.analysisId].userId, RoadmapFromRow(row).value)]
  {
  }

  lemma PutRoadmapRow(t: Tables, v: RoadmapValue)
    requires TablesOk(t) && v.analysisId in t.analyses && DistinctIds(v.phases)
    ensures var t' := t.(roadmaps := t.roadmaps[v.id := RoadmapToRow(v)]);
            TablesOk(t') && StoreOf(t') == AddRoadmap(StoreOf(t), t.analyses[v.analysisId].userId, v)
  {
    var row := RoadmapToRow(v);
    RoadmapRoundTrip(v);
    RoadmapRowTables(t, row);
    RoadmapRowView(t, row);
  }

  /** ON DELETE SET NULL over the whole table. */
  function DetachRows(analyses: map<string, AnalysisRow>, profileId: string): map<string, AnalysisRow> {
    map id | id in analyses ::
      if analyses[id].profileId == Some(profileId) then analyses[id].(profileId := None) else analyses[id]
  }

  lemma DetachRow(row: AnalysisRow, profileId: string)
    requires AnalysisRowOk(row) && profileId != ""
    ensures var row' := if row.profileId == Some(profileId) then row.(profileId := None) else row;
            && AnalysisRowOk(row')
            && Owned(row'.userId, AnalysisFromRow(row').value)
               == Detached(Owned(row.userId, AnalysisFromRow(row).value), profileId)
  {
    var r := AnalysisFromRow(row).value;
    AnalysisRoundTrip(row.userId, r);
    DetachedRow(row.userId, r);
    AnalysisRoundTrip(row.userId, r.(profileId := ""));
  }

  function DropRow(t: Tables, enforce: bool, id: string): Tables {
    t.(profiles := t.profiles - {id}, analyses := if enforce then DetachRows(t.analyses, id) else t.analyses)
  }

  lemma DetachedTables(t: Tables, id: string)
    requires TablesOk(t) && id != ""
    ensures TablesOk(t.(analyses := DetachRows(t.analyses, id)))
  {
    forall a | a in t.analyses
      ensures AnalysisRowOk(DetachRows(t.analyses, id)[a])
    {
      DetachRow(t.analyses[a], id);
    }
  }

  lemma DetachedViews(t: Tables, id: string)
    requires TablesOk(t) && id != "" && TablesOk(t.(analyses := DetachRows(t.analyses, id)))
    ensures AnalysesOf(t.(analyses := DetachRows(t.analyses, id)))
            == map a | a in AnalysesOf(t) :: Detached(AnalysesOf(t)[a], id)
  {
    DetachedEach(t, id);
  }

  lemma DetachedEach(t: Tables, id: string)
    requires TablesOk(t) && id != "" && TablesOk(t.(analyses := DetachRows(t.analyses, id)))
    ensures forall a :: a in t.analyses ==>
              AnalysesOf(t.(analyses := DetachRows(t.analyses, id)))[a] == Detached(AnalysesOf(t)[a], id)
  {
    forall a | a in t.analyses
      ensures AnalysesOf(t.(analyses := DetachRows(t.analyses, id)))[a] == Detached(AnalysesOf(t)[a], id)
    {
      DetachRow(t.analyses[a], id);
    }
  }

  lemma DropProfileRow(t: Tables, enforce: bool, id: string)
    requires TablesOk(t) && id in t.profiles
    ensures TablesOk(DropRow(t, enforce, id))
    ensures StoreOf(DropRow(t, enforce, id)) == DropProfile(StoreOf(t), enforce, id)
  {
    var rest := t.(profiles := t.profiles - {id});
    assert TablesOk(rest);
    assert ProfilesOf(rest) == ProfilesOf(t) - {id};
    assert AnalysesOf(rest) == AnalysesOf(t) && RoadmapsOf(rest) == RoadmapsOf(t);
    if enforce {
      DetachedTables(rest, id);
      DetachedViews(rest, id);
      RoadmapsFollowOwners(rest, rest.(analyses := DetachRows(rest.analyses, id)));
    }
  }

  class Database {
    var profiles: map<string, ProfileRow>
    var analyses: map<string, AnalysisRow>
    var roadmaps: map<string, RoadmapRow>
    const enforcesForeignKeys: bool

    ghost function Rows(): Tables
      reads this
    {
      Tables(profiles, analyses, roadmaps)
    }

    ghost predicate Valid()
      reads this
    {
      TablesOk(Rows())
    }

    ghost function View(): Store
      requires Valid()
      reads this
    {
      StoreOf(Rows())
    }

    constructor (enforcesForeignKeys: bool)
      ensures Valid() && View() == EMPTY && this.enforcesForeignKeys == enforcesForeignKeys
    {
      profiles, analyses, roadmaps := map[], map[], map[];
      this.enforcesForeignKeys := enforcesForeignKeys;
    }

    /** Deleting a profile row, and what the database does to the rows that refer to it. */
    method DeleteProfile(id: string)
      requires Valid() && id in profiles
      modifies this
      ensures Valid() && View() == DropProfile(old(View()), enforcesForeignKeys, id)
    {
      DropProfileRow(Rows(), enforcesForeignKeys, id);
      profiles := profiles - {id};
      if enforcesForeignKeys {
        analyses := DetachRows(analyses, id);
      }
    }
  }

  class SqlProfileRepository {
    const db: Database

    constructor (db: Database)
      ensures this.db == db
    {
      this.db := db;
    }

    /** SELECT ... WHERE id = ... AND user_id = ... */
    function Select(profileId: string, user: string): Option<ProfileRow>
      reads db
    {
      if profileId in db.profiles && db.profiles[profileId].userId == user then Some(db.profiles[profileId]) else None
    }

    method CreateForUser(user: string, profile: UserProfile, newId: string, now: Instant)
      returns (record: ProfileRecord)
      requires db.Valid() && newId != "" && newId !in db.profiles
      modifies db
      ensures db.Valid() && record == ProfileRecord(newId, profile, now, now)
      ensures db.View() == AddProfile(old(db.View()), user, record)
    {
      var row := ProfileRow(newId, user, profile.name, profile.skills, profile.experienceYears, profile.education,
                            profile.targetRole, now, now);
      PutProfileRow(db.Rows(), row);
      db.profiles := db.profiles[row.id := row];
      record := ProfileFromRow(row);
    }

    function GetForUser(profileId: string, user: string): (record: Option<ProfileRecord>)
      requires db.Valid()
      reads db
      ensures record == Lookup(db.View().profiles, profileId, user)
    {
      match Select(profileId, user)
      case None => None
      case Some(row) => Some(ProfileFromRow(row))
    }

    method UpdateForUser(profileId: string, user: string, profile: UserProfile, now: Instant)
      returns (updated: Option<ProfileRecord>)
      requires db.Valid()
      modifies db
      ensures db.Valid()
      ensures var found := old(Lookup(db.View().profiles, profileId, user));
              && updated == (if found.Some? then Some(found.value.(profile := profile, updatedAt := now)) else None)
              && db.View() == if found.Some? then AddProfile(old(db.View()), user, updated.value) else old(db.View())
    {
      var row := Select(profileId, user);
      if row.None? {
        return None;
      }
      var changed := row.value.(name := profile.name, skills := profile.skills,
                                experienceYears := profile.experienceYears, education := profile.education,
                                targetRole := profile.targetRole, updatedAt := now);
      PutProfileRow(db.Rows(), changed);
      db.profiles := db.profiles[profileId := changed];
      updated := Some(ProfileFromRow(changed));
    }

    method DeleteForUser(profileId: string, user: string) returns (deleted: bool)
      requires db.Valid()
      modifies db
      ensures db.Valid() && (deleted <==> old(Lookup(db.View().profiles, profileId, user)).Some?)
      ensures db.View() == if deleted then DropProfile(old(db.View()), db.enforcesForeignKeys, profileId)
                           else old(db.View())
    {
      var row := Select(profileId, user);
      if row.None? {
        return false;
      }
      db.DeleteProfile(profileId);
      deleted := true;
    }
  }

  class SqlAnalysisRepository {
    const db: Database

    constructor (db: Database)
      ensures this.db == db
    {
      this.db := db;
    }

    method CreateForUser(user: string, record: AnalysisRecord) returns (stored: AnalysisRecord)
      requires db.Valid() && record.id !in db.analyses
      modifies db
      ensures db.Valid() && stored == record
      ensures db.View() == AddAnalysis(old(db.View()), user, record)
    {
      var row := AnalysisToRow(user, record);
      PutAnalysisRow(db.Rows(), user, record);
      AnalysisRoundTrip(user, record);
      db.analyses := db.analyses[row.id := row];
      stored := AnalysisFromRow(row).value;
    }

    function GetForUser(analysisId: string, user: string): (record: Option<AnalysisRecord>)
      requires db.Valid()
      reads db
      ensures record == Lookup(db.View().analyses, analysisId, user)
    {
      if analysisId !in db.analyses || db.analyses[analysisId].userId != user then None
      else AnalysisFromRow(db.analyses[analysisId])
    }
  }

  /** The row after the scan: that of the patched record, if there is such a resource. */
  lemma ScannedRow(v: RoadmapValue, resourceId: string, completed: bool, now: Instant, outcome: ScanOutcome)
    returns (v': RoadmapValue)
    requires DistinctIds(v.phases) && Scanned(PhasesToList(v.phases), resourceId, completed, outcome)
    ensures outcome.Hit? <==> HasResource(v.phases, resourceId)
    ensures outcome.Hit? ==>
              && Some(v') == Patched(v, resourceId, completed, now) && DistinctIds(v'.phases)
              && RoadmapToRow(v') == RoadmapToRow(v).(phases := List(outcome.column), updatedAt := now)
              && RoadmapFromRow(RoadmapToRow(v')) == Some(v')
  {
    ScanOfRoadmap(v.phases, resourceId, completed, outcome);
    v' := v.(phases := WithCompleted(v.phases, resourceId, completed), updatedAt := now);
    if outcome.Hit? {
      SetIsWithCompleted(v.phases, resourceId, outcome.p, outcome.i, completed);
      WithCompletedKeepsIds(v.phases, resourceId, completed);
      RoadmapRoundTrip(v');
    }
  }

  /** The scan of one row, which sets the flag and the timestamp, or finds nothing to set. */
  method PatchRow(row: RoadmapRow, ghost v: RoadmapValue, resourceId: string, completed: bool, now: Instant)
    returns (patched: Option<RoadmapRow>, ghost v': RoadmapValue)
    requires row == RoadmapToRow(v) && DistinctIds(v.phases)
    ensures Patched(v, resourceId, completed, now) == if patched.Some? then Some(v') else None
    ensures patched.Some? ==>
              && patched.value == RoadmapToRow(v') && RoadmapFromRow(patched.value) == Some(v')
              && DistinctIds(v'.phases)
  {
    var outcome := Scan(Column(row.phases).value, resourceId, completed);
    v' := ScannedRow(v, resourceId, completed, now, outcome);
    if !outcome.Hit? {
      return None, v';
    }
    patched := Some(row.(phases := List(outcome.column), updatedAt := now));
  }

  class SqlRoadmapRepository {
    const db: Database

    constructor (db: Database)
      ensures this.db == db
    {
      this.db := db;
    }

    /** The row reaches the table. */
    method Write(row: RoadmapRow, ghost v: RoadmapValue)
      requires db.Valid() && row == RoadmapToRow(v) && row.analysisId in db.analyses && DistinctIds(v.phases)
      modifies db
      ensures db.Valid() && db.analyses == old(db.analyses)
      ensures db.View() == old(AddRoadmap(db.View(), db.analyses[row.analysisId].userId, v))
    {
      PutRoadmapRow(db.Rows(), v);
      db.roadmaps := db.roadmaps[row.id := row];
    }

    method Create(record: RoadmapValue) returns (stored: RoadmapValue)
      requires db.Valid() && record.analysisId in db.analyses && DistinctIds(record.phases)
      modifies db
      ensures db.Valid() && stored == record
      ensures db.View() == old(AddRoadmap(db.View(), db.analyses[record.analysisId].userId, record))
      ensures db.analyses == old(db.analyses)
    {
      var row := RoadmapToRow(record);
      RoadmapRoundTrip(record);
      Write(row, record);
      stored := RoadmapFromRow(row).value;
    }

    /** The user is not stored: it is that of the analysis. */
    method CreateForUser(user: string, record: RoadmapValue) returns (stored: RoadmapValue)
      requires db.Valid() && DistinctIds(record.phases)
      requires Lookup(db.View().analyses, record.analysisId, user).Some?
      modifies db
      ensures db.Valid() && stored == record
      ensures db.View() == AddRoadmap(old(db.View()), user, record)
    {
      stored := Create(record);
    }

    /** SELECT ... JOIN analyses ... WHERE roadmaps.id = ... AND analyses.user_id = ... */
    function GetForUser(roadmapId: string, user: string): (record: Option<RoadmapValue>)
      requires db.Valid()
      reads db
      ensures record == Lookup(db.View().roadmaps, roadmapId, user)
    {
      if roadmapId !in db.roadmaps || db.roadmaps[roadmapId].analysisId !in db.analyses
         || db.analyses[db.roadmaps[roadmapId].analysisId].userId != user then None
      else RoadmapFromRow(db.roadmaps[roadmapId])
    }

    method UpdateResource(roadmapId: string, resourceId: string, completed: bool, now: Instant)
      returns (updated: Option<RoadmapValue>)
      requires db.Valid()
      modifies db
      ensures db.Valid() && db.analyses == old(db.analyses)
      ensures var before := old(db.View());
              && updated == (if roadmapId in before.roadmaps
                             then Patched(before.roadmaps[roadmapId].value, resourceId, completed, now) else None)
              && db.View() == if updated.Some? then AddRoadmap(before, before.roadmaps[roadmapId].owner, updated.value)
                              else before
    {
      if roadmapId !in db.roadmaps {
        return None;
      }
      ghost var v := RoadmapFromRow(db.roadmaps[roadmapId]).value;
      assert RoadmapRowOk(db.roadmaps[roadmapId]);
      RoadmapRoundTrip(v);
      var row, v' := PatchRow(db.roadmaps[roadmapId], v, resourceId, completed, now);
      if row.None? {
        return None;
      }
      Write(row.value, v');
      updated := RoadmapFromRow(row.value);
    }

    method UpdateResourceForUser(roadmapId: string, resourceId: string, user: string, completed: bool, now: Instant)
      returns (updated: Option<RoadmapValue>)
      requires db.Valid()
      modifies db
      ensures db.Valid()
      ensures updated.Some? ==> updated.value.id == roadmapId
      ensures var found := old(Lookup(db.View().roadmaps, roadmapId, user));
              && updated == (if found.Some? then Patched(found.value, resourceId, completed, now) else None)
              && db.View() == if updated.Some? then AddRoadmap(old(db.View()), user, updated.value) else old(db.View())
    {
      var owned := GetForUser(roadmapId, user);
      if owned.None? {
        return None;
      }
      updated := UpdateResource(roadmapId, resourceId, completed, now);
    }
  }
}
