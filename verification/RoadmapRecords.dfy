/** Stored roadmaps: the index from resource id to position, and the in-memory repository that updates a
    resource object in place. */
module RoadmapRecords {
  import opened Common
  import opened Models
  import opened Roadmap
  import opened RefreshTokens
  import opened RoadmapObjects

  /** The value of a stored roadmap. */
  datatype RoadmapValue = RoadmapValue(
    id: string,
    analysisId: string,
    phases: seq<Phase>,
    createdAt: Instant,
    updatedAt: Instant)

  /** A PATCH on one resource: the roadmap with the flag set and a new `updated_at`, or nothing when the
      resource is not there. */
  function Patched(v: RoadmapValue, resourceId: string, completed: bool, now: Instant): Option<RoadmapValue> {
    if HasResource(v.phases, resourceId)
    then Some(v.(phases := WithCompleted(v.phases, resourceId, completed), updatedAt := now))
    else None
  }

  // -------------------------------------------------------------------------
  // The index
  // -------------------------------------------------------------------------

  type Index = map<string, (nat, nat)>

  /** Reading order of positions. */
  predicate Precedes(q: int, j: int, p: int, i: int) {
    q < p || (q == p && j < i)
  }

  predicate HasId(phases: seq<Phase>, p: int, i: int) {
    At(phases, p, i) && phases[p].resources[i].id != ""
  }

  /** What building an index gives for any phases: every id, except the empty one, leads to the last resource that
      has it. */
  ghost predicate IndexesLast(phases: seq<Phase>, index: Index) {
    IndexSoFar(phases, index, |phases|, 0)
  }

  /** The same for everything before position (p, i). */
  ghost predicate IndexSoFar(phases: seq<Phase>, index: Index, p: nat, i: nat) {
    && (forall id :: id in index ==>
          && HasId(phases, index[id].0, index[id].1)
          && phases[index[id].0].resources[index[id].1].id == id
          && Precedes(index[id].0, index[id].1, p, i))
    && (forall q, j :: HasId(phases, q, j) && Precedes(q, j, p, i) ==>
          var id := phases[q].resources[j].id;
          id in index && !Precedes(index[id].0, index[id].1, q, j))
  }

  /** The index holds an id exactly when a resource has it, at that resource's position. */
  ghost predicate IndexMatches(phases: seq<Phase>, index: Index) {
    && (forall id :: id in index ==>
          && HasId(phases, index[id].0, index[id].1)
          && phases[index[id].0].resources[index[id].1].id == id)
    && (forall p, i :: HasId(phases, p, i) ==>
          phases[p].resources[i].id in index && index[phases[p].resources[i].id] == (p, i))
  }

  /** No two resources share an id; any number may have none. */
  ghost predicate NoSharedIds(phases: seq<Phase>) {
    forall p, i, q, j | HasId(phases, p, i) && HasId(phases, q, j) ::
      phases[p].resources[i].id == phases[q].resources[j].id ==> p == q && i == j
  }

  lemma DistinctAreNotShared(phases: seq<Phase>)
    requires DistinctIds(phases)
    ensures NoSharedIds(phases)
  {
  }

  /** There is only one such index. */
  lemma IndexUnique(phases: seq<Phase>, a: Index, b: Index)
    requires IndexesLast(phases, a) && IndexesLast(phases, b)
    ensures a == b
  {
    forall id | id in a
      ensures id in b && a[id] == b[id]
    {
      assert !Precedes(b[id].0, b[id].1, a[id].0, a[id].1);
      assert !Precedes(a[id].0, a[id].1, b[id].0, b[id].1);
    }
    forall id | id in b
      ensures id in a
    {
      assert HasId(phases, b[id].0, b[id].1);
    }
  }

  /** The index built is exact, in both directions, exactly for roadmaps in which no two resources share an id. */
  lemma IndexIsExact(phases: seq<Phase>, index: Index)
    requires IndexesLast(phases, index)
    ensures IndexMatches(phases, index) <==> NoSharedIds(phases)
  {
    if NoSharedIds(phases) {
      forall p, i | HasId(phases, p, i)
        ensures index[phases[p].resources[i].id] == (p, i)
      {
        var at := index[phases[p].resources[i].id];
        assert HasId(phases, at.0, at.1);
      }
    }
  }

  /** Only a roadmap in which no two resources share an id has an exact index. */
  lemma IndexedAreDistinct(phases: seq<Phase>, index: Index)
    requires IndexMatches(phases, index)
    ensures NoSharedIds(phases)
  {
  }

  lemma IndexFinds(phases: seq<Phase>, index: Index, id: string)
    requires IndexMatches(phases, index)
    ensures id in index <==> id != "" && HasResource(phases, id)
  {
    if id != "" && HasResource(phases, id) {
      var p, i :| 0 <= p < |phases| && 0 <= i < |phases[p].resources| && phases[p].resources[i].id == id;
      assert HasId(phases, p, i);
    }
    if id in index {
      assert phases[index[id].0].resources[index[id].1].id == id;
    }
  }

  lemma IndexOneMore(phases: seq<Phase>, index: Index, p: nat, i: nat)
    requires IndexSoFar(phases, index, p, i) && At(phases, p, i)
    ensures var id := phases[p].resources[i].id;
            IndexSoFar(phases, if id != "" then index[id := (p, i)] else index, p, i + 1)
  {
  }

  lemma IndexNextPhase(phases: seq<Phase>, index: Index, p: nat)
    requires p < |phases| && IndexSoFar(phases, index, p, |phases[p].resources|)
    ensures IndexSoFar(phases, index, p + 1, 0)
  {
  }

  /** `_build_resource_index` of a stored roadmap. */
  method BuildIndex(phases: seq<Phase>) returns (index: Index)
    ensures IndexesLast(phases, index)
  {
    index := map[];
    for p := 0 to |phases|
      invariant IndexSoFar(phases, index, p, 0)
    {
      for i := 0 to |phases[p].resources|
        invariant IndexSoFar(phases, index, p, i)
      {
        var id := phases[p].resources[i].id;
        IndexOneMore(phases, index, p, i);
        if id != "" {
          index := index[id := (p, i)];
        }
      }
      IndexNextPhase(phases, index, p);
    }
  }

  /** The same over the objects of a new roadmap. */
  method BuildResourceIndex(phases: seq<RoadmapPhase>) returns (index: Index)
    ensures IndexesLast(PhaseValues(phases), index)
  {
    index := map[];
    ghost var values := PhaseValues(phases);
    for p := 0 to |phases|
      invariant IndexSoFar(values, index, p, 0)
    {
      for i := 0 to |phases[p].resources|
        invariant IndexSoFar(values, index, p, i)
      {
        var resource := phases[p].resources[i];
        assert values[p].resources[i].id == resource.id;
        IndexOneMore(values, index, p, i);
        if resource.id != "" {
          index := index[resource.id := (p, i)];
        }
      }
      IndexNextPhase(values, index, p);
    }
  }

  // -------------------------------------------------------------------------
  // Records
  // -------------------------------------------------------------------------

  /** The phases with the flag of one position set. */
  function SetAt(phases: seq<Phase>, p: nat, i: nat, completed: bool): seq<Phase>
    requires At(phases, p, i)
  {
    phases[p := phases[p].(resources := phases[p].resources[i := phases[p].resources[i].(completed := completed)])]
  }

  lemma SetAtPointwise(before: seq<Phase>, after: seq<Phase>, p: nat, i: nat, completed: bool)
    requires At(before, p, i) && |after| == |before|
    requires forall q :: 0 <= q < |before| ==>
               after[q].period == before[q].period && |after[q].resources| == |before[q].resources|
    requires forall q, j :: At(before, q, j) ==>
               after[q].resources[j]
               == if q == p && j == i then before[q].resources[j].(completed := completed) else before[q].resources[j]
    ensures after == SetAt(before, p, i, completed)
  {
    var wanted := SetAt(before, p, i, completed);
    forall q | 0 <= q < |before|
      ensures after[q] == wanted[q]
    {
      assert forall j :: 0 <= j < |before[q].resources| ==> At(before, q, j);
      assert after[q].resources == wanted[q].resources;
    }
  }

  /** Setting the flag of the position that has the id is setting it for the id. */
  lemma SetIsWithCompleted(phases: seq<Phase>, id: string, p: nat, i: nat, completed: bool)
    requires DistinctIds(phases) && At(phases, p, i) && phases[p].resources[i].id == id
    ensures SetAt(phases, p, i, completed) == WithCompleted(phases, id, completed)
  {
    var left, right := SetAt(phases, p, i, completed), WithCompleted(phases, id, completed);
    forall q | 0 <= q < |phases|
      ensures left[q] == right[q]
    {
      forall j | 0 <= j < |phases[q].resources|
        ensures left[q].resources[j] == right[q].resources[j]
      {
        assert At(phases, q, j);
      }
      assert left[q].resources == right[q].resources;
    }
  }

  lemma WithCompletedKeepsIds(phases: seq<Phase>, id: string, completed: bool)
    requires DistinctIds(phases)
    ensures DistinctIds(WithCompleted(phases, id, completed))
  {
    var after := WithCompleted(phases, id, completed);
    assert forall p, i :: At(after, p, i) <==> At(phases, p, i);
    assert forall p, i :: At(phases, p, i) ==> after[p].resources[i].id == phases[p].resources[i].id;
  }

  /** Flags do not matter to an index. */
  lemma CompletedKeepsIndex(phases: seq<Phase>, index: Index, id: string, completed: bool)
    requires IndexMatches(phases, index)
    ensures IndexMatches(WithCompleted(phases, id, completed), index)
  {
    var after := WithCompleted(phases, id, completed);
    assert forall p, i :: HasId(after, p, i) <==> HasId(phases, p, i);
    assert forall p, i :: HasId(phases, p, i) ==> after[p].resources[i].id == phases[p].resources[i].id;
  }

  /** Setting the flag at the indexed position sets it for the id, and the index stays right. */
  lemma SetAtIndex(phases: seq<Phase>, index: Index, id: string, completed: bool)
    requires DistinctIds(phases) && IndexMatches(phases, index) && id in index
    ensures HasResource(phases, id)
    ensures var after := SetAt(phases, index[id].0, index[id].1, completed);
            after == WithCompleted(phases, id, completed) && DistinctIds(after) && IndexMatches(after, index)
  {
    IndexFinds(phases, index, id);
    SetIsWithCompleted(phases, id, index[id].0, index[id].1, completed);
    WithCompletedKeepsIds(phases, id, completed);
    CompletedKeepsIndex(phases, index, id, completed);
  }

  /** The objects a roadmap is made of. */
  ghost function Parts(phases: seq<RoadmapPhase>): (parts: set<object>)
    reads phases
    ensures forall p :: p in phases ==> p in parts
    ensures forall p, r :: p in phases && r in p.resources ==> r in parts
    ensures forall r :: r in PhaseResources(phases) ==> r in parts
  {
    (set p: RoadmapPhase | p in phases :: p as object) + (set p, r | p in phases && r in p.resources :: r as object)
  }

  /** And nothing else. */
  lemma PartsOnly(phases: seq<RoadmapPhase>, part: object)
    requires part in Parts(phases)
    ensures (exists p :: p in phases && p == part) || (exists r :: r in PhaseResources(phases) && r == part)
  {
    if p :| p in phases && p == part {
    } else {
      var p, r :| p in phases && r in p.resources && r == part;
      assert r in PhaseResources(phases);
    }
  }

  class RoadmapRecord {
    const id: string
    const analysisId: string
    const phases: seq<RoadmapPhase>
    const resourceIndex: Index
    const createdAt: Instant
    var updatedAt: Instant
    ghost const parts: set<object>

    ghost predicate Valid()
      reads this, parts
    {
      && this !in parts
      && (forall p :: p in phases ==> p in parts)
      && Parts(phases) == parts
      && DistinctIds(PhaseValues(phases))
      && IndexMatches(PhaseValues(phases), resourceIndex)
    }

    /** What the record says, as a response shows it. */
    function Value(): RoadmapValue
      requires Valid()
      reads this, parts
    {
      RoadmapValue(id, analysisId, PhaseValues(phases), createdAt, updatedAt)
    }

    constructor (id: string, analysisId: string, phases: seq<RoadmapPhase>, resourceIndex: Index, now: Instant)
      requires DistinctIds(PhaseValues(phases)) && IndexMatches(PhaseValues(phases), resourceIndex)
      ensures Valid() && parts == Parts(phases)
      ensures Value() == RoadmapValue(id, analysisId, PhaseValues(phases), now, now)
    {
      this.id, this.analysisId, this.phases := id, analysisId, phases;
      this.resourceIndex := resourceIndex;
      this.createdAt, this.updatedAt := now, now;
      this.parts := Parts(phases);
    }

    /** The object the index leads to. */
    ghost function Target(resourceId: string): LearningResource
      requires Valid() && resourceId in resourceIndex
      reads this, parts
    {
      phases[resourceIndex[resourceId].0].resources[resourceIndex[resourceId].1]
    }

    /** One flag of one object, and the record's own timestamp. */
    method SetFlag(p: nat, i: nat, completed: bool, now: Instant)
      requires Valid() && At(PhaseValues(phases), p, i)
      modifies `updatedAt, phases[p].resources[i]
      ensures updatedAt == now && unchanged(phases) && Parts(phases) == parts
      ensures PhaseValues(phases) == SetAt(old(PhaseValues(phases)), p, i, completed)
      ensures phases[p].resources[i].completed == completed
    {
      ghost var before := PhaseValues(phases);
      var resource := phases[p].resources[i];
      resource.completed := completed;
      updatedAt := now;
      assert unchanged(phases);
      ghost var after := PhaseValues(phases);
      forall q, j | At(before, q, j)
        ensures At(after, q, j)
        ensures after[q].resources[j]
                == if q == p && j == i then before[q].resources[j].(completed := completed) else before[q].resources[j]
      {
        assert before[q].resources[j].id == phases[q].resources[j].id;
      }
      SetAtPointwise(before, after, p, i, completed);
    }

    /** The in-place update through the index. */
    method SetCompleted(resourceId: string, completed: bool, now: Instant)
      requires Valid() && resourceId in resourceIndex
      modifies this, Target(resourceId)
      ensures Valid() && Target(resourceId) in parts
      ensures Some(Value()) == old(Patched(Value(), resourceId, completed, now))
      ensures updatedAt == now && old(Target(resourceId)).completed == completed
    {
      var position := resourceIndex[resourceId];
      SetAtIndex(PhaseValues(phases), resourceIndex, resourceId, completed);
      SetFlag(position.0, position.1, completed, now);
    }
  }

  /** Phases and resources that are all new. */
  method GenerateParts(gap: GapResult, catalogue: seq<LearningResource>, ids: nat -> string)
    returns (phases: seq<RoadmapPhase>)
    ensures fresh(Parts(phases)) && PhaseValues(phases) == Generated(gap, old(Values(catalogue)), ids)
  {
    phases := GenerateRoadmap(gap, catalogue, ids);
    forall part | part in Parts(phases)
      ensures fresh(part)
    {
      PartsOnly(phases, part);
    }
  }

  lemma GeneratedIndex(gap: GapResult, catalogue: seq<Resource>, ids: nat -> string, index: Index)
    requires FreshIds(ids) && IndexesLast(Generated(gap, catalogue, ids), index)
    ensures DistinctIds(Generated(gap, catalogue, ids)) && IndexMatches(Generated(gap, catalogue, ids), index)
  {
    GeneratedDistinct(gap, catalogue, ids);
    DistinctAreNotShared(Generated(gap, catalogue, ids));
    IndexIsExact(Generated(gap, catalogue, ids), index);
  }

  /** The record of a newly generated roadmap: made of new objects only, with the index of its own resources.
      Nothing that was `held` changes, and none of it is in the record. */
  method NewRecord(id: string, analysisId: string, gap: GapResult, catalogue: seq<LearningResource>,
                   ids: nat -> string, now: Instant, ghost held: set<object>)
    returns (record: RoadmapRecord)
    requires FreshIds(ids)
    ensures record.Valid() && record.id == id && record.analysisId == analysisId
    ensures fresh(record) && fresh(record.parts)
    ensures unchanged(held) && record !in held && record.parts !! held
    ensures record.Value() == RoadmapValue(id, analysisId, Generated(gap, old(Values(catalogue)), ids), now, now)
  {
    ghost var values := Values(catalogue);
    var phases := GenerateParts(gap, catalogue, ids);
    var index := BuildResourceIndex(phases);
    GeneratedIndex(gap, values, ids, index);
    record := new RoadmapRecord(id, analysisId, phases, index, now);
  }

  // -------------------------------------------------------------------------
  // The in-memory repository
  // -------------------------------------------------------------------------

  type Records = map<string, RoadmapRecord>

  /** The records and their parts lie in `repr`, and no two records share anything. */
  ghost predicate Shape(records: Records, repr: set<object>) {
    && (forall id :: id in records ==> records[id].id == id && records[id] in repr && records[id].parts <= repr)
    && (forall a, b {:trigger Apart(records[a], records[b])} ::
          a in records && b in records && a != b ==> Apart(records[a], records[b]))
  }

  ghost predicate Apart(x: RoadmapRecord, y: RoadmapRecord) {
    x != y && x !in y.parts && y !in x.parts && x.parts !! y.parts
  }

  ghost predicate AllValid(records: Records, repr: set<object>)
    requires Shape(records, repr)
    reads repr
  {
    forall id {:trigger records[id].Valid()} :: id in records ==> records[id].Valid()
  }

  ghost function ContentsOf(records: Records, repr: set<object>): map<string, RoadmapValue>
    requires Shape(records, repr) && AllValid(records, repr)
    reads repr
  {
    map id | id in records :: records[id].Value()
  }

  /** Storing a record that shares nothing with those already there. */
  lemma ShapeInsert(records: Records, repr: set<object>, record: RoadmapRecord)
    requires Shape(records, repr) && record.id !in records && record !in repr && record.parts !! repr
    ensures Shape(records[record.id := record], repr + {record} + record.parts)
  {
    var records', repr' := records[record.id := record], repr + {record} + record.parts;
    forall id | id in records'
      ensures records'[id].id == id && records'[id] in repr' && records'[id].parts <= repr'
    {
    }
    forall a, b | a in records' && b in records' && a != b
      ensures Apart(records'[a], records'[b])
    {
      if a != record.id && b != record.id {
        assert Apart(records[a], records[b]);
      }
    }
  }

  lemma ContentsInsert(records: Records, repr: set<object>, record: RoadmapRecord)
    requires Shape(records, repr) && AllValid(records, repr)
    requires record.Valid() && record.id !in records && record !in repr && record.parts !! repr
    ensures var records', repr' := records[record.id := record], repr + {record} + record.parts;
            && Shape(records', repr') && AllValid(records', repr')
            && ContentsOf(records', repr') == ContentsOf(records, repr)[record.id := record.Value()]
  {
    ShapeInsert(records, repr, record);
  }

  class InMemoryRoadmapRepository {
    var records: Records
    var owners: map<string, string>
    ghost var repr: set<object>

    ghost predicate Valid()
      reads this, repr
    {
      this !in repr && Shape(records, repr) && AllValid(records, repr)
    }

    /** The stored roadmaps as values. */
    ghost function Contents(): map<string, RoadmapValue>
      requires Valid()
      reads this, repr
    {
      ContentsOf(records, repr)
    }

    constructor ()
      ensures Valid() && repr == {} && records == map[] && owners == map[] && Contents() == map[]
    {
      records, owners := map[], map[];
      repr := {};
    }

    /** A record that shares nothing with the repository. */
    ghost predicate Separate(record: RoadmapRecord)
      reads this, record, record.parts
    {
      record.Valid() && record.id !in records && record !in repr && record.parts !! repr && this !in record.parts
    }

    method Create(record: RoadmapRecord) returns (stored: RoadmapRecord)
      requires Valid() && Separate(record)
      modifies this
      ensures Valid() && repr == old(repr) + {record} + record.parts
      ensures stored == record && owners == old(owners)
      ensures records == old(records)[record.id := record]
      ensures Contents() == old(Contents())[record.id := record.Value()]
    {
      ghost var records0, repr0 := records, repr;
      records := records[record.id := record];
      repr := repr + {record} + record.parts;
      assert unchanged(repr0) && unchanged(record) && unchanged(record.parts);
      ContentsInsert(records0, repr0, record);
      stored := record;
    }

    function Get(roadmapId: string): Option<RoadmapRecord>
      reads this
    {
      if roadmapId in records then Some(records[roadmapId]) else None
    }

    /** The only two objects an update may change. */
    ghost function Touched(roadmapId: string, resourceId: string): (touched: set<object>)
      requires Valid()
      reads this, repr
      ensures touched <= repr
    {
      if roadmapId in records && resourceId in records[roadmapId].resourceIndex
      then {records[roadmapId], records[roadmapId].Target(resourceId)}
      else {}
    }

    method UpdateResource(roadmapId: string, resourceId: string, completed: bool, now: Instant)
      returns (updated: Option<RoadmapRecord>)
      requires Valid()
      modifies Touched(roadmapId, resourceId)
      ensures Valid() && unchanged(this)
      ensures updated.Some? <==> roadmapId in records && old(HasResource(Contents()[roadmapId].phases, resourceId))
      ensures updated.Some? ==>
                && updated.value == records[roadmapId]
                && Contents() == old(Contents()[roadmapId :=
                                       Patched(Contents()[roadmapId], resourceId, completed, now).value])
      ensures updated.None? ==> Contents() == old(Contents())
    {
      if roadmapId !in records {
        return None;
      }
      var record := records[roadmapId];
      IndexFinds(record.Value().phases, record.resourceIndex, resourceId);
      if resourceId !in record.resourceIndex {
        return None;
      }
      SetInRecords(records, repr, record, resourceId, completed, now);
      updated := Some(record);
    }
  
    // ---- Records by owner, through the sidecar map ----

    /** The owned records; a record created without an owner is in nobody's view. */
    ghost function View(): map<string, Owned<RoadmapValue>>
      requires Valid()
      reads this, repr
    {
      Joined(owners, Contents())
    }

    method CreateForUser(user: string, record: RoadmapRecord) returns (stored: RoadmapRecord)
      requires Valid() && Separate(record)
      modifies this
      ensures Valid() && repr == old(repr) + {record} + record.parts
      ensures stored == record && stored.Valid() && stored.Value() == old(record.Value())
      ensures records == old(records)[record.id := record] && owners == old(owners)[record.id := user]
      ensures View() == old(View())[record.id := Owned(user, stored.Value())]
    {
      stored := Create(record);
      ghost var contents, value := Contents(), record.Value();
      label created:
      owners := owners[stored.id := user];
      assert unchanged@created(repr);
      assert Contents() == contents && record.Value() == value;
      JoinedPut(old(owners), old(Contents()), record.id, user, value);
    }

    function GetForUser(roadmapId: string, user: string): (record: Option<RoadmapRecord>)
      requires Valid()
      reads this, repr
      ensures record.Some? ==> record.value in repr && record.value.Valid() && record.value.parts <= repr
      ensures Lookup(View(), roadmapId, user) == if record.Some? then Some(record.value.Value()) else None
    {
      if roadmapId !in owners || owners[roadmapId] != user then None else Get(roadmapId)
    }

    method UpdateResourceForUser(roadmapId: string, resourceId: string, user: string, completed: bool, now: Instant)
      returns (updated: Option<RoadmapRecord>)
      requires Valid()
      modifies Touched(roadmapId, resourceId)
      ensures Valid() && unchanged(this)
      ensures updated.Some? ==> updated.value in repr && updated.value.Valid() && updated.value.parts <= repr
      ensures var found := old(Lookup(View(), roadmapId, user));
              && (updated.Some? <==> found.Some? && HasResource(found.value.phases, resourceId))
              && (updated.Some? ==>
                    && Some(updated.value.Value()) == Patched(found.value, resourceId, completed, now)
                    && View() == old(View())[roadmapId := Owned(user, updated.value.Value())])
              && (updated.None? ==> View() == old(View()))
    {
      if roadmapId !in owners || owners[roadmapId] != user {
        return None;
      }
      ghost var before := Contents();
      updated := UpdateResource(roadmapId, resourceId, completed, now);
      if updated.Some? {
        JoinedUpdate(owners, before, roadmapId, updated.value.Value());
      }
    }
  }

  function Joined<T>(owners: map<string, string>, records: map<string, T>): map<string, Owned<T>> {
    map id | id in owners && id in records :: Owned(owners[id], records[id])
  }

  lemma JoinedUpdate<T>(owners: map<string, string>, records: map<string, T>, id: string, value: T)
    requires id in owners && id in records
    ensures Joined(owners, records[id := value]) == Joined(owners, records)[id := Owned(owners[id], value)]
  {
  }

  lemma JoinedPut<T>(owners: map<string, string>, records: map<string, T>, id: string, user: string, value: T)
    ensures Joined(owners[id := user], records[id := value]) == Joined(owners, records)[id := Owned(user, value)]
  {
  }

  /** The update as it changes one of the records, and none of the others. */
  method SetInRecords(ghost records: Records, ghost repr: set<object>, record: RoadmapRecord, resourceId: string,
                      completed: bool, now: Instant)
    requires Shape(records, repr) && AllValid(records, repr)
    requires record.id in records && records[record.id] == record && resourceId in record.resourceIndex
    modifies record, record.Target(resourceId)
    ensures AllValid(records, repr)
    ensures record.Valid() && Some(record.Value()) == old(Patched(record.Value(), resourceId, completed, now))
    ensures ContentsOf(records, repr) == old(ContentsOf(records, repr))[record.id := record.Value()]
  {
    ghost var others, rest := Without(records, repr, record, resourceId);
    ghost var kept := ContentsOf(others, rest);
    ghost var was := record.Value();
    SetApart(others, rest, record, resourceId, completed, now);
    ContentsInsert(others, rest, record);
    Overwritten(kept, record.id, was, record.Value());
  }

  /** What shares nothing with the record does not see the update. */
  method SetApart(ghost others: Records, ghost rest: set<object>, record: RoadmapRecord, resourceId: string,
                  completed: bool, now: Instant)
    requires Shape(others, rest) && AllValid(others, rest)
    requires record.Valid() && resourceId in record.resourceIndex
    requires record !in rest && record.Target(resourceId) !in rest
    modifies record, record.Target(resourceId)
    ensures AllValid(others, rest) && ContentsOf(others, rest) == old(ContentsOf(others, rest))
    ensures record.Valid() && Some(record.Value()) == old(Patched(record.Value(), resourceId, completed, now))
  {
    ghost var kept := ContentsOf(others, rest);
    record.SetCompleted(resourceId, completed, now);
    assert unchanged(rest);
    assert AllValid(others, rest) && ContentsOf(others, rest) == kept;
  }

  lemma Overwritten<T>(m: map<string, T>, key: string, was: T, value: T)
    ensures m[key := was][key := value] == m[key := value]
  {
  }

  /** Taking one record out: the others lie in the rest of `repr`. */
  lemma Without(records: Records, repr: set<object>, record: RoadmapRecord, resourceId: string)
    returns (others: Records, rest: set<object>)
    requires Shape(records, repr) && AllValid(records, repr)
    requires record.id in records && records[record.id] == record && resourceId in record.resourceIndex
    ensures record.Target(resourceId) !in rest
    ensures record.Valid() && record.id !in others && records == others[record.id := record]
    ensures record !in rest && record.parts !! rest && repr == rest + {record} + record.parts
    ensures Shape(others, rest) && AllValid(others, rest)
    ensures ContentsOf(records, repr) == ContentsOf(others, rest)[record.id := record.Value()]
  {
    others := map id | id in records && id != record.id :: records[id];
    rest := repr - {record} - record.parts;
    forall id | id in others
      ensures others[id] in rest && others[id].parts <= rest
    {
      assert Apart(records[id], records[record.id]);
    }
    forall a, b | a in others && b in others && a != b
      ensures Apart(others[a], others[b])
    {
      assert Apart(records[a], records[b]);
    }
    assert records == others[record.id := record];
    assert repr == rest + {record} + record.parts;
    ContentsInsert(others, rest, record);
  }
}
