/** Between stored rows, with their JSON columns, and records. */
module Mappers {
  import opened Common
  import opened Models
  import opened Roadmap
  import opened RefreshTokens
  import opened RoadmapRecords
  import opened Store

  datatype Json =
    | Null
    | Bool(b: bool)
    | Number(n: int)
    | Text(s: string)
    | List(items: seq<Json>)
    | Dict(fields: map<string, Json>)

  /** `data.get(key, default)` of a dictionary. */
  function Get(data: Json, key: string, default: Json): Json {
    if data.Dict? && key in data.fields then data.fields[key] else default
  }

  /** What a `for` loop that calls `.get` on every element goes through; None stands for the TypeError of a value
      that cannot be iterated, or the AttributeError of the keys and characters of one that can. */
  function Iterated(j: Json): Option<seq<Json>> {
    match j
    case List(items) => Some(items)
    case Text(s) => if s == "" then Some([]) else None
    case Dict(fields) => if fields == map[] then Some([]) else None
    case _ => None
  }

  /** `column or []`, iterated. */
  function Column(j: Json): Option<seq<Json>> {
    match j
    case Null => Some([])
    case Bool(b) => if b then None else Some([])
    case Number(n) => if n == 0 then Some([]) else None
    case _ => Iterated(j)
  }

  // -------------------------------------------------------------------------
  // Resources and phases
  // -------------------------------------------------------------------------

  function ResourceToDict(r: Resource): (d: Json)
    ensures d.Dict?
  {
    Dict(map["id" := Text(r.id), "name" := Text(r.name), "skill" := Text(r.skill),
             "resource_type" := Text(r.resourceType), "estimated_hours" := Number(r.estimatedHours),
             "url" := Text(r.url), "completed" := Bool(r.completed)])
  }

  /** None stands for the KeyError of a missing key, or the error of a value of the wrong type. Only `completed`
      and `id` may be missing. */
  function ResourceFromDict(d: Json): Option<Resource> {
    var name, skill, kind := Get(d, "name", Null), Get(d, "skill", Null), Get(d, "resource_type", Null);
    var hours, url := Get(d, "estimated_hours", Null), Get(d, "url", Null);
    var completed, id := Get(d, "completed", Bool(false)), Get(d, "id", Text(""));
    if name.Text? && skill.Text? && kind.Text? && hours.Number? && url.Text? && completed.Bool? && id.Text?
    then Some(Resource(name.s, skill.s, kind.s, hours.n, url.s, completed.b, id.s))
    else None
  }

  function ResourcesToList(rs: seq<Resource>): (items: seq<Json>)
    ensures |items| == |rs|
    ensures forall i :: 0 <= i < |rs| ==> items[i] == ResourceToDict(rs[i])
  {
    seq(|rs|, i requires 0 <= i < |rs| => ResourceToDict(rs[i]))
  }

  function ResourcesFromList(items: seq<Json>): Option<seq<Resource>> {
    if items == [] then Some([])
    else
      var first, rest := ResourceFromDict(items[0]), ResourcesFromList(items[1..]);
      if first.Some? && rest.Some? then Some([first.value] + rest.value) else None
  }

  function PhaseToDict(phase: Phase): (d: Json)
    ensures d.Dict?
  {
    Dict(map["label" := Text(phase.period), "resources" := List(ResourcesToList(phase.resources))])
  }

  /** The resources of a phase, which may be missing; None when it is no dictionary or they cannot be gone through. */
  function ResourcesOf(phase: Json): Option<seq<Json>> {
    if phase.Dict? then Iterated(Get(phase, "resources", List([]))) else None
  }

  function PhaseFromDict(d: Json): Option<Phase> {
    var name, resources := Get(d, "label", Null), ResourcesOf(d);
    if !name.Text? || resources.None? then None
    else
      match ResourcesFromList(resources.value)
      case None => None
      case Some(rs) => Some(Phase(name.s, rs))
  }

  function PhasesToList(phases: seq<Phase>): (items: seq<Json>)
    ensures |items| == |phases|
    ensures forall p :: 0 <= p < |phases| ==> items[p] == PhaseToDict(phases[p])
  {
    seq(|phases|, p requires 0 <= p < |phases| => PhaseToDict(phases[p]))
  }

  function PhasesFromList(items: seq<Json>): Option<seq<Phase>> {
    if items == [] then Some([])
    else
      var first, rest := PhaseFromDict(items[0]), PhasesFromList(items[1..]);
      if first.Some? && rest.Some? then Some([first.value] + rest.value) else None
  }

  /** An absent column is an empty roadmap. */
  function PhasesFromColumn(column: Json): Option<seq<Phase>> {
    match Column(column)
    case None => None
    case Some(items) => PhasesFromList(items)
  }

  /** The JSON of a resource, key by key. */
  lemma ResourceKeys(r: Resource)
    ensures var d := ResourceToDict(r);
            && d.fields.Keys == {"id", "name", "skill", "resource_type", "estimated_hours", "url", "completed"}
            && Get(d, "id", Null) == Text(r.id) && Get(d, "name", Null) == Text(r.name)
            && Get(d, "skill", Null) == Text(r.skill) && Get(d, "resource_type", Null) == Text(r.resourceType)
            && Get(d, "estimated_hours", Null) == Number(r.estimatedHours) && Get(d, "url", Null) == Text(r.url)
            && Get(d, "completed", Null) == Bool(r.completed)
  {
  }

  /** And of a phase. */
  lemma PhaseKeys(phase: Phase)
    ensures var d := PhaseToDict(phase);
            && d.fields.Keys == {"label", "resources"}
            && Get(d, "label", Null) == Text(phase.period)
            && var resources := Get(d, "resources", Null);
               && resources.List? && |resources.items| == |phase.resources|
               && forall i :: 0 <= i < |phase.resources| ==> resources.items[i] == ResourceToDict(phase.resources[i])
  {
  }

  lemma ResourceRoundTrip(r: Resource)
    ensures ResourceFromDict(ResourceToDict(r)) == Some(r)
  {
  }

  /** A dictionary without `completed` and `id` reads as an open resource without an id. */
  lemma ResourceDefaults(r: Resource)
    ensures var old_ := Dict(ResourceToDict(r).fields - {"completed", "id"});
            ResourceFromDict(old_) == Some(r.(completed := false, id := ""))
  {
  }

  /** What is not there, or is empty: a column reads as a roadmap without phases, a phase as one without resources. */
  lemma EmptyReads(column: Json, name: string)
    requires column in {Null, Bool(false), Number(0), Text(""), List([]), Dict(map[])}
    ensures PhasesFromColumn(column) == Some([])
    ensures PhaseFromDict(Dict(map["label" := Text(name)])) == Some(Phase(name, []))
  {
  }

  lemma {:induction false} ResourcesRoundTrip(rs: seq<Resource>)
    ensures ResourcesFromList(ResourcesToList(rs)) == Some(rs)
  {
    if rs != [] {
      ResourceRoundTrip(rs[0]);
      ResourcesRoundTrip(rs[1..]);
      assert ResourcesToList(rs)[1..] == ResourcesToList(rs[1..]);
      assert [rs[0]] + rs[1..] == rs;
    }
  }

  lemma PhaseRoundTrip(phase: Phase)
    ensures PhaseFromDict(PhaseToDict(phase)) == Some(phase)
  {
    ResourcesRoundTrip(phase.resources);
  }

  lemma {:induction false} PhasesRoundTrip(phases: seq<Phase>)
    ensures PhasesFromColumn(List(PhasesToList(phases))) == Some(phases)
  {
    if phases != [] {
      PhaseRoundTrip(phases[0]);
      PhasesRoundTrip(phases[1..]);
      assert PhasesToList(phases)[1..] == PhasesToList(phases[1..]);
      assert [phases[0]] + phases[1..] == phases;
    }
  }

  // -------------------------------------------------------------------------
  // Roadmap rows
  // -------------------------------------------------------------------------

  datatype RoadmapRow = RoadmapRow(
    id: string,
    analysisId: string,
    phases: Json,
    createdAt: Instant,
    updatedAt: Instant)

  function RoadmapToRow(v: RoadmapValue): RoadmapRow {
    RoadmapRow(v.id, v.analysisId, List(PhasesToList(v.phases)), v.createdAt, v.updatedAt)
  }

  function RoadmapFromRow(row: RoadmapRow): Option<RoadmapValue> {
    match PhasesFromColumn(row.phases)
    case None => None
    case Some(phases) => Some(RoadmapValue(row.id, row.analysisId, phases, row.createdAt, row.updatedAt))
  }

  lemma RoadmapRoundTrip(v: RoadmapValue)
    ensures RoadmapFromRow(RoadmapToRow(v)) == Some(v)
  {
    PhasesRoundTrip(v.phases);
  }

  /** Reading a row: the record and its rebuilt index, or an error when the row cannot be read. */
  method ReadRoadmap(row: RoadmapRow) returns (record: Option<RoadmapValue>, index: Index)
    ensures record == RoadmapFromRow(row)
    ensures record.Some? ==> IndexesLast(record.value.phases, index)
  {
    record, index := RoadmapFromRow(row), map[];
    if record.Some? {
      index := BuildIndex(record.value.phases);
    }
  }

  /** Storing and reading back gives the record the index it was stored with. */
  lemma IndexSurvives(v: RoadmapValue, stored: Index, rebuilt: Index)
    requires IndexesLast(v.phases, stored)
    requires RoadmapFromRow(RoadmapToRow(v)).Some?
    requires IndexesLast(RoadmapFromRow(RoadmapToRow(v)).value.phases, rebuilt)
    ensures rebuilt == stored
  {
    RoadmapRoundTrip(v);
    IndexUnique(v.phases, stored, rebuilt);
  }

  // -------------------------------------------------------------------------
  // The scan of the JSON column
  // -------------------------------------------------------------------------

  /** A position in a column, as the nested loops reach it. */
  predicate InColumn(column: seq<Json>, p: int, i: int) {
    0 <= p < |column| && ResourcesOf(column[p]).Some? && 0 <= i < |ResourcesOf(column[p]).value|
  }

  function ResourceAt(column: seq<Json>, p: nat, i: nat): Json
    requires InColumn(column, p, i)
  {
    ResourcesOf(column[p]).value[i]
  }

  /** `phases[p]["resources"][i]["completed"] = completed` in the JSON value. */
  function SetInList(column: seq<Json>, p: nat, i: nat, completed: bool): seq<Json>
    requires InColumn(column, p, i) && ResourceAt(column, p, i).Dict?
  {
    var resources := ResourcesOf(column[p]).value;
    var resource := Dict(resources[i].fields["completed" := Bool(completed)]);
    column[p := Dict(column[p].fields["resources" := List(resources[i := resource])])]
  }

  lemma SetResource(r: Resource, completed: bool)
    ensures Dict(ResourceToDict(r).fields["completed" := Bool(completed)]) == ResourceToDict(r.(completed := completed))
  {
  }

  /** The positions of an encoded roadmap are those of the roadmap. */
  lemma EncodedColumn(phases: seq<Phase>, p: int, i: int)
    ensures InColumn(PhasesToList(phases), p, i) <==> At(phases, p, i)
    ensures At(phases, p, i) ==> ResourceAt(PhasesToList(phases), p, i) == ResourceToDict(phases[p].resources[i])
    ensures 0 <= p < |phases| ==> ResourcesOf(PhasesToList(phases)[p]).Some?
  {
  }

  /** Setting the flag in the JSON is setting it in the record. */
  lemma SetCommutes(phases: seq<Phase>, p: nat, i: nat, completed: bool)
    requires At(phases, p, i)
    ensures InColumn(PhasesToList(phases), p, i) && ResourceAt(PhasesToList(phases), p, i).Dict?
    ensures SetInList(PhasesToList(phases), p, i, completed) == PhasesToList(SetAt(phases, p, i, completed))
  {
    EncodedColumn(phases, p, i);
    var phase := phases[p];
    SetResource(phase.resources[i], completed);
    var resources := phase.resources[i := phase.resources[i].(completed := completed)];
    var dict := ResourceToDict(phase.resources[i].(completed := completed));
    assert ResourcesToList(phase.resources)[i := dict] == ResourcesToList(resources);
    assert PhaseToDict(phase).fields["resources" := List(ResourcesToList(resources))]
        == PhaseToDict(phase.(resources := resources)).fields;
  }

  /** The scan finds the resource, or finds none, or stops at something that is not what it should be. */
  datatype ScanOutcome = Hit(column: seq<Json>, p: nat, i: nat) | Miss | Malformed(p: nat, i: nat)

  predicate IsId(resource: Json, id: string) {
    Get(resource, "id", Null) == Text(id)
  }

  /** The loops got to position (p, i): everything before it is well formed and has another id. */
  ghost predicate Passed(column: seq<Json>, id: string, p: nat, i: nat) {
    && (forall q :: 0 <= q < p && q < |column| ==> ResourcesOf(column[q]).Some?)
    && (forall q, j :: InColumn(column, q, j) && Precedes(q, j, p, i) ==>
          ResourceAt(column, q, j).Dict? && !IsId(ResourceAt(column, q, j), id))
  }

  /** What the scan of a column makes of it. */
  ghost predicate Scanned(column: seq<Json>, id: string, completed: bool, outcome: ScanOutcome) {
    match outcome
    case Hit(changed, p, i) =>
      && InColumn(column, p, i) && Passed(column, id, p, i)
      && ResourceAt(column, p, i).Dict? && IsId(ResourceAt(column, p, i), id)
      && changed == SetInList(column, p, i, completed)
    case Miss => Passed(column, id, |column|, 0)
    case Malformed(p, i) =>
      && Passed(column, id, p, i) && p < |column|
      && (ResourcesOf(column[p]).None? || (InColumn(column, p, i) && !ResourceAt(column, p, i).Dict?))
  }

  /** The nested scan, which stops at the first resource with the id. */
  method Scan(column: seq<Json>, resourceId: string, completed: bool) returns (outcome: ScanOutcome)
    ensures Scanned(column, resourceId, completed, outcome)
  {
    outcome := Miss;
    for p := 0 to |column|
      invariant outcome.Miss? && Passed(column, resourceId, p, 0)
    {
      var resources := ResourcesOf(column[p]);
      if resources.None? {
        return Malformed(p, 0);
      }
      for i := 0 to |resources.value|
        invariant outcome.Miss? && Passed(column, resourceId, p, i)
      {
        assert InColumn(column, p, i) && ResourceAt(column, p, i) == resources.value[i];
        if !resources.value[i].Dict? {
          return Malformed(p, i);
        }
        if IsId(resources.value[i], resourceId) {
          outcome := Hit(SetInList(column, p, i, completed), p, i);
          break;
        }
      }
      if outcome.Hit? {
        break;
      }
    }
  }

  lemma ScanHits(phases: seq<Phase>, id: string, completed: bool, outcome: ScanOutcome)
    requires Scanned(PhasesToList(phases), id, completed, outcome) && outcome.Hit?
    ensures At(phases, outcome.p, outcome.i) && phases[outcome.p].resources[outcome.i].id == id
    ensures forall q, j :: At(phases, q, j) && Precedes(q, j, outcome.p, outcome.i) ==> phases[q].resources[j].id != id
    ensures outcome.column == PhasesToList(SetAt(phases, outcome.p, outcome.i, completed))
  {
    EncodedColumn(phases, outcome.p, outcome.i);
    SetCommutes(phases, outcome.p, outcome.i, completed);
    forall q, j | At(phases, q, j) && Precedes(q, j, outcome.p, outcome.i)
      ensures phases[q].resources[j].id != id
    {
      EncodedColumn(phases, q, j);
      assert !IsId(ResourceAt(PhasesToList(phases), q, j), id);
    }
  }

  lemma ScanMisses(phases: seq<Phase>, id: string, completed: bool, p: nat, i: nat)
    requires Scanned(PhasesToList(phases), id, completed, Miss) && At(phases, p, i)
    ensures phases[p].resources[i].id != id
  {
    EncodedColumn(phases, p, i);
    assert !IsId(ResourceAt(PhasesToList(phases), p, i), id);
  }

  lemma NotMalformed(phases: seq<Phase>, id: string, completed: bool, outcome: ScanOutcome)
    requires Scanned(PhasesToList(phases), id, completed, outcome)
    ensures !outcome.Malformed?
  {
    if outcome.Malformed? {
      EncodedColumn(phases, outcome.p, outcome.i);
    }
  }

  /** On a column the mapper wrote, the scan finds exactly the first resource with the id, if there is one, and the
      new column is the old roadmap's with that one flag set. */
  lemma ScanOfRoadmap(phases: seq<Phase>, id: string, completed: bool, outcome: ScanOutcome)
    requires Scanned(PhasesToList(phases), id, completed, outcome)
    ensures outcome.Hit? || outcome.Miss?
    ensures outcome.Hit? <==> HasResource(phases, id)
    ensures outcome.Hit? ==>
              && At(phases, outcome.p, outcome.i) && phases[outcome.p].resources[outcome.i].id == id
              && (forall q, j :: At(phases, q, j) && Precedes(q, j, outcome.p, outcome.i) ==>
                    phases[q].resources[j].id != id)
              && outcome.column == PhasesToList(SetAt(phases, outcome.p, outcome.i, completed))
  {
    NotMalformed(phases, id, completed, outcome);
    if outcome.Hit? {
      ScanHits(phases, id, completed, outcome);
    } else {
      forall p, i | At(phases, p, i)
        ensures phases[p].resources[i].id != id
      {
        ScanMisses(phases, id, completed, p, i);
      }
      assert forall p, i :: 0 <= p < |phases| && 0 <= i < |phases[p].resources| ==> At(phases, p, i);
    }
  }

  /** With distinct ids, the first match is the position the index gives, and setting its flag is setting the
      flag for the id. */
  lemma ScanIsIndexed(phases: seq<Phase>, index: Index, id: string, p: nat, i: nat, completed: bool)
    requires DistinctIds(phases) && IndexesLast(phases, index)
    requires At(phases, p, i) && phases[p].resources[i].id == id
    ensures id in index && index[id] == (p, i)
    ensures SetAt(phases, p, i, completed) == WithCompleted(phases, id, completed)
  {
    assert HasId(phases, p, i);
    IndexIsExact(phases, index);
    SetIsWithCompleted(phases, id, p, i, completed);
  }

  // -------------------------------------------------------------------------
  // Profile rows
  // -------------------------------------------------------------------------

  datatype ProfileRow = ProfileRow(
    id: string,
    userId: string,
    name: string,
    skills: seq<string>,
    experienceYears: int,
    education: string,
    targetRole: string,
    createdAt: Instant,
    updatedAt: Instant)

  function ProfileFromRow(row: ProfileRow): ProfileRecord {
    ProfileRecord(row.id, UserProfile(row.name, row.skills, row.experienceYears, row.education, row.targetRole),
                  row.createdAt, row.updatedAt)
  }

  // -------------------------------------------------------------------------
  // Analysis rows
  // -------------------------------------------------------------------------

  datatype AnalysisRow = AnalysisRow(
    id: string,
    userId: string,
    profileId: Option<string>,
    jobId: string,
    result: Json,
    createdAt: Instant)

  function Strings(texts: seq<string>): (items: seq<Json>)
    ensures |items| == |texts|
    ensures forall i :: 0 <= i < |texts| ==> items[i] == Text(texts[i])
  {
    seq(|texts|, i requires 0 <= i < |texts| => Text(texts[i]))
  }

  function StringsFrom(j: Json): Option<seq<string>> {
    if j.List? && forall i :: 0 <= i < |j.items| ==> j.items[i].Text?
    then Some(seq(|j.items|, i requires 0 <= i < |j.items| && j.items[i].Text? => j.items[i].s))
    else None
  }

  lemma StringsRoundTrip(texts: seq<string>)
    ensures StringsFrom(List(Strings(texts))) == Some(texts)
  {
    assert StringsFrom(List(Strings(texts))).value == texts;
  }

  function GapToJson(gap: GapResult): Json {
    Dict(map["matched_required" := List(Strings(gap.matchedRequired)),
             "matched_preferred" := List(Strings(gap.matchedPreferred)),
             "missing_required" := List(Strings(gap.missingRequired)),
             "missing_preferred" := List(Strings(gap.missingPreferred)),
             "match_percentage" := Number(gap.matchPercentage)])
  }

  function GapFromJson(d: Json): Option<GapResult> {
    var none := List([]);
    var matched, preferred := StringsFrom(Get(d, "matched_required", none)), StringsFrom(Get(d, "matched_preferred", none));
    var missing, wished := StringsFrom(Get(d, "missing_required", none)), StringsFrom(Get(d, "missing_preferred", none));
    var percentage := Get(d, "match_percentage", Number(0));
    if matched.Some? && preferred.Some? && missing.Some? && wished.Some? && percentage.Number?
    then Some(GapResult(matched.value, preferred.value, missing.value, wished.value, percentage.n))
    else None
  }

  lemma GapRoundTrip(gap: GapResult)
    ensures GapFromJson(GapToJson(gap)) == Some(gap)
  {
    StringsRoundTrip(gap.matchedRequired);
    StringsRoundTrip(gap.matchedPreferred);
    StringsRoundTrip(gap.missingRequired);
    StringsRoundTrip(gap.missingPreferred);
  }

  function GroupsToJson(groups: map<string, seq<string>>): Json {
    Dict(map k | k in groups :: List(Strings(groups[k])))
  }

  function GroupsFromJson(d: Json): Option<map<string, seq<string>>> {
    if d.Dict? && forall k :: k in d.fields ==> StringsFrom(d.fields[k]).Some?
    then Some(map k | k in d.fields && StringsFrom(d.fields[k]).Some? :: StringsFrom(d.fields[k]).value)
    else None
  }

  lemma GroupsRoundTrip(groups: map<string, seq<string>>)
    ensures GroupsFromJson(GroupsToJson(groups)) == Some(groups)
  {
    forall k | k in groups
      ensures StringsFrom(GroupsToJson(groups).fields[k]) == Some(groups[k])
    {
      StringsRoundTrip(groups[k]);
    }
    assert GroupsFromJson(GroupsToJson(groups)).value == groups;
  }

  function CategorizationToJson(c: Categorization): Json {
    Dict(map["groups" := GroupsToJson(c.groups), "summary" := Text(c.summary), "is_fallback" := Bool(c.isFallback)])
  }

  function CategorizationFromJson(d: Json): Option<Categorization> {
    var groups := GroupsFromJson(Get(d, "groups", Dict(map[])));
    var summary, fallback := Get(d, "summary", Text("")), Get(d, "is_fallback", Bool(false));
    if groups.Some? && summary.Text? && fallback.Bool?
    then Some(Categorization(groups.value, summary.s, fallback.b))
    else None
  }

  /** The JSON of a gap and of its categories, key by key. */
  lemma GapKeys(gap: GapResult)
    ensures var d := GapToJson(gap);
            && d.Dict?
            && d.fields.Keys
               == {"matched_required", "matched_preferred", "missing_required", "missing_preferred", "match_percentage"}
            && StringsFrom(Get(d, "matched_required", Null)) == Some(gap.matchedRequired)
            && StringsFrom(Get(d, "matched_preferred", Null)) == Some(gap.matchedPreferred)
            && StringsFrom(Get(d, "missing_required", Null)) == Some(gap.missingRequired)
            && StringsFrom(Get(d, "missing_preferred", Null)) == Some(gap.missingPreferred)
            && Get(d, "match_percentage", Null) == Number(gap.matchPercentage)
  {
    StringsRoundTrip(gap.matchedRequired);
    StringsRoundTrip(gap.matchedPreferred);
    StringsRoundTrip(gap.missingRequired);
    StringsRoundTrip(gap.missingPreferred);
  }

  lemma CategorizationKeys(c: Categorization)
    ensures var d := CategorizationToJson(c);
            && d.Dict? && d.fields.Keys == {"groups", "summary", "is_fallback"}
            && GroupsFromJson(Get(d, "groups", Null)) == Some(c.groups)
            && Get(d, "summary", Null) == Text(c.summary) && Get(d, "is_fallback", Null) == Bool(c.isFallback)
  {
    GroupsRoundTrip(c.groups);
  }

  /** An analysis row without a result reads as an empty gap with no categories. */
  lemma MissingResult()
    ensures GapFromJson(Dict(map[])) == Some(GapResult([], [], [], [], 0))
    ensures CategorizationFromJson(Dict(map[])) == Some(Categorization(map[], "", false))
  {
    assert StringsFrom(List([])).value == [];
  }

  /** The row of a record: `profile_id` "" is stored as NULL. */
  function AnalysisToRow(user: string, r: AnalysisRecord): AnalysisRow {
    AnalysisRow(r.id, user, if r.profileId == "" then None else Some(r.profileId), r.jobId,
                Dict(map["gap" := GapToJson(r.gap), "categorization" := CategorizationToJson(r.categorization)]),
                r.createdAt)
  }

  function AnalysisFromRow(row: AnalysisRow): Option<AnalysisRecord> {
    var gap := GapFromJson(Get(row.result, "gap", Dict(map[])));
    var categorization := CategorizationFromJson(Get(row.result, "categorization", Dict(map[])));
    if gap.Some? && categorization.Some?
    then Some(AnalysisRecord(row.id, if row.profileId.Some? then row.profileId.value else "", row.jobId, gap.value,
                             categorization.value, row.createdAt))
    else None
  }

  lemma AnalysisRoundTrip(user: string, r: AnalysisRecord)
    ensures AnalysisFromRow(AnalysisToRow(user, r)) == Some(r)
  {
    GapRoundTrip(r.gap);
    GroupsRoundTrip(r.categorization.groups);
    assert CategorizationFromJson(CategorizationToJson(r.categorization)) == Some(r.categorization);
  }

  /** NULL in `profile_id` reads as "", and changes nothing else. */
  lemma DetachedRow(user: string, r: AnalysisRecord)
    ensures AnalysisFromRow(AnalysisToRow(user, r).(profileId := None)) == Some(r.(profileId := ""))
    ensures AnalysisToRow(user, r).(profileId := None) == AnalysisToRow(user, r.(profileId := ""))
  {
    AnalysisRoundTrip(user, r.(profileId := ""));
  }

  // -------------------------------------------------------------------------
  // Columns
  // -------------------------------------------------------------------------

  /** Every column holds the attribute of its name, whichever way a record goes. */
  lemma AnalysisColumns(user: string, r: AnalysisRecord)
    ensures var row := AnalysisToRow(user, r);
            && row.id == r.id && row.userId == user && row.jobId == r.jobId && row.createdAt == r.createdAt
            && row.profileId == (if r.profileId == "" then None else Some(r.profileId))
            && row.result.Dict? && row.result.fields.Keys == {"gap", "categorization"}
            && GapFromJson(Get(row.result, "gap", Null)) == Some(r.gap)
            && CategorizationFromJson(Get(row.result, "categorization", Null)) == Some(r.categorization)
  {
    GapRoundTrip(r.gap);
    CategorizationKeys(r.categorization);
  }

  lemma RoadmapColumns(v: RoadmapValue)
    ensures var row := RoadmapToRow(v);
            && row.id == v.id && row.analysisId == v.analysisId
            && row.createdAt == v.createdAt && row.updatedAt == v.updatedAt
            && PhasesFromColumn(row.phases) == Some(v.phases)
  {
    PhasesRoundTrip(v.phases);
  }

  lemma ProfileColumns(row: ProfileRow)
    ensures var r := ProfileFromRow(row);
            && r.id == row.id && r.createdAt == row.createdAt && r.updatedAt == row.updatedAt
            && r.profile.name == row.name && r.profile.skills == row.skills
            && r.profile.experienceYears == row.experienceYears
            && r.profile.education == row.education && r.profile.targetRole == row.targetRole
  {
  }
}
