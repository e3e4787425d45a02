/** The roadmap as the service holds it in memory: resource objects appended to phase objects, never shared
    with the catalogue. */
module RoadmapObjects {
  import opened Common
  import opened Models
  import opened Roadmap

  class LearningResource {
    const name: string
    const skill: string
    const resourceType: string
    const estimatedHours: int
    const url: string
    const id: string
    var completed: bool

    constructor (name: string, skill: string, resourceType: string, estimatedHours: int, url: string, completed: bool,
                 id: string)
      ensures Value() == Resource(name, skill, resourceType, estimatedHours, url, completed, id)
    {
      this.name, this.skill, this.resourceType := name, skill, resourceType;
      this.estimatedHours, this.url, this.id := estimatedHours, url, id;
      this.completed := completed;
    }

    function Value(): Resource
      reads this
    {
      Resource(name, skill, resourceType, estimatedHours, url, completed, id)
    }
  }

  class RoadmapPhase {
    const period: string
    var resources: seq<LearningResource>

    constructor (period: string)
      ensures this.period == period && resources == []
    {
      this.period := period;
      resources := [];
    }

    function Value(): Phase
      reads this, resources
    {
      Phase(period, Values(resources))
    }
  }

  function Values(resources: seq<LearningResource>): (values: seq<Resource>)
    reads resources
    ensures |values| == |resources|
    ensures forall i :: 0 <= i < |values| ==> values[i] == resources[i].Value()
  {
    seq(|resources|, i requires 0 <= i < |resources| reads resources => resources[i].Value())
  }

  function PhaseResources(phases: seq<RoadmapPhase>): set<LearningResource>
    reads phases
  {
    set p, r | p in phases && r in p.resources :: r
  }

  function PhaseValues(phases: seq<RoadmapPhase>): (values: seq<Phase>)
    reads phases, PhaseResources(phases)
    ensures |values| == |phases|
    ensures forall p :: 0 <= p < |values| ==> values[p] == phases[p].Value()
  {
    seq(|phases|, p requires 0 <= p < |phases| reads phases, PhaseResources(phases) =>
      assert forall r :: r in phases[p].resources ==> r in PhaseResources(phases);
      phases[p].Value())
  }

  // -------------------------------------------------------------------------
  // Generation
  // -------------------------------------------------------------------------

  /** The catalogue objects for one skill key, in catalogue order. */
  function ObjectsFor(catalogue: seq<LearningResource>, key: string): (found: seq<LearningResource>)
    ensures forall r :: r in found ==> r in catalogue
  {
    if catalogue == [] then []
    else
      var init := ObjectsFor(catalogue[..|catalogue| - 1], key);
      var last := catalogue[|catalogue| - 1];
      if Lower(last.skill) == key then init + [last] else init
  }

  lemma {:induction false} ObjectsForValues(catalogue: seq<LearningResource>, key: string)
    ensures Values(ObjectsFor(catalogue, key)) == ForKey(Values(catalogue), key)
  {
    if catalogue != [] {
      var n := |catalogue| - 1;
      ObjectsForValues(catalogue[..n], key);
      assert Values(catalogue)[..n] == Values(catalogue[..n]);
    }
  }

  /** `bySkill` is the lookup from skill key to catalogue objects. */
  ghost predicate Groups(bySkill: map<string, seq<LearningResource>>, catalogue: seq<LearningResource>) {
    && (forall key :: key in bySkill <==> ObjectsFor(catalogue, key) != [])
    && (forall key :: key in bySkill ==> bySkill[key] == ObjectsFor(catalogue, key))
  }

  method GroupBySkill(catalogue: seq<LearningResource>) returns (bySkill: map<string, seq<LearningResource>>)
    ensures Groups(bySkill, catalogue)
  {
    bySkill := map[];
    for i := 0 to |catalogue|
      invariant Groups(bySkill, catalogue[..i])
    {
      var r := catalogue[i];
      var key := Lower(r.skill);
      bySkill := bySkill[key := (if key in bySkill then bySkill[key] else []) + [r]];
      assert catalogue[..i + 1][..i] == catalogue[..i];
    }
    assert catalogue[..|catalogue|] == catalogue;
  }

  /** Appends a fresh copy of each resource, drawing ids from position `from` on. */
  method AppendCopies(phase: RoadmapPhase, originals: seq<LearningResource>, ids: nat -> string, from: nat)
    requires forall r :: r in originals ==> r !in phase.resources
    modifies phase
    ensures |phase.resources| == old(|phase.resources|) + |originals|
    ensures Values(phase.resources) == old(Values(phase.resources)) + Stamped(old(Values(originals)), ids, from)
    ensures forall r :: r in phase.resources ==> fresh(r) || r in old(phase.resources)
  {
    ghost var before, values := Values(phase.resources), Values(originals);
    for i := 0 to |originals|
      invariant |phase.resources| == old(|phase.resources|) + i
      invariant Values(phase.resources) == before + Stamped(values, ids, from)[..i]
      invariant forall r :: r in phase.resources ==> fresh(r) || r in old(phase.resources)
    {
      var r := originals[i];
      var copy := new LearningResource(r.name, r.skill, r.resourceType, r.estimatedHours, r.url, false, ids(from + i));
      assert copy.Value() == Stamped(values, ids, from)[i];
      ghost var sofar := Values(phase.resources);
      phase.resources := phase.resources + [copy];
      assert Values(phase.resources) == sofar + [copy.Value()];
    }
  }

  method AppendPlaceholder(phase: RoadmapPhase, skill: string, id: string)
    modifies phase
    ensures |phase.resources| == old(|phase.resources|) + 1
    ensures Values(phase.resources) == old(Values(phase.resources)) + [Placeholder(skill).(id := id)]
    ensures forall r :: r in phase.resources ==> fresh(r) || r in old(phase.resources)
  {
    ghost var before := Values(phase.resources);
    var r := new LearningResource("Learn " + skill, skill, "course", 10,
                                  "https://example.com/learn-" + SpacesToHyphens(Lower(skill)), false, id);
    phase.resources := phase.resources + [r];
    assert Values(phase.resources) == before + [r.Value()];
  }

  method PlaceSkill(phase: RoadmapPhase, skill: string, bySkill: map<string, seq<LearningResource>>,
                    ghost catalogue: seq<LearningResource>, ids: nat -> string, drawn: nat) returns (drawn': nat)
    requires Groups(bySkill, catalogue)
    requires forall r :: r in phase.resources ==> r !in catalogue
    modifies phase
    ensures drawn' == drawn + |Options(skill, Values(catalogue))|
    ensures Values(phase.resources)
            == old(Values(phase.resources) + Stamped(Options(skill, Values(catalogue)), ids, drawn))
    ensures forall r :: r in phase.resources ==> fresh(r) || r in old(phase.resources)
  {
    var key := Lower(skill);
    ObjectsForValues(catalogue, key);
    if key in bySkill {
      AppendCopies(phase, bySkill[key], ids, drawn);
      drawn' := drawn + |bySkill[key]|;
    } else {
      AppendPlaceholder(phase, skill, ids(drawn));
      drawn' := drawn + 1;
      assert old(Stamped(Options(skill, Values(catalogue)), ids, drawn)) == [Placeholder(skill).(id := ids(drawn))];
    }
  }

  /** Three distinct phases hold exactly the planned values, in resources that are not the catalogue's. */
  ghost predicate Holds(phases: seq<RoadmapPhase>, plan: Plan, catalogue: seq<LearningResource>)
    reads phases, PhaseResources(phases)
  {
    && |phases| == 3 && phases[0] != phases[1] && phases[1] != phases[2] && phases[0] != phases[2]
    && (forall p :: 0 <= p < 3 ==> PhaseValues(phases)[p].resources == plan[p])
    && (forall p, r :: 0 <= p < 3 && r in phases[p].resources ==> r !in catalogue)
  }

  method PlaceInPhase(phases: seq<RoadmapPhase>, p: nat, skill: string, bySkill: map<string, seq<LearningResource>>,
                      ghost catalogue: seq<LearningResource>, ids: nat -> string, drawn: nat, ghost plan: Plan)
    returns (drawn': nat)
    requires Groups(bySkill, catalogue) && p < 3 && Holds(phases, plan, catalogue)
    modifies phases
    ensures drawn' == drawn + |Options(skill, Values(catalogue))|
    ensures Holds(phases, old(Extended(plan, p, Stamped(Options(skill, Values(catalogue)), ids, drawn))), catalogue)
    ensures forall r :: r in PhaseResources(phases) ==> fresh(r) || r in old(PhaseResources(phases))
    ensures Values(catalogue) == old(Values(catalogue))
  {
    drawn' := PlaceSkill(phases[p], skill, bySkill, catalogue, ids, drawn);
    forall r | r in PhaseResources(phases)
      ensures fresh(r) || r in old(PhaseResources(phases))
    {
      var q :| q in phases && r in q.resources;
      assert fresh(r) || r in old(q.resources);
    }
  }

  lemma NothingHeld(phases: seq<RoadmapPhase>, catalogue: seq<LearningResource>)
    requires |phases| == 3 && phases[0] != phases[1] && phases[1] != phases[2] && phases[0] != phases[2]
    requires phases[0].resources == phases[1].resources == phases[2].resources == []
    ensures Holds(phases, [[], [], []], catalogue) && PhaseResources(phases) == {}
  {
    assert forall p :: p in phases ==> p.resources == [];
  }

  method NewPhases(ghost catalogue: seq<LearningResource>) returns (phases: seq<RoadmapPhase>)
    ensures fresh(phases) && PhaseResources(phases) == {}
    ensures Holds(phases, [[], [], []], catalogue)
    ensures forall p :: 0 <= p < 3 ==> phases[p].period == PERIODS[p]
  {
    var first := new RoadmapPhase(PERIODS[0]);
    var second := new RoadmapPhase(PERIODS[1]);
    var third := new RoadmapPhase(PERIODS[2]);
    phases := [first, second, third];
    NothingHeld(phases, catalogue);
  }

  lemma PlanHeld(phases: seq<RoadmapPhase>, plan: Plan, catalogue: seq<LearningResource>)
    requires Holds(phases, plan, catalogue)
    requires forall p :: 0 <= p < 3 ==> phases[p].period == PERIODS[p]
    ensures PhaseValues(phases)
            == [Phase(PERIODS[0], plan[0]), Phase(PERIODS[1], plan[1]), Phase(PERIODS[2], plan[2])]
  {
    assert forall p :: 0 <= p < 3 ==> PhaseValues(phases)[p] == Phase(PERIODS[p], plan[p]);
  }

  /** After the first `n` missing skills: the planned values, and as many ids drawn. */
  ghost predicate Progress(phases: seq<RoadmapPhase>, gap: GapResult, values: seq<Resource>,
                           catalogue: seq<LearningResource>, ids: nat -> string, n: nat, drawn: nat)
    reads phases, PhaseResources(phases)
  {
    && n <= |MissingSkills(gap)| && drawn == Size(PlanFor(gap, values, ids, n))
    && Holds(phases, PlanFor(gap, values, ids, n), catalogue)
  }

  /** The phase the next skill goes to, as the loop decides it. */
  method ChoosePhase(idx: nat, required: nat, preferred: nat) returns (p: nat)
    ensures p == PhaseOf(idx, required, preferred) < 3
  {
    if idx < required {
      if required <= 2 {
        p := 0;
      } else if idx < (required + 1) / 2 {
        p := 0;
      } else {
        p := 1;
      }
    } else {
      var prefIdx := idx - required;
      if preferred <= 2 {
        p := 2;
      } else if prefIdx < (preferred + 1) / 2 {
        p := 1;
      } else {
        p := 2;
      }
    }
  }

  method PlaceNext(phases: seq<RoadmapPhase>, gap: GapResult, bySkill: map<string, seq<LearningResource>>,
                   ghost catalogue: seq<LearningResource>, ids: nat -> string, n: nat, drawn: nat) returns (drawn': nat)
    requires Groups(bySkill, catalogue) && n < |MissingSkills(gap)|
    requires Progress(phases, gap, Values(catalogue), catalogue, ids, n, drawn)
    modifies phases
    ensures Values(catalogue) == old(Values(catalogue))
    ensures Progress(phases, gap, Values(catalogue), catalogue, ids, n + 1, drawn')
    ensures forall r :: r in PhaseResources(phases) ==> fresh(r) || r in old(PhaseResources(phases))
  {
    ghost var plan := PlanFor(gap, Values(catalogue), ids, n);
    PlanStep(gap, Values(catalogue), ids, n, plan);
    var p := ChoosePhase(n, |gap.missingRequired|, |gap.missingPreferred|);
    drawn' := PlaceInPhase(phases, p, MissingSkills(gap)[n], bySkill, catalogue, ids, drawn, plan);
  }

  /** Places every missing skill in its phase. */
  method FillPhases(phases: seq<RoadmapPhase>, gap: GapResult, bySkill: map<string, seq<LearningResource>>,
                    ghost catalogue: seq<LearningResource>, ids: nat -> string)
    requires Groups(bySkill, catalogue) && Holds(phases, [[], [], []], catalogue) && PhaseResources(phases) == {}
    modifies phases
    ensures Holds(phases, PlanFor(gap, old(Values(catalogue)), ids, |MissingSkills(gap)|), catalogue)
    ensures forall r :: r in PhaseResources(phases) ==> fresh(r)
    ensures Values(catalogue) == old(Values(catalogue))
  {
    var drawn := 0;
    for idx := 0 to |MissingSkills(gap)|
      invariant forall r :: r in PhaseResources(phases) ==> fresh(r)
      invariant Values(catalogue) == old(Values(catalogue))
      invariant Progress(phases, gap, Values(catalogue), catalogue, ids, idx, drawn)
    {
      drawn := PlaceNext(phases, gap, bySkill, catalogue, ids, idx, drawn);
    }
  }

  /** `generate_roadmap`: three fresh phases of fresh resources. No existing object changes. */
  method GenerateRoadmap(gap: GapResult, catalogue: seq<LearningResource>, ids: nat -> string)
    returns (phases: seq<RoadmapPhase>)
    ensures fresh(phases) && fresh(PhaseResources(phases))
    ensures PhaseValues(phases) == Generated(gap, Values(catalogue), ids)
  {
    phases := NewPhases(catalogue);
    var bySkill := GroupBySkill(catalogue);
    FillPhases(phases, gap, bySkill, catalogue, ids);
    PlanHeld(phases, PlanFor(gap, Values(catalogue), ids, |MissingSkills(gap)|), catalogue);
  }
}
