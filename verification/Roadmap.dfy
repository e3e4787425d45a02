/** The learning roadmap as a value: how missing skills become phases of resources, what marking resources
    does, and what it does to the match percentage. */
module Roadmap {
  import opened Common
  import opened Models
  import opened Gap

  // -------------------------------------------------------------------------
  // From missing skills to resources
  // -------------------------------------------------------------------------

  const PERIODS := ["Month 1-2", "Month 3-4", "Month 5-6"]

  /** The catalogue's resources for one skill key, in catalogue order. */
  function ForKey(catalogue: seq<Resource>, key: string): seq<Resource> {
    if catalogue == [] then []
    else
      var init := ForKey(catalogue[..|catalogue| - 1], key);
      var last := catalogue[|catalogue| - 1];
      if Lower(last.skill) == key then init + [last] else init
  }

  function SpacesToHyphens(s: string): string {
    seq(|s|, i requires 0 <= i < |s| => if s[i] == ' ' then '-' else s[i])
  }

  function Placeholder(skill: string): Resource {
    Resource("Learn " + skill, skill, "course", 10, "https://example.com/learn-" + SpacesToHyphens(Lower(skill)), false, "")
  }

  /** What the roadmap offers for a missing skill: never nothing. */
  function Options(skill: string, catalogue: seq<Resource>): seq<Resource> {
    var found := ForKey(catalogue, Lower(skill));
    if found != [] then found else [Placeholder(skill)]
  }

  /** Fresh copies: not completed, and with ids drawn from position `from` of the id supply on. */
  function Stamped(resources: seq<Resource>, ids: nat -> string, from: nat): seq<Resource> {
    seq(|resources|, i requires 0 <= i < |resources| => resources[i].(completed := false, id := ids(from + i)))
  }

  function MissingSkills(gap: GapResult): seq<string> {
    gap.missingRequired + gap.missingPreferred
  }

  /** The phase of missing skill number `idx`: required ones in the first two phases, preferred ones in the
      last two. */
  function PhaseOf(idx: nat, required: nat, preferred: nat): nat {
    if idx < required then
      if required <= 2 then 0 else if idx < (required + 1) / 2 then 0 else 1
    else
      if preferred <= 2 then 2 else if idx - required < (preferred + 1) / 2 then 1 else 2
  }

  /** The resources of the first `n` missing skills, in order. */
  function Flat(gap: GapResult, catalogue: seq<Resource>, ids: nat -> string, n: nat): seq<Resource>
    requires n <= |MissingSkills(gap)|
  {
    if n == 0 then []
    else
      var before := Flat(gap, catalogue, ids, n - 1);
      before + Stamped(Options(MissingSkills(gap)[n - 1], catalogue), ids, |before|)
  }

  type Plan = p: seq<seq<Resource>> | |p| == 3 witness [[], [], []]

  function Size(plan: Plan): nat {
    |plan[0]| + |plan[1]| + |plan[2]|
  }

  function Extended(plan: Plan, p: nat, more: seq<Resource>): Plan
    requires p < 3
  {
    plan[p := plan[p] + more]
  }

  /** The three phases after the first `n` missing skills have been placed. */
  function PlanFor(gap: GapResult, catalogue: seq<Resource>, ids: nat -> string, n: nat): Plan
    requires n <= |MissingSkills(gap)|
  {
    if n == 0 then [[], [], []]
    else
      var before := PlanFor(gap, catalogue, ids, n - 1);
      Extended(before, PhaseOf(n - 1, |gap.missingRequired|, |gap.missingPreferred|),
               Stamped(Options(MissingSkills(gap)[n - 1], catalogue), ids, Size(before)))
  }

  lemma PlanStep(gap: GapResult, catalogue: seq<Resource>, ids: nat -> string, n: nat, plan: Plan)
    requires n < |MissingSkills(gap)| && plan == PlanFor(gap, catalogue, ids, n)
    ensures var options := Options(MissingSkills(gap)[n], catalogue);
            var p := PhaseOf(n, |gap.missingRequired|, |gap.missingPreferred|);
            var plan' := Extended(plan, p, Stamped(options, ids, Size(plan)));
            PlanFor(gap, catalogue, ids, n + 1) == plan' && Size(plan') == Size(plan) + |options|
  {
  }

  function Generated(gap: GapResult, catalogue: seq<Resource>, ids: nat -> string): seq<Phase> {
    var plan := PlanFor(gap, catalogue, ids, |MissingSkills(gap)|);
    [Phase(PERIODS[0], plan[0]), Phase(PERIODS[1], plan[1]), Phase(PERIODS[2], plan[2])]
  }

  // -------------------------------------------------------------------------
  // Nothing lost, nothing duplicated, nothing out of order
  // -------------------------------------------------------------------------

  predicate EmptyAfter(plan: Plan, p: nat) {
    (p < 1 ==> plan[1] == []) && (p < 2 ==> plan[2] == [])
  }

  lemma PhasesInOrder(i: nat, j: nat, required: nat, preferred: nat)
    requires i <= j < required + preferred
    ensures PhaseOf(i, required, preferred) <= PhaseOf(j, required, preferred)
  {
  }

  lemma ExtendedConcat(plan: Plan, p: nat, more: seq<Resource>)
    requires p < 3 && EmptyAfter(plan, p)
    ensures var plan' := Extended(plan, p, more);
            plan'[0] + plan'[1] + plan'[2] == plan[0] + plan[1] + plan[2] + more
  {
  }

  lemma {:induction false} PlanConcat(gap: GapResult, catalogue: seq<Resource>, ids: nat -> string, n: nat)
    requires n <= |MissingSkills(gap)|
    ensures var plan := PlanFor(gap, catalogue, ids, n);
            && plan[0] + plan[1] + plan[2] == Flat(gap, catalogue, ids, n)
            && (n > 0 ==> EmptyAfter(plan, PhaseOf(n - 1, |gap.missingRequired|, |gap.missingPreferred|)))
            && (n == 0 ==> EmptyAfter(plan, 0))
  {
    if n > 0 {
      PlanConcat(gap, catalogue, ids, n - 1);
      var required, preferred := |gap.missingRequired|, |gap.missingPreferred|;
      var before := PlanFor(gap, catalogue, ids, n - 1);
      var p := PhaseOf(n - 1, required, preferred);
      if n > 1 {
        PhasesInOrder(n - 2, n - 1, required, preferred);
      }
      assert Size(before) == |before[0] + before[1] + before[2]|;
      ExtendedConcat(before, p, Stamped(Options(MissingSkills(gap)[n - 1], catalogue), ids, Size(before)));
    }
  }

  /** Phase assignment never goes back, so the three phases one after the other are exactly the resources of
      the missing skills in order, required before preferred. */
  lemma PhasesConcatenate(gap: GapResult, catalogue: seq<Resource>, ids: nat -> string)
    ensures var g := Generated(gap, catalogue, ids);
            g[0].resources + g[1].resources + g[2].resources
            == Flat(gap, catalogue, ids, |MissingSkills(gap)|)
  {
    PlanConcat(gap, catalogue, ids, |MissingSkills(gap)|);
  }

  /** How many missing skills the first phase takes: all of them up to two required ones, and otherwise the
      first half of the required ones, rounded up. */
  function FirstPhaseSkills(gap: GapResult): nat {
    var required := |gap.missingRequired|;
    if required <= 2 then required else (required + 1) / 2
  }

  lemma {:induction false} FirstPhaseOfPlan(gap: GapResult, catalogue: seq<Resource>, ids: nat -> string, n: nat)
    requires n <= |MissingSkills(gap)|
    ensures var first := FirstPhaseSkills(gap);
            PlanFor(gap, catalogue, ids, n)[0] == Flat(gap, catalogue, ids, if n < first then n else first)
  {
    if n <= FirstPhaseSkills(gap) {
      PlanConcat(gap, catalogue, ids, n);
      var plan := PlanFor(gap, catalogue, ids, n);
      assert plan[0] + [] + [] == plan[0];
    } else {
      FirstPhaseOfPlan(gap, catalogue, ids, n - 1);
      assert PhaseOf(n - 1, |gap.missingRequired|, |gap.missingPreferred|) != 0;
    }
  }

  lemma FirstPhase(gap: GapResult, catalogue: seq<Resource>, ids: nat -> string)
    ensures Generated(gap, catalogue, ids)[0].resources == Flat(gap, catalogue, ids, FirstPhaseSkills(gap))
  {
    FirstPhaseOfPlan(gap, catalogue, ids, |MissingSkills(gap)|);
  }

  /** How many missing skills the first two phases take: all required ones, and of three or more preferred ones the
      first half, rounded up. */
  function SecondPhaseSkills(gap: GapResult): nat {
    var preferred := |gap.missingPreferred|;
    |gap.missingRequired| + if preferred <= 2 then 0 else (preferred + 1) / 2
  }

  lemma {:induction false} SecondPhaseOfPlan(gap: GapResult, catalogue: seq<Resource>, ids: nat -> string, n: nat)
    requires n <= |MissingSkills(gap)|
    ensures var second := SecondPhaseSkills(gap);
            var plan := PlanFor(gap, catalogue, ids, n);
            plan[0] + plan[1] == Flat(gap, catalogue, ids, if n < second then n else second)
  {
    if n <= SecondPhaseSkills(gap) {
      PlanConcat(gap, catalogue, ids, n);
      var plan := PlanFor(gap, catalogue, ids, n);
      assert plan[0] + plan[1] + [] == plan[0] + plan[1];
    } else {
      SecondPhaseOfPlan(gap, catalogue, ids, n - 1);
      assert PhaseOf(n - 1, |gap.missingRequired|, |gap.missingPreferred|) == 2;
    }
  }

  /** Where the missing skills, required before preferred, are cut into the three phases, and what these are called:
      the cuts determine the phases. */
  lemma PhasesCut(gap: GapResult, catalogue: seq<Resource>, ids: nat -> string)
    ensures var g := Generated(gap, catalogue, ids);
            && |g| == 3
            && g[0].period == "Month 1-2" && g[1].period == "Month 3-4" && g[2].period == "Month 5-6"
            && g[0].resources == Flat(gap, catalogue, ids, FirstPhaseSkills(gap))
            && g[0].resources + g[1].resources == Flat(gap, catalogue, ids, SecondPhaseSkills(gap))
            && g[0].resources + g[1].resources + g[2].resources == Flat(gap, catalogue, ids, |MissingSkills(gap)|)
  {
    FirstPhase(gap, catalogue, ids);
    SecondPhaseOfPlan(gap, catalogue, ids, |MissingSkills(gap)|);
    PhasesConcatenate(gap, catalogue, ids);
  }

  // -------------------------------------------------------------------------
  // What is offered for a skill
  // -------------------------------------------------------------------------

  /** What stays of a resource when it is copied: everything but its flag and its id. */
  function Plain(r: Resource): Resource {
    r.(completed := false, id := "")
  }

  /** From position `start` on, `all` has copies of the options. */
  predicate CopiedAt(options: seq<Resource>, all: seq<Resource>, start: nat) {
    start + |options| <= |all| && forall i :: 0 <= i < |options| ==> Plain(options[i]) == Plain(all[start + i])
  }

  lemma KeptInFront(options: seq<Resource>, before: seq<Resource>, block: seq<Resource>, start: nat)
    requires CopiedAt(options, before, start)
    ensures CopiedAt(options, before + block, start)
  {
  }

  /** The copies of the resources for missing skill number `k` stand together, in the catalogue's order, behind those of
      the earlier skills, and are the catalogue's resources but for flag and id. */
  lemma {:induction false} BlockOf(gap: GapResult, catalogue: seq<Resource>, ids: nat -> string, n: nat, k: nat)
    returns (start: nat)
    requires k < n <= |gap.missingRequired| + |gap.missingPreferred|
    ensures var skill := if k < |gap.missingRequired| then gap.missingRequired[k]
                         else gap.missingPreferred[k - |gap.missingRequired|];
            && start == |Flat(gap, catalogue, ids, k)|
            && |Flat(gap, catalogue, ids, k + 1)| == start + |Options(skill, catalogue)|
            && CopiedAt(Options(skill, catalogue), Flat(gap, catalogue, ids, n), start)
  {
    var before := Flat(gap, catalogue, ids, n - 1);
    var block := Stamped(Options(MissingSkills(gap)[n - 1], catalogue), ids, |before|);
    assert Flat(gap, catalogue, ids, n) == before + block;
    if k == n - 1 {
      start := |before|;
    } else {
      start := BlockOf(gap, catalogue, ids, n - 1, k);
      KeptInFront(Options(MissingSkills(gap)[k], catalogue), before, block, start);
    }
  }

  lemma ForKeyOfOne(r: Resource, key: string)
    ensures ForKey([r], key) == if Lower(r.skill) == key then [r] else []
  {
    assert [r][..0] == [];
  }

  /** The catalogue's resources for a skill, piece by piece, so in the catalogue's order. */
  lemma {:induction false} ForKeyInOrder(catalogue: seq<Resource>, more: seq<Resource>, key: string)
    ensures ForKey(catalogue + more, key) == ForKey(catalogue, key) + ForKey(more, key)
  {
    if more == [] {
      assert catalogue + more == catalogue;
    } else {
      var n := |more| - 1;
      assert (catalogue + more)[..|catalogue| + n] == catalogue + more[..n];
      ForKeyInOrder(catalogue, more[..n], key);
    }
  }

  lemma {:induction false} ForKeyMembers(catalogue: seq<Resource>, key: string, r: Resource)
    ensures multiset(ForKey(catalogue, key))[r] == if Lower(r.skill) == key then multiset(catalogue)[r] else 0
  {
    if catalogue != [] {
      var n := |catalogue| - 1;
      ForKeyMembers(catalogue[..n], key, r);
      assert catalogue == catalogue[..n] + [catalogue[n]];
    }
  }

  lemma ForKeyMember(catalogue: seq<Resource>, key: string, r: Resource)
    requires r in ForKey(catalogue, key)
    ensures r in catalogue && Lower(r.skill) == key
  {
    ForKeyMembers(catalogue, key, r);
    assert r in multiset(ForKey(catalogue, key));
    assert r in multiset(catalogue);
  }

  /** The options for a skill teach that skill up to case, and when the catalogue has any, they are exactly the
      catalogue's. */
  lemma OptionsTeach(skill: string, catalogue: seq<Resource>)
    ensures Options(skill, catalogue) != []
    ensures forall r :: r in Options(skill, catalogue) ==> Lower(r.skill) == Lower(skill)
    ensures (exists r :: r in catalogue && Lower(r.skill) == Lower(skill)) ==>
              forall r :: r in Options(skill, catalogue) <==> r in catalogue && Lower(r.skill) == Lower(skill)
  {
    var found := ForKey(catalogue, Lower(skill));
    forall r
      ensures r in found <==> r in catalogue && Lower(r.skill) == Lower(skill)
    {
      ForKeyMembers(catalogue, Lower(skill), r);
      assert r in found <==> r in multiset(found);
      assert r in catalogue <==> r in multiset(catalogue);
    }
    if r :| r in catalogue && Lower(r.skill) == Lower(skill) {
      assert r in found;
    }
  }

  /** A skill the catalogue has nothing for gets one open course of ten hours that names the skill, at a page that is
      named after it in lower case, with hyphens for spaces. */
  lemma PlaceholderOffered(skill: string, catalogue: seq<Resource>)
    requires forall r :: r in catalogue ==> Lower(r.skill) != Lower(skill)
    ensures |Options(skill, catalogue)| == 1
    ensures var r := Options(skill, catalogue)[0];
            && r.name == "Learn " + skill && r.skill == skill
            && r.resourceType == "course" && r.estimatedHours == 10 && !r.completed
            && |r.url| == |"https://example.com/learn-"| + |skill|
            && "https://example.com/learn-" <= r.url
            && forall i :: 0 <= i < |skill| ==>
                 r.url[|"https://example.com/learn-"| + i] == if skill[i] == ' ' then '-' else LowerChar(skill[i])
  {
    if ForKey(catalogue, Lower(skill)) != [] {
      ForKeyMember(catalogue, Lower(skill), ForKey(catalogue, Lower(skill))[0]);
    }
  }

  /** The k-th resource drawn gets the k-th id. */
  lemma {:induction false} FlatIds(gap: GapResult, catalogue: seq<Resource>, ids: nat -> string, n: nat, k: nat)
    requires n <= |MissingSkills(gap)| && k < |Flat(gap, catalogue, ids, n)|
    ensures Flat(gap, catalogue, ids, n)[k].id == ids(k) && !Flat(gap, catalogue, ids, n)[k].completed
  {
    if k < |Flat(gap, catalogue, ids, n - 1)| {
      FlatIds(gap, catalogue, ids, n - 1, k);
    }
  }

  // -------------------------------------------------------------------------
  // Positions and ids
  // -------------------------------------------------------------------------

  predicate At(phases: seq<Phase>, p: int, i: int) {
    0 <= p < |phases| && 0 <= i < |phases[p].resources|
  }

  predicate HasResource(phases: seq<Phase>, id: string) {
    exists p, i :: 0 <= p < |phases| && 0 <= i < |phases[p].resources| && phases[p].resources[i].id == id
  }

  ghost predicate DistinctIds(phases: seq<Phase>) {
    && (forall p, i :: At(phases, p, i) ==> phases[p].resources[i].id != "")
    && (forall p, i, q, j | At(phases, p, i) && At(phases, q, j) ::
          phases[p].resources[i].id == phases[q].resources[j].id ==> p == q && i == j)
  }

  /** uuid4 never repeats and is never empty. */
  ghost predicate FreshIds(ids: nat -> string) {
    && (forall m: nat :: ids(m) != "")
    && (forall m: nat, n: nat :: ids(m) == ids(n) ==> m == n)
  }

  /** The position of a generated resource in the order of creation. */
  lemma GeneratedPosition(gap: GapResult, catalogue: seq<Resource>, ids: nat -> string, p: nat, i: nat) returns (k: nat)
    requires At(Generated(gap, catalogue, ids), p, i)
    ensures var g := Generated(gap, catalogue, ids);
            && k == (if p == 0 then 0 else if p == 1 then |g[0].resources| else |g[0].resources| + |g[1].resources|) + i
            && k < |Flat(gap, catalogue, ids, |MissingSkills(gap)|)|
            && g[p].resources[i] == Flat(gap, catalogue, ids, |MissingSkills(gap)|)[k]
            && g[p].resources[i].id == ids(k) && !g[p].resources[i].completed
  {
    var g := Generated(gap, catalogue, ids);
    k := (if p == 0 then 0 else if p == 1 then |g[0].resources| else |g[0].resources| + |g[1].resources|) + i;
    PhasesConcatenate(gap, catalogue, ids);
    FlatIds(gap, catalogue, ids, |MissingSkills(gap)|, k);
  }

  lemma GeneratedDistinct(gap: GapResult, catalogue: seq<Resource>, ids: nat -> string)
    requires FreshIds(ids)
    ensures DistinctIds(Generated(gap, catalogue, ids))
  {
    var g := Generated(gap, catalogue, ids);
    forall p, i | At(g, p, i)
      ensures g[p].resources[i].id != ""
    {
      var _ := GeneratedPosition(gap, catalogue, ids, p, i);
    }
    forall p, i, q, j | At(g, p, i) && At(g, q, j) && g[p].resources[i].id == g[q].resources[j].id
      ensures p == q && i == j
    {
      var k := GeneratedPosition(gap, catalogue, ids, p, i);
      var l := GeneratedPosition(gap, catalogue, ids, q, j);
    }
  }

  // -------------------------------------------------------------------------
  // Marking resources
  // -------------------------------------------------------------------------

  function PhaseWithCompleted(phase: Phase, id: string, completed: bool): (r: Phase)
    ensures r.period == phase.period && |r.resources| == |phase.resources|
    ensures forall i :: 0 <= i < |r.resources| ==>
              r.resources[i] == if phase.resources[i].id == id then phase.resources[i].(completed := completed)
                                else phase.resources[i]
  {
    Phase(phase.period, seq(|phase.resources|, i requires 0 <= i < |phase.resources| =>
      if phase.resources[i].id == id then phase.resources[i].(completed := completed) else phase.resources[i]))
  }

  /** Every resource with the id gets the flag; nothing else changes. */
  function WithCompleted(phases: seq<Phase>, id: string, completed: bool): (r: seq<Phase>)
    ensures |r| == |phases|
    ensures forall p :: 0 <= p < |r| ==> r[p] == PhaseWithCompleted(phases[p], id, completed)
  {
    seq(|phases|, p requires 0 <= p < |phases| => PhaseWithCompleted(phases[p], id, completed))
  }

  /** `mark_completed_by_id`; None stands for its KeyError. */
  function Marked(phases: seq<Phase>, id: string): Option<seq<Phase>> {
    if HasResource(phases, id) then Some(WithCompleted(phases, id, true)) else None
  }

  function MarkedAll(phases: seq<Phase>, marks: seq<string>): Option<seq<Phase>> {
    if marks == [] then Some(phases)
    else
      var before := MarkedAll(phases, marks[..|marks| - 1]);
      if before.None? then None else Marked(before.value, marks[|marks| - 1])
  }

  function PhaseCompletedBy(phase: Phase, ids: set<string>): (r: Phase)
    ensures r.period == phase.period && |r.resources| == |phase.resources|
    ensures forall i :: 0 <= i < |r.resources| ==>
              r.resources[i]
              == phase.resources[i].(completed := phase.resources[i].completed || phase.resources[i].id in ids)
  {
    Phase(phase.period, seq(|phase.resources|, i requires 0 <= i < |phase.resources| =>
      phase.resources[i].(completed := phase.resources[i].completed || phase.resources[i].id in ids)))
  }

  /** The roadmap with exactly the resources of these ids completed on top of those that were. */
  function CompletedBy(phases: seq<Phase>, ids: set<string>): (r: seq<Phase>)
    ensures |r| == |phases|
    ensures forall p :: 0 <= p < |r| ==> r[p] == PhaseCompletedBy(phases[p], ids)
  {
    seq(|phases|, p requires 0 <= p < |phases| => PhaseCompletedBy(phases[p], ids))
  }

  lemma CompletedByKeepsIds(phases: seq<Phase>, ids: set<string>, id: string)
    ensures HasResource(CompletedBy(phases, ids), id) <==> HasResource(phases, id)
  {
    var a := CompletedBy(phases, ids);
    assert forall p, i :: At(phases, p, i) ==> At(a, p, i) && a[p].resources[i].id == phases[p].resources[i].id;
    assert forall p, i :: At(a, p, i) ==> At(phases, p, i);
    if HasResource(phases, id) {
      var p, i :| 0 <= p < |phases| && 0 <= i < |phases[p].resources| && phases[p].resources[i].id == id;
      assert At(phases, p, i) && a[p].resources[i].id == id;
    }
    if HasResource(a, id) {
      var p, i :| 0 <= p < |a| && 0 <= i < |a[p].resources| && a[p].resources[i].id == id;
      assert At(a, p, i) && phases[p].resources[i].id == id;
    }
  }

  lemma CompletedByOneMore(phases: seq<Phase>, ids: set<string>, id: string)
    ensures WithCompleted(CompletedBy(phases, ids), id, true) == CompletedBy(phases, ids + {id})
  {
    var a := CompletedBy(phases, ids);
    forall p | 0 <= p < |phases|
      ensures PhaseWithCompleted(a[p], id, true) == PhaseCompletedBy(phases[p], ids + {id})
    {
      assert PhaseWithCompleted(a[p], id, true).resources == PhaseCompletedBy(phases[p], ids + {id}).resources;
    }
  }

  lemma CompletedByNone(phases: seq<Phase>)
    ensures CompletedBy(phases, {}) == phases
  {
    forall p | 0 <= p < |phases|
      ensures PhaseCompletedBy(phases[p], {}) == phases[p]
    {
      assert PhaseCompletedBy(phases[p], {}).resources == phases[p].resources;
    }
  }

  /** A sequence of marks succeeds exactly when every id is in the roadmap, and then only the set of ids
      matters: not their order, nor how often each was marked. */
  lemma {:induction false} MarksAreASet(phases: seq<Phase>, marks: seq<string>)
    ensures MarkedAll(phases, marks).Some? <==> forall id :: id in marks ==> HasResource(phases, id)
    ensures MarkedAll(phases, marks).Some? ==>
              MarkedAll(phases, marks).value == CompletedBy(phases, set id | id in marks)
  {
    if marks == [] {
      CompletedByNone(phases);
      assert (set id | id in marks) == {};
    } else {
      var init, last := marks[..|marks| - 1], marks[|marks| - 1];
      assert marks == init + [last];
      MarksAreASet(phases, init);
      CompletedByOneMore(phases, (set id | id in init), last);
      CompletedByKeepsIds(phases, (set id | id in init), last);
      assert (set id | id in marks) == (set id | id in init) + {last};
    }
  }

  method MarkCompletedById(phases: seq<Phase>, id: string) returns (r: Option<seq<Phase>>)
    ensures r == Marked(phases, id)
  {
    var found := false;
    var newPhases: seq<Phase> := [];
    for p := 0 to |phases|
      invariant |newPhases| == p
      invariant forall q :: 0 <= q < p ==> newPhases[q] == WithCompleted(phases, id, true)[q]
      invariant found <==> exists q, j :: 0 <= q < p && At(phases, q, j) && phases[q].resources[j].id == id
    {
      var newResources: seq<Resource> := [];
      for i := 0 to |phases[p].resources|
        invariant |newResources| == i
        invariant forall j :: 0 <= j < i ==> newResources[j] == WithCompleted(phases, id, true)[p].resources[j]
        invariant found <==> exists q, j :: 0 <= q <= p && At(phases, q, j) && (q < p || j < i)
                                            && phases[q].resources[j].id == id
      {
        var r := phases[p].resources[i];
        if r.id == id {
          assert At(phases, p, i);
          found := true;
          newResources := newResources + [r.(completed := true)];
        } else {
          newResources := newResources + [r];
        }
      }
      newPhases := newPhases + [Phase(phases[p].period, newResources)];
      assert newPhases[p] == WithCompleted(phases, id, true)[p];
    }
    assert newPhases == WithCompleted(phases, id, true);
    r := if found then Some(newPhases) else None;
  }

  // -------------------------------------------------------------------------
  // The match percentage of a roadmap in progress
  // -------------------------------------------------------------------------

  function CompletedKeys(phases: seq<Phase>): set<string> {
    set p, i | 0 <= p < |phases| && 0 <= i < |phases[p].resources| && phases[p].resources[i].completed ::
      Lower(phases[p].resources[i].skill)
  }

  /** The share of required skills that are in the profile or taught by a completed resource. */
  function MatchOf(profile: UserProfile, job: Job, phases: seq<Phase>): nat {
    Percentage(|Among(job.requiredSkills, Keys(profile.skills) + CompletedKeys(phases), true)|, |job.requiredSkills|)
  }

  method RecalculateMatch(profile: UserProfile, job: Job, phases: seq<Phase>) returns (match_: nat)
    ensures match_ == MatchOf(profile, job, phases)
  {
    var acquiredLower := Keys(profile.skills);
    for p := 0 to |phases|
      invariant acquiredLower == Keys(profile.skills) + CompletedKeys(phases[..p])
    {
      ghost var before := acquiredLower;
      for i := 0 to |phases[p].resources|
        invariant acquiredLower == before + CompletedKeys([Phase("", phases[p].resources[..i])])
      {
        var r := phases[p].resources[i];
        OneMoreResource(phases[p].resources, i);
        if r.completed {
          acquiredLower := acquiredLower + {Lower(r.skill)};
        }
      }
      OneMorePhase(phases, p);
    }
    assert phases[..|phases|] == phases;
    if |job.requiredSkills| == 0 {
      return 100;
    }
    var matched := 0;
    for i := 0 to |job.requiredSkills|
      invariant matched == |Among(job.requiredSkills[..i], acquiredLower, true)|
    {
      AmongAppend(job.requiredSkills[..i], [job.requiredSkills[i]], acquiredLower, true);
      assert job.requiredSkills[..i + 1] == job.requiredSkills[..i] + [job.requiredSkills[i]];
      if Lower(job.requiredSkills[i]) in acquiredLower {
        matched := matched + 1;
      }
    }
    assert job.requiredSkills[..|job.requiredSkills|] == job.requiredSkills;
    match_ := RoundRatio(100 * matched, |job.requiredSkills|);
  }

  lemma OneMoreResource(resources: seq<Resource>, i: nat)
    requires i < |resources|
    ensures CompletedKeys([Phase("", resources[..i + 1])])
            == CompletedKeys([Phase("", resources[..i])])
               + if resources[i].completed then {Lower(resources[i].skill)} else {}
  {
    var a, b := [Phase("", resources[..i])], [Phase("", resources[..i + 1])];
    forall key | key in CompletedKeys(a)
      ensures key in CompletedKeys(b)
    {
      var p, j :| 0 <= p < |a| && 0 <= j < |a[p].resources| && a[p].resources[j].completed
                  && Lower(a[p].resources[j].skill) == key;
      assert b[0].resources[j] == a[0].resources[j];
    }
    if resources[i].completed {
      assert b[0].resources[i].completed;
    }
  }

  lemma OneMorePhase(phases: seq<Phase>, p: nat)
    requires p < |phases|
    ensures var resources := phases[p].resources;
            CompletedKeys(phases[..p + 1])
            == CompletedKeys(phases[..p]) + CompletedKeys([Phase("", resources[..|resources|])])
  {
    var resources := phases[p].resources;
    var a, b, c := phases[..p], phases[..p + 1], [Phase("", resources[..|resources|])];
    forall key | key in CompletedKeys(a) + CompletedKeys(c)
      ensures key in CompletedKeys(b)
    {
      if key in CompletedKeys(a) {
        var q, j :| 0 <= q < |a| && 0 <= j < |a[q].resources| && a[q].resources[j].completed
                    && Lower(a[q].resources[j].skill) == key;
        assert b[q].resources[j].completed;
      } else {
        var q, j :| 0 <= q < |c| && 0 <= j < |c[q].resources| && c[q].resources[j].completed
                    && Lower(c[q].resources[j].skill) == key;
        assert b[p].resources[j].completed;
      }
    }
    forall key | key in CompletedKeys(b)
      ensures key in CompletedKeys(a) + CompletedKeys(c)
    {
      var q, j :| 0 <= q < |b| && 0 <= j < |b[q].resources| && b[q].resources[j].completed
                  && Lower(b[q].resources[j].skill) == key;
      if q < p {
        assert a[q].resources[j].completed;
      } else {
        assert c[0].resources[j].completed;
      }
    }
  }

  /** The skills taught by the resources of these ids. */
  function CoveredKeys(phases: seq<Phase>, ids: set<string>): set<string> {
    set p, i | 0 <= p < |phases| && 0 <= i < |phases[p].resources| && phases[p].resources[i].id in ids ::
      Lower(phases[p].resources[i].skill)
  }

  predicate NoneCompleted(phases: seq<Phase>) {
    forall p, i :: 0 <= p < |phases| && 0 <= i < |phases[p].resources| ==> !phases[p].resources[i].completed
  }

  lemma CompletedKeysOfMarks(phases: seq<Phase>, ids: set<string>)
    requires NoneCompleted(phases)
    ensures CompletedKeys(CompletedBy(phases, ids)) == CoveredKeys(phases, ids)
  {
    var a := CompletedBy(phases, ids);
    forall key | key in CompletedKeys(a)
      ensures key in CoveredKeys(phases, ids)
    {
      var p, i :| 0 <= p < |a| && 0 <= i < |a[p].resources| && a[p].resources[i].completed
                  && Lower(a[p].resources[i].skill) == key;
      assert phases[p].resources[i].id in ids;
    }
    forall key | key in CoveredKeys(phases, ids)
      ensures key in CompletedKeys(a)
    {
      var p, i :| 0 <= p < |phases| && 0 <= i < |phases[p].resources| && phases[p].resources[i].id in ids
                  && Lower(phases[p].resources[i].skill) == key;
      assert a[p].resources[i].completed;
    }
  }

  lemma NoneCompletedYet(gap: GapResult, catalogue: seq<Resource>, ids: nat -> string)
    ensures NoneCompleted(Generated(gap, catalogue, ids))
  {
    var g := Generated(gap, catalogue, ids);
    forall p, i | 0 <= p < |g| && 0 <= i < |g[p].resources|
      ensures !g[p].resources[i].completed
    {
      var _ := GeneratedPosition(gap, catalogue, ids, p, i);
    }
  }

  /** The required skills held up to case, or covered by a resource marked so far. */
  function Acquired(profile: UserProfile, job: Job, phases: seq<Phase>, marks: seq<string>): seq<string> {
    Among(job.requiredSkills, Keys(profile.skills) + CoveredKeys(phases, set id | id in marks), true)
  }

  /** End to end, from profile, job and catalogue through any sequence of successful marks: the recalculated
      match is the rounded share of required skills already held or covered by a marked resource. */
  lemma MatchAfterMarks(profile: UserProfile, job: Job, catalogue: seq<Resource>, ids: nat -> string, marks: seq<string>)
    ensures var g := Generated(GapOf(profile, job), catalogue, ids);
            MarkedAll(g, marks).Some? ==>
              MatchOf(profile, job, MarkedAll(g, marks).value)
              == Percentage(|Acquired(profile, job, g, marks)|, |job.requiredSkills|)
  {
    var g := Generated(GapOf(profile, job), catalogue, ids);
    MarksAreASet(g, marks);
    NoneCompletedYet(GapOf(profile, job), catalogue, ids);
    CompletedKeysOfMarks(g, set id | id in marks);
  }

  /** On the fresh roadmap the recalculated match is the gap's own percentage. */
  lemma MatchOfFresh(profile: UserProfile, job: Job, catalogue: seq<Resource>, ids: nat -> string)
    ensures MatchOf(profile, job, Generated(GapOf(profile, job), catalogue, ids)) == GapOf(profile, job).matchPercentage
  {
    var g := Generated(GapOf(profile, job), catalogue, ids);
    NoneCompletedYet(GapOf(profile, job), catalogue, ids);
    assert CompletedKeys(g) == {};
    assert Keys(profile.skills) + CompletedKeys(g) == Keys(profile.skills);
  }

  /** Whatever has been marked, marking more never lowers the match. */
  lemma MatchNeverFalls(profile: UserProfile, job: Job, phases: seq<Phase>, marks: seq<string>, more: seq<string>)
    requires MarkedAll(phases, marks + more).Some?
    ensures MarkedAll(phases, marks).Some?
    ensures MatchOf(profile, job, MarkedAll(phases, marks).value)
            <= MatchOf(profile, job, MarkedAll(phases, marks + more).value)
  {
    MarksAreASet(phases, marks);
    MarksAreASet(phases, marks + more);
    var a, b := MarkedAll(phases, marks).value, MarkedAll(phases, marks + more).value;
    forall key | key in CompletedKeys(a)
      ensures key in CompletedKeys(b)
    {
      var p, i :| 0 <= p < |a| && 0 <= i < |a[p].resources| && a[p].resources[i].completed
                  && Lower(a[p].resources[i].skill) == key;
      assert b[p].resources[i].completed;
    }
    AmongMonotone(job.requiredSkills, Keys(profile.skills) + CompletedKeys(a), Keys(profile.skills) + CompletedKeys(b));
    PercentageMonotone(|Among(job.requiredSkills, Keys(profile.skills) + CompletedKeys(a), true)|,
                       |Among(job.requiredSkills, Keys(profile.skills) + CompletedKeys(b), true)|,
                       |job.requiredSkills|);
  }

  /** The order of the marks does not matter, nor do repetitions. */
  lemma MatchIgnoresOrder(phases: seq<Phase>, marks: seq<string>, others: seq<string>)
    requires forall id :: id in marks <==> id in others
    ensures MarkedAll(phases, marks) == MarkedAll(phases, others)
  {
    MarksAreASet(phases, marks);
    MarksAreASet(phases, others);
    assert (set id | id in marks) == (set id | id in others);
  }

  /** The block of a missing skill is in the roadmap. */
  lemma {:induction false} FlatTeaches(gap: GapResult, catalogue: seq<Resource>, ids: nat -> string, n: nat, k: nat)
    returns (at: nat)
    requires k < n <= |MissingSkills(gap)|
    ensures at < |Flat(gap, catalogue, ids, n)|
    ensures Lower(Flat(gap, catalogue, ids, n)[at].skill) == Lower(MissingSkills(gap)[k])
  {
    if k == n - 1 {
      OptionsTeach(MissingSkills(gap)[k], catalogue);
      at := |Flat(gap, catalogue, ids, n - 1)|;
      assert Options(MissingSkills(gap)[k], catalogue)[0] in Options(MissingSkills(gap)[k], catalogue);
    } else {
      at := FlatTeaches(gap, catalogue, ids, n - 1, k);
    }
  }

  lemma GeneratedTeaches(gap: GapResult, catalogue: seq<Resource>, ids: nat -> string, skill: string)
    returns (p: nat, i: nat)
    requires skill in MissingSkills(gap)
    ensures At(Generated(gap, catalogue, ids), p, i)
    ensures Lower(Generated(gap, catalogue, ids)[p].resources[i].skill) == Lower(skill)
  {
    var n := |MissingSkills(gap)|;
    var k :| 0 <= k < n && MissingSkills(gap)[k] == skill;
    var at := FlatTeaches(gap, catalogue, ids, n, k);
    var g := Generated(gap, catalogue, ids);
    PhasesConcatenate(gap, catalogue, ids);
    var n0, n1 := |g[0].resources|, |g[1].resources|;
    p := if at < n0 then 0 else if at < n0 + n1 then 1 else 2;
    i := if at < n0 then at else if at < n0 + n1 then at - n0 else at - n0 - n1;
  }

  /** Once every resource is completed the match is 100. */
  lemma MatchOfComplete(profile: UserProfile, job: Job, catalogue: seq<Resource>, ids: nat -> string, marks: seq<string>)
    requires var g := Generated(GapOf(profile, job), catalogue, ids);
             && MarkedAll(g, marks).Some?
             && forall p, i :: At(g, p, i) ==> g[p].resources[i].id in marks
    ensures MatchOf(profile, job, MarkedAll(Generated(GapOf(profile, job), catalogue, ids), marks).value) == 100
  {
    var gap := GapOf(profile, job);
    var g := Generated(gap, catalogue, ids);
    var covered := CoveredKeys(g, set id | id in marks);
    var keys := Keys(profile.skills);
    forall s | s in job.requiredSkills
      ensures Lower(s) in keys + covered
    {
      if Lower(s) !in keys {
        AmongMembers(job.requiredSkills, keys, false, s);
        var p, i := GeneratedTeaches(gap, catalogue, ids, s);
        assert g[p].resources[i].id in marks;
      }
    }
    AmongAll(job.requiredSkills, keys + covered);
    MatchAfterMarks(profile, job, catalogue, ids, marks);
    PercentageFull(|job.requiredSkills|);
  }
}
