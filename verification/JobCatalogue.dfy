/** The job catalogue: loaded once into records, searched, paged, and seeded into the jobs table. */
module JobCatalogue {
  import opened Common
  import opened Models
  import opened Slugs
  import opened Paging

  /** A posting is an object: filtering goes by its identity. */
  class JobPosting {
    const value: Job

    constructor (value: Job)
      ensures this.value == value
    {
      this.value := value;
    }
  }

  datatype JobRecord = JobRecord(id: string, job: JobPosting)

  function Bases(jobs: seq<JobPosting>): (bases: seq<string>)
    ensures |bases| == |jobs|
    ensures forall i :: 0 <= i < |jobs| ==> bases[i] == Slugify(jobs[i].value.title)
  {
    seq(|jobs|, i requires 0 <= i < |jobs| => Slugify(jobs[i].value.title))
  }

  /** The records of a catalogue, in load order. */
  function RecordsFor(jobs: seq<JobPosting>): (records: seq<JobRecord>)
    ensures |records| == |jobs|
    ensures forall i :: 0 <= i < |jobs| ==> records[i] == JobRecord(IdAt(Bases(jobs), i), jobs[i])
  {
    seq(|jobs|, i requires 0 <= i < |jobs| => JobRecord(IdAt(Bases(jobs), i), jobs[i]))
  }

  lemma RecordsPrefix(jobs: seq<JobPosting>, i: nat)
    requires i < |jobs|
    ensures RecordsFor(jobs)[..i + 1] == RecordsFor(jobs)[..i] + [JobRecord(IdAt(Bases(jobs), i), jobs[i])]
  {
  }

  /** The id lookup: of equal ids, the last one wins. */
  function ById(records: seq<JobRecord>): map<string, JobRecord> {
    if records == [] then map[]
    else
      var last := records[|records| - 1];
      ById(records[..|records| - 1])[last.id := last]
  }

  lemma {:induction false} ByIdFinds(records: seq<JobRecord>, i: nat) returns (j: nat)
    requires i < |records|
    ensures i <= j < |records| && records[j].id == records[i].id
    ensures records[i].id in ById(records) && ById(records)[records[i].id] == records[j]
  {
    var n := |records| - 1;
    if records[n].id == records[i].id {
      j := n;
    } else {
      j := ByIdFinds(records[..n], i);
    }
  }

  lemma {:induction false} ByIdOnly(records: seq<JobRecord>, id: string) returns (i: nat)
    requires id in ById(records)
    ensures i < |records| && ById(records)[id] == records[i] && records[i].id == id
  {
    var n := |records| - 1;
    if records[n].id == id {
      i := n;
    } else {
      i := ByIdOnly(records[..n], id);
    }
  }

  predicate DistinctJobs(jobs: seq<JobPosting>) {
    forall i, j :: 0 <= i < j < |jobs| ==> jobs[i] != jobs[j]
  }

  /** Every record is what its id looks up. */
  predicate AllReachable(records: seq<JobRecord>) {
    forall i :: 0 <= i < |records| ==> records[i].id in ById(records) && ById(records)[records[i].id] == records[i]
  }

  lemma ReachableIfDistinct(jobs: seq<JobPosting>)
    requires DistinctJobs(jobs)
    ensures AllReachable(RecordsFor(jobs)) <==> DistinctIdsOf(Bases(jobs))
  {
    var records := RecordsFor(jobs);
    if DistinctIdsOf(Bases(jobs)) {
      forall i | 0 <= i < |records|
        ensures records[i].id in ById(records) && ById(records)[records[i].id] == records[i]
      {
        var j := ByIdFinds(records, i);
      }
    } else {
      var i, j :| 0 <= i < j < |jobs| && IdAt(Bases(jobs), i) == IdAt(Bases(jobs), j);
      assert records[i].id == records[j].id && records[i] != records[j];
    }
  }

  /** Every job can be fetched by its id exactly when no slug collides with a numbered one. */
  lemma EveryJobReachable(jobs: seq<JobPosting>)
    requires DistinctJobs(jobs)
    ensures AllReachable(RecordsFor(jobs)) <==> !exists i, j, k :: Collides(Bases(jobs), i, j, k)
  {
    ReachableIfDistinct(jobs);
    IdsDistinct(Bases(jobs));
  }

  // -------------------------------------------------------------------------
  // Search
  // -------------------------------------------------------------------------

  /** Either filter is enough; two empty filters take everything, but a blank one matches nothing. */
  predicate Selected(job: Job, keyword: string, skill: string) {
    || (keyword == "" && skill == "")
    || (Lower(Strip(keyword)) != "" && Contains(Lower(job.title), Lower(Strip(keyword))))
    || (Lower(Strip(skill)) != "" && exists s :: s in job.requiredSkills && Lower(s) == Lower(Strip(skill)))
  }

  /** A keyword finds the jobs whose title contains it, a skill the jobs that require it, up to case and surrounding white
      space; of two filters, either is enough. Nothing else about a job matters. */
  lemma SearchFinds(job: Job, keyword: string, skill: string)
    ensures Strip(keyword) != "" ==>
              (Selected(job, keyword, "")
               <==> exists before, after :: Lower(job.title) == before + Lower(Strip(keyword)) + after)
    ensures Strip(skill) != "" ==> (Selected(job, "", skill) <==> Lower(Strip(skill)) in Keys(job.requiredSkills))
    ensures Strip(keyword) != "" && Strip(skill) != "" ==>
              (Selected(job, keyword, skill) <==> Selected(job, keyword, "") || Selected(job, "", skill))
    ensures Strip(keyword) != "" && Strip(skill) == "" ==> (Selected(job, keyword, skill) <==> Selected(job, keyword, ""))
    ensures Strip(keyword) == "" && Strip(skill) != "" ==> (Selected(job, keyword, skill) <==> Selected(job, "", skill))
  {
    assert |Lower(Strip(keyword))| == |Strip(keyword)| && |Lower(Strip(skill))| == |Strip(skill)|;
    ContainsMeans(Lower(job.title), Lower(Strip(keyword)));
  }

  function FilterJobs(jobs: seq<JobPosting>, keyword: string, skill: string): seq<JobPosting> {
    if jobs == [] then []
    else
      var before, last := FilterJobs(jobs[..|jobs| - 1], keyword, skill), jobs[|jobs| - 1];
      if Selected(last.value, keyword, skill) then before + [last] else before
  }

  function FilterRecords(records: seq<JobRecord>, keyword: string, skill: string): seq<JobRecord> {
    if records == [] then []
    else
      var before, last := FilterRecords(records[..|records| - 1], keyword, skill), records[|records| - 1];
      if Selected(last.job.value, keyword, skill) then before + [last] else before
  }

  /** Filtering goes job by job, so it keeps the order. */
  lemma {:induction false} FilterConcat(jobs: seq<JobPosting>, more: seq<JobPosting>, keyword: string, skill: string)
    ensures FilterJobs(jobs + more, keyword, skill)
            == FilterJobs(jobs, keyword, skill) + FilterJobs(more, keyword, skill)
  {
    if more == [] {
      assert jobs + more == jobs;
    } else {
      var n := |more| - 1;
      assert (jobs + more)[..|jobs| + n] == jobs + more[..n];
      FilterConcat(jobs, more[..n], keyword, skill);
    }
  }

  lemma FilterOfOne(job: JobPosting, keyword: string, skill: string)
    ensures FilterJobs([job], keyword, skill) == if Selected(job.value, keyword, skill) then [job] else []
  {
    assert [job][..0] == [];
  }

  lemma {:induction false} RecordsConcat(records: seq<JobRecord>, more: seq<JobRecord>, keyword: string, skill: string)
    ensures FilterRecords(records + more, keyword, skill)
            == FilterRecords(records, keyword, skill) + FilterRecords(more, keyword, skill)
  {
    if more == [] {
      assert records + more == records;
    } else {
      var n := |more| - 1;
      assert (records + more)[..|records| + n] == records + more[..n];
      RecordsConcat(records, more[..n], keyword, skill);
    }
  }

  lemma RecordsOfOne(record: JobRecord, keyword: string, skill: string)
    ensures FilterRecords([record], keyword, skill) == if Selected(record.job.value, keyword, skill) then [record] else []
  {
    assert [record][..0] == [];
  }

  method SearchJobs(jobs: seq<JobPosting>, keyword: string, skill: string) returns (results: seq<JobPosting>)
    ensures results == FilterJobs(jobs, keyword, skill)
  {
    if keyword == "" && skill == "" {
      FilterAll(jobs);
      return jobs;
    }
    var kwLower, skLower := Lower(Strip(keyword)), Lower(Strip(skill));
    results := [];
    for i := 0 to |jobs|
      invariant results == FilterJobs(jobs[..i], keyword, skill)
    {
      assert jobs[..i + 1][..i] == jobs[..i];
      var job := jobs[i];
      var match_ := false;
      if kwLower != "" && Contains(Lower(job.value.title), kwLower) {
        match_ := true;
      }
      if skLower != "" && exists s :: s in job.value.requiredSkills && Lower(s) == skLower {
        match_ := true;
      }
      if match_ {
        results := results + [job];
      }
    }
    assert jobs[..|jobs|] == jobs;
  }

  lemma {:induction false} FilterAll(jobs: seq<JobPosting>)
    ensures FilterJobs(jobs, "", "") == jobs
  {
    if jobs != [] {
      FilterAll(jobs[..|jobs| - 1]);
    }
  }

  /** Filters of white space only select everything when both are empty, and nothing otherwise. */
  lemma {:induction false} BlankFilters(jobs: seq<JobPosting>, keyword: string, skill: string)
    requires Strip(keyword) == "" && Strip(skill) == ""
    ensures FilterJobs(jobs, keyword, skill) == if keyword == "" && skill == "" then jobs else []
  {
    if jobs != [] {
      BlankFilters(jobs[..|jobs| - 1], keyword, skill);
    }
  }

  /** So on a catalogue with jobs, filters that are blank find everything exactly when they are empty. */
  lemma BlankFindsAllIffEmpty(jobs: seq<JobPosting>, keyword: string, skill: string)
    requires jobs != [] && Strip(keyword) == "" && Strip(skill) == ""
    ensures FilterJobs(jobs, keyword, skill) == jobs <==> keyword == "" && skill == ""
  {
    BlankFilters(jobs, keyword, skill);
  }

  /** The query schema strips its texts, so through the API a blank filter is an empty one. */
  lemma StrippedFiltersFindAll(jobs: seq<JobPosting>, keyword: string, skill: string)
    requires Strip(keyword) == "" && Strip(skill) == ""
    ensures FilterJobs(jobs, Strip(keyword), Strip(skill)) == jobs
  {
    FilterAll(jobs);
  }

  lemma {:induction false} FilterAllRecords(records: seq<JobRecord>)
    ensures FilterRecords(records, "", "") == records
  {
    if records != [] {
      FilterAllRecords(records[..|records| - 1]);
    }
  }

  lemma {:induction false} FilterJobsMembers(jobs: seq<JobPosting>, keyword: string, skill: string)
    ensures forall j :: j in FilterJobs(jobs, keyword, skill) ==> j in jobs
  {
    if jobs != [] {
      FilterJobsMembers(jobs[..|jobs| - 1], keyword, skill);
    }
  }

  // -------------------------------------------------------------------------
  // From filtered postings back to records, by identity
  // -------------------------------------------------------------------------

  function JobsOf(records: seq<JobRecord>): (jobs: seq<JobPosting>)
    ensures |jobs| == |records|
    ensures forall i :: 0 <= i < |records| ==> jobs[i] == records[i].job
  {
    seq(|records|, i requires 0 <= i < |records| => records[i].job)
  }

  /** The identity map: of records with one posting, the last one wins. */
  function ByJob(records: seq<JobRecord>): map<JobPosting, JobRecord> {
    if records == [] then map[]
    else
      var last := records[|records| - 1];
      ByJob(records[..|records| - 1])[last.job := last]
  }

  function Resolved(byJob: map<JobPosting, JobRecord>, jobs: seq<JobPosting>): seq<JobRecord> {
    if jobs == [] then []
    else
      var before, last := Resolved(byJob, jobs[..|jobs| - 1]), jobs[|jobs| - 1];
      if last in byJob then before + [byJob[last]] else before
  }

  /** What the repository lists for a filter. */
  function Listed(records: seq<JobRecord>, keyword: string, skill: string): seq<JobRecord> {
    Resolved(ByJob(records), FilterJobs(JobsOf(records), keyword, skill))
  }

  lemma {:induction false} ByJobFinds(records: seq<JobRecord>, i: nat) returns (j: nat)
    requires i < |records|
    ensures i <= j < |records| && records[j].job == records[i].job
    ensures records[i].job in ByJob(records) && ByJob(records)[records[i].job] == records[j]
    ensures forall m :: i <= m < |records| && records[m].job == records[i].job ==> m <= j
  {
    var n := |records| - 1;
    if records[n].job == records[i].job {
      j := n;
    } else {
      j := ByJobFinds(records[..n], i);
    }
  }

  lemma {:induction false} ResolvedIsFiltered(byJob: map<JobPosting, JobRecord>, records: seq<JobRecord>,
                                              keyword: string, skill: string)
    requires forall i :: 0 <= i < |records| ==> records[i].job in byJob && byJob[records[i].job] == records[i]
    ensures Resolved(byJob, FilterJobs(JobsOf(records), keyword, skill)) == FilterRecords(records, keyword, skill)
  {
    if records != [] {
      var init := records[..|records| - 1];
      ResolvedIsFiltered(byJob, init, keyword, skill);
      assert JobsOf(records)[..|records| - 1] == JobsOf(init);
      var before, last := FilterJobs(JobsOf(init), keyword, skill), records[|records| - 1].job;
      assert (before + [last])[..|before|] == before;
    }
  }

  lemma {:induction false} ResolvedAll(byJob: map<JobPosting, JobRecord>, jobs: seq<JobPosting>)
    requires forall j :: j in jobs ==> j in byJob
    ensures |Resolved(byJob, jobs)| == |jobs|
    ensures forall i :: 0 <= i < |jobs| ==> Resolved(byJob, jobs)[i] == byJob[jobs[i]]
  {
    if jobs != [] {
      var init := jobs[..|jobs| - 1];
      assert jobs[|jobs| - 1] in jobs && forall j :: j in init ==> j in jobs;
      ResolvedAll(byJob, init);
    }
  }

  lemma NumberedDiffer(b: string, k: nat, m: nat)
    requires 1 <= k < m
    ensures Numbered(b, k) != Numbered(b, m)
  {
    if k >= 2 && Numbered(b, k) == Numbered(b, m) {
      assert Numbered(b, k)[|b| + 1..] == Decimal(k) && Numbered(b, m)[|b| + 1..] == Decimal(m);
      DecimalInjective(k, m);
    }
  }

  /** A posting loaded twice gets two different records. */
  lemma TwiceLoadedDiffers(jobs: seq<JobPosting>, i: nat, j: nat)
    requires i < j < |jobs| && jobs[i] == jobs[j]
    ensures RecordsFor(jobs)[i] != RecordsFor(jobs)[j]
  {
    var bases := Bases(jobs);
    NumbersDiffer(bases, i, j);
    NumberedDiffer(bases[i], Count(bases, i + 1, bases[i]), Count(bases, j + 1, bases[j]));
  }

  /** Listing by identity is the in-order filter of the records, for every filter, exactly when no posting was
      loaded twice. */
  lemma ListingIsFiltering(jobs: seq<JobPosting>)
    ensures (forall keyword, skill ::
               Listed(RecordsFor(jobs), keyword, skill) == FilterRecords(RecordsFor(jobs), keyword, skill))
            <==> DistinctJobs(jobs)
  {
    var records := RecordsFor(jobs);
    if DistinctJobs(jobs) {
      forall i | 0 <= i < |records|
        ensures records[i].job in ByJob(records) && ByJob(records)[records[i].job] == records[i]
      {
        var j := ByJobFinds(records, i);
      }
      forall keyword, skill
        ensures Listed(records, keyword, skill) == FilterRecords(records, keyword, skill)
      {
        ResolvedIsFiltered(ByJob(records), records, keyword, skill);
      }
    } else {
      var i, j :| 0 <= i < j < |jobs| && jobs[i] == jobs[j];
      TwiceLoadedIsMisplaced(jobs, i, j);
    }
  }

  lemma TwiceLoadedIsMisplaced(jobs: seq<JobPosting>, i: nat, j: nat)
    requires i < j < |jobs| && jobs[i] == jobs[j]
    ensures Listed(RecordsFor(jobs), "", "") != FilterRecords(RecordsFor(jobs), "", "")
  {
    var records := RecordsFor(jobs);
    FilterAllRecords(records);
    var m := ListedUnfiltered(records, i);
    assert m >= j;
    TwiceLoadedDiffers(jobs, i, m);
  }

  /** Without a filter, a position lists the last record that has its posting. */
  lemma ListedUnfiltered(records: seq<JobRecord>, i: nat) returns (m: nat)
    requires i < |records|
    ensures i <= m < |records| && records[m].job == records[i].job
    ensures forall k :: i <= k < |records| && records[k].job == records[i].job ==> k <= m
    ensures |Listed(records, "", "")| == |records| && Listed(records, "", "")[i] == records[m]
  {
    FilterAll(JobsOf(records));
    forall k | 0 <= k < |records|
      ensures records[k].job in ByJob(records)
    {
      var _ := ByJobFinds(records, k);
    }
    ResolvedAll(ByJob(records), JobsOf(records));
    m := ByJobFinds(records, i);
  }

  // -------------------------------------------------------------------------
  // The in-memory repository
  // -------------------------------------------------------------------------

  ghost predicate Counted(seenCounts: map<string, nat>, bases: seq<string>, n: nat)
    requires n <= |bases|
  {
    forall b :: (if b in seenCounts then seenCounts[b] else 0) == Count(bases, n, b)
  }

  lemma CountedNone(bases: seq<string>)
    ensures Counted(map[], bases, 0)
  {
  }

  lemma CountedOneMore(seenCounts: map<string, nat>, bases: seq<string>, i: nat)
    requires i < |bases| && Counted(seenCounts, bases, i)
    ensures var base, before := bases[i], if bases[i] in seenCounts then seenCounts[bases[i]] else 0;
            && Counted(seenCounts[base := before + 1], bases, i + 1)
            && IdAt(bases, i) == if before + 1 == 1 then base else base + "-" + Decimal(before + 1)
  {
    assert Count(bases, i + 1, bases[i]) == Count(bases, i, bases[i]) + 1;
  }

  class InMemoryJobRepository {
    var records: seq<JobRecord>
    var byId: map<string, JobRecord>

    ghost predicate Holds(jobs: seq<JobPosting>)
      reads this
    {
      records == RecordsFor(jobs) && byId == ById(records)
    }

    constructor (jobs: seq<JobPosting>)
      ensures Holds(jobs)
    {
      records, byId := [], map[];
      new;
      LoadAll(jobs);
    }

    /** The first `n` jobs are loaded, and each slug has been counted as often as it occurred. */
    ghost predicate Loaded(jobs: seq<JobPosting>, n: nat, seenCounts: map<string, nat>)
      reads this
    {
      && n <= |jobs| && records == RecordsFor(jobs)[..n] && byId == ById(records)
      && Counted(seenCounts, Bases(jobs), n)
    }

    /** Ids are given in load order, with one counter for each slug. */
    method LoadAll(jobs: seq<JobPosting>)
      requires records == [] && byId == map[]
      modifies this
      ensures Holds(jobs)
    {
      var seenCounts: map<string, nat> := map[];
      CountedNone(Bases(jobs));
      for i := 0 to |jobs|
        invariant Loaded(jobs, i, seenCounts)
      {
        seenCounts := LoadNext(jobs, i, seenCounts);
      }
    }

    method LoadNext(jobs: seq<JobPosting>, ghost i: nat, seenCounts: map<string, nat>)
      returns (counted: map<string, nat>)
      requires i < |jobs| && Loaded(jobs, i, seenCounts)
      modifies this
      ensures Loaded(jobs, i + 1, counted)
    {
      var job := jobs[|records|];
      var base := Slugify(job.value.title);
      CountedOneMore(seenCounts, Bases(jobs), i);
      counted := seenCounts[base := (if base in seenCounts then seenCounts[base] else 0) + 1];
      var slug := if counted[base] == 1 then base else base + "-" + Decimal(counted[base]);
      RecordsPrefix(jobs, i);
      Append(JobRecord(slug, job));
    }

    method Append(record: JobRecord)
      requires byId == ById(records)
      modifies this
      ensures records == old(records) + [record] && byId == ById(records)
    {
      assert (records + [record])[..|records|] == records;
      records := records + [record];
      byId := byId[record.id := record];
    }

    function Get(jobId: string): Option<JobRecord>
      reads this
    {
      if jobId in byId then Some(byId[jobId]) else None
    }

    method ListFiltered(keyword: string, skill: string) returns (out: seq<JobRecord>)
      ensures out == Listed(records, keyword, skill)
    {
      var filteredJobs := SearchJobs(JobsOf(records), keyword, skill);
      var jobToRecord: map<JobPosting, JobRecord> := map[];
      for i := 0 to |records|
        invariant jobToRecord == ByJob(records[..i])
      {
        assert records[..i + 1][..i] == records[..i];
        jobToRecord := jobToRecord[records[i].job := records[i]];
      }
      assert records[..|records|] == records;
      out := [];
      for i := 0 to |filteredJobs|
        invariant out == Resolved(jobToRecord, filteredJobs[..i])
      {
        assert filteredJobs[..i + 1][..i] == filteredJobs[..i];
        if filteredJobs[i] in jobToRecord {
          out := out + [jobToRecord[filteredJobs[i]]];
        }
      }
      assert filteredJobs[..|filteredJobs|] == filteredJobs;
    }

    method List(page: nat, limit: nat, keyword: string, skill: string) returns (items: seq<JobRecord>, total: nat)
      requires page >= 1 && limit >= 1
      ensures items == Page(Listed(records, keyword, skill), page, limit)
      ensures total == |Listed(records, keyword, skill)|
    {
      var filtered := ListFiltered(keyword, skill);
      total := |filtered|;
      items := Page(filtered, page, limit);
    }
  }

  // -------------------------------------------------------------------------
  // The jobs table
  // -------------------------------------------------------------------------

  datatype JobRow = JobRow(
    id: string,
    title: string,
    description: string,
    requiredSkills: seq<string>,
    preferredSkills: seq<string>,
    experienceLevel: string)

  function RowOf(id: string, job: Job): JobRow {
    JobRow(id, job.title, job.description, job.requiredSkills, job.preferredSkills, job.experienceLevel)
  }

  /** The rows a catalogue stands for: those of the in-memory lookup. */
  function CatalogueRows(records: seq<JobRecord>): map<string, JobRow> {
    map id | id in ById(records) :: RowOf(id, ById(records)[id].job.value)
  }

  lemma CatalogueRowsStep(before: map<string, JobRow>, records: seq<JobRecord>, i: nat)
    requires i < |records|
    ensures before + CatalogueRows(records[..i + 1])
            == (before + CatalogueRows(records[..i]))[records[i].id := RowOf(records[i].id, records[i].job.value)]
  {
    assert records[..i + 1][..i] == records[..i];
    assert CatalogueRows(records[..i + 1])
        == CatalogueRows(records[..i])[records[i].id := RowOf(records[i].id, records[i].job.value)];
  }

  class JobsTable {
    var rows: map<string, JobRow>

    ghost predicate Valid()
      reads this
    {
      forall id :: id in rows ==> rows[id].id == id
    }

    /** Inserts the row, or refreshes every field of it but the id. */
    method Upsert(slug: string, job: Job)
      requires Valid()
      modifies this
      ensures Valid() && rows == old(rows)[slug := RowOf(slug, job)]
    {
      if slug !in rows {
        rows := rows[slug := RowOf(slug, job)];
      } else {
        rows := rows[slug := rows[slug].(title := job.title, description := job.description,
                                         requiredSkills := job.requiredSkills, preferredSkills := job.preferredSkills,
                                         experienceLevel := job.experienceLevel)];
      }
    }

    /** Seeding leaves the table overwritten by the catalogue's rows, colliding ids included. */
    method Seed(jobs: seq<JobPosting>) returns (touched: nat)
      requires Valid()
      modifies this
      ensures Valid() && touched == |jobs|
      ensures rows == old(rows) + CatalogueRows(RecordsFor(jobs))
    {
      var repo := new InMemoryJobRepository(jobs);
      touched := UpsertAll(repo.records);
    }

    method UpsertAll(pairs: seq<JobRecord>) returns (touched: nat)
      requires Valid()
      modifies this
      ensures Valid() && touched == |pairs| && rows == old(rows) + CatalogueRows(pairs)
    {
      ghost var before := rows;
      touched := 0;
      for i := 0 to |pairs|
        invariant touched == i && Valid() && rows == before + CatalogueRows(pairs[..i])
      {
        CatalogueRowsStep(before, pairs, i);
        Upsert(pairs[i].id, pairs[i].job.value);
        touched := touched + 1;
      }
      assert pairs[..|pairs|] == pairs;
    }
  }

  /** The table after seeding `n` times. */
  function Seeded(rows: map<string, JobRow>, records: seq<JobRecord>, n: nat): map<string, JobRow> {
    if n == 0 then rows else Seeded(rows, records, n - 1) + CatalogueRows(records)
  }

  /** Any number of runs leaves what one run leaves: rows outside the catalogue as they were, and for every other
      id the job the in-memory repository would return. */
  lemma {:induction false} SeedingSettles(rows: map<string, JobRow>, jobs: seq<JobPosting>, n: nat)
    requires n >= 1
    ensures var seeded, records := Seeded(rows, RecordsFor(jobs), n), RecordsFor(jobs);
            && seeded == rows + CatalogueRows(records)
            && (forall id :: id in rows && id !in ById(records) ==> id in seeded && seeded[id] == rows[id])
            && (forall id :: id in ById(records) ==> id in seeded && seeded[id] == RowOf(id, ById(records)[id].job.value))
            && (forall id :: id in seeded ==> id in rows || id in ById(records))
  {
    if n > 1 {
      SeedingSettles(rows, jobs, n - 1);
    }
    assert Seeded(rows, RecordsFor(jobs), n) == rows + CatalogueRows(RecordsFor(jobs));
  }

  /** Every column of a seeded row is the attribute of that name of the job its id looks up. */
  lemma SeededColumns(rows: map<string, JobRow>, jobs: seq<JobPosting>, n: nat, id: string)
    requires n >= 1 && id in ById(RecordsFor(jobs))
    ensures id in Seeded(rows, RecordsFor(jobs), n)
    ensures var (row, job) := (Seeded(rows, RecordsFor(jobs), n)[id], ById(RecordsFor(jobs))[id].job.value);
            && row.id == id && row.title == job.title && row.description == job.description
            && row.requiredSkills == job.requiredSkills && row.preferredSkills == job.preferredSkills
            && row.experienceLevel == job.experienceLevel
  {
    SeedingSettles(rows, jobs, n);
  }

  // -------------------------------------------------------------------------
  // The SQL repository
  // -------------------------------------------------------------------------

  predicate RowHasSkill(row: JobRow, skill: string) {
    exists s :: s in row.requiredSkills + row.preferredSkills && Lower(s) == skill
  }

  function FilterRows(rows: seq<JobRow>, skill: string): seq<JobRow> {
    if rows == [] then []
    else (if RowHasSkill(rows[0], skill) then [rows[0]] else []) + FilterRows(rows[1..], skill)
  }

  /** All rows the query selects that pass the skill filter; `selected` is what the statement, with its keyword
      condition and its ordering by id, returns. */
  function SqlFiltered(selected: seq<JobRow>, skill: string): seq<JobRow> {
    if Lower(Strip(skill)) != "" then FilterRows(selected, Lower(Strip(skill))) else selected
  }

  lemma {:induction false} RowsConcat(rows: seq<JobRow>, more: seq<JobRow>, skill: string)
    ensures FilterRows(rows + more, skill) == FilterRows(rows, skill) + FilterRows(more, skill)
  {
    if rows == [] {
      assert rows + more == more;
    } else {
      assert (rows + more)[1..] == rows[1..] + more;
      RowsConcat(rows[1..], more, skill);
    }
  }

  /** The skill filter keeps the selected rows that list the skill, as required or preferred, up to case, and a blank
      one keeps all. */
  lemma SqlSkillFilter(row: JobRow, skill: string)
    ensures SqlFiltered([row], skill)
            == if Strip(skill) == "" || Lower(Strip(skill)) in Keys(row.requiredSkills) + Keys(row.preferredSkills)
               then [row] else []
  {
    assert [row][1..] == [];
    assert |Lower(Strip(skill))| == |Strip(skill)|;
    assert RowHasSkill(row, Lower(Strip(skill)))
      <==> Lower(Strip(skill)) in Keys(row.requiredSkills) + Keys(row.preferredSkills) by {
      assert forall s :: s in row.requiredSkills + row.preferredSkills
                         <==> s in row.requiredSkills || s in row.preferredSkills;
    }
    assert FilterRows([], Lower(Strip(skill))) == [];
  }

  /** Filter first, slice after: the total counts the whole filtered list. */
  function SqlList(selected: seq<JobRow>, page: nat, limit: nat, skill: string): (seq<JobRow>, nat)
    requires page >= 1 && limit >= 1
  {
    var rows := SqlFiltered(selected, skill);
    (Page(rows, page, limit), |rows|)
  }

  function SqlPages(selected: seq<JobRow>, limit: nat, skill: string, n: nat): seq<JobRow>
    requires limit >= 1
  {
    if n == 0 then [] else SqlPages(selected, limit, skill, n - 1) + SqlList(selected, n, limit, skill).0
  }

  lemma {:induction false} SqlPagesCover(selected: seq<JobRow>, limit: nat, skill: string, n: nat)
    requires limit >= 1
    ensures SqlPages(selected, limit, skill, n) == PagesUpTo(SqlFiltered(selected, skill), limit, n)
    ensures n == PageCount(SqlList(selected, 1, limit, skill).1, limit) ==>
              SqlPages(selected, limit, skill, n) == SqlFiltered(selected, skill)
  {
    if n > 0 {
      SqlPagesCover(selected, limit, skill, n - 1);
    }
    PagesCover(SqlFiltered(selected, skill), limit);
  }
}
