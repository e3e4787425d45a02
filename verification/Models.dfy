/** The core records of the service, as values. */
module Models {
  import opened Common

  datatype UserProfile = UserProfile(
    name: string,
    skills: seq<string>,
    experienceYears: int,
    education: string,
    targetRole: string)

  datatype Job = Job(
    title: string,
    description: string,
    requiredSkills: seq<string>,
    preferredSkills: seq<string>,
    experienceLevel: string)

  datatype GapResult = GapResult(
    matchedRequired: seq<string>,
    matchedPreferred: seq<string>,
    missingRequired: seq<string>,
    missingPreferred: seq<string>,
    matchPercentage: int)

  datatype Categorization = Categorization(groups: map<string, seq<string>>, summary: string, isFallback: bool)

  /** The value of a learning resource. */
  datatype Resource = Resource(
    name: string,
    skill: string,
    resourceType: string,
    estimatedHours: int,
    url: string,
    completed: bool,
    id: string)

  datatype Phase = Phase(period: string, resources: seq<Resource>)

  /** The skills of a list, up to case. */
  function Keys(skills: seq<string>): set<string> {
    set s | s in skills :: Lower(s)
  }

  lemma KeysMean(skills: seq<string>, key: string)
    ensures key in Keys(skills) <==> exists i :: 0 <= i < |skills| && Lower(skills[i]) == key
  {
    if i :| 0 <= i < |skills| && Lower(skills[i]) == key {
      assert skills[i] in skills;
    }
  }

  // -------------------------------------------------------------------------
  // Ownership
  // -------------------------------------------------------------------------

  datatype Owned<+T> = Owned(owner: string, value: T)

  /** The lookup of every `get_for_user`: a record of someone else is as good as none. */
  function Lookup<T>(records: map<string, Owned<T>>, id: string, user: string): Option<T> {
    if id in records && records[id].owner == user then Some(records[id].value) else None
  }

  /** What one user has. */
  function OwnedBy<T>(records: map<string, Owned<T>>, user: string): map<string, T> {
    map id | id in records && records[id].owner == user :: records[id].value
  }
}
