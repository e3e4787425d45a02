/** The gap between a profile and a job, and the match percentage. */
module Gap {
  import opened Common
  import opened Models

  // -------------------------------------------------------------------------
  // Rounding
  // -------------------------------------------------------------------------

  /** The integer nearest to a / n, ties going to the even neighbour. */
  function RoundRatio(a: nat, n: nat): (r: nat)
    requires n > 0
    ensures -(n as int) <= 2 * (a - r * n) <= n
  {
    var q, rest := a / n, a % n;
    assert a == q * n + rest;
    assert (q + 1) * n == q * n + n;
    if 2 * rest < n || (2 * rest == n && q % 2 == 0) then q else q + 1
  }

  /** `round(matched / total * 100)`, and 100 for a job that requires nothing. */
  function Percentage(matched: nat, total: nat): nat {
    if total == 0 then 100 else RoundRatio(100 * matched, total)
  }

  lemma MultipleGrows(d: int, n: nat)
    requires d >= 1
    ensures d * n >= n
  {
  }

  lemma MultiplesOrdered(x: int, y: int, n: nat)
    ensures x > y ==> x * n >= y * n + n
  {
    if x > y {
      var d := x - y;
      MultipleGrows(d, n);
      assert x == y + d;
      assert (y + d) * n == y * n + d * n;
    }
  }

  lemma RoundRatioMonotone(a: nat, b: nat, n: nat)
    requires n > 0 && a <= b
    ensures RoundRatio(a, n) <= RoundRatio(b, n)
  {
    if a < b {
      MultiplesOrdered(RoundRatio(a, n), RoundRatio(b, n), n);
    }
  }

  lemma PercentageMonotone(m: nat, k: nat, total: nat)
    requires m <= k
    ensures Percentage(m, total) <= Percentage(k, total)
  {
    if total > 0 {
      RoundRatioMonotone(100 * m, 100 * k, total);
    }
  }

  /** Off ties, any number p / q that is within 1 / (2 * n) of a / n rounds to the same integer: this is what the
      floating-point `matched / total * 100`, which is such a fraction, has to meet. */
  lemma AccurateQuotientRoundsAlike(a: nat, n: nat, p: int, q: nat, r: int)
    requires n > 0 && q > 0 && (2 * a) % (2 * n) != n
    requires -(q as int) < 2 * (a * q - n * p) < q
    requires -(q as int) <= 2 * (p - r * q) <= q
    ensures r == RoundRatio(a, n)
  {
    var k := RoundRatio(a, n);
    NearestTo(a, n, p, q, r);
    NoTie(a, n, r);
    NoTie(a, n, k);
    MultiplesOrdered(r, k, n);
    MultiplesOrdered(k, r, n);
  }

  lemma NearestTo(a: nat, n: nat, p: int, q: nat, r: int)
    requires n > 0 && q > 0
    requires -(q as int) < 2 * (a * q - n * p) < q
    requires -(q as int) <= 2 * (p - r * q) <= q
    ensures -(n as int) <= 2 * (a - r * n) <= n
  {
    SplitError(a, n, p, q, r);
    FromParts(a - r * n, n, q, a * q - n * p, p - r * q);
  }

  lemma FromParts(x: int, n: nat, q: nat, u: int, v: int)
    requires q > 0 && x * q == u + n * v
    requires -(q as int) < 2 * u < q && -(q as int) <= 2 * v <= q
    ensures -(n as int) <= 2 * x <= n
  {
    Scaled(n, 2 * v, q);
    Twice(n, v);
    Twice(q, x);
    Squeezed(2 * x, n, q, q * (2 * x));
  }

  lemma Twice(n: nat, v: int)
    ensures n * (2 * v) == 2 * (n * v) == 2 * (v * n)
  {
  }

  lemma Squeezed(t: int, n: nat, q: nat, tq: int)
    requires tq == q * t && -(n * q) - q < tq < n * q + q
    ensures -(n as int) <= t <= n
  {
    MultiplesOrdered(t, n, q);
    MultiplesOrdered(-(n as int), t, q);
    Negated(n, q);
  }

  lemma Negated(n: nat, q: nat)
    ensures -(n as int) * q == -(n * q)
  {
  }

  lemma SplitError(a: int, n: int, p: int, q: int, r: int)
    ensures (a - r * n) * q == (a * q - n * p) + n * (p - r * q)
  {
    assert (a - r * n) * q == a * q - r * n * q;
    assert n * (p - r * q) == n * p - n * (r * q);
    assert n * (r * q) == r * n * q;
  }

  lemma Scaled(n: nat, v: int, q: int)
    requires -q <= v <= q
    ensures -(n * q) <= n * v <= n * q
  {
    NotNegative(n, q - v);
    NotNegative(n, q + v);
    assert n * (q - v) == n * q - n * v;
    assert n * (q + v) == n * q + n * v;
  }

  lemma NotNegative(x: nat, y: nat)
    ensures x * y >= 0
  {
  }

  lemma NoTie(a: nat, n: nat, r: int)
    requires n > 0 && (2 * a) % (2 * n) != n
    ensures 2 * (a - r * n) != n && 2 * (a - r * n) != -(n as int)
  {
    if 2 * (a - r * n) == n {
      RemainderIs(2 * a, 2 * n, r, n);
    }
    if 2 * (a - r * n) == -(n as int) {
      assert (r - 1) * (2 * n) == 2 * (r * n) - 2 * n;
      RemainderIs(2 * a, 2 * n, r - 1, n);
    }
  }

  lemma RemainderIs(x: nat, d: nat, q: int, rest: nat)
    requires x == q * d + rest && rest < d
    ensures x % d == rest
  {
    var q', rest' := x / d, x % d;
    assert x == q' * d + rest';
    MultiplesOrdered(q, q', d);
    MultiplesOrdered(q', q, d);
  }

  lemma PercentageFull(total: nat)
    ensures Percentage(total, total) == 100
  {
    if total > 0 {
      MultiplesOrdered(100, RoundRatio(100 * total, total), total);
      MultiplesOrdered(RoundRatio(100 * total, total), 100, total);
    }
  }

  // -------------------------------------------------------------------------
  // Partition
  // -------------------------------------------------------------------------

  /** The skills of the list that are (or are not) among the keys, in order. */
  function Among(skills: seq<string>, keys: set<string>, wanted: bool): seq<string> {
    if skills == [] then []
    else (if (Lower(skills[0]) in keys) == wanted then [skills[0]] else []) + Among(skills[1..], keys, wanted)
  }

  /** Piece by piece, so in the order of the list. */
  lemma {:induction false} AmongAppend(skills: seq<string>, more: seq<string>, keys: set<string>, wanted: bool)
    ensures Among(skills + more, keys, wanted) == Among(skills, keys, wanted) + Among(more, keys, wanted)
  {
    if skills == [] {
      assert skills + more == more;
    } else {
      var head := if (Lower(skills[0]) in keys) == wanted then [skills[0]] else [];
      AmongAppend(skills[1..], more, keys, wanted);
      assert (skills + more)[1..] == skills[1..] + more;
      assert head + (Among(skills[1..], keys, wanted) + Among(more, keys, wanted))
          == head + Among(skills[1..], keys, wanted) + Among(more, keys, wanted);
    }
  }

  lemma AmongOne(s: string, keys: set<string>, wanted: bool)
    ensures Among([s], keys, wanted) == if Lower(s) in keys <==> wanted then [s] else []
  {
    assert [s][1..] == [];
  }

  /** Every skill of the list goes to exactly one side, with its multiplicity. */
  lemma {:induction false} AmongPartition(skills: seq<string>, keys: set<string>)
    ensures multiset(Among(skills, keys, true)) + multiset(Among(skills, keys, false)) == multiset(skills)
    ensures |Among(skills, keys, true)| + |Among(skills, keys, false)| == |skills|
    ensures forall s :: s in Among(skills, keys, true) ==> Lower(s) in keys
    ensures forall s :: s in Among(skills, keys, false) ==> Lower(s) !in keys
  {
    if skills != [] {
      AmongPartition(skills[1..], keys);
      assert skills == [skills[0]] + skills[1..];
    }
  }

  lemma {:induction false} AmongMembers(skills: seq<string>, keys: set<string>, wanted: bool, s: string)
    ensures s in Among(skills, keys, wanted) <==> s in skills && (Lower(s) in keys) == wanted
  {
    if skills != [] {
      AmongMembers(skills[1..], keys, wanted, s);
      assert skills == [skills[0]] + skills[1..];
    }
  }

  /** More keys match at least as many skills. */
  lemma {:induction false} AmongMonotone(skills: seq<string>, keys: set<string>, more: set<string>)
    requires keys <= more
    ensures |Among(skills, keys, true)| <= |Among(skills, more, true)|
  {
    if skills != [] {
      AmongMonotone(skills[1..], keys, more);
    }
  }

  lemma {:induction false} AmongAll(skills: seq<string>, keys: set<string>)
    requires forall s :: s in skills ==> Lower(s) in keys
    ensures Among(skills, keys, true) == skills
  {
    if skills != [] {
      assert Lower(skills[0]) in keys;
      AmongAll(skills[1..], keys);
    }
  }

  function GapOf(profile: UserProfile, job: Job): GapResult {
    var keys := Keys(profile.skills);
    GapResult(
      Among(job.requiredSkills, keys, true),
      Among(job.preferredSkills, keys, true),
      Among(job.requiredSkills, keys, false),
      Among(job.preferredSkills, keys, false),
      Percentage(|Among(job.requiredSkills, keys, true)|, |job.requiredSkills|))
  }

  method Split(skills: seq<string>, keys: set<string>) returns (matched: seq<string>, missing: seq<string>)
    ensures matched == Among(skills, keys, true) && missing == Among(skills, keys, false)
  {
    matched, missing := [], [];
    for i := 0 to |skills|
      invariant matched == Among(skills[..i], keys, true)
      invariant missing == Among(skills[..i], keys, false)
    {
      AmongAppend(skills[..i], [skills[i]], keys, true);
      AmongAppend(skills[..i], [skills[i]], keys, false);
      assert skills[..i + 1] == skills[..i] + [skills[i]];
      if Lower(skills[i]) in keys {
        matched := matched + [skills[i]];
      } else {
        missing := missing + [skills[i]];
      }
    }
    assert skills[..|skills|] == skills;
  }

  method AnalyzeGap(profile: UserProfile, job: Job) returns (gap: GapResult)
    ensures gap == GapOf(profile, job)
  {
    var userSkillsLower := Keys(profile.skills);
    var matchedRequired, missingRequired := Split(job.requiredSkills, userSkillsLower);
    var matchedPreferred, missingPreferred := Split(job.preferredSkills, userSkillsLower);
    var matchPercentage := 100;
    if |job.requiredSkills| != 0 {
      matchPercentage := RoundRatio(100 * |matchedRequired|, |job.requiredSkills|);
    }
    gap := GapResult(matchedRequired, matchedPreferred, missingRequired, missingPreferred, matchPercentage);
  }

  /** What the four lists mean: each side of the job is split, multiplicities included, by whether the profile
      has the skill up to case, and the percentage is within half a point of the exact share. */
  lemma GapPartition(profile: UserProfile, job: Job)
    ensures var gap := GapOf(profile, job);
            && multiset(gap.matchedRequired) + multiset(gap.missingRequired) == multiset(job.requiredSkills)
            && multiset(gap.matchedPreferred) + multiset(gap.missingPreferred) == multiset(job.preferredSkills)
            && (forall s :: s in gap.matchedRequired + gap.matchedPreferred ==> Lower(s) in Keys(profile.skills))
            && (forall s :: s in gap.missingRequired + gap.missingPreferred ==> Lower(s) !in Keys(profile.skills))
            && (job.requiredSkills == [] ==> gap.matchPercentage == 100)
            && (job.requiredSkills != [] ==>
                  var n := |job.requiredSkills|;
                  -n <= 2 * (100 * |gap.matchedRequired| - gap.matchPercentage * n) <= n)
  {
    AmongPartition(job.requiredSkills, Keys(profile.skills));
    AmongPartition(job.preferredSkills, Keys(profile.skills));
  }
}
