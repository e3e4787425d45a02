/** Job ids: slugs of titles, told apart by their position among equal slugs. */
module Slugs {
  import opened Common

  // -------------------------------------------------------------------------
  // The slug of one title
  // -------------------------------------------------------------------------

  predicate SlugChar(c: char) {
    'a' <= c <= 'z' || '0' <= c <= '9'
  }

  /** Every longest run of other characters becomes one hyphen. */
  function Hyphened(s: string): string {
    if s == "" then ""
    else
      var n := |s| - 1;
      if SlugChar(s[n]) then Hyphened(s[..n]) + [s[n]]
      else if n > 0 && !SlugChar(s[n - 1]) then Hyphened(s[..n])
      else Hyphened(s[..n]) + "-"
  }

  function StripHyphensLeft(s: string): string {
    if s != "" && s[0] == '-' then StripHyphensLeft(s[1..]) else s
  }

  function StripHyphensRight(s: string): string {
    if s != "" && s[|s| - 1] == '-' then StripHyphensRight(s[..|s| - 1]) else s
  }

  function Slugify(title: string): string {
    var slug := StripHyphensRight(StripHyphensLeft(Hyphened(Strip(Lower(title)))));
    if slug == "" then "job" else slug
  }

  /** Only slug characters and hyphens, and no two hyphens together. */
  predicate Hyphenated(s: string) {
    && (forall i :: 0 <= i < |s| ==> SlugChar(s[i]) || s[i] == '-')
    && (forall i :: 0 <= i < |s| - 1 ==> s[i] != '-' || s[i + 1] != '-')
  }

  /** Words of slug characters with one hyphen between them. */
  predicate Canonical(s: string) {
    s != "" && Hyphenated(s) && s[0] != '-' && s[|s| - 1] != '-'
  }

  lemma {:induction false} HyphenedShape(s: string)
    ensures Hyphenated(Hyphened(s))
    ensures s != "" ==> Hyphened(s) != "" && (Hyphened(s)[|Hyphened(s)| - 1] == '-' <==> !SlugChar(s[|s| - 1]))
  {
    if s != "" {
      HyphenedShape(s[..|s| - 1]);
    }
  }

  lemma {:induction false} StripLeftKeeps(s: string)
    requires Hyphenated(s)
    ensures Hyphenated(StripHyphensLeft(s)) && (StripHyphensLeft(s) != "" ==> StripHyphensLeft(s)[0] != '-')
  {
    if s != "" && s[0] == '-' {
      assert forall i :: 0 <= i < |s[1..]| ==> s[1..][i] == s[i + 1];
      StripLeftKeeps(s[1..]);
    }
  }

  lemma {:induction false} StripRightKeeps(s: string)
    requires Hyphenated(s)
    ensures var r := StripHyphensRight(s);
            Hyphenated(r) && (r != "" ==> r[|r| - 1] != '-' && s != "" && r[0] == s[0])
  {
    if s != "" && s[|s| - 1] == '-' {
      StripRightKeeps(s[..|s| - 1]);
    }
  }

  lemma SlugifyCanonical(title: string)
    ensures Canonical(Slugify(title))
  {
    var s := Hyphened(Strip(Lower(title)));
    HyphenedShape(Strip(Lower(title)));
    StripLeftKeeps(s);
    StripRightKeeps(StripHyphensLeft(s));
  }

  lemma {:induction false} HyphenatedUnchanged(s: string)
    requires Hyphenated(s)
    ensures Hyphened(s) == s
  {
    if s != "" {
      HyphenatedUnchanged(s[..|s| - 1]);
    }
  }

  /** The slugs are exactly the canonical texts, and those are left alone. */
  lemma SlugifyFixedPoints(s: string)
    ensures Slugify(s) == s <==> Canonical(s)
    ensures Slugify(Slugify(s)) == Slugify(s)
  {
    SlugifyCanonical(s);
    CanonicalUnchanged(Slugify(s));
    if Canonical(s) {
      CanonicalUnchanged(s);
    }
  }

  lemma CanonicalUnchanged(s: string)
    requires Canonical(s)
    ensures Slugify(s) == s
  {
    assert Lower(s) == s by {
      assert forall i :: 0 <= i < |s| ==> LowerChar(s[i]) == s[i];
    }
    assert Strip(s) == s by {
      assert !IsSpace(s[0]) && !IsSpace(s[|s| - 1]);
      StrippedUnchanged(s);
    }
    HyphenatedUnchanged(s);
    assert StripHyphensLeft(s) == s && StripHyphensRight(s) == s;
  }

  // -------------------------------------------------------------------------
  // What the slug of a title is, piece by piece
  // -------------------------------------------------------------------------

  /** The slug of a text in lower case, before the default. */
  function Core(s: string): string {
    StripHyphensRight(StripHyphensLeft(Hyphened(s)))
  }

  /** The text says something a slug can be made of. */
  predicate Speaks(s: string) {
    exists i :: 0 <= i < |s| && SlugChar(s[i])
  }

  /** What the last character adds. */
  function Tail(before: char, c: char): string {
    if SlugChar(c) then [c] else if SlugChar(before) then "-" else ""
  }

  lemma HyphenedTail(s: string, init: string, before: char, c: char)
    requires s == init + [before] + [c]
    ensures Hyphened(s) == Hyphened(init + [before]) + Tail(before, c)
  {
    assert s[..|s| - 1] == init + [before];
  }

  lemma TailKept(a: string, b: string, joined: bool, tail: string)
    requires joined ==> b != ""
    ensures (a + if joined then b[1..] else b) + tail == a + if joined then (b + tail)[1..] else b + tail
  {
  }

  lemma HyphenedOfOne(s: string)
    requires |s| == 1
    ensures Hyphened(s) == if SlugChar(s[0]) then s else "-"
  {
    assert s[..0] == "" && s == [s[0]];
  }

  lemma HyphenedConcatOne(a: string, b: string)
    requires |b| == 1
    ensures var joined := a != "" && !SlugChar(a[|a| - 1]) && !SlugChar(b[0]);
            Hyphened(b) != "" && Hyphened(a + b) == Hyphened(a) + if joined then Hyphened(b)[1..] else Hyphened(b)
  {
    HyphenedOfOne(b);
    if a == "" {
      assert a + b == b;
    } else {
      var n := |a| - 1;
      HyphenedTail(a + b, a[..n], a[n], b[0]);
      assert a[..n] + [a[n]] == a;
    }
  }

  lemma {:induction false} HyphenedConcat(a: string, b: string)
    ensures var joined := a != "" && b != "" && !SlugChar(a[|a| - 1]) && !SlugChar(b[0]);
            && (joined ==> Hyphened(b) != "")
            && Hyphened(a + b) == Hyphened(a) + if joined then Hyphened(b)[1..] else Hyphened(b)
  {
    if b == "" {
      assert a + b == a;
    } else if |b| == 1 {
      HyphenedConcatOne(a, b);
    } else {
      var n := |b| - 2;
      var init := b[..n + 1];
      HyphenedConcat(a, init);
      HyphenedTail(b, b[..n], b[n], b[n + 1]);
      HyphenedTail(a + b, a + b[..n], b[n], b[n + 1]);
      assert b[..n] + [b[n]] == init && (a + b[..n]) + [b[n]] == a + init;
      TailKept(Hyphened(a), Hyphened(init), a != "" && !SlugChar(a[|a| - 1]) && !SlugChar(b[0]), Tail(b[n], b[n + 1]));
    }
  }

  lemma {:induction false} HyphenedStart(s: string)
    ensures s != "" ==> Hyphened(s) != "" && (Hyphened(s)[0] == '-' <==> !SlugChar(s[0]))
  {
    if |s| > 1 {
      HyphenedStart(s[..|s| - 1]);
    } else if s != "" {
      assert s[..0] == "";
    }
  }

  predicate Bare(t: string) {
    t != "" && t[0] != '-' && t[|t| - 1] != '-'
  }

  predicate Margin(m: string) {
    m == "" || m == "-"
  }

  /** Trimming takes the margins off. */
  lemma TrimsMargins(before: string, t: string, after: string)
    requires Margin(before) && Margin(after) && Bare(t)
    ensures StripHyphensRight(StripHyphensLeft(before + t + after)) == t
  {
    if before == "-" {
      assert (before + t + after)[1..] == t + after;
    } else {
      assert before + t + after == t + after;
    }
    assert StripHyphensLeft(t + after) == t + after;
    if after == "-" {
      assert (t + after)[..|t|] == t;
    } else {
      assert t + after == t;
    }
  }

  lemma InsideMargins(x: string, i: nat, j: nat)
    requires Hyphenated(x) && !Margin(x)
    requires i == (if x[0] == '-' then 1 else 0) && j == if x[|x| - 1] == '-' then 1 else 0
    ensures i + j < |x| && x[i] != '-' && x[|x| - j - 1] != '-'
  {
  }

  lemma HyphenatedParts(x: string) returns (before: string, t: string, after: string)
    requires Hyphenated(x) && !Margin(x)
    ensures Margin(before) && Margin(after) && Bare(t) && x == before + t + after
    ensures StripHyphensRight(StripHyphensLeft(x)) == t
  {
    before, after := if x[0] == '-' then "-" else "", if x[|x| - 1] == '-' then "-" else "";
    InsideMargins(x, |before|, |after|);
    t := x[|before|..|x| - |after|];
    assert x == before + t + after;
    TrimsMargins(before, t, after);
  }

  /** What speaks is what leaves more than a margin. */
  lemma {:induction false} SpeaksOn(s: string)
    ensures Speaks(s) <==> !Margin(Hyphened(s))
  {
    if s != "" {
      var n := |s| - 1;
      SpeaksOn(s[..n]);
      assert forall i :: 0 <= i < n ==> s[..n][i] == s[i];
      HyphenedShape(s[..n]);
      HyphenedShape(s);
      if SlugChar(s[n]) {
        assert Hyphened(s)[|Hyphened(s)| - 1] == s[n];
      } else if !Speaks(s[..n]) {
        assert n > 0 ==> !SlugChar(s[..n][n - 1]);
        assert !Speaks(s);
      }
    }
  }

  lemma SilentCore(s: string)
    requires !Speaks(s)
    ensures Core(s) == ""
  {
    SpeaksOn(s);
    assert "-"[1..] == "";
  }

  /** A text that speaks is turned into its core between margins. */
  lemma CoreParts(s: string) returns (before: string, after: string)
    requires Speaks(s)
    ensures Margin(before) && Margin(after) && Bare(Core(s)) && Hyphened(s) == before + Core(s) + after
  {
    var t;
    SpeaksOn(s);
    HyphenedShape(s);
    before, t, after := HyphenatedParts(Hyphened(s));
  }

  lemma CoreBetween(before: string, t: string, after: string, s: string)
    requires Margin(before) && Margin(after) && Bare(t) && Hyphened(s) == before + t + after
    ensures Core(s) == t
  {
    TrimsMargins(before, t, after);
  }

  /** What cannot stand in a slug does not matter at the end of a text ... */
  lemma CoreBeforeSilence(s: string, c: char)
    requires !SlugChar(c)
    ensures Core(s + [c]) == Core(s)
  {
    assert (s + [c])[..|s|] == s;
    if Speaks(s) {
      var before, after := CoreParts(s);
      HyphenedShape(s);
      if Hyphened(s + [c]) != Hyphened(s) {
        CoreBetween(before, Core(s), "-", s + [c]);
      }
    } else {
      assert !Speaks(s + [c]);
      SilentCore(s);
      SilentCore(s + [c]);
    }
  }

  /** ... nor at its start. */
  lemma CoreAfterSilence(c: char, s: string)
    requires !SlugChar(c)
    ensures Core([c] + s) == Core(s)
  {
    if Speaks(s) {
      var before, after := CoreParts(s);
      HyphenedConcat([c], s);
      HyphenedStart(s);
      assert [c][..0] == "" && Hyphened([c]) == "-";
      if SlugChar(s[0]) {
        assert before == "";
        CoreBetween("-", Core(s), after, [c] + s);
      } else {
        assert before == "-";
        assert Hyphened(s)[1..] == Core(s) + after;
        CoreBetween("-", Core(s), after, [c] + s);
      }
    } else {
      assert !Speaks([c] + s);
      SilentCore(s);
      SilentCore([c] + s);
    }
  }

  lemma HyphenedTo(a: string, c: char) returns (before: string)
    requires !SlugChar(c) && Speaks(a)
    ensures Margin(before) && Bare(Core(a)) && Hyphened(a + [c]) == before + Core(a) + "-"
  {
    var after;
    before, after := CoreParts(a);
    assert (a + [c])[..|a|] == a;
    HyphenedShape(a);
  }

  lemma HyphenedFrom(b: string) returns (rest: string, after: string)
    requires Speaks(b)
    ensures Margin(after) && Bare(Core(b)) && rest == Core(b) + after
    ensures rest == if SlugChar(b[0]) then Hyphened(b) else Hyphened(b)[1..]
  {
    var before;
    before, after := CoreParts(b);
    HyphenedStart(b);
    rest := Core(b) + after;
  }

  /** Between two texts that speak it becomes one hyphen. */
  lemma CoreJoins(a: string, c: char, b: string)
    requires !SlugChar(c) && Speaks(a) && Speaks(b)
    ensures Core(a + [c] + b) == Core(a) + "-" + Core(b)
  {
    var before := HyphenedTo(a, c);
    var rest, after := HyphenedFrom(b);
    HyphenedConcat(a + [c], b);
    assert before + Core(a) + "-" + (Core(b) + after) == before + (Core(a) + "-" + Core(b)) + after;
    CoreBetween(before, Core(a) + "-" + Core(b), after, a + [c] + b);
  }

  lemma {:induction false} CoreOfStripLeft(s: string)
    ensures Core(StripLeft(s)) == Core(s)
  {
    if s != "" && IsSpace(s[0]) {
      CoreAfterSilence(s[0], s[1..]);
      assert [s[0]] + s[1..] == s;
      CoreOfStripLeft(s[1..]);
    }
  }

  lemma {:induction false} CoreOfStripRight(s: string)
    ensures Core(StripRight(s)) == Core(s)
  {
    if s != "" && IsSpace(s[|s| - 1]) {
      CoreBeforeSilence(s[..|s| - 1], s[|s| - 1]);
      assert s[..|s| - 1] + [s[|s| - 1]] == s;
      CoreOfStripRight(s[..|s| - 1]);
    }
  }

  lemma SlugIsCore(title: string)
    ensures Slugify(title) == if Core(Lower(title)) == "" then "job" else Core(Lower(title))
    ensures Speaks(Lower(title)) <==> Core(Lower(title)) != ""
  {
    CoreOfStripLeft(Lower(title));
    CoreOfStripRight(StripLeft(Lower(title)));
    if Speaks(Lower(title)) {
      var _, _ := CoreParts(Lower(title));
    } else {
      SilentCore(Lower(title));
    }
  }

  /** The character cannot stand in a slug, even in lower case. */
  predicate Silent(c: char) {
    !SlugChar(LowerChar(c))
  }

  /** What a slug is made of. */
  lemma SlugTable(c: char)
    ensures SlugChar(c) <==> c in LOWER || c in "0123456789"
  {
    forall i | 0 <= i < 26
      ensures LOWER[i] as int == 'a' as int + i
    {
      Alphabet(i);
    }
    if 'a' <= c <= 'z' {
      assert c == LOWER[c as int - 97];
    }
    if '0' <= c <= '9' {
      assert c == "0123456789"[c as int - 48];
    }
  }

  /** Four laws determine every slug. A title without a letter or digit is "job" ... */
  lemma SlugOfNothing(title: string)
    requires !Speaks(Lower(title))
    ensures Slugify(title) == "job"
  {
    SlugIsCore(title);
  }

  /** ... a title of letters and digits only is itself in lower case ... */
  lemma SlugOfWord(title: string)
    requires title != "" && forall c :: c in title ==> !Silent(c)
    ensures Slugify(title) == Lower(title)
  {
    assert forall i :: 0 <= i < |title| ==> title[i] in title;
    assert Canonical(Lower(title));
    CanonicalUnchanged(Lower(title));
    LowerTwice(title);
  }

  lemma LowerTwice(s: string)
    ensures Lower(Lower(s)) == Lower(s)
  {
  }

  lemma SlugIgnoresStart(c: char, title: string)
    requires Silent(c)
    ensures Slugify([c] + title) == Slugify(title)
  {
    SlugIsCore([c] + title);
    SlugIsCore(title);
    assert Lower([c] + title) == [LowerChar(c)] + Lower(title);
    CoreAfterSilence(LowerChar(c), Lower(title));
  }

  lemma SlugIgnoresEnd(title: string, c: char)
    requires Silent(c)
    ensures Slugify(title + [c]) == Slugify(title)
  {
    SlugIsCore(title + [c]);
    SlugIsCore(title);
    assert Lower(title + [c]) == Lower(title) + [LowerChar(c)];
    CoreBeforeSilence(Lower(title), LowerChar(c));
  }

  /** ... any other character does not matter at either end ... */
  lemma SlugIgnoresMargins(c: char, title: string)
    requires Silent(c)
    ensures Slugify([c] + title) == Slugify(title) == Slugify(title + [c])
  {
    SlugIgnoresStart(c, title);
    SlugIgnoresEnd(title, c);
  }

  /** ... and between two titles that have letters or digits it stands for one hyphen between their slugs. */
  lemma SlugJoins(a: string, c: char, b: string)
    requires Silent(c) && Speaks(Lower(a)) && Speaks(Lower(b))
    ensures Slugify(a + [c] + b) == Slugify(a) + "-" + Slugify(b)
  {
    SlugIsCore(a);
    SlugIsCore(b);
    SlugIsCore(a + [c] + b);
    assert Lower(a + [c] + b) == Lower(a) + [LowerChar(c)] + Lower(b);
    CoreJoins(Lower(a), LowerChar(c), Lower(b));
  }

  // -------------------------------------------------------------------------
  // Disambiguation in load order
  // -------------------------------------------------------------------------

  /** How many of the first `n` slugs are `b`. */
  function Count(bases: seq<string>, n: nat, b: string): nat
    requires n <= |bases|
  {
    if n == 0 then 0 else Count(bases, n - 1, b) + if bases[n - 1] == b then 1 else 0
  }

  /** The id of the k-th job with slug `b`. */
  function Numbered(b: string, k: nat): string {
    if k <= 1 then b else b + "-" + Decimal(k)
  }

  function IdAt(bases: seq<string>, i: nat): string
    requires i < |bases|
  {
    Numbered(bases[i], Count(bases, i + 1, bases[i]))
  }

  /** The positions before `n` with this slug. */
  function Earlier(bases: seq<string>, n: nat, b: string): set<nat>
    requires n <= |bases|
  {
    set i: nat | i < n && bases[i] == b
  }

  lemma {:induction false} CountIsHowMany(bases: seq<string>, n: nat, b: string)
    requires n <= |bases|
    ensures Count(bases, n, b) == |Earlier(bases, n, b)|
  {
    if n == 0 {
      assert Earlier(bases, 0, b) == {};
    } else {
      CountIsHowMany(bases, n - 1, b);
      assert Earlier(bases, n, b) == Earlier(bases, n - 1, b) + if bases[n - 1] == b then {n - 1} else {};
    }
  }

  /** The first job with a slug has it for its id; any later one has the slug with its number among them. */
  lemma IdByPosition(bases: seq<string>, i: nat)
    requires i < |bases|
    ensures var before := |Earlier(bases, i, bases[i])|;
            IdAt(bases, i) == if before == 0 then bases[i] else bases[i] + "-" + Decimal(before + 1)
  {
    CountIsHowMany(bases, i, bases[i]);
  }

  predicate DistinctIdsOf(bases: seq<string>) {
    forall i, j :: 0 <= i < j < |bases| ==> IdAt(bases, i) != IdAt(bases, j)
  }

  /** A slug that is another slug with a number it will be given. */
  ghost predicate Collides(bases: seq<string>, i: nat, j: nat, k: nat) {
    && i < |bases| && j < |bases| && 2 <= k <= Count(bases, |bases|, bases[j])
    && bases[i] == bases[j] + "-" + Decimal(k)
  }

  lemma {:induction false} CountGrows(bases: seq<string>, m: nat, n: nat, b: string)
    requires m <= n <= |bases|
    ensures Count(bases, m, b) <= Count(bases, n, b)
  {
    if m < n {
      CountGrows(bases, m, n - 1, b);
    }
  }

  /** Equal slugs get different numbers. */
  lemma NumbersDiffer(bases: seq<string>, i: nat, j: nat)
    requires i < j < |bases| && bases[i] == bases[j]
    ensures Count(bases, i + 1, bases[i]) < Count(bases, j + 1, bases[j])
  {
    CountGrows(bases, i + 1, j, bases[i]);
  }

  /** Every number up to the multiplicity is given. */
  lemma {:induction false} NumberGiven(bases: seq<string>, n: nat, b: string, k: nat) returns (i: nat)
    requires n <= |bases| && 1 <= k <= Count(bases, n, b)
    ensures i < n && bases[i] == b && Count(bases, i + 1, b) == k
  {
    if k <= Count(bases, n - 1, b) {
      i := NumberGiven(bases, n - 1, b, k);
    } else {
      i := n - 1;
    }
  }

  lemma NoHyphen(k: nat)
    ensures '-' !in Decimal(k)
  {
  }

  /** The number after the last hyphen can be read off. */
  lemma {:induction false} SuffixUnique(b: string, m: string, c: string, n: string)
    requires b + "-" + m == c + "-" + n && '-' !in m && '-' !in n
    ensures b == c && m == n
  {
    var s, t := b + "-" + m, c + "-" + n;
    if m == "" || n == "" {
      assert s[|s| - 1] == t[|t| - 1];
      assert m == "" ==> s[|s| - 1] == '-';
      assert n == "" ==> t[|t| - 1] == '-';
      assert m == n == "";
      assert s[..|s| - 1] == b && t[..|t| - 1] == c;
    } else {
      var m', n' := m[..|m| - 1], n[..|n| - 1];
      assert s[..|s| - 1] == b + "-" + m' && t[..|t| - 1] == c + "-" + n';
      assert s[|s| - 1] == m[|m| - 1] && t[|t| - 1] == n[|n| - 1];
      SuffixUnique(b, m', c, n');
      assert m == m' + [m[|m| - 1]] && n == n' + [n[|n| - 1]];
    }
  }

  /** Two different positions share an id only when one slug is another with its number. */
  lemma SharedIdCollides(bases: seq<string>, i: nat, j: nat) returns (p: nat, q: nat, k: nat)
    requires i < j < |bases| && IdAt(bases, i) == IdAt(bases, j)
    ensures Collides(bases, p, q, k)
  {
    var ci, cj := Count(bases, i + 1, bases[i]), Count(bases, j + 1, bases[j]);
    CountGrows(bases, i + 1, |bases|, bases[i]);
    CountGrows(bases, j + 1, |bases|, bases[j]);
    if bases[i] == bases[j] {
      NumbersDiffer(bases, i, j);
    }
    if ci <= 1 {
      p, q, k := i, j, cj;
      PlainOrNumbered(bases, i, j);
    } else if cj <= 1 {
      p, q, k := j, i, ci;
    } else {
      NoHyphen(ci);
      NoHyphen(cj);
      SuffixUnique(bases[i], Decimal(ci), bases[j], Decimal(cj));
      DecimalInjective(ci, cj);
      assert false;
    }
  }

  lemma PlainOrNumbered(bases: seq<string>, i: nat, j: nat)
    requires i < j < |bases| && IdAt(bases, i) == IdAt(bases, j) && Count(bases, i + 1, bases[i]) <= 1
    ensures Count(bases, j + 1, bases[j]) >= 2
  {
    if Count(bases, j + 1, bases[j]) <= 1 {
      assert Count(bases, i + 1, bases[i]) >= 1;
      NumbersDiffer(bases, i, j);
    }
  }

  /** A collision gives two positions the same id. */
  lemma CollisionSharesId(bases: seq<string>, i: nat, j: nat, k: nat)
    requires Collides(bases, i, j, k)
    ensures !DistinctIdsOf(bases)
  {
    CountGrows(bases, i + 1, |bases|, bases[i]);
    assert Count(bases, i + 1, bases[i]) >= 1;
    var first := NumberGiven(bases, |bases|, bases[i], 1);
    var second := NumberGiven(bases, |bases|, bases[j], k);
    assert IdAt(bases, first) == IdAt(bases, second);
    assert first != second by {
      assert |bases[i]| > |bases[j]|;
    }
  }

  /** The ids are pairwise distinct exactly when no slug is another one followed by a number it will be given. */
  lemma IdsDistinct(bases: seq<string>)
    ensures DistinctIdsOf(bases) <==> !exists i, j, k :: Collides(bases, i, j, k)
  {
    if i, j, k :| Collides(bases, i, j, k) {
      CollisionSharesId(bases, i, j, k);
    }
    if !DistinctIdsOf(bases) {
      var i, j :| 0 <= i < j < |bases| && IdAt(bases, i) == IdAt(bases, j);
      var p, q, k := SharedIdCollides(bases, i, j);
    }
  }

  lemma WordsJoined(a: string, b: string, slug: string)
    requires a != "" && b != "" && (forall c :: c in a + b ==> !Silent(c)) && slug == Lower(a) + "-" + Lower(b)
    ensures Slugify(a) == Lower(a) && Slugify(a + [' '] + b) == slug
  {
    assert forall c :: c in a ==> c in a + b;
    assert forall c :: c in b ==> c in a + b;
    SlugOfWord(a);
    SlugOfWord(b);
    assert a[0] in a && b[0] in b;
    assert SlugChar(Lower(a)[0]) && SlugChar(Lower(b)[0]);
    SlugJoins(a, ' ', b);
  }

  lemma ExampleCollides(bases: seq<string>)
    requires bases == ["qa", "qa-2", "qa"]
    ensures Collides(bases, 1, 0, 2)
  {
    assert Count(bases, 1, "qa") == 1 && Count(bases, 2, "qa") == 1 && Count(bases, 3, "qa") == 2;
    assert Decimal(2) == "2";
    assert "qa" + "-" + "2" == "qa-2";
  }

  /** Three titles whose ids are not distinct: the third job gets the id of the second. */
  lemma CollisionExample(plain: string, numbered: string)
    requires plain == "QA" && numbered == "QA 2"
    ensures !DistinctIdsOf([Slugify(plain), Slugify(numbered), Slugify(plain)])
  {
    var number := ['2'];
    assert numbered == plain + [' '] + number;
    assert Lower(plain) + "-" + Lower(number) == "qa-2" && Lower(plain) == "qa";
    WordsJoined(plain, number, "qa-2");
    var bases := [Slugify(plain), Slugify(numbered), Slugify(plain)];
    ExampleCollides(bases);
    CollisionSharesId(bases, 1, 0, 2);
  }
}
