/** The order in which the planner of yazi-actor/src/mgr/bulk_rename.rs puts renames, told by how far each is from
    one whose source nobody wants, and exactly when every wanted name is moved away before it is taken. */
module RenameOrder {
  import opened BulkRename

  // --- Distances

  /** A row of k renames, each onto the source of the next, leads to p from one whose source nobody wants. */
  ghost predicate Reaches(ps: seq<Pair>, p: Pair, k: nat)
    decreases k
  {
    if k == 0 then p.from !in Targets(ps) else exists q :: q in ps && q.to == p.from && Reaches(ps, q, k - 1)
  }

  ghost predicate Beyond(ps: seq<Pair>, p: Pair, k: nat) { forall m: nat :: m < k ==> !Reaches(ps, p, m) }

  /** The shortest such row has length k. */
  ghost predicate At(ps: seq<Pair>, p: Pair, k: nat) { Reaches(ps, p, k) && Beyond(ps, p, k) }

  lemma {:induction false} OneFarther(ps: seq<Pair>, p: Pair, k: nat)
    ensures Beyond(ps, p, k + 1) <==> Beyond(ps, p, k) && !Reaches(ps, p, k)
  {}

  lemma {:induction false} ShortestRow(ps: seq<Pair>, p: Pair, k: nat) returns (m: nat)
    requires Reaches(ps, p, k)
    ensures m <= k && At(ps, p, m)
  {
    m := k;
    if j: nat :| j < k && Reaches(ps, p, j) { m := ShortestRow(ps, p, j); }
  }

  lemma {:induction false} AtIsUnique(ps: seq<Pair>, p: Pair, k: nat, m: nat)
    requires At(ps, p, k) && At(ps, p, m)
    ensures k == m
  {}

  /** What is left after r rounds of the planner: the renames farther away, those flagged that are farther still. */
  ghost predicate Round(ps: seq<Pair>, rem: seq<Pair>, flags: set<Name>, r: nat) {
    && rem == Keep(ps, Sources(rem))
    && (forall p :: p in rem <==> p in ps && Beyond(ps, p, r))
    && (forall p :: p in rem ==> (p.from in flags <==> !Reaches(ps, p, r)))
  }

  lemma {:induction false} FirstRound(ps: seq<Pair>)
    ensures Round(ps, ps, Blocked(ps), 0)
  {
    KeepAll(ps, Sources(ps));
  }

  lemma {:induction false} ChosenAreAt(ps: seq<Pair>, rem: seq<Pair>, flags: set<Name>, r: nat)
    requires Round(ps, rem, flags, r)
    ensures forall p :: p in Chosen(rem, flags) <==> p in ps && At(ps, p, r)
    ensures forall p :: p in Others(rem, flags) <==> p in ps && Beyond(ps, p, r + 1)
  {
    KeepMembers(rem, Sources(rem) - flags);
    KeepMembers(rem, Sources(rem) * flags);
    forall p ensures Beyond(ps, p, r + 1) <==> Beyond(ps, p, r) && !Reaches(ps, p, r) { OneFarther(ps, p, r); }
    assert forall p :: p in rem ==> p.from in Sources(rem);
  }

  lemma {:induction false} FlagsAfter(ps: seq<Pair>, rem: seq<Pair>, flags: set<Name>, r: nat, p: Pair)
    requires Round(ps, rem, flags, r) && p in Others(rem, flags)
    ensures p.from in flags - Targets(Chosen(rem, flags)) <==> !Reaches(ps, p, r + 1)
  {
    ChosenAreAt(ps, rem, flags, r);
    KeepMembers(rem, Sources(rem) * flags);
    if q :| q in Chosen(rem, flags) && q.to == p.from { assert Reaches(ps, q, r); }
    if Reaches(ps, p, r + 1) {
      var q :| q in ps && q.to == p.from && Reaches(ps, q, r);
      var m := ShortestRow(ps, q, r);
      if m < r { assert Reaches(ps, p, m + 1); }
    }
  }

  lemma {:induction false} NextRound(ps: seq<Pair>, rem: seq<Pair>, flags: set<Name>, r: nat)
    requires Round(ps, rem, flags, r)
    ensures Round(ps, Others(rem, flags), flags - Targets(Chosen(rem, flags)), r + 1)
    ensures Chosen(rem, flags) == Keep(ps, Sources(rem) - flags)
  {
    var k := Sources(rem) * flags;
    ChosenAreAt(ps, rem, flags, r);
    forall p | p in Others(rem, flags)
      ensures p.from in flags - Targets(Chosen(rem, flags)) <==> !Reaches(ps, p, r + 1) {
      FlagsAfter(ps, rem, flags, r, p);
    }
    KeepSources(rem, k);
    KeepKeep(ps, Sources(rem), k);
    KeepKeep(ps, Sources(rem), Sources(rem) - flags);
  }

  // --- Positions

  /** p stands before q in the list. */
  ghost predicate Before(ps: seq<Pair>, p: Pair, q: Pair) {
    exists i, j :: 0 <= i < j < |ps| && ps[i] == p && ps[j] == q
  }

  lemma {:induction false} KeepsPlaces(ps: seq<Pair>, k: set<Name>, i: nat, j: nat)
    requires i < j < |Keep(ps, k)|
    ensures Before(ps, Keep(ps, k)[i], Keep(ps, k)[j])
  {
    var t := Keep(ps[1..], k);
    var d := if ps[0].from in k then 1 else 0;
    if i >= d {
      KeepsPlaces(ps[1..], k, i - d, j - d);
      var a, b :| 0 <= a < b < |ps[1..]| && ps[1..][a] == t[i - d] && ps[1..][b] == t[j - d];
      assert ps[a + 1] == t[i - d] && ps[b + 1] == t[j - d];
    } else {
      KeepMembers(ps[1..], k);
      assert t[j - 1] in ps[1..];
      var b :| 0 <= b < |ps[1..]| && ps[1..][b] == t[j - 1];
      assert ps[b + 1] == t[j - 1] && ps[0] == Keep(ps, k)[0];
    }
  }

  /** p goes first: it is farther, or as far and asked for first. */
  ghost predicate GoesFirst(ps: seq<Pair>, p: Pair, q: Pair) {
    exists k: nat, m: nat :: At(ps, p, k) && At(ps, q, m) && (m < k || (m == k && Before(ps, p, q)))
  }

  lemma {:induction false} RowCrosses(ps: seq<Pair>, p: Pair, k: nat, r: nat) returns (q: Pair)
    requires p in ps && At(ps, p, k) && r <= k
    ensures q in ps && At(ps, q, r)
    decreases k
  {
    q := p;
    if r < k {
      q :| q in ps && q.to == p.from && Reaches(ps, q, k - 1);
      var m := ShortestRow(ps, q, k - 1);
      assert Reaches(ps, p, m + 1);
      q := RowCrosses(ps, q, k - 1, r);
    }
  }

  ghost predicate Farther(ps: seq<Pair>, p: Pair, r: nat) { exists k: nat :: r <= k && At(ps, p, k) }

  lemma {:induction false} Ordered(ps: seq<Pair>, a: seq<Pair>, b: seq<Pair>, r: nat)
    requires forall p :: p in a ==> Farther(ps, p, r + 1)
    requires forall p :: p in b ==> At(ps, p, r)
    requires forall i, j :: 0 <= i < j < |a| ==> GoesFirst(ps, a[i], a[j])
    requires forall i, j :: 0 <= i < j < |b| ==> Before(ps, b[i], b[j])
    ensures forall i, j :: 0 <= i < j < |a + b| ==> GoesFirst(ps, (a + b)[i], (a + b)[j])
  {
    forall i, j | 0 <= i < j < |a + b| ensures GoesFirst(ps, (a + b)[i], (a + b)[j]) {
      if j < |a| {
        assert (a + b)[i] == a[i] && (a + b)[j] == a[j];
      } else if i < |a| {
        assert a[i] in a && b[j - |a|] in b;
        assert Farther(ps, a[i], r + 1);
      } else {
        assert b[i - |a|] in b && b[j - |a|] in b;
      }
    }
  }

  lemma {:induction false} NobodyFarther(ps: seq<Pair>, rem: seq<Pair>, flags: set<Name>, r: nat, p: Pair, k: nat)
    requires Round(ps, rem, flags, r) && Chosen(rem, flags) == [] && p in ps && r <= k
    ensures !At(ps, p, k)
  {
    if At(ps, p, k) {
      ChosenAreAt(ps, rem, flags, r);
      var q := RowCrosses(ps, p, k, r);
    }
  }

  /** Those that can be reached go by distance, the farthest first, and as asked for when equally far; the others
      form the final block. */
  lemma {:induction false} LeadByDistance(ps: seq<Pair>, rem: seq<Pair>, flags: set<Name>, r: nat)
    requires Round(ps, rem, flags, r)
    ensures forall p :: p in Lead(rem, flags) <==> p in ps && Farther(ps, p, r)
    ensures forall i, j :: 0 <= i < j < |Lead(rem, flags)| ==> GoesFirst(ps, Lead(rem, flags)[i], Lead(rem, flags)[j])
    decreases |rem|
  {
    var chosen, rest := Chosen(rem, flags), Others(rem, flags);
    if chosen == [] {
      forall p | p in ps && Farther(ps, p, r) ensures false {
        var k: nat :| r <= k && At(ps, p, k);
        NobodyFarther(ps, rem, flags, r, p, k);
      }
    } else {
      var left := flags - Targets(chosen);
      OthersFewer(rem, flags);
      NextRound(ps, rem, flags, r);
      LeadByDistance(ps, rest, left, r + 1);
      ChosenAreAt(ps, rem, flags, r);
      forall p ensures Farther(ps, p, r) <==> Farther(ps, p, r + 1) || At(ps, p, r) { HereOrFarther(ps, p, r); }
      ChosenKeepPlaces(ps, rem, flags, r);
      Ordered(ps, Lead(rest, left), chosen, r);
    }
  }

  lemma {:induction false} HereOrFarther(ps: seq<Pair>, p: Pair, r: nat)
    ensures Farther(ps, p, r) <==> Farther(ps, p, r + 1) || At(ps, p, r)
  {
    if k: nat :| r <= k && At(ps, p, k) { assert k == r || r + 1 <= k; }
  }

  lemma {:induction false} ChosenKeepPlaces(ps: seq<Pair>, rem: seq<Pair>, flags: set<Name>, r: nat)
    requires Round(ps, rem, flags, r)
    ensures forall i, j :: 0 <= i < j < |Chosen(rem, flags)| ==>
              Before(ps, Chosen(rem, flags)[i], Chosen(rem, flags)[j])
  {
    NextRound(ps, rem, flags, r);
    forall i, j | 0 <= i < j < |Chosen(rem, flags)| ensures Before(ps, Chosen(rem, flags)[i], Chosen(rem, flags)[j]) {
      KeepsPlaces(ps, Sources(rem) - flags, i, j);
    }
  }

  /** The planner puts renames by their distance, and equally far ones as they were asked for; what cannot be
      reached goes last. */
  lemma {:induction false} OrderIsByDistance(ps: seq<Pair>)
    ensures var l := Lead(ps, Blocked(ps));
      && (forall p :: p in l <==> p in ps && Farther(ps, p, 0))
      && (forall i, j :: 0 <= i < j < |l| ==> GoesFirst(ps, l[i], l[j]))
  {
    FirstRound(ps);
    LeadByDistance(ps, ps, Blocked(ps), 0);
  }

  // --- When every wanted name is moved away first

  /** No rename outside the final block comes before, or is, the one that moves its target away. */
  ghost predicate FreedFirst(ps: seq<Pair>) {
    var l := Order(ps);
    forall i, j :: 0 <= i <= j < |Lead(ps, Blocked(ps))| ==> l[i].to != l[j].from
  }

  /** Whoever wants the source of p is nearer than p, or as near and asked for later. */
  ghost predicate WantedInTime(ps: seq<Pair>) {
    forall p, q, k: nat, m: nat :: p in ps && q in ps && q.to == p.from && At(ps, q, k) && At(ps, p, m) ==>
      k < m || (k == m && Before(ps, p, q))
  }

  lemma {:induction false} InTimeFreesFirst(ps: seq<Pair>)
    requires DistinctSources(ps) && WantedInTime(ps)
    ensures FreedFirst(ps)
  {
    var l := Lead(ps, Blocked(ps));
    OrderIsByDistance(ps);
    forall i, j | 0 <= i <= j < |l| ensures l[i].to != l[j].from {
      assert l[i] in l && l[j] in l;
    }
  }

  lemma {:induction false} FreedFirstIsInTime(ps: seq<Pair>)
    requires DistinctSources(ps) && FreedFirst(ps)
    ensures WantedInTime(ps)
  {
    var l := Lead(ps, Blocked(ps));
    OrderIsByDistance(ps);
    forall p, q, k: nat, m: nat | p in ps && q in ps && q.to == p.from && At(ps, q, k) && At(ps, p, m)
      ensures k < m || (k == m && Before(ps, p, q))
    {
      assert p in l && q in l;
      var i :| 0 <= i < |l| && l[i] == q;
      var j :| 0 <= j < |l| && l[j] == p;
      assert Order(ps)[i] == q && Order(ps)[j] == p;
      assert j < i;
      var m': nat, k': nat :| At(ps, p, m') && At(ps, q, k') && (k' < m' || (k' == m' && Before(ps, p, q)));
      AtIsUnique(ps, p, m, m');
      AtIsUnique(ps, q, k, k');
    }
  }

  /** The exact condition, targets colliding or not: every wanted name is moved away before it is taken if and only
      if no rename onto a name is farther than the rename that moves it away, nor as far and asked for before. */
  lemma {:induction false} FreedFirstIff(ps: seq<Pair>)
    requires DistinctSources(ps)
    ensures FreedFirst(ps) <==> WantedInTime(ps)
  {
    if FreedFirst(ps) { FreedFirstIsInTime(ps); }
    if WantedInTime(ps) { InTimeFreesFirst(ps); }
  }
}
