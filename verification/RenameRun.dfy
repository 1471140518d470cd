/** Carrying out a plan of renames one by one, and what that amounts to. */
module RenameRun {
  import opened BulkRename

  // --- Carrying a plan out

  datatype Report<C> = Report(fs: map<Name, C>, failed: seq<Pair>)

  function Moved<C>(fs: map<Name, C>, p: Pair): map<Name, C>
    requires p.from in fs
  {
    (fs - {p.from})[p.to := fs[p.from]]
  }

  /** One by one: a rename fails, changing nothing, when its destination exists or its source does not. */
  function Run<C>(fs: map<Name, C>, plan: seq<Pair>): Report<C>
    decreases plan
  {
    if plan == [] then Report(fs, [])
    else if plan[0].to in fs || plan[0].from !in fs then
      var r := Run(fs, plan[1..]);
      r.(failed := [plan[0]] + r.failed)
    else Run(Moved(fs, plan[0]), plan[1..])
  }

  method CarryOut<C>(fs0: map<Name, C>, plan: seq<Pair>) returns (fs: map<Name, C>, failed: seq<Pair>)
    ensures Report(fs, failed) == Run(fs0, plan)
  {
    fs, failed := fs0, [];
    for i := 0 to |plan|
      invariant Run(fs0, plan) == var r := Run(fs, plan[i..]); r.(failed := failed + r.failed)
    {
      var p := plan[i];
      assert plan[i..][1..] == plan[i + 1..] && plan[i..][0] == p;
      if p.to in fs {
        failed := failed + [p];
      } else if p.from !in fs {
        failed := failed + [p];
      } else {
        fs := Moved(fs, p);
      }
    }
  }

  /** Whatever is asked for, colliding or cyclic, no file's content is lost or invented. */
  lemma {:induction false} NothingIsLost<C>(fs: map<Name, C>, plan: seq<Pair>)
    ensures Run(fs, plan).fs.Values == fs.Values && |Run(fs, plan).fs| == |fs|
    decreases plan
  {
    if plan != [] {
      var p := plan[0];
      if p.to in fs || p.from !in fs {
        NothingIsLost(fs, plan[1..]);
      } else {
        NothingIsLost(Moved(fs, p), plan[1..]);
        MovedKeeps(fs, p);
      }
    }
  }

  lemma {:induction false} MovedKeeps<C>(fs: map<Name, C>, p: Pair)
    requires p.from in fs && p.to !in fs
    ensures Moved(fs, p).Values == fs.Values && |Moved(fs, p)| == |fs|
  {
    var m := Moved(fs, p);
    assert m.Keys == fs.Keys - {p.from} + {p.to};
    forall c | c in fs.Values ensures c in m.Values {
      var n :| n in fs && fs[n] == c;
      assert m[if n == p.from then p.to else n] == c;
    }
  }

  /** All renames at once, as the user reads the list: every source goes, every target holds what its
      source held, everything else stays. */
  ghost predicate Simultaneous<C>(fs: map<Name, C>, ps: seq<Pair>, r: map<Name, C>)
    requires forall p :: p in ps ==> p.from in fs
  {
    && r.Keys == (fs.Keys - Sources(ps)) + Targets(ps)
    && (forall p :: p in ps ==> r[p.to] == fs[p.from])
    && (forall n :: n in fs.Keys - Sources(ps) - Targets(ps) ==> r[n] == fs[n])
  }

  lemma {:induction false} BlockedRunFails<C>(fs: map<Name, C>, qs: seq<Pair>)
    requires forall p :: p in qs ==> p.to in fs
    ensures Run(fs, qs) == Report(fs, qs)
  {
    if qs != [] {
      assert qs[0] in qs && forall p :: p in qs[1..] ==> p in qs;
      BlockedRunFails(fs, qs[1..]);
    }
  }

  lemma {:induction false} RunAppend<C>(fs: map<Name, C>, a: seq<Pair>, b: seq<Pair>)
    ensures Run(fs, a + b) == var r := Run(fs, a); var r' := Run(r.fs, b);
                              Report(r'.fs, r.failed + r'.failed)
    decreases a
  {
    if a == [] {
      assert a + b == b;
    } else {
      assert (a + b)[1..] == a[1..] + b;
      if a[0].to in fs || a[0].from !in fs {
        RunAppend(fs, a[1..], b);
      } else {
        RunAppend(Moved(fs, a[0]), a[1..], b);
      }
    }
  }

  // --- Which renames can go

  /** A rename can go when its target is free, or held by a file that can go itself, k times over. */
  ghost predicate Goes<C>(fs: map<Name, C>, ps: seq<Pair>, p: Pair, k: nat)
    decreases k
  {
    p.to !in fs || (k > 0 && exists q :: q in ps && q.from == p.to && Goes(fs, ps, q, k - 1))
  }

  ghost predicate CanGo<C>(fs: map<Name, C>, ps: seq<Pair>, p: Pair) { exists k: nat :: Goes(fs, ps, p, k) }

  /** The renames of qs that can go, or those that cannot, in their order. */
  ghost function Those<C>(fs: map<Name, C>, ps: seq<Pair>, qs: seq<Pair>, go: bool): seq<Pair> {
    if qs == [] then []
    else (if CanGo(fs, ps, qs[0]) == go then [qs[0]] else []) + Those(fs, ps, qs[1..], go)
  }

  lemma {:induction false} ThoseHolds<C>(fs: map<Name, C>, ps: seq<Pair>, qs: seq<Pair>, go: bool)
    ensures forall p :: p in Those(fs, ps, qs, go) <==> p in qs && CanGo(fs, ps, p) == go
  {
    if qs != [] { ThoseHolds(fs, ps, qs[1..], go); }
  }

  lemma {:induction false} ThoseAgree<C>(fs: map<Name, C>, ps: seq<Pair>, gs: map<Name, C>, rs: seq<Pair>,
      qs: seq<Pair>, go: bool)
    requires forall p :: p in qs ==> (CanGo(fs, ps, p) <==> CanGo(gs, rs, p))
    ensures Those(fs, ps, qs, go) == Those(gs, rs, qs, go)
  {
    if qs != [] {
      assert qs[0] in qs && forall p :: p in qs[1..] ==> p in qs;
      ThoseAgree(fs, ps, gs, rs, qs[1..], go);
    }
  }

  lemma {:induction false} ThoseAppend<C>(fs: map<Name, C>, ps: seq<Pair>, a: seq<Pair>, b: seq<Pair>, go: bool)
    ensures Those(fs, ps, a + b, go) == Those(fs, ps, a, go) + Those(fs, ps, b, go)
  {
    if a == [] {
      assert a + b == b;
    } else {
      assert (a + b)[1..] == a[1..] + b;
      ThoseAppend(fs, ps, a[1..], b, go);
    }
  }

  lemma {:induction false} AllThose<C>(fs: map<Name, C>, ps: seq<Pair>, qs: seq<Pair>, go: bool)
    requires forall p :: p in qs ==> CanGo(fs, ps, p) == go
    ensures Those(fs, ps, qs, go) == qs && Those(fs, ps, qs, !go) == []
  {
    if qs != [] {
      assert qs[0] in qs && forall p :: p in qs[1..] ==> p in qs;
      AllThose(fs, ps, qs[1..], go);
    }
  }

  /** An order in which no rename takes a name still to be moved away. */
  ghost predicate InTurn<C>(fs: map<Name, C>, qs: seq<Pair>) {
    && DistinctSources(qs) && DistinctTargets(qs)
    && (forall p :: p in qs ==> p.from in fs)
    && (forall i, j :: 0 <= i <= j < |qs| ==> qs[i].to != qs[j].from)
  }

  /** The first rename shares no name with the others but, perhaps, its source as a target. */
  lemma {:induction false} FirstIsApart<C>(fs: map<Name, C>, qs: seq<Pair>)
    requires qs != [] && InTurn(fs, qs)
    ensures qs[0] in qs && qs[0].from in fs && qs[0].to != qs[0].from
    ensures forall p :: p in qs[1..] ==>
      p in qs && p.from in fs && p.from != qs[0].from && p.from != qs[0].to && p.to != qs[0].to
    ensures InTurn(fs, qs[1..])
  {
    var q, t := qs[0], qs[1..];
    forall p | p in t ensures p in qs && p.from != q.to && p.to != q.to && p.from != q.from {
      var j :| 0 <= j < |t| && t[j] == p;
      assert qs[j + 1] == p;
    }
  }

  lemma {:induction false} GoesAfterMove<C>(fs: map<Name, C>, qs: seq<Pair>, p: Pair, k: nat)
    requires qs != [] && InTurn(fs, qs) && qs[0].to !in fs && p in qs[1..] && Goes(Moved(fs, qs[0]), qs[1..], p, k)
    ensures CanGo(fs, qs, p)
    decreases k
  {
    var q, t := qs[0], qs[1..];
    FirstIsApart(fs, qs);
    if p.to !in fs {
      assert Goes(fs, qs, p, 0);
    } else if p.to == q.from {
      assert Goes(fs, qs, q, 0);
      assert Goes(fs, qs, p, 1);
    } else {
      var r :| r in t && r.from == p.to && Goes(Moved(fs, q), t, r, k - 1);
      GoesAfterMove(fs, qs, r, k - 1);
      var m: nat :| Goes(fs, qs, r, m);
      assert Goes(fs, qs, p, m + 1);
    }
  }

  lemma {:induction false} GoesBeforeMove<C>(fs: map<Name, C>, qs: seq<Pair>, p: Pair, k: nat)
    requires qs != [] && InTurn(fs, qs) && qs[0].to !in fs && p in qs[1..] && Goes(fs, qs, p, k)
    ensures CanGo(Moved(fs, qs[0]), qs[1..], p)
    decreases k
  {
    var q, t := qs[0], qs[1..];
    FirstIsApart(fs, qs);
    if p.to !in fs || p.to == q.from {
      assert Goes(Moved(fs, q), t, p, 0);
    } else {
      var r :| r in qs && r.from == p.to && Goes(fs, qs, r, k - 1);
      GoesBeforeMove(fs, qs, r, k - 1);
      var m: nat :| Goes(Moved(fs, q), t, r, m);
      assert Goes(Moved(fs, q), t, p, m + 1);
    }
  }

  lemma {:induction false} GoesInMore<C>(fs: map<Name, C>, ps: seq<Pair>, qs: seq<Pair>, p: Pair, k: nat)
    requires (forall q :: q in ps ==> q in qs) && Goes(fs, ps, p, k)
    ensures Goes(fs, qs, p, k)
    decreases k
  {
    if p.to in fs {
      var q :| q in ps && q.from == p.to && Goes(fs, ps, q, k - 1);
      GoesInMore(fs, ps, qs, q, k - 1);
    }
  }

  /** A rename whose target nobody moves away cannot go, nor help another. */
  lemma {:induction false} GoesWithoutFirst<C>(fs: map<Name, C>, qs: seq<Pair>, p: Pair, k: nat)
    requires qs != [] && InTurn(fs, qs) && qs[0].to in fs && Goes(fs, qs, p, k)
    ensures Goes(fs, qs[1..], p, k) && p != qs[0]
    decreases k
  {
    FirstIsApart(fs, qs);
    if p.to in fs {
      var q :| q in qs && q.from == p.to && Goes(fs, qs, q, k - 1);
      GoesWithoutFirst(fs, qs, q, k - 1);
    }
  }

  /** What can go after the first rename of an order is what can go at the start. */
  lemma {:induction false} RestCanGo<C>(fs: map<Name, C>, qs: seq<Pair>, p: Pair)
    requires qs != [] && InTurn(fs, qs) && p in qs[1..]
    ensures qs[0].to !in fs && qs[0].from in fs ==> (CanGo(Moved(fs, qs[0]), qs[1..], p) <==> CanGo(fs, qs, p))
    ensures qs[0].to in fs ==> (CanGo(fs, qs[1..], p) <==> CanGo(fs, qs, p))
  {
    if qs[0].to !in fs && qs[0].from in fs {
      if k: nat :| Goes(Moved(fs, qs[0]), qs[1..], p, k) { GoesAfterMove(fs, qs, p, k); }
      if k: nat :| Goes(fs, qs, p, k) { GoesBeforeMove(fs, qs, p, k); }
    }
    if qs[0].to in fs {
      if k: nat :| Goes(fs, qs[1..], p, k) { GoesInMore(fs, qs[1..], qs, p, k); }
      if k: nat :| Goes(fs, qs, p, k) { GoesWithoutFirst(fs, qs, p, k); }
    }
  }

  /** One rename and then others, apart from it, at once: that is all of them at once. */
  lemma {:induction false} JoinMoves<C>(fs: map<Name, C>, q: Pair, t: seq<Pair>, r: map<Name, C>)
    requires q.from in fs && q.to !in fs
    requires forall p :: p in t ==> p.from in fs && p.from != q.from && p.to != q.to
    requires Simultaneous(Moved(fs, q), t, r)
    ensures (forall p :: p in [q] + t ==> p.from in fs) && Simultaneous(fs, [q] + t, r)
  {
    assert q.to !in Sources(t) && q.to !in Targets(t) && q.from !in Sources(t);
    AddName(q, t);
    assert r.Keys == (fs.Keys - Sources([q] + t)) + Targets([q] + t);
    forall p | p in [q] + t ensures r[p.to] == fs[p.from] {
      if p == q {
        assert q.to in Moved(fs, q).Keys - Sources(t) - Targets(t);
      } else {
        assert p in t && Moved(fs, q)[p.from] == fs[p.from];
      }
    }
  }

  lemma {:induction false} AddName(q: Pair, t: seq<Pair>)
    ensures Sources([q] + t) == {q.from} + Sources(t) && Targets([q] + t) == {q.to} + Targets(t)
  {
    assert q in [q] + t && forall p :: p in t ==> p in [q] + t;
  }

  /** An order is carried out as if all that can go went at once; the others fail. */
  lemma {:induction false} InTurnMovesWhatCanGo<C>(fs: map<Name, C>, qs: seq<Pair>)
    requires InTurn(fs, qs)
    ensures var r := Run(fs, qs); r.failed == Those(fs, qs, qs, false) && Together(fs, Those(fs, qs, qs, true), r.fs)
    decreases qs
  {
    if qs != [] {
      var q, t := qs[0], qs[1..];
      FirstIsApart(fs, qs);
      if q.to in fs {
        FirstCannotGo(fs, qs);
        InTurnMovesWhatCanGo(fs, t);
        TailThose(fs, fs, qs);
      } else {
        var gs := Moved(fs, q);
        assert InTurn(gs, t);
        assert Goes(fs, qs, q, 0);
        InTurnMovesWhatCanGo(gs, t);
        TailThose(fs, gs, qs);
        ThoseHolds(gs, t, t, true);
        JoinMoves(fs, q, Those(gs, t, t, true), Run(gs, t).fs);
      }
    }
  }

  ghost predicate Together<C>(fs: map<Name, C>, ps: seq<Pair>, r: map<Name, C>) {
    (forall p :: p in ps ==> p.from in fs) && Simultaneous(fs, ps, r)
  }

  lemma {:induction false} FirstCannotGo<C>(fs: map<Name, C>, qs: seq<Pair>)
    requires qs != [] && InTurn(fs, qs) && qs[0].to in fs
    ensures !CanGo(fs, qs, qs[0])
  {
    if k: nat :| Goes(fs, qs, qs[0], k) { GoesWithoutFirst(fs, qs, qs[0], k); }
  }

  lemma {:induction false} TailThose<C>(fs: map<Name, C>, gs: map<Name, C>, qs: seq<Pair>)
    requires qs != [] && InTurn(fs, qs) && qs[0].from in fs
    requires gs == if qs[0].to in fs then fs else Moved(fs, qs[0])
    ensures forall go :: Those(fs, qs, qs[1..], go) == Those(gs, qs[1..], qs[1..], go)
  {
    forall go ensures Those(fs, qs, qs[1..], go) == Those(gs, qs[1..], qs[1..], go) {
      forall p | p in qs[1..] ensures CanGo(fs, qs, p) <==> CanGo(gs, qs[1..], p) { RestCanGo(fs, qs, p); }
      ThoseAgree(fs, qs, gs, qs[1..], qs[1..], go);
    }
  }

  // --- The planner's order, carried out

  lemma {:induction false} DistinctJoins(a: seq<Pair>, b: seq<Pair>)
    requires DistinctSources(a) && DistinctTargets(a) && DistinctSources(b) && DistinctTargets(b)
    requires forall p, q :: p in a && q in b ==> p.from != q.from && p.to != q.to
    ensures DistinctSources(a + b) && DistinctTargets(a + b)
  {
    forall i, j | 0 <= i < |a| <= j < |a + b|
      ensures (a + b)[i].from != (a + b)[j].from && (a + b)[i].to != (a + b)[j].to
    {
      assert a[i] in a && b[j - |a|] in b;
    }
  }

  lemma {:induction false} DistinctApart(ps: seq<Pair>, p: Pair, q: Pair)
    requires DistinctSources(ps) && DistinctTargets(ps) && p in ps && q in ps && p != q
    ensures p.from != q.from && p.to != q.to
  {}

  lemma {:induction false} PeeledDistinct(ps: seq<Pair>)
    requires DistinctSources(ps) && DistinctTargets(ps)
    ensures DistinctSources(Peeled(ps)) && DistinctTargets(Peeled(ps))
    decreases |ps|
  {
    if Free(ps) != [] {
      StuckFewer(ps);
      var f, k := Sources(ps) - Targets(ps), Blocked(ps);
      KeepDistinctSources(ps, f);
      KeepDistinctSources(ps, k);
      KeepDistinctTargets(ps, f);
      KeepDistinctTargets(ps, k);
      PeeledDistinct(Stuck(ps));
      KeepMembers(ps, f);
      KeepMembers(ps, k);
      PartsComeFrom(Stuck(ps));
      forall p, q | p in Peeled(Stuck(ps)) && q in Free(ps) ensures p.from != q.from && p.to != q.to {
        assert p in Stuck(ps) && p.from in k && q.from in f;
        DistinctApart(ps, p, q);
      }
      DistinctJoins(Peeled(Stuck(ps)), Free(ps));
    }
  }

  /** Distinct existing sources and distinct targets, no file renamed to itself. */
  ghost predicate Sensible<C>(fs: map<Name, C>, ps: seq<Pair>) {
    DistinctSources(ps) && DistinctTargets(ps) && forall p :: p in ps ==> p.from in fs && p.from != p.to
  }

  lemma {:induction false} PeeledIsInTurn<C>(fs: map<Name, C>, ps: seq<Pair>)
    requires Sensible(fs, ps)
    ensures InTurn(fs, Peeled(ps))
  {
    PartsComeFrom(ps);
    PeeledOrder(ps);
    PeeledDistinct(ps);
  }

  lemma {:induction false} PeeledGoesAlone<C>(fs: map<Name, C>, ps: seq<Pair>, p: Pair, k: nat)
    requires Sensible(fs, ps) && p in Peeled(ps) && Goes(fs, ps, p, k)
    ensures Goes(fs, Peeled(ps), p, k)
    decreases k
  {
    if p.to in fs {
      var q :| q in ps && q.from == p.to && Goes(fs, ps, q, k - 1);
      PartsComeFrom(ps);
      if q in Core(ps) { PeeledAvoidsCore(ps, p, q); }
      PeeledGoesAlone(fs, ps, q, k - 1);
    }
  }

  lemma {:induction false} CoreNeverGoes<C>(fs: map<Name, C>, ps: seq<Pair>, p: Pair, k: nat)
    requires Sensible(fs, ps) && p in Core(ps)
    ensures !Goes(fs, ps, p, k)
    decreases k
  {
    CoreTargetIsCoreSource(ps, p);
    PartsComeFrom(ps);
    var q :| q in Core(ps) && q.from == p.to;
    if k > 0 {
      forall r | r in ps && r.from == p.to ensures !Goes(fs, ps, r, k - 1) {
        SameSource(ps, q, r);
        CoreNeverGoes(fs, ps, q, k - 1);
      }
    }
  }

  lemma {:induction false} WhoGoes<C>(fs: map<Name, C>, ps: seq<Pair>)
    requires Sensible(fs, ps)
    ensures forall p :: p in Peeled(ps) ==> (CanGo(fs, Peeled(ps), p) <==> CanGo(fs, ps, p))
    ensures forall p :: p in Core(ps) ==> !CanGo(fs, ps, p)
  {
    PartsComeFrom(ps);
    forall p | p in Peeled(ps) ensures CanGo(fs, Peeled(ps), p) <==> CanGo(fs, ps, p) {
      if k: nat :| Goes(fs, Peeled(ps), p, k) { GoesInMore(fs, Peeled(ps), ps, p, k); }
      if k: nat :| Goes(fs, ps, p, k) { PeeledGoesAlone(fs, ps, p, k); }
    }
    forall p | p in Core(ps) ensures !CanGo(fs, ps, p) {
      if k: nat :| Goes(fs, ps, p, k) { CoreNeverGoes(fs, ps, p, k); }
    }
  }

  /** What a cycle holds is still there after the others have moved. */
  lemma {:induction false} CoreStaysBlocked<C>(fs: map<Name, C>, ps: seq<Pair>, moved: seq<Pair>, r: map<Name, C>)
    requires Sensible(fs, ps) && (forall p :: p in moved ==> p in Peeled(ps)) && Together(fs, moved, r)
    ensures forall p :: p in Core(ps) ==> p.to in r
  {
    CoreIsBlocked(ps);
    PartsComeFrom(ps);
    PeeledOrder(ps);
    forall p | p in Core(ps) ensures p.to in r {
      CoreTargetIsCoreSource(ps, p);
      var q :| q in Core(ps) && q.from == p.to;
      var s := NobodyIsFree(Core(ps), q);
      forall t | t in moved ensures t.from != q.from { assert s.to != t.from; }
      assert q.from in fs && q.from !in Sources(moved);
    }
  }

  /** For distinct targets, whatever names are taken: carrying the planner's order out moves, all at once in
      effect, exactly the files whose way is or becomes free; the other renames fail, in their order. */
  lemma {:induction false} OrderMovesWhatCanGo<C>(fs: map<Name, C>, ps: seq<Pair>)
    requires Sensible(fs, ps)
    ensures var r := Run(fs, Order(ps));
      r.failed == Those(fs, ps, Order(ps), false) && Together(fs, Those(fs, ps, Order(ps), true), r.fs)
  {
    var l, c := Peeled(ps), Core(ps);
    LeadIsPeeled(ps);
    PeeledIsInTurn(fs, ps);
    InTurnMovesWhatCanGo(fs, l);
    WhoGoes(fs, ps);
    forall go ensures Those(fs, l, l, go) == Those(fs, ps, l, go) { ThoseAgree(fs, l, fs, ps, l, go); }
    ThoseAppend(fs, ps, l, c, false);
    ThoseAppend(fs, ps, l, c, true);
    AllThose(fs, ps, c, false);
    ThoseHolds(fs, ps, l, true);
    var r := Run(fs, l);
    CoreStaysBlocked(fs, ps, Those(fs, ps, l, true), r.fs);
    RunAppend(fs, l, c);
    BlockedRunFails(r.fs, c);
    assert Those(fs, ps, l, true) + [] == Those(fs, ps, l, true);
  }

  /** What the user may ask for: distinct existing sources, distinct targets that are free or become
      free, and no rename of a file to itself. */
  ghost predicate Request<C>(fs: map<Name, C>, ps: seq<Pair>) {
    && DistinctSources(ps) && DistinctTargets(ps)
    && forall p :: p in ps ==> p.from in fs && p.from != p.to && (p.to in fs ==> p.to in Sources(ps))
  }

  /** The core's targets are its own sources. */
  lemma {:induction false} CoreTargetIsCoreSource(ps: seq<Pair>, p: Pair)
    requires DistinctSources(ps) && p in Core(ps)
    ensures exists q :: q in Core(ps) && q.from == p.to
  {
    CoreIsBlocked(ps);
    CoreIsOnCycles(Core(ps), p);
    var k: nat :| Leads(Core(ps), p.to, p.from, k);
    LeadsStarts(Core(ps), p, p.to, p.from, k);
  }

  lemma {:induction false} LeadsStarts(c: seq<Pair>, p: Pair, a: Name, b: Name, k: nat)
    requires Leads(c, a, b, k) && p in c && p.from == b
    ensures exists q :: q in c && q.from == a
    decreases k
  {
    if k > 0 {
      var q :| q in c && q.to == b && Leads(c, a, q.from, k - 1);
      LeadsStarts(c, q, a, q.from, k - 1);
    }
  }

  lemma {:induction false} PeeledGoes<C>(fs: map<Name, C>, ps: seq<Pair>, j: nat)
    requires Request(fs, ps) && j < |Peeled(ps)|
    ensures CanGo(fs, ps, Peeled(ps)[j])
  {
    var l := Peeled(ps);
    var p := l[j];
    PartsComeFrom(ps);
    PeeledOrder(ps);
    if p.to !in fs {
      assert Goes(fs, ps, p, 0);
    } else {
      assert p in l && p in ps && p.to in Sources(ps);
      var q :| q in ps && q.from == p.to;
      if q in Core(ps) { PeeledAvoidsCore(ps, p, q); }
      var i :| 0 <= i < |l| && l[i] == q;
      assert i < j;
      PeeledGoes(fs, ps, i);
      var k: nat :| Goes(fs, ps, q, k);
      assert Goes(fs, ps, p, k + 1);
    }
  }

  /** Carrying the order out renames everything that is on no cycle, all at once in effect, and leaves the
      cycles alone: their renames all fail, in input order. */
  lemma {:induction false} OrderRenamesAllButCycles<C>(fs: map<Name, C>, ps: seq<Pair>)
    requires Request(fs, ps)
    ensures Together(fs, Peeled(ps), Run(fs, Order(ps)).fs) && Run(fs, Order(ps)).failed == Core(ps)
  {
    var l, c := Peeled(ps), Core(ps);
    OrderMovesWhatCanGo(fs, ps);
    LeadIsPeeled(ps);
    WhoGoes(fs, ps);
    forall p | p in l ensures CanGo(fs, ps, p) {
      var j :| 0 <= j < |l| && l[j] == p;
      PeeledGoes(fs, ps, j);
    }
    AllThose(fs, ps, l, true);
    AllThose(fs, ps, c, false);
    ThoseAppend(fs, ps, l, c, false);
    ThoseAppend(fs, ps, l, c, true);
    assert l + [] == l && [] + c == c;
  }

  lemma {:induction false} RequestFailsOnCyclesOnly<C>(fs: map<Name, C>, ps: seq<Pair>)
    requires Request(fs, ps)
    ensures Run(fs, Order(ps)).failed == [] <==> forall p :: p in ps ==> !OnCycle(ps, p)
    ensures (forall p :: p in ps ==> !OnCycle(ps, p)) ==> Simultaneous(fs, ps, Run(fs, Order(ps)).fs)
  {
    OrderRenamesAllButCycles(fs, ps);
    CoreIsTheCycles(ps);
    PartsComeFrom(ps);
    if Core(ps) != [] {
      assert Core(ps)[0] in ps && OnCycle(ps, Core(ps)[0]);
    } else {
      assert Sources(Peeled(ps)) == Sources(ps) && Targets(Peeled(ps)) == Targets(ps);
    }
  }

  // --- When nothing fails

  /** Whatever the order, renames that all succeed have distinct targets, each free or a source. */
  lemma {:induction false} SuccessIsSensible<C>(fs: map<Name, C>, qs: seq<Pair>)
    requires DistinctSources(qs) && (forall p :: p in qs ==> p.from in fs) && Run(fs, qs).failed == []
    ensures DistinctTargets(qs) && forall p :: p in qs && p.to in fs ==> p.to in Sources(qs)
    decreases qs
  {
    if qs != [] {
      var q, t := qs[0], qs[1..];
      assert q in qs && q.to !in fs;
      var gs := Moved(fs, q);
      forall p | p in t ensures p in qs && p.from in gs {
        var j :| 0 <= j < |t| && t[j] == p;
        assert qs[j + 1] == p;
      }
      SuccessIsSensible(gs, t);
      assert q.to in gs && q.to !in Sources(t);
      assert forall p :: p in t ==> p.to != q.to;
      FirstTarget(qs);
      forall p | p in qs && p.to in fs ensures p.to in Sources(qs) {
        if p.to != q.from { assert p in t && p.to in gs && p.to in Sources(t); }
      }
    }
  }

  lemma {:induction false} FirstTarget(qs: seq<Pair>)
    requires qs != [] && DistinctTargets(qs[1..]) && forall p :: p in qs[1..] ==> p.to != qs[0].to
    ensures DistinctTargets(qs)
    ensures forall n :: n in Sources(qs[1..]) ==> n in Sources(qs)
    ensures forall p :: p in qs <==> p == qs[0] || p in qs[1..]
  {
    assert qs == [qs[0]] + qs[1..];
  }

  lemma {:induction false} TargetsStayDistinct(a: seq<Pair>, b: seq<Pair>)
    requires multiset(a) == multiset(b) && DistinctTargets(a) && DistinctSources(b)
    ensures DistinctTargets(b) && forall p :: p in a <==> p in b
  {
    assert forall p :: p in a <==> p in multiset(a);
    assert forall p :: p in b <==> p in multiset(b);
    forall i, j | 0 <= i < j < |b| ensures b[i].to != b[j].to {
      assert b[i] in a && b[j] in a && b[i] != b[j];
    }
  }

  lemma {:induction false} SourcesStayDistinct(a: seq<Pair>, b: seq<Pair>)
    requires multiset(a) == multiset(b) && DistinctSources(b)
    ensures DistinctSources(a)
  {
    assert forall p :: p in a <==> p in multiset(a);
    assert forall p :: p in b <==> p in multiset(b);
    forall i, j | 0 <= i < j < |a| ensures a[i].from != a[j].from {
      assert a[i] in b && a[j] in b;
      if a[i] == a[j] { Twice(a, i, j); OnceOnly(b, a[i]); }
    }
  }

  lemma {:induction false} Twice(a: seq<Pair>, i: nat, j: nat)
    requires i < j < |a| && a[i] == a[j]
    ensures multiset(a)[a[i]] >= 2
  {
    assert a == a[..i] + [a[i]] + a[i + 1..j] + [a[j]] + a[j + 1..];
  }

  lemma {:induction false} OnceOnly(b: seq<Pair>, p: Pair)
    requires DistinctSources(b)
    ensures multiset(b)[p] <= 1
  {
    if b != [] {
      var t := b[1..];
      assert b == [b[0]] + t;
      OnceOnly(t, p);
      if b[0] == p { assert p !in t; }
    }
  }

  lemma {:induction false} SuccessIsRequested<C>(fs: map<Name, C>, ps: seq<Pair>, qs: seq<Pair>)
    requires DistinctSources(ps) && (forall p :: p in ps ==> p.from in fs && p.from != p.to)
    requires multiset(qs) == multiset(ps) && Run(fs, qs).failed == []
    ensures Request(fs, ps)
  {
    SourcesStayDistinct(qs, ps);
    forall p ensures p in qs <==> p in ps { assert p in qs <==> p in multiset(qs); }
    SuccessIsSensible(fs, qs);
    TargetsStayDistinct(qs, ps);
    assert Sources(qs) == Sources(ps);
  }

  /** The exact condition, whatever targets collide or are taken: nothing fails if and only if the targets are
      distinct, each free or a source, and no rename is on a cycle. Then it is all renames at once. */
  lemma {:induction false} NothingFailsIff<C>(fs: map<Name, C>, ps: seq<Pair>)
    requires DistinctSources(ps) && forall p :: p in ps ==> p.from in fs && p.from != p.to
    ensures Run(fs, Order(ps)).failed == [] <==> Request(fs, ps) && forall p :: p in ps ==> !OnCycle(ps, p)
    ensures Run(fs, Order(ps)).failed == [] ==> Simultaneous(fs, ps, Run(fs, Order(ps)).fs)
  {
    if Run(fs, Order(ps)).failed == [] {
      LeadAndLastAreAll(ps, Blocked(ps));
      SuccessIsRequested(fs, ps, Order(ps));
    }
    if Request(fs, ps) { RequestFailsOnCyclesOnly(fs, ps); }
  }

  // --- Whatever order, whatever collides

  /** The j-th rename succeeds: its target is free, or was moved away by an earlier success, and no earlier
      success took it. */
  ghost predicate Wins<C>(fs: map<Name, C>, qs: seq<Pair>, j: nat)
    requires j < |qs|
    decreases j
  {
    && (qs[j].to in fs ==> exists i :: 0 <= i < j && qs[i].from == qs[j].to && Wins(fs, qs, i))
    && (forall i :: 0 <= i < j && qs[i].to == qs[j].to ==> !Wins(fs, qs, i))
  }

  /** Of the first n renames, those that succeed, or those that fail, in their order. */
  ghost function Won<C>(fs: map<Name, C>, qs: seq<Pair>, n: nat, wins: bool): seq<Pair>
    requires n <= |qs|
  {
    if n == 0 then []
    else Won(fs, qs, n - 1, wins) + if Wins(fs, qs, n - 1) == wins then [qs[n - 1]] else []
  }

  lemma {:induction false} WonHolds<C>(fs: map<Name, C>, qs: seq<Pair>, n: nat, wins: bool)
    requires n <= |qs|
    ensures forall p :: p in Won(fs, qs, n, wins) <==> exists i :: 0 <= i < n && qs[i] == p && Wins(fs, qs, i) == wins
  {
    if n > 0 { WonHolds(fs, qs, n - 1, wins); }
  }

  /** A target that was taken was free or became free. */
  lemma {:induction false} WonTargets<C>(fs: map<Name, C>, qs: seq<Pair>, n: nat)
    requires n <= |qs|
    ensures forall p :: p in Won(fs, qs, n, true) && p.to in fs ==> p.to in Sources(Won(fs, qs, n, true))
  {
    WonHolds(fs, qs, n, true);
    var w := Won(fs, qs, n, true);
    forall p | p in w && p.to in fs ensures p.to in Sources(w) {
      var j :| 0 <= j < n && qs[j] == p && Wins(fs, qs, j);
      var i :| 0 <= i < j && qs[i].from == p.to && Wins(fs, qs, i);
      assert qs[i] in w;
    }
  }

  /** The next rename succeeds exactly when its target does not exist then. */
  lemma {:induction false} NextWinsIff<C>(fs: map<Name, C>, qs: seq<Pair>, n: nat, gs: map<Name, C>)
    requires n < |qs| && DistinctSources(qs) && forall p :: p in qs ==> p.from in fs
    requires Together(fs, Won(fs, qs, n, true), gs)
    ensures Wins(fs, qs, n) <==> qs[n].to !in gs
    ensures qs[n].from in gs && qs[n].from !in Sources(Won(fs, qs, n, true)) + Targets(Won(fs, qs, n, true))
  {
    var w, p := Won(fs, qs, n, true), qs[n];
    WonHolds(fs, qs, n, true);
    WonTargets(fs, qs, n);
    forall q | q in w ensures q.from != p.from { var i :| 0 <= i < n && qs[i] == q && Wins(fs, qs, i); }
    assert p in qs && p.from in fs && p.from !in Sources(w);
    WonNames(fs, qs, n, p.to);
  }

  lemma {:induction false} WonNames<C>(fs: map<Name, C>, qs: seq<Pair>, n: nat, x: Name)
    requires n <= |qs|
    ensures x in Sources(Won(fs, qs, n, true)) <==> exists i :: 0 <= i < n && qs[i].from == x && Wins(fs, qs, i)
    ensures x in Targets(Won(fs, qs, n, true)) <==> exists i :: 0 <= i < n && qs[i].to == x && Wins(fs, qs, i)
  {
    var w := Won(fs, qs, n, true);
    WonHolds(fs, qs, n, true);
    if i :| 0 <= i < n && qs[i].from == x && Wins(fs, qs, i) { assert qs[i] in w; }
    if i :| 0 <= i < n && qs[i].to == x && Wins(fs, qs, i) { assert qs[i] in w; }
  }

  lemma {:induction false} MoveLast<C>(fs: map<Name, C>, w: seq<Pair>, gs: map<Name, C>, p: Pair)
    requires Together(fs, w, gs) && p.from in fs && p.from !in Sources(w) + Targets(w) && p.to !in gs
    ensures p.from in gs && Together(fs, w + [p], Moved(gs, p))
  {
    assert Sources(w + [p]) == Sources(w) + {p.from};
    assert Targets(w + [p]) == Targets(w) + {p.to};
    assert forall q :: q in w ==> q.to in gs && q.to != p.from;
  }

  lemma {:induction false} FirstRenames<C>(fs: map<Name, C>, qs: seq<Pair>, n: nat)
    requires n <= |qs| && DistinctSources(qs) && forall p :: p in qs ==> p.from in fs
    ensures var r := Run(fs, qs[..n]);
      r.failed == Won(fs, qs, n, false) && Together(fs, Won(fs, qs, n, true), r.fs)
  {
    if n > 0 {
      var p, r := qs[n - 1], Run(fs, qs[..n - 1]);
      FirstRenames(fs, qs, n - 1);
      NextWinsIff(fs, qs, n - 1, r.fs);
      assert p in qs && qs[..n] == qs[..n - 1] + [p] && [p][1..] == [];
      RunAppend(fs, qs[..n - 1], [p]);
      if p.to !in r.fs {
        MoveLast(fs, Won(fs, qs, n - 1, true), r.fs, p);
      } else {
        BlockedRunFails(r.fs, [p]);
      }
    }
  }

  /** However renames of distinct existing files are ordered, and whatever names collide or are taken: the outcome is
      that of all successes at once, and the others fail. So it is for the planner's order. */
  lemma {:induction false} OrderMovesWinners<C>(fs: map<Name, C>, ps: seq<Pair>)
    requires DistinctSources(ps) && forall p :: p in ps ==> p.from in fs
    ensures var qs := Order(ps);
      var r := Run(fs, qs);
      r.failed == Won(fs, qs, |qs|, false) && Together(fs, Won(fs, qs, |qs|, true), r.fs)
  {
    var qs := Order(ps);
    LeadAndLastAreAll(ps, Blocked(ps));
    SourcesStayDistinct(qs, ps);
    forall p ensures p in qs <==> p in ps { assert p in qs <==> p in multiset(qs); }
    FirstRenames(fs, qs, |qs|);
    assert qs[..|qs|] == qs;
  }

  // --- The smallest requests that fail

  /** A name that is taken: the rename fails. */
  lemma {:induction false} TakenNameFails<C>(fs: map<Name, C>, a: Name, b: Name)
    requires a in fs && b in fs && a != b
    ensures Run(fs, Order([Pair(a, b)])) == Report(fs, [Pair(a, b)])
  {
    var ps := [Pair(a, b)];
    IndependentKeepTheirOrder(ps);
    BlockedRunFails(fs, ps);
  }

  /** Two files that should get one name: the first gets it. */
  lemma {:induction false} SharedNameFails<C>(fs: map<Name, C>, a: Name, b: Name, c: Name)
    requires a in fs && b in fs && c !in fs && a != b
    ensures Run(fs, Order([Pair(a, c), Pair(b, c)])) == Report(Moved(fs, Pair(a, c)), [Pair(b, c)])
  {
    var ps := [Pair(a, c), Pair(b, c)];
    IndependentKeepTheirOrder(ps);
    assert ps[1..] == [Pair(b, c)];
    BlockedRunFails(Moved(fs, ps[0]), [Pair(b, c)]);
  }

  lemma {:induction false} SwapIsStuck(ps: seq<Pair>)
    requires |ps| == 2 && ps[0].from == ps[1].to && ps[0].to == ps[1].from
    ensures Sources(ps) == Targets(ps) && Peeled(ps) == [] && Core(ps) == ps
  {
    forall n ensures n in Sources(ps) <==> n in Targets(ps) {
      assert n in Sources(ps) <==> n == ps[0].from || n == ps[1].from by { assert ps[0] in ps && ps[1] in ps; }
      assert n in Targets(ps) <==> n == ps[0].to || n == ps[1].to by { assert ps[0] in ps && ps[1] in ps; }
    }
    assert Sources(ps) - Targets(ps) == {};
    NothingKept(ps);
  }

  lemma {:induction false} MembersOfTwo(ps: seq<Pair>, p: Pair)
    requires |ps| == 2
    ensures p in ps <==> p == ps[0] || p == ps[1]
    ensures ps[0].from in Sources(ps) && ps[1].from in Sources(ps)
  {
    assert ps[0] in ps && ps[1] in ps;
  }

  lemma {:induction false} SwapIsRequested<C>(fs: map<Name, C>, ps: seq<Pair>)
    requires |ps| == 2 && ps[0].from == ps[1].to && ps[0].to == ps[1].from && ps[0].from != ps[0].to
    requires ps[0].from in fs && ps[1].from in fs
    ensures Request(fs, ps)
  {
    forall p | p in ps ensures p.from in fs && p.from != p.to && p.to in Sources(ps) {
      MembersOfTwo(ps, p);
    }
  }

  /** The smallest request that fails: two files that should change names keep them. */
  lemma {:induction false} SwapFails<C>(fs: map<Name, C>, a: Name, b: Name)
    requires a in fs && b in fs && a != b
    ensures var ps := [Pair(a, b), Pair(b, a)];
      Request(fs, ps) && Run(fs, Order(ps)) == Report(fs, ps)
  {
    var ps := [Pair(a, b), Pair(b, a)];
    SwapIsStuck(ps);
    SwapIsRequested(fs, ps);
    LeadIsPeeled(ps);
    assert [] + ps == ps;
    BlockedRunFails(fs, ps);
  }
}
