/** Hash maps as yazi-sftp reads and writes them: pairs of bytes, later keys winning. A map is listed in the
    order its keys first came in; the order in which a hash map yields its entries may be any other. */
module SftpMaps {
  import opened Ordering

  type Bytes = seq<byte>

  datatype Pair = Pair(key: Bytes, value: Bytes)

  function KeysOf(ps: seq<Pair>): set<Bytes> { set p | p in ps :: p.key }

  /** No key twice. */
  predicate KeysApart(ps: seq<Pair>) { forall i, j :: 0 <= i < j < |ps| ==> ps[i].key != ps[j].key }

  /** Inserting into a map replaces the value of a key that is there. */
  function Inserted(ps: seq<Pair>, p: Pair): seq<Pair> {
    if ps == [] then [p]
    else if ps[0].key == p.key then [p] + ps[1..]
    else [ps[0]] + Inserted(ps[1..], p)
  }

  /** The map that pairs make when they are inserted one after the other. */
  function Collected(raw: seq<Pair>): seq<Pair>
    decreases |raw|
  {
    if raw == [] then [] else Inserted(Collected(raw[..|raw| - 1]), raw[|raw| - 1])
  }

  /** What is found under each key, the last pair winning. */
  function MapOf(ps: seq<Pair>): map<Bytes, Bytes>
    decreases |ps|
  {
    if ps == [] then map[] else MapOf(ps[..|ps| - 1])[ps[|ps| - 1].key := ps[|ps| - 1].value]
  }

  /** Two listings of one map. */
  predicate SameMap(ps: seq<Pair>, qs: seq<Pair>) { MapOf(ps) == MapOf(qs) }

  lemma {:induction false} FirstApart(ps: seq<Pair>)
    requires ps != []
    ensures KeysOf(ps) == {ps[0].key} + KeysOf(ps[1..])
    ensures KeysApart(ps) ==> KeysApart(ps[1..]) && ps[0].key !in KeysOf(ps[1..])
    ensures forall q :: q in ps <==> q == ps[0] || q in ps[1..]
  {
    assert ps == [ps[0]] + ps[1..];
  }

  lemma {:induction false} PutFirst(q: Pair, t: seq<Pair>)
    ensures KeysOf([q] + t) == {q.key} + KeysOf(t)
    ensures KeysApart(t) && q.key !in KeysOf(t) ==> KeysApart([q] + t)
  {}

  lemma {:induction false} InsertedHolds(ps: seq<Pair>, p: Pair)
    requires KeysApart(ps)
    ensures KeysApart(Inserted(ps, p)) && KeysOf(Inserted(ps, p)) == KeysOf(ps) + {p.key}
    ensures forall q :: q in Inserted(ps, p) <==> q == p || (q in ps && q.key != p.key)
    ensures p.key in KeysOf(ps) ==> |Inserted(ps, p)| == |ps|
    ensures p.key !in KeysOf(ps) ==> Inserted(ps, p) == ps + [p]
  {
    if ps != [] {
      var t := ps[1..];
      FirstApart(ps);
      if ps[0].key == p.key {
        PutFirst(p, t);
      } else {
        InsertedHolds(t, p);
        PutFirst(ps[0], Inserted(t, p));
        assert ps + [p] == [ps[0]] + (t + [p]);
      }
    }
  }

  /** The map that lists the pairs, no key coming twice. */
  ghost predicate Lists(m: map<Bytes, Bytes>, ps: seq<Pair>) {
    m.Keys == KeysOf(ps) && forall p :: p in ps ==> p.key in m && m[p.key] == p.value
  }

  lemma {:induction false} ListsOnce(m: map<Bytes, Bytes>, n: map<Bytes, Bytes>, ps: seq<Pair>)
    requires Lists(m, ps) && Lists(n, ps)
    ensures m == n
  {
    forall k | k in m ensures m[k] == n[k] {
      var p :| p in ps && p.key == k;
    }
  }

  lemma {:induction false} MapOfLists(ps: seq<Pair>)
    requires KeysApart(ps)
    ensures Lists(MapOf(ps), ps)
    decreases |ps|
  {
    if ps != [] {
      var most, last := ps[..|ps| - 1], ps[|ps| - 1];
      assert ps == most + [last];
      KeysApartSnoc(most, last);
      MapOfLists(most);
      assert KeysOf(ps) == KeysOf(most) + {last.key};
    }
  }

  lemma {:induction false} MapOfInserted(ps: seq<Pair>, p: Pair)
    requires KeysApart(ps)
    ensures MapOf(Inserted(ps, p)) == MapOf(ps)[p.key := p.value]
  {
    InsertedHolds(ps, p);
    MapOfLists(ps);
    MapOfLists(Inserted(ps, p));
    ListsOnce(MapOf(Inserted(ps, p)), MapOf(ps)[p.key := p.value], Inserted(ps, p));
  }

  lemma {:induction false} InsertedCounts(most: seq<Pair>, last: Pair, c: seq<Pair>)
    requires KeysApart(c) && KeysOf(c) == KeysOf(most) && |c| <= |most|
    requires (KeysApart(most) ==> c == most) && (!KeysApart(most) ==> |c| < |most|)
    ensures var d := Inserted(c, last);
      && KeysApart(d) && KeysOf(d) == KeysOf(most + [last]) && |d| <= |most| + 1
      && (KeysApart(most + [last]) ==> d == most + [last]) && (!KeysApart(most + [last]) ==> |d| < |most| + 1)
  {
    InsertedHolds(c, last);
    KeysApartSnoc(most, last);
    assert KeysOf(most + [last]) == KeysOf(most) + {last.key};
  }

  /** Collecting loses nothing but the values that a later pair replaces; so it leaves the pairs as they were
      exactly when no key comes twice. */
  lemma {:induction false} CollectedHolds(raw: seq<Pair>)
    ensures KeysApart(Collected(raw)) && SameMap(Collected(raw), raw)
    ensures |Collected(raw)| <= |raw| && forall q :: q in Collected(raw) ==> q in raw
    ensures KeysOf(Collected(raw)) == KeysOf(raw)
    ensures KeysApart(raw) ==> Collected(raw) == raw
    ensures !KeysApart(raw) ==> |Collected(raw)| < |raw|
    decreases |raw|
  {
    if raw != [] {
      var most, last := raw[..|raw| - 1], raw[|raw| - 1];
      assert raw == most + [last];
      CollectedHolds(most);
      InsertedCounts(most, last, Collected(most));
      InsertedHolds(Collected(most), last);
      MapOfInserted(Collected(most), last);
    }
  }

  lemma {:induction false} KeysApartSnoc(most: seq<Pair>, last: Pair)
    ensures KeysApart(most + [last]) <==> KeysApart(most) && last.key !in KeysOf(most)
  {
    var ps := most + [last];
    if KeysApart(ps) {
      forall i, j | 0 <= i < j < |most| ensures most[i].key != most[j].key { assert ps[i].key != ps[j].key; }
      forall q | q in most ensures q.key != last.key {
        var i :| 0 <= i < |most| && most[i] == q;
        assert ps[i].key != ps[|most|].key;
      }
    }
  }

  lemma {:induction false} SameMembers(ps: seq<Pair>, qs: seq<Pair>, p: Pair)
    requires KeysApart(ps) && KeysApart(qs) && SameMap(ps, qs) && p in ps
    ensures p in qs
  {
    MapOfLists(ps);
    MapOfLists(qs);
    assert p.key in KeysOf(qs);
    var q :| q in qs && q.key == p.key;
  }

  /** Listings of one map differ in their order only. */
  lemma {:induction false} SameMapIsReordering(ps: seq<Pair>, qs: seq<Pair>)
    requires KeysApart(ps) && KeysApart(qs)
    ensures SameMap(ps, qs) <==> multiset(ps) == multiset(qs)
  {
    if SameMap(ps, qs) {
      forall p ensures multiset(ps)[p] == multiset(qs)[p] {
        OnceEach(ps);
        OnceEach(qs);
        if p in ps { SameMembers(ps, qs, p); }
        if p in qs { SameMembers(qs, ps, p); }
      }
    }
    if multiset(ps) == multiset(qs) {
      assert forall p :: p in ps <==> p in multiset(ps);
      assert forall p :: p in qs <==> p in multiset(qs);
      assert KeysOf(ps) == KeysOf(qs);
      MapOfLists(ps);
      MapOfLists(qs);
      ListsOnce(MapOf(ps), MapOf(qs), qs);
    }
  }

  lemma {:induction false} OnceEach(ps: seq<Pair>)
    requires KeysApart(ps)
    ensures forall p :: multiset(ps)[p] == if p in ps then 1 else 0
    decreases |ps|
  {
    if ps != [] {
      var most, last := ps[..|ps| - 1], ps[|ps| - 1];
      assert ps == most + [last];
      KeysApartSnoc(most, last);
      OnceEach(most);
    }
  }
}
