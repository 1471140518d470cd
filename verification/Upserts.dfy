/** What an upsert leaves of a listing, when that is a simultaneous rename, and which events keep a listing free
    of repeated keys (yazi-fs/src/entries.rs). */
module Upserts {
  import opened Sorter
  import opened Entries
  import opened Wrappers

  // --- How often a key is listed

  function Held(fs: seq<File>, k: Name): nat {
    if fs == [] then 0 else (if fs[0].key == k then 1 else 0) + Held(fs[1..], k)
  }

  lemma {:induction false} HeldAppend(a: seq<File>, b: seq<File>, k: Name)
    ensures Held(a + b, k) == Held(a, k) + Held(b, k)
  {
    if a == [] {
      assert a + b == b;
    } else {
      assert (a + b)[1..] == a[1..] + b;
      HeldAppend(a[1..], b, k);
    }
  }

  lemma {:induction false} HeldSome(fs: seq<File>, k: Name)
    ensures Held(fs, k) > 0 <==> k in Keys(fs)
  {
    if fs != [] {
      HeldSome(fs[1..], k);
      assert Keys(fs) == {fs[0].key} + Keys(fs[1..]);
    }
  }

  lemma {:induction false} HeldInside(a: seq<File>, f: File, b: seq<File>, k: Name)
    ensures multiset(a + [f] + b) == multiset{f} + multiset(a + b)
    ensures Held(a + [f] + b, k) == Held([f], k) + Held(a + b, k)
  {
    HeldAppend(a + [f], b, k);
    HeldAppend(a, [f], k);
    HeldAppend(a, b, k);
  }

  lemma {:induction false} HeldSame(a: seq<File>, b: seq<File>, k: Name)
    requires multiset(a) == multiset(b)
    ensures Held(a, k) == Held(b, k)
  {
    if a == [] {
      assert |b| == |multiset(b)| == 0;
    } else {
      assert a[0] in multiset(b);
      var i :| 0 <= i < |b| && b[i] == a[0];
      var c, d := b[..i], b[i + 1..];
      assert b == c + [a[0]] + d;
      HeldInside(c, a[0], d, k);
      FirstApart(a);
      LessOne(multiset{a[0]}, multiset(a[1..]), multiset(c + d));
      HeldSame(a[1..], c + d, k);
    }
  }

  lemma {:induction false} LessOne(one: multiset<File>, a: multiset<File>, b: multiset<File>)
    requires one + a == one + b
    ensures a == b
  {
    assert a == one + a - one && b == one + b - one;
  }

  // --- Taking files off a list

  /** What is left when, for each key, its first files go, as many as quota says. */
  function Beyond(fs: seq<File>, quota: multiset<Name>): seq<File> {
    if fs == [] then []
    else if fs[0].key in quota then Beyond(fs[1..], quota - multiset{fs[0].key})
    else [fs[0]] + Beyond(fs[1..], quota)
  }

  lemma {:induction false} BeyondHeld(fs: seq<File>, quota: multiset<Name>, k: Name)
    ensures Held(Beyond(fs, quota), k) == if Held(fs, k) <= quota[k] then 0 else Held(fs, k) - quota[k]
  {
    if fs != [] {
      BeyondHeld(fs[1..], if fs[0].key in quota then quota - multiset{fs[0].key} else quota, k);
    }
  }

  lemma {:induction false} BeyondComesFrom(fs: seq<File>, quota: multiset<Name>)
    ensures forall f :: f in fs && f.key !in quota ==> f in Beyond(fs, quota)
    ensures forall f :: f in Beyond(fs, quota) ==> f in fs
  {
    if fs != [] {
      BeyondComesFrom(fs[1..], if fs[0].key in quota then quota - multiset{fs[0].key} else quota);
    }
  }

  lemma {:induction false} BeyondTwice(fs: seq<File>, a: multiset<Name>, b: multiset<Name>)
    ensures Beyond(Beyond(fs, a), b) == Beyond(fs, a + b)
  {
    if fs != [] {
      var one := multiset{fs[0].key};
      if fs[0].key in a {
        BeyondTwice(fs[1..], a - one, b);
        assert a - one + b == a + b - one;
      } else if fs[0].key in b {
        BeyondTwice(fs[1..], a, b - one);
        assert a + (b - one) == a + b - one;
        assert Beyond(fs, a)[1..] == Beyond(fs[1..], a);
      } else {
        BeyondTwice(fs[1..], a, b);
        assert Beyond(fs, a)[1..] == Beyond(fs[1..], a);
      }
    }
  }

  /** The files under none of the keys. */
  function Outside(fs: seq<File>, keys: set<Name>): seq<File> {
    if fs == [] then [] else (if fs[0].key in keys then [] else [fs[0]]) + Outside(fs[1..], keys)
  }

  lemma {:induction false} OutsideHolds(fs: seq<File>, keys: set<Name>)
    ensures forall f :: f in Outside(fs, keys) <==> f in fs && f.key !in keys
  {
    if fs != [] { OutsideHolds(fs[1..], keys); }
  }

  lemma {:induction false} NoneOutside(fs: seq<File>, keys: set<Name>, k: Name)
    requires k in keys
    ensures Held(Outside(fs, keys), k) == 0
  {
    OutsideHolds(fs, keys);
    HeldSome(Outside(fs, keys), k);
  }

  lemma {:induction false} OutsideAppend(a: seq<File>, b: seq<File>, keys: set<Name>)
    ensures Outside(a + b, keys) == Outside(a, keys) + Outside(b, keys)
  {
    if a == [] {
      assert a + b == b;
    } else {
      assert (a + b)[1..] == a[1..] + b;
      OutsideAppend(a[1..], b, keys);
    }
  }

  /** When the quota covers every file under the keys it names, just the others are left. */
  lemma {:induction false} BeyondIsOutside(fs: seq<File>, quota: multiset<Name>, keys: set<Name>)
    requires forall k :: k in quota ==> k in keys
    requires forall k :: k in keys ==> Held(fs, k) <= quota[k]
    ensures Beyond(fs, quota) == Outside(fs, keys)
  {
    if fs != [] {
      assert Held(fs, fs[0].key) > 0;
      assert forall k :: Held(fs, k) == Held(fs[1..], k) + if fs[0].key == k then 1 else 0;
      BeyondIsOutside(fs[1..], if fs[0].key in quota then quota - multiset{fs[0].key} else quota, keys);
    }
  }

  lemma {:induction false} WithoutIsBeyond(fs: seq<File>, keys: set<Name>, at: nat)
    ensures Without(fs, keys, at).list == Beyond(fs, multiset(keys))
    ensures Without(fs, keys, at).rest == keys - Keys(fs)
  {
    if fs != [] {
      var k := fs[0].key;
      WithoutIsBeyond(fs[1..], if k in keys then keys - {k} else keys, at + 1);
      assert Keys(fs) == {k} + Keys(fs[1..]);
      if k in keys { assert multiset(keys - {k}) == multiset(keys) - multiset{k}; }
    }
  }

  // --- The files of a map

  ghost function Pick(m: map<Name, File>): (k: Name)
    requires m != map[]
    ensures k in m
  {
    var k :| k in m;
    k
  }

  ghost function Listed(m: map<Name, File>): seq<File> {
    if m == map[] then [] else [m[Pick(m)]] + Listed(m - {Pick(m)})
  }

  function Met(m: map<Name, File>, keys: set<Name>): map<Name, File> { map k | k in m && k in keys :: m[k] }

  ghost function Bag(m: map<Name, File>): multiset<File> { multiset(Listed(m)) }

  lemma {:induction false} BagPick(m: map<Name, File>)
    requires m != map[]
    ensures Bag(m) == multiset{m[Pick(m)]} + Bag(m - {Pick(m)})
  {}

  lemma {:induction false} LeaveOut(m: map<Name, File>, j: Name, k: Name)
    requires j in m && k in m && j != k
    ensures m - {j} - {k} == m - {k} - {j}
    ensures k in m - {j} && j in m - {k} && (m - {j})[k] == m[k] && (m - {k})[j] == m[j]
  {}

  lemma {:induction false} BagTake(m: map<Name, File>, k: Name)
    requires k in m
    ensures Bag(m) == multiset{m[k]} + Bag(m - {k})
    decreases |m|
  {
    var j := Pick(m);
    BagPick(m);
    if j != k {
      LeaveOut(m, j, k);
      BagTake(m - {j}, k);
      BagTake(m - {k}, j);
    }
  }

  lemma {:induction false} MetTake(m: map<Name, File>, keys: set<Name>, k: Name)
    requires k in m
    ensures k in keys ==> k in Met(m, keys) && Met(m, keys) - {k} == Met(m - {k}, keys) && m - {k} - keys == m - keys
    ensures k !in keys ==> k in m - keys && Met(m - {k}, keys) == Met(m, keys) && m - {k} - keys == m - keys - {k}
  {}

  lemma {:induction false} BagSplit(m: map<Name, File>, keys: set<Name>)
    ensures Bag(m) == Bag(Met(m, keys)) + Bag(m - keys)
    decreases |m|
  {
    if m == map[] {
      NothingMet(m, keys);
    } else {
      var k := Pick(m);
      BagPick(m);
      BagSplit(m - {k}, keys);
      BagsTake(m, keys, k);
      Regroup(multiset{m[k]}, Bag(Met(m - {k}, keys)), Bag(m - {k} - keys));
    }
  }

  lemma {:induction false} NothingMet(m: map<Name, File>, keys: set<Name>)
    requires m.Keys !! keys
    ensures Met(m, keys) == map[] && m - keys == m
  {}

  lemma {:induction false} BagsTake(m: map<Name, File>, keys: set<Name>, k: Name)
    requires k in m
    ensures k in keys ==>
      Bag(Met(m, keys)) == multiset{m[k]} + Bag(Met(m - {k}, keys)) && Bag(m - keys) == Bag(m - {k} - keys)
    ensures k !in keys ==>
      Bag(m - keys) == multiset{m[k]} + Bag(m - {k} - keys) && Bag(Met(m, keys)) == Bag(Met(m - {k}, keys))
  {
    MetTake(m, keys, k);
    if k in keys {
      BagTake(Met(m, keys), k);
    } else {
      BagTake(m - keys, k);
    }
  }

  lemma {:induction false} Regroup(a: multiset<File>, b: multiset<File>, c: multiset<File>)
    ensures a + (b + c) == a + b + c == b + (a + c)
  {}

  lemma {:induction false} WalkRest(ks: seq<Name>, m: map<Name, File>)
    requires Walks(ks, m) && ks != []
    ensures Walks(ks[1..], m - {ks[0]})
  {
    var t := ks[1..];
    assert forall i :: 0 <= i < |t| ==> t[i] == ks[i + 1];
    forall k ensures k in t <==> k in m - {ks[0]} {
      assert k in ks <==> k == ks[0] || k in t;
    }
  }

  lemma {:induction false} ListedByIsBag(ks: seq<Name>, m: map<Name, File>, fs: seq<File>)
    requires ListedBy(ks, m, fs)
    ensures multiset(fs) == Bag(m)
    decreases |fs|
  {
    if fs == [] {
      assert m == map[] by { assert forall k :: k in m ==> k in ks; }
    } else {
      var k := ks[0];
      WalkRest(ks, m);
      ListedByIsBag(ks[1..], m - {k}, fs[1..]);
      BagTake(m, k);
      FirstApart(fs);
    }
  }

  /** In whatever order a map is walked, it is these files. */
  lemma {:induction false} ListsTheSame(fs: seq<File>, m: map<Name, File>)
    requires Lists(fs, m)
    ensures multiset(fs) == Bag(m)
  {
    var ks :| ListedBy(ks, m, fs);
    ListedByIsBag(ks, m, fs);
  }

  function TargetKeys(files: map<Name, File>): set<Name> { set k | k in files :: files[k].key }

  /** No two files take the same key. */
  ghost predicate DistinctTargets(files: map<Name, File>) {
    forall j, k :: j in files && k in files && j != k ==> files[j].key != files[k].key
  }

  lemma {:induction false} HeldTake(m: map<Name, File>, k: Name, x: Name)
    requires k in m
    ensures Held(Listed(m), x) == (if m[k].key == x then 1 else 0) + Held(Listed(m - {k}), x)
  {
    BagTake(m, k);
    var fs := [m[k]] + Listed(m - {k});
    HeldSame(Listed(m), fs, x);
    assert fs[1..] == Listed(m - {k});
  }

  lemma {:induction false} TargetsTake(m: map<Name, File>, k: Name)
    requires k in m
    ensures TargetKeys(m) == {m[k].key} + TargetKeys(m - {k})
    ensures DistinctTargets(m) ==> m[k].key !in TargetKeys(m - {k}) && DistinctTargets(m - {k})
  {
    forall x | x in TargetKeys(m) ensures x in {m[k].key} + TargetKeys(m - {k}) {
      var j :| j in m && m[j].key == x;
      assert j == k || j in m - {k};
    }
  }

  lemma {:induction false} HeldListed(m: map<Name, File>, x: Name)
    ensures Held(Listed(m), x) > 0 <==> x in TargetKeys(m)
    ensures DistinctTargets(m) ==> Held(Listed(m), x) <= 1
    decreases |m|
  {
    if m != map[] {
      var k := Pick(m);
      HeldTake(m, k, x);
      HeldListed(m - {k}, x);
      TargetsTake(m, k);
    }
  }

  lemma {:induction false} HeldTwice(m: map<Name, File>, j: Name, k: Name)
    requires j in m && k in m && j != k && m[j].key == m[k].key
    ensures Held(Listed(m), m[k].key) >= 2
  {
    HeldTake(m, j, m[k].key);
    HeldTake(m - {j}, k, m[k].key);
  }

  lemma {:induction false} ReplacedRest(fs: seq<File>, news: map<Name, File>)
    ensures Replaced(fs, news).rest == news - Keys(fs)
  {
    if fs != [] {
      var k := fs[0].key;
      ReplacedRest(fs[1..], if k in news then news - {k} else news);
      assert Keys(fs) == {k} + Keys(fs[1..]);
    }
  }

  lemma {:induction false} MetFirst(fs: seq<File>, news: map<Name, File>)
    requires fs != []
    ensures var k := fs[0].key;
      if k in news then
        multiset((news - {k}).Keys) == multiset(news.Keys) - multiset{k} &&
        Bag(Met(news, Keys(fs))) == multiset{news[k]} + Bag(Met(news - {k}, Keys(fs[1..])))
      else Met(news, Keys(fs)) == Met(news, Keys(fs[1..]))
  {
    var k := fs[0].key;
    assert Keys(fs) == {k} + Keys(fs[1..]);
    if k in news {
      assert Met(news, Keys(fs)) - {k} == Met(news - {k}, Keys(fs[1..]));
      BagTake(Met(news, Keys(fs)), k);
    }
  }

  lemma {:induction false} ReplacedIs(fs: seq<File>, news: map<Name, File>)
    ensures multiset(Replaced(fs, news).list) == multiset(Beyond(fs, multiset(news.Keys))) + Bag(Met(news, Keys(fs)))
  {
    if fs == [] {
      NothingMet(news, {});
    } else {
      var k := fs[0].key;
      var rest := if k in news then news - {k} else news;
      var a, b := multiset(Beyond(fs[1..], multiset(rest.Keys))), Bag(Met(rest, Keys(fs[1..])));
      ReplacedIs(fs[1..], rest);
      MetFirst(fs, news);
      FirstApart(Replaced(fs, news).list);
      Regroup(multiset{if k in news then news[k] else fs[0]}, a, b);
      if k !in news { FirstApart(Beyond(fs, multiset(news.Keys))); }
    }
  }

  /** One side of an upsert: as many files go as the quota says, and the new ones are there. */
  lemma {:induction false} SideUpserted(fs: seq<File>, gone: set<Name>, news: map<Name, File>, added: seq<File>)
    requires var d := Without(fs, gone, 0).list; Lists(added, Replaced(d, news).rest)
    ensures multiset(Replaced(Without(fs, gone, 0).list, news).list + added) ==
            multiset(Beyond(fs, multiset(gone) + multiset(news.Keys))) + Bag(news)
  {
    var d := Without(fs, gone, 0).list;
    WithoutIsBeyond(fs, gone, 0);
    ReplacedIs(d, news);
    ReplacedRest(d, news);
    ListsTheSame(added, news - Keys(d));
    BagSplit(news, Keys(d));
    BeyondTwice(fs, multiset(gone), multiset(news.Keys));
  }

  // --- What an upsert leaves

  /** How many files under each key an upsert takes off a side: one where a new file replaces it, and one, of
      both sides together, where a rename takes the key; it is taken from the shown files if they have it. */
  function FromShown(l: List, files: map<Name, File>): multiset<Name> {
    multiset(Retargeted(files)) + multiset(Half(l.view, true, files).Keys)
  }

  function FromHidden(l: List, files: map<Name, File>): multiset<Name> {
    multiset(Retargeted(files) - Keys(l.items)) + multiset(Half(l.view, false, files).Keys)
  }

  lemma {:induction false} UpsertUnfolds(l: List, known: map<Name, File>, t: List)
    requires Upserted(l, known, t)
    ensures var files := Proper(known); var gone := Retargeted(files);
      var a, b := Half(l.view, true, files), Half(l.view, false, files);
      exists on, off ::
        && Lists(on, Replaced(Without(l.items, gone, 0).list, a).rest)
        && Lists(off, Replaced(Without(l.hidden, gone - Keys(l.items), 0).list, b).rest)
        && t.items == Replaced(Without(l.items, gone, 0).list, a).list + on
        && t.hidden == Replaced(Without(l.hidden, gone - Keys(l.items), 0).list, b).list + off
        && t.view == l.view
  {
    var files := Proper(known);
    var gone := Retargeted(files);
    assert gone - {[]} == gone;
    WithoutIsBeyond(l.items, gone, 0);
    var (m, hidden, items) := Existing(Delete(l, gone), known);
    var off, on :| Lists(off, hidden) && Lists(on, items) &&
      t == Bump(m, items != map[]).(hidden := m.hidden + off, items := m.items + on);
  }

  /** Exactly what an upsert leaves, whatever is listed and however often: it takes off the files that its
      quotas name, and adds all the new ones, each on its side. */
  lemma {:induction false} UpsertLeaves(l: List, known: map<Name, File>, t: List)
    requires Upserted(l, known, t)
    ensures var files := Proper(known);
      && multiset(t.items) ==
           multiset(Beyond(l.items, FromShown(l, files))) + Bag(Half(l.view, true, files))
      && multiset(t.hidden) ==
           multiset(Beyond(l.hidden, FromHidden(l, files))) + Bag(Half(l.view, false, files))
  {
    var files := Proper(known);
    var gone := Retargeted(files);
    UpsertUnfolds(l, known, t);
    var on, off :|
      && Lists(on, Replaced(Without(l.items, gone, 0).list, Half(l.view, true, files)).rest)
      && Lists(off, Replaced(Without(l.hidden, gone - Keys(l.items), 0).list, Half(l.view, false, files)).rest)
      && t.items == Replaced(Without(l.items, gone, 0).list, Half(l.view, true, files)).list + on
      && t.hidden == Replaced(Without(l.hidden, gone - Keys(l.items), 0).list, Half(l.view, false, files)).list + off
      && t.view == l.view;
    SideUpserted(l.items, gone, Half(l.view, true, files), on);
    SideUpserted(l.hidden, gone - Keys(l.items), Half(l.view, false, files), off);
  }

  lemma {:induction false} HalvesAreParts(v: View, files: map<Name, File>)
    ensures var keys := Half(v, true, files).Keys;
      Met(files, keys) == Half(v, true, files) && files - keys == Half(v, false, files)
  {}

  lemma {:induction false} HalvesMakeWhole(v: View, files: map<Name, File>)
    ensures Bag(files) ==
            Bag(Half(v, true, files)) + Bag(Half(v, false, files))
  {
    HalvesAreParts(v, files);
    BagSplit(files, Half(v, true, files).Keys);
  }

  // --- Upserting as a simultaneous rename

  function Everything(l: List): multiset<File> { multiset(l.items) + multiset(l.hidden) }

  /** The keys that an upsert is about: the old ones and the new ones. */
  function Involved(files: map<Name, File>): set<Name> { files.Keys + TargetKeys(files) }

  /** The files after all renames at once: nothing is left under an old or an overwritten key, and each new
      file is there. */
  ghost function Renamed(l: List, files: map<Name, File>): multiset<File> {
    Bag(files) + multiset(Outside(l.items + l.hidden, Involved(files)))
  }

  /** No more files are listed under the key than an upsert takes off. */
  predicate Room(l: List, files: map<Name, File>, k: Name) {
    Held(l.items, k) <= FromShown(l, files)[k] && Held(l.hidden, k) <= FromHidden(l, files)[k]
  }

  lemma {:induction false} QuotasAreInvolved(l: List, files: map<Name, File>)
    ensures forall k :: k in FromShown(l, files) || k in FromHidden(l, files) ==> k in Involved(files)
  {}

  /** The files that an upsert leaves as they are. */
  function Untouched(l: List, files: map<Name, File>): seq<File> {
    Beyond(l.items, FromShown(l, files)) + Beyond(l.hidden, FromHidden(l, files))
  }

  lemma {:induction false} NothingInvolvedStays(l: List, files: map<Name, File>, k: Name)
    requires k in Involved(files)
    requires multiset(Untouched(l, files)) == multiset(Outside(l.items + l.hidden, Involved(files)))
    ensures Room(l, files, k)
  {
    HeldSame(Untouched(l, files), Outside(l.items + l.hidden, Involved(files)), k);
    NoneOutside(l.items + l.hidden, Involved(files), k);
    HeldAppend(Beyond(l.items, FromShown(l, files)), Beyond(l.hidden, FromHidden(l, files)), k);
    BeyondHeld(l.items, FromShown(l, files), k);
    BeyondHeld(l.hidden, FromHidden(l, files), k);
  }

  lemma {:induction false} RoomLeavesOthers(l: List, files: map<Name, File>)
    requires forall k :: k in Involved(files) ==> Room(l, files, k)
    ensures Untouched(l, files) == Outside(l.items + l.hidden, Involved(files))
  {
    QuotasAreInvolved(l, files);
    BeyondIsOutside(l.items, FromShown(l, files), Involved(files));
    BeyondIsOutside(l.hidden, FromHidden(l, files), Involved(files));
    OutsideAppend(l.items, l.hidden, Involved(files));
  }

  /** What is listed is what stays and the files of a map. */
  ghost predicate MadeOf(t: List, stays: seq<File>, m: map<Name, File>) {
    Everything(t) == Bag(m) + multiset(stays)
  }

  lemma {:induction false} UpsertLeavesInAll(l: List, known: map<Name, File>, t: List)
    requires Upserted(l, known, t)
    ensures MadeOf(t, Untouched(l, Proper(known)), Proper(known))
  {
    UpsertLeaves(l, known, t);
    HalvesMakeWhole(l.view, Proper(known));
  }

  /** An upsert is the simultaneous rename, swaps, chains and renames onto one key included, if and only if
      each key involved is listed no more often than the upsert takes it off: whatever the listing holds. */
  lemma {:induction false} UpsertIsRenameIff(l: List, known: map<Name, File>, t: List)
    requires Upserted(l, known, t)
    ensures var files := Proper(known);
      Everything(t) == Renamed(l, files) <==> forall k :: k in Involved(files) ==> Room(l, files, k)
  {
    var files := Proper(known);
    UpsertLeavesInAll(l, known, t);
    if Everything(t) == Renamed(l, files) {
      LessOne(Bag(files), multiset(Untouched(l, files)), multiset(Outside(l.items + l.hidden, Involved(files))));
      forall k | k in Involved(files) ensures Room(l, files, k) { NothingInvolvedStays(l, files, k); }
    }
    if forall k :: k in Involved(files) ==> Room(l, files, k) { RoomLeavesOthers(l, files); }
  }

  // --- Listings without repeated keys

  ghost predicate NoKeyTwice(l: List) { forall k :: Held(l.items, k) + Held(l.hidden, k) <= 1 }

  /** The files that stay although their key was renamed: the new file belongs on the other side of the
      view, and no other rename takes the key. */
  ghost function Survivors(l: List, files: map<Name, File>): set<File> {
    set f | f in Everything(l) && f.key in files && f.key !in Retargeted(files) &&
            Visible(l.view, f) != Visible(l.view, files[f.key])
  }

  lemma {:induction false} OldOrTarget(files: map<Name, File>, k: Name)
    ensures k in Involved(files) <==> k in files || k in Retargeted(files)
  {
    if k in TargetKeys(files) && k !in files {
      var j :| j in files && files[j].key == k;
      assert k in Retargeted(files);
    }
  }

  lemma {:induction false} RoomIffGone(l: List, files: map<Name, File>, k: Name)
    requires NoKeyTwice(l) && k in Involved(files)
    ensures Room(l, files, k) <==> k in Retargeted(files) || k !in Keys(Across(l, files, k))
  {
    HeldSome(l.items, k);
    HeldSome(l.hidden, k);
    OldOrTarget(files, k);
  }

  /** The side on which the new file for the key does not belong. */
  function Across(l: List, files: map<Name, File>, k: Name): seq<File> {
    if k in files && Visible(l.view, files[k]) then l.hidden else l.items
  }

  lemma {:induction false} SurvivorIsAcross(l: List, files: map<Name, File>, f: File)
    requires Placed(l)
    ensures f in Survivors(l, files) <==>
            f.key in files && f.key !in Retargeted(files) && f in Across(l, files, f.key)
  {}

  /** When no key is listed twice, an upsert is the simultaneous rename if and only if no file is left over on
      the other side of the view from its replacement. */
  lemma {:induction false} DistinctUpsertIsRenameIff(l: List, known: map<Name, File>, t: List)
    requires Placed(l) && NoKeyTwice(l) && Upserted(l, known, t)
    ensures Everything(t) == Renamed(l, Proper(known)) <==> Survivors(l, Proper(known)) == {}
  {
    var files := Proper(known);
    UpsertIsRenameIff(l, known, t);
    forall k | k in Involved(files)
      ensures Room(l, files, k) <==> k in Retargeted(files) || k !in Keys(Across(l, files, k)) {
      RoomIffGone(l, files, k);
    }
    if f :| f in Survivors(l, files) {
      SurvivorIsAcross(l, files, f);
      assert f.key in Involved(files) && f.key in Keys(Across(l, files, f.key));
    }
    if k :| k in Involved(files) && !Room(l, files, k) {
      var f :| f in Across(l, files, k) && f.key == k;
      assert k in files by { OldOrTarget(files, k); }
      SurvivorIsAcross(l, files, f);
    }
  }

  lemma {:induction false} OnceListed(fs: seq<File>, quota: multiset<Name>, f: File)
    requires Held(fs, f.key) <= 1
    ensures f in Beyond(fs, quota) <==> f in fs && f.key !in quota
  {
    BeyondComesFrom(fs, quota);
    BeyondHeld(fs, quota, f.key);
    HeldSome(Beyond(fs, quota), f.key);
  }

  lemma {:induction false} WhoStays(l: List, files: map<Name, File>, f: File)
    requires Placed(l) && NoKeyTwice(l)
    ensures f in Untouched(l, files) <==>
            (f in l.items + l.hidden && f.key !in Involved(files)) || f in Survivors(l, files)
  {
    OnceListed(l.items, FromShown(l, files), f);
    OnceListed(l.hidden, FromHidden(l, files), f);
    SurvivorIsAcross(l, files, f);
    HeldSome(l.items, f.key);
    HeldSome(l.hidden, f.key);
    OldOrTarget(files, f.key);
  }

  /** And what it leaves is the renamed files with those left over. */
  lemma {:induction false} DistinctUpsertLeaves(l: List, known: map<Name, File>, t: List)
    requires Placed(l) && NoKeyTwice(l) && Upserted(l, known, t)
    ensures forall f :: f in Everything(t) <==> f in Renamed(l, Proper(known)) || f in Survivors(l, Proper(known))
  {
    var files := Proper(known);
    UpsertLeavesInAll(l, known, t);
    OutsideHolds(l.items + l.hidden, Involved(files));
    forall f ensures f in Everything(t) <==> f in Renamed(l, files) || f in Survivors(l, files) {
      WhoStays(l, files, f);
    }
  }

  // --- Which events keep it so

  /** What an upsert or an update places where it finds the key on the side of the new file. */
  function Exchanged(l: List, files: map<Name, File>): map<Name, File> {
    map k | k in files && k in Keys(if Visible(l.view, files[k]) then l.items else l.hidden) :: files[k]
  }

  /** Exactly what an event must meet to keep a listing free of repeated keys. */
  ghost predicate Apart(l: List, e: Event) {
    match e
    case GotFull(fs, _) => forall k :: k != [] ==> Held(fs, k) <= 1
    case GotPart(fs, ticket) =>
      // a chunk under the ticket in force names new keys, each once
      fs != [] && ticket == l.ticket ==> forall k :: k != [] ==> Held(l.items, k) + Held(l.hidden, k) + Held(fs, k) <= 1
    case GotCreated(fs) =>
      // nothing is created on one side that is known, or created, on the other
      Keys(l.items) + Keys(Side(l.view, true, fs)) !! Keys(l.hidden) + Keys(Side(l.view, false, fs))
    case GotExisting(known) =>
      // what is exchanged takes different keys, none of a file that is not exchanged itself
      var placed := Exchanged(l, Proper(known));
      DistinctTargets(placed) &&
      forall k :: k in placed && placed[k].key in Keys(l.items) + Keys(l.hidden) ==> placed[k].key in placed
    case GotUpserted(known) =>
      // new files take different keys, and none that keeps its key changes sides
      var files := Proper(known);
      DistinctTargets(files) &&
      forall k :: k in files && files[k].key == k ==> k !in Keys(Across(l, files, k))
    case _ => true
  }

  // --- The counts after each event

  lemma {:induction false} HeldSideFirst(v: View, visible: bool, fs: seq<File>, k: Name)
    requires fs != []
    ensures Held(Side(v, visible, fs), k) == Held(Side(v, visible, fs[1..]), k) +
            if fs[0].key == k && k != [] && Visible(v, fs[0]) == visible then 1 else 0
  {
    var first := if fs[0].key != [] && Visible(v, fs[0]) == visible then [fs[0]] else [];
    HeldAppend(first, Side(v, visible, fs[1..]), k);
  }

  lemma {:induction false} HeldSides(v: View, fs: seq<File>, k: Name)
    ensures Held(Side(v, true, fs), k) + Held(Side(v, false, fs), k) == if k == [] then 0 else Held(fs, k)
  {
    if fs != [] {
      HeldSides(v, fs[1..], k);
      HeldSideFirst(v, true, fs, k);
      HeldSideFirst(v, false, fs, k);
    }
  }

  lemma {:induction false} HeldInAll(l: List, k: Name)
    ensures Held(l.items + l.hidden, k) == Held(l.items, k) + Held(l.hidden, k)
  {
    HeldAppend(l.items, l.hidden, k);
  }

  lemma {:induction false} PlacedHasNoEmptyKey(l: List)
    requires Placed(l)
    ensures Held(l.items, []) == 0 && Held(l.hidden, []) == 0
  {
    HeldSome(l.items, []);
    HeldSome(l.hidden, []);
  }

  lemma {:induction false} PartKeepsIff(l: List, fs: seq<File>, ticket: nat)
    requires Placed(l) && NoKeyTwice(l)
    ensures NoKeyTwice(Part(l, fs, ticket)) <==> Apart(l, GotPart(fs, ticket))
  {
    var t := Part(l, fs, ticket);
    PlacedHasNoEmptyKey(l);
    if fs != [] && ticket == l.ticket {
      forall k ensures Held(t.items, k) + Held(t.hidden, k) ==
                       Held(l.items, k) + Held(l.hidden, k) + if k == [] then 0 else Held(fs, k) {
        HeldSides(l.view, fs, k);
        HeldAppend(l.items, Side(l.view, true, fs), k);
        HeldAppend(l.hidden, Side(l.view, false, fs), k);
      }
    }
  }

  lemma {:induction false} FullKeepsIff(l: List, fs: seq<File>, minted: nat)
    requires NoKeyTwice(l)
    ensures NoKeyTwice(Full(l, fs, minted)) <==> Apart(l, GotFull(fs, minted))
  {
    var t := Full(l, fs, minted);
    forall k ensures Held(t.items, k) + Held(t.hidden, k) == if k == [] then 0 else Held(fs, k) {
      HeldSides(l.view, fs, k);
    }
  }

  /** A side with files added whose keys it does not know. */
  lemma {:induction false} HeldAdded(fs: seq<File>, news: seq<File>, added: seq<File>, k: Name)
    requires Lists(added, ByKey(news) - Keys(fs))
    ensures Held(fs + added, k) == if k in Keys(fs) then Held(fs, k) else if k in Keys(news) then 1 else 0
  {
    var m := ByKey(news) - Keys(fs);
    ByKeyHolds(news);
    ListsTheSame(added, m);
    HeldSame(added, Listed(m), k);
    HeldListed(m, k);
    HeldSome(fs, k);
    HeldAppend(fs, added, k);
    if k in m { assert m[k].key == k; }
  }

  lemma {:induction false} CreatedKeepsIff(l: List, fs: seq<File>, t: List)
    requires NoKeyTwice(l) && Created(l, fs, t)
    ensures NoKeyTwice(t) <==> Apart(l, GotCreated(fs))
  {
    var on, off := Side(l.view, true, fs), Side(l.view, false, fs);
    var a, b :| Lists(a, ByKey(on) - Keys(l.items)) && Lists(b, ByKey(off) - Keys(l.hidden)) &&
      t == Bump(l, ByKey(on) - Keys(l.items) != map[]).(items := l.items + a, hidden := l.hidden + b);
    forall k ensures Held(t.items, k) + Held(t.hidden, k) <= 1 <==>
                     !(k in Keys(l.items) + Keys(on) && k in Keys(l.hidden) + Keys(off)) {
      HeldAdded(l.items, on, a, k);
      HeldAdded(l.hidden, off, b, k);
      HeldSome(l.items, k);
      HeldSome(l.hidden, k);
    }
  }

  lemma {:induction false} DeleteKeeps(l: List, keys: set<Name>)
    requires NoKeyTwice(l)
    ensures NoKeyTwice(Delete(l, keys))
  {
    var rest := Without(l.items, keys - {[]}, 0).rest;
    WithoutIsBeyond(l.items, keys - {[]}, 0);
    WithoutIsBeyond(l.hidden, rest, 0);
    forall k ensures Held(Delete(l, keys).items, k) + Held(Delete(l, keys).hidden, k) <= 1 {
      BeyondHeld(l.items, multiset(keys - {[]}), k);
      BeyondHeld(l.hidden, multiset(rest), k);
    }
  }

  /** Adding the files of a map to others without repeated keys. */
  lemma {:induction false} AddedApart(fs: seq<File>, m: map<Name, File>)
    requires forall k :: Held(fs, k) + Held(Listed(m), k) <= 1
    ensures DistinctTargets(m) && forall k :: k in m ==> m[k].key !in Keys(fs)
  {
    forall j, k | j in m && k in m && j != k ensures m[j].key != m[k].key {
      if m[j].key == m[k].key { HeldTwice(m, j, k); }
    }
    forall k | k in m ensures m[k].key !in Keys(fs) {
      HeldListed(m, m[k].key);
      HeldSome(fs, m[k].key);
    }
  }

  lemma {:induction false} ApartAdded(fs: seq<File>, m: map<Name, File>, k: Name)
    requires Held(fs, k) <= 1 && DistinctTargets(m) && forall j :: j in m ==> m[j].key !in Keys(fs)
    ensures Held(fs, k) + Held(Listed(m), k) <= 1
  {
    HeldListed(m, k);
    HeldSome(fs, k);
    if k in TargetKeys(m) { var j :| j in m && m[j].key == k; }
  }

  lemma {:induction false} MadeOfIff(t: List, stays: seq<File>, m: map<Name, File>)
    requires MadeOf(t, stays, m) && forall k :: Held(stays, k) <= 1
    ensures NoKeyTwice(t) <==> DistinctTargets(m) && forall k :: k in m ==> m[k].key !in Keys(stays)
  {
    forall k ensures Held(t.items, k) + Held(t.hidden, k) == Held(stays, k) + Held(Listed(m), k) {
      HeldInAll(t, k);
      HeldAppend(Listed(m), stays, k);
      HeldSame(t.items + t.hidden, Listed(m) + stays, k);
    }
    if NoKeyTwice(t) { AddedApart(stays, m); }
    if DistinctTargets(m) && forall k :: k in m ==> m[k].key !in Keys(stays) {
      forall k ensures Held(t.items, k) + Held(t.hidden, k) <= 1 { ApartAdded(stays, m, k); }
    }
  }

  lemma {:induction false} StaysOnce(l: List, a: multiset<Name>, b: multiset<Name>, k: Name)
    requires NoKeyTwice(l)
    ensures var stays := Beyond(l.items, a) + Beyond(l.hidden, b);
      Held(stays, k) <= 1 && (k in Keys(stays) <==> (k in Keys(l.items) && k !in a) || (k in Keys(l.hidden) && k !in b))
  {
    var x, y := Beyond(l.items, a), Beyond(l.hidden, b);
    HeldAppend(x, y, k);
    BeyondHeld(l.items, a, k);
    BeyondHeld(l.hidden, b, k);
    HeldSome(l.items, k);
    HeldSome(l.hidden, k);
    HeldSome(x + y, k);
  }

  lemma {:induction false} UntouchedKeepsIff(l: List, known: map<Name, File>, t: List)
    requires NoKeyTwice(l) && MadeOf(t, Untouched(l, Proper(known)), Proper(known))
    ensures NoKeyTwice(t) <==> Apart(l, GotUpserted(known))
  {
    var files := Proper(known);
    forall k
      ensures Held(Untouched(l, files), k) <= 1
      ensures k in Keys(Untouched(l, files)) <==>
              (k in Keys(l.items) && k !in FromShown(l, files)) || (k in Keys(l.hidden) && k !in FromHidden(l, files))
    {
      StaysOnce(l, FromShown(l, files), FromHidden(l, files), k);
    }
    MadeOfIff(t, Untouched(l, files), files);
    if DistinctTargets(files) {
      forall k | k in files
        ensures files[k].key in Keys(Untouched(l, files)) <==> files[k].key == k && k in Keys(Across(l, files, k)) {
        TargetStaysIff(l, files, k);
      }
    }
  }

  lemma {:induction false} TargetStaysIff(l: List, files: map<Name, File>, k: Name)
    requires NoKeyTwice(l) && DistinctTargets(files) && k in files
    ensures var x := files[k].key;
      (x in Keys(l.items) && x !in FromShown(l, files)) || (x in Keys(l.hidden) && x !in FromHidden(l, files)) <==>
      x == k && x in Keys(Across(l, files, k))
  {
    var x := files[k].key;
    HeldSome(l.items, x);
    HeldSome(l.hidden, x);
    if x != k {
      assert x in Retargeted(files);
    } else {
      assert x !in Retargeted(files);
    }
  }

  lemma {:induction false} ExchangedHalves(l: List, files: map<Name, File>)
    ensures Half(l.view, true, Exchanged(l, files)) == Met(Half(l.view, true, files), Keys(l.items))
    ensures Half(l.view, false, Exchanged(l, files)) == Met(Half(l.view, false, files), Keys(l.hidden))
  {}

  /** The files that an update leaves as they are. */
  function NotExchanged(l: List, files: map<Name, File>): seq<File> {
    Beyond(l.items, multiset(Half(l.view, true, files).Keys)) +
    Beyond(l.hidden, multiset(Half(l.view, false, files).Keys))
  }

  lemma {:induction false} ExistingIsMadeOf(l: List, known: map<Name, File>)
    ensures MadeOf(Existing(l, known).0, NotExchanged(l, Proper(known)), Exchanged(l, Proper(known)))
  {
    var files := Proper(known);
    var a, b := Half(l.view, true, files), Half(l.view, false, files);
    ReplacedIs(l.items, a);
    ReplacedIs(l.hidden, b);
    HalvesMakeWhole(l.view, Exchanged(l, files));
    ExchangedHalves(l, files);
    Interleave(multiset(Beyond(l.items, multiset(a.Keys))), Bag(Met(a, Keys(l.items))),
               multiset(Beyond(l.hidden, multiset(b.Keys))), Bag(Met(b, Keys(l.hidden))));
  }

  lemma {:induction false} Interleave(a: multiset<File>, b: multiset<File>, c: multiset<File>, d: multiset<File>)
    ensures a + b + (c + d) == b + d + (a + c)
  {}

  lemma {:induction false} NotExchangedHolds(l: List, files: map<Name, File>, k: Name)
    requires NoKeyTwice(l)
    ensures Held(NotExchanged(l, files), k) <= 1
    ensures k in Keys(NotExchanged(l, files)) <==> k in Keys(l.items) + Keys(l.hidden) && k !in Exchanged(l, files)
  {
    StaysOnce(l, multiset(Half(l.view, true, files).Keys), multiset(Half(l.view, false, files).Keys), k);
    HeldSome(l.items, k);
    HeldSome(l.hidden, k);
  }

  lemma {:induction false} NotExchangedKeepsIff(l: List, known: map<Name, File>, t: List)
    requires NoKeyTwice(l) && MadeOf(t, NotExchanged(l, Proper(known)), Exchanged(l, Proper(known)))
    ensures NoKeyTwice(t) <==> Apart(l, GotExisting(known))
  {
    var files := Proper(known);
    var stays := NotExchanged(l, files);
    forall k
      ensures Held(stays, k) <= 1
      ensures k in Keys(stays) <==> k in Keys(l.items) + Keys(l.hidden) && k !in Exchanged(l, files)
    {
      NotExchangedHolds(l, files, k);
    }
    MadeOfIff(t, stays, Exchanged(l, files));
  }

  lemma {:induction false} SameFilesSameKeys(l: List, t: List)
    requires Everything(t) == Everything(l)
    ensures NoKeyTwice(t) <==> NoKeyTwice(l)
  {
    forall k ensures Held(t.items, k) + Held(t.hidden, k) == Held(l.items, k) + Held(l.hidden, k) {
      HeldInAll(l, k);
      HeldInAll(t, k);
      HeldSame(l.items + l.hidden, t.items + t.hidden, k);
    }
  }

  /** Each event keeps a listing free of repeated keys exactly when it meets its condition. */
  lemma {:induction false} StepKeepsKeysIff(l: List, e: Event, t: List)
    requires Placed(l) && NoKeyTwice(l) && Step(l, e, t)
    ensures NoKeyTwice(t) <==> Apart(l, e)
  {
    match e {
      case GotFull(fs, minted) => FullKeepsIff(l, fs, minted);
      case GotPart(fs, ticket) => PartKeepsIff(l, fs, ticket);
      case GotCreated(fs) => CreatedKeepsIff(l, fs, t);
      case GotDeleted(keys) => DeleteKeeps(l, keys);
      case GotExisting(known) =>
        ExistingIsMadeOf(l, known);
        NotExchangedKeepsIff(l, known, t);
      case GotUpserted(known) =>
        UpsertLeavesInAll(l, known, t);
        UntouchedKeepsIff(l, known, t);
      case GotSizes(_) =>
      case GotRanks(_) =>
      case GotFail(_) =>
      case _ =>
        ViewChangesKeepFiles(l, e, t);
        SameFilesSameKeys(l, t);
    }
  }

  /** Over every run from the empty listing: no listing ever holds a key twice if and only if each event met its
      condition. */
  lemma {:induction false} KeysStayDistinctIff(ls: seq<List>, es: seq<Event>)
    requires IsRun(ls, es) && StartsNew(ls)
    ensures (forall n :: 0 <= n < |ls| ==> NoKeyTwice(ls[n])) <==> forall i :: 0 <= i < |es| ==> Apart(ls[i], es[i])
  {
    if forall n :: 0 <= n < |ls| ==> NoKeyTwice(ls[n]) {
      forall i | 0 <= i < |es| ensures Apart(ls[i], es[i]) {
        RunsStayPlaced(ls, es, i);
        assert NoKeyTwice(ls[i]) && NoKeyTwice(ls[i + 1]);
        StepKeepsKeysIff(ls[i], es[i], ls[i + 1]);
      }
    }
    if forall i :: 0 <= i < |es| ==> Apart(ls[i], es[i]) {
      forall n | 0 <= n < |ls| ensures NoKeyTwice(ls[n]) { ApartKeepsKeys(ls, es, n); }
    }
  }

  lemma {:induction false} ApartKeepsKeys(ls: seq<List>, es: seq<Event>, n: nat)
    requires IsRun(ls, es) && StartsNew(ls) && n < |ls|
    requires forall i :: 0 <= i < n ==> Apart(ls[i], es[i])
    ensures NoKeyTwice(ls[n])
  {
    if n > 0 {
      ApartKeepsKeys(ls, es, n - 1);
      RunsStayPlaced(ls, es, n - 1);
      StepKeepsKeysIff(ls[n - 1], es[n - 1], ls[n]);
    }
  }

  /** So after every run of such events an upsert is the simultaneous rename if and only if nothing is left over
      on the other side of the view. */
  lemma {:induction false} UpsertInRunIsRenameIff(ls: seq<List>, es: seq<Event>, n: nat, known: map<Name, File>)
    requires IsRun(ls, es) && StartsNew(ls) && n < |es| && es[n] == GotUpserted(known)
    requires forall i :: 0 <= i < n ==> Apart(ls[i], es[i])
    ensures Everything(ls[n + 1]) == Renamed(ls[n], Proper(known)) <==> Survivors(ls[n], Proper(known)) == {}
  {
    ApartKeepsKeys(ls, es, n);
    RunsStayPlaced(ls, es, n);
    DistinctUpsertIsRenameIff(ls[n], known, ls[n + 1]);
  }

  // --- The smallest upserts that are no rename

  lemma {:induction false} OneRename(l: List, f: File, g: File)
    requires f.key != [] && g.key != [] && f.key != g.key
    requires forall h :: h in l.items + l.hidden ==> h == f
    ensures var files := map[f.key := g];
      Proper(files) == files && Retargeted(files) == {g.key} && Renamed(l, files) == multiset{g}
  {
    var files := map[f.key := g];
    assert Retargeted(files) == {g.key} by { assert files[f.key] == g; }
    BagTake(files, f.key);
    assert files - {f.key} == map[];
    NothingOutside(l.items + l.hidden, Involved(files));
  }

  lemma {:induction false} NothingOutside(fs: seq<File>, keys: set<Name>)
    requires forall f :: f in fs ==> f.key in keys
    ensures Outside(fs, keys) == []
  {
    if fs != [] {
      assert fs[0] in fs && forall f :: f in fs[1..] ==> f in fs;
      NothingOutside(fs[1..], keys);
    }
  }

  lemma {:induction false} OneBag(f: File, k: Name)
    ensures Bag(map[k := f]) == multiset{f} && Bag(map[]) == multiset{}
  {
    BagTake(map[k := f], k);
    assert map[k := f] - {k} == map[];
  }

  /** A rename that hides the file leaves the old file shown. */
  lemma {:induction false} HidingLeavesTheOldFile(l: List, f: File, g: File, t: List)
    requires l.items == [f] && l.hidden == [] && !Visible(l.view, g) && Visible(l.view, f)
    requires f.key != [] && g.key != [] && f.key != g.key
    requires Upserted(l, map[f.key := g], t)
    ensures multiset(t.items) == multiset{f} && multiset(t.hidden) == multiset{g}
    ensures Renamed(l, map[f.key := g]) == multiset{g}
  {
    var files := map[f.key := g];
    OneRename(l, f, g);
    UpsertLeaves(l, files, t);
    OneHalf(l.view, f.key, g);
    OneBag(g, f.key);
    NotTaken(f, FromShown(l, files));
  }

  lemma {:induction false} OneHalf(v: View, k: Name, f: File)
    ensures Half(v, Visible(v, f), map[k := f]) == map[k := f] && Half(v, !Visible(v, f), map[k := f]) == map[]
  {}

  lemma {:induction false} NotTaken(f: File, quota: multiset<Name>)
    requires f.key !in quota
    ensures Beyond([f], quota) == [f]
  {}

  lemma {:induction false} OneTaken(f: File, quota: multiset<Name>)
    requires quota[f.key] == 1
    ensures Beyond([f, f], quota) == [f]
  {
    assert [f, f][1..] == [f];
    NotTaken(f, quota - multiset{f.key});
  }

  /** Every map can be walked. */
  lemma {:induction false} WalkExists(m: map<Name, File>) returns (ks: seq<Name>)
    ensures ListedBy(ks, m, Listed(m))
    decreases |m|
  {
    if m == map[] {
      ks := [];
    } else {
      var k := Pick(m);
      var t := WalkExists(m - {k});
      WalkMore(k, t, m, Listed(m - {k}));
      ks := [k] + t;
    }
  }

  lemma {:induction false} WalkMore(k: Name, t: seq<Name>, m: map<Name, File>, fs: seq<File>)
    requires k in m && ListedBy(t, m - {k}, fs)
    ensures ListedBy([k] + t, m, [m[k]] + fs)
  {
    var ks, all := [k] + t, [m[k]] + fs;
    forall i, j | 0 <= i < j < |ks| ensures ks[i] != ks[j] {
      assert ks[j] == t[j - 1] && t[j - 1] in t && t[j - 1] in m - {k};
      if i > 0 { assert ks[i] == t[i - 1]; }
    }
    forall j ensures j in ks <==> j in m { WalkMember(k, t, m, j); }
    forall i | 0 <= i < |all| ensures ks[i] in m && all[i] == m[ks[i]] {
      if i > 0 { assert ks[i] == t[i - 1] && all[i] == fs[i - 1] && t[i - 1] in m - {k}; }
    }
  }

  lemma {:induction false} WalkMember(k: Name, t: seq<Name>, m: map<Name, File>, j: Name)
    requires k in m && Walks(t, m - {k})
    ensures j in [k] + t <==> j in m
  {
    assert j in t <==> j in m - {k};
  }

  lemma {:induction false} UpsertExists(l: List, known: map<Name, File>) returns (t: List)
    ensures Upserted(l, known, t)
  {
    var (m, off, on) := Existing(Delete(l, Retargeted(Proper(known))), known);
    var a := WalkExists(off);
    var b := WalkExists(on);
    t := Bump(m, on != map[]).(hidden := m.hidden + Listed(off), items := m.items + Listed(on));
    ExtendedBy(m, off, on, Listed(off), Listed(on), t);
  }

  lemma {:induction false} RunLonger(ls: seq<List>, es: seq<Event>, e: Event, t: List) returns (longer: seq<List>)
    requires IsRun(ls, es) && Step(ls[|es|], e, t)
    ensures longer == ls + [t] && IsRun(longer, es + [e])
  {
    longer := ls + [t];
  }

  /** A scan starts, the file is created, and the scan lists it too. */
  function ListedAgain(f: File): seq<Event> { [GotPart([], 1), GotCreated([f]), GotPart([f], 1)] }

  lemma {:induction false} FirstShown(v: View, f: File)
    requires v == View(None, true) && f.key != []
    ensures Side(v, true, [f]) == [f] && Side(v, false, [f]) == []
  {
    SideOfSide(v, true, [f]);
  }

  lemma {:induction false} FirstCreated(l: List, f: File) returns (t: List)
    requires l.items == l.hidden == [] && l.view == View(None, true) && f.key != []
    ensures Created(l, [f], t) && t == Bump(l, true).(items := [f])
  {
    FirstShown(l.view, f);
    assert ByKey([f]) == map[f.key := f];
    assert ListedBy([f.key], ByKey([f]) - Keys([]), [f]);
    assert ListedBy([], ByKey([]) - Keys([]), []);
    t := Bump(l, true).(items := [f]);
    assert [] + [f] == [f];
    CreatedBy(l, [f], [f], [], t);
  }

  lemma {:induction false} ScanListsAgain(sorter: FilesSorter, latin: Name -> Name, f: File) returns (ls: seq<List>)
    requires f.key != []
    ensures IsRun(ls, ListedAgain(f)) && ls[0] == New(true, sorter, latin)
    ensures ls[3].items == [f, f] && ls[3].hidden == [] && ls[3].view == View(None, true)
  {
    var l0 := New(true, sorter, latin);
    var l1 := Part(l0, [], 1);
    var l2 := FirstCreated(l1, f);
    FirstShown(l2.view, f);
    assert [f] + [f] == [f, f];
    ls := [l0, l1, l2, Part(l2, [f], 1)];
  }

  lemma {:induction false} TakesOne(l: List, k: Name, g: File)
    requires g.key != k && Visible(l.view, g)
    ensures FromShown(l, map[k := g])[k] == 1
  {}

  lemma {:induction false} OneOfTwoIsRenamed(l: List, f: File, g: File, t: List)
    requires l.items == [f, f] && l.hidden == [] && l.view == View(None, true)
    requires f.key != [] && g.key != [] && f.key != g.key
    requires Upserted(l, map[f.key := g], t)
    ensures Everything(t) == multiset{f, g} && Renamed(l, map[f.key := g]) == multiset{g}
  {
    var files := map[f.key := g];
    OneRename(l, f, g);
    UpsertLeaves(l, files, t);
    OneHalf(l.view, f.key, g);
    OneBag(g, f.key);
    TakesOne(l, f.key, g);
    OneTaken(f, FromShown(l, files));
  }

  lemma {:induction false} AllShown(l: List, files: map<Name, File>)
    requires l.view == View(None, true)
    ensures Survivors(l, files) == {}
  {}

  /** A file created while a scan runs is listed again when its chunk arrives; then a rename leaves one of the
      two under the old key, although all of them are shown. */
  lemma {:induction false} RepeatedKeyOutlivesRename(sorter: FilesSorter, latin: Name -> Name, f: File, g: File)
    returns (ls: seq<List>)
    requires f.key != [] && g.key != [] && f.key != g.key
    ensures IsRun(ls, ListedAgain(f) + [GotUpserted(map[f.key := g])])
    ensures ls[0] == New(true, sorter, latin)
    ensures Everything(ls[3]) == multiset{f, f} && Survivors(ls[3], map[f.key := g]) == {}
    ensures Everything(ls[4]) == multiset{f, g} && Renamed(ls[3], map[f.key := g]) == multiset{g}
  {
    ls := ScanListsAgain(sorter, latin, f);
    var l := ls[3];
    var t := UpsertExists(l, map[f.key := g]);
    OneOfTwoIsRenamed(l, f, g, t);
    AllShown(l, map[f.key := g]);
    ls := RunLonger(ls, ListedAgain(f), GotUpserted(map[f.key := g]), t);
  }
}
