/** The directory listing of yazi-fs/src/entries.rs: files split into shown and hidden ones, kept up to
    date piece by piece and sorted only when someone looks. */
module Entries {
  import opened Ordering
  import opened Sorter
  import opened Wrappers

  // --- What is shown

  /** A name filter; filters are compared by their text alone. */
  datatype Filter = Filter(raw: string, accepts: Name -> bool)

  datatype View = View(filter: Option<Filter>, showHidden: bool)

  predicate Visible(v: View, f: File) {
    (v.showHidden || !f.hidden) && (v.filter.Some? ==> v.filter.value.accepts(f.urn))
  }

  /** The files of fs on one side of the view, in order; files without a key are dropped. */
  function Side(v: View, visible: bool, fs: seq<File>): seq<File> {
    if fs == [] then []
    else (if fs[0].key != [] && Visible(v, fs[0]) == visible then [fs[0]] else []) + Side(v, visible, fs[1..])
  }

  lemma {:induction false} SideHolds(v: View, visible: bool, fs: seq<File>)
    ensures forall f :: f in Side(v, visible, fs) <==> f in fs && f.key != [] && Visible(v, f) == visible
  {
    if fs != [] { SideHolds(v, visible, fs[1..]); }
  }

  lemma {:induction false} SideFirst(v: View, fs: seq<File>)
    requires fs != [] && fs[0].key != []
    ensures multiset(Side(v, true, fs)) + multiset(Side(v, false, fs)) ==
            multiset{fs[0]} + (multiset(Side(v, true, fs[1..])) + multiset(Side(v, false, fs[1..])))
  {
    var here := Visible(v, fs[0]);
    assert Side(v, here, fs) == [fs[0]] + Side(v, here, fs[1..]);
    assert Side(v, !here, fs) == Side(v, !here, fs[1..]);
  }

  lemma {:induction false} SidesMakeWhole(v: View, fs: seq<File>)
    requires forall f :: f in fs ==> f.key != []
    ensures multiset(Side(v, true, fs)) + multiset(Side(v, false, fs)) == multiset(fs)
  {
    if fs != [] {
      assert fs[0] in fs;
      SidesMakeWhole(v, fs[1..]);
      SideFirst(v, fs);
      FirstApart(fs);
    }
  }

  lemma {:induction false} FirstApart(fs: seq<File>)
    requires fs != []
    ensures multiset(fs) == multiset{fs[0]} + multiset(fs[1..])
  {
    assert fs == [fs[0]] + fs[1..];
  }

  lemma {:induction false} SideOfSide(v: View, visible: bool, fs: seq<File>)
    requires forall f :: f in fs ==> f.key != [] && Visible(v, f) == visible
    ensures Side(v, visible, fs) == fs && Side(v, !visible, fs) == []
  {
    if fs != [] {
      assert fs[0] in fs && forall f :: f in fs[1..] ==> f in fs;
      SideOfSide(v, visible, fs[1..]);
    }
  }

  // --- The listing

  datatype List = List(hidden: seq<File>, items: seq<File>, ticket: nat, version: nat, revision: nat,
                       sizes: map<Name, int>, ranks: map<Name, int>, latin: Name -> Name,
                       sorter: FilesSorter, view: View)

  function TablesOf(l: List): Tables { Tables(l.sizes, l.ranks, l.latin) }

  function Bump(l: List, changed: bool): List { if changed then l.(revision := l.revision + 1) else l }

  function Full(l: List, fs: seq<File>, minted: nat): List {
    var items := Side(l.view, true, fs);
    Bump(l, items != [] || l.items != []).(ticket := minted, hidden := Side(l.view, false, fs), items := items)
  }

  /** An empty part starts a scan over under its ticket; another part counts only under the ticket in force. */
  function Part(l: List, fs: seq<File>, ticket: nat): List {
    if fs == [] then Bump(l, l.items != []).(ticket := ticket, hidden := [], items := [])
    else if ticket != l.ticket then l
    else
      var items := Side(l.view, true, fs);
      Bump(l, items != []).(hidden := l.hidden + Side(l.view, false, fs), items := l.items + items)
  }

  function Fail(l: List, minted: nat): List {
    Bump(l, l.items != []).(ticket := minted, hidden := [], items := [])
  }

  function Sized(l: List, news: map<Name, int>): List {
    var sizes := l.sizes + (news - {[]});
    Bump(l, sizes != l.sizes && l.sorter.criterion == Size).(sizes := sizes)
  }

  /** A rank of zero is no rank. */
  function NewRanks(ranks: map<Name, int>, news: map<Name, int>): map<Name, int> {
    map k | k in ranks.Keys + news.Keys && (if k in news && k != [] then news[k] != 0 else k in ranks) ::
      if k in news && k != [] then news[k] else ranks[k]
  }

  function Ranked(l: List, news: map<Name, int>): List {
    var ranks := NewRanks(l.ranks, news);
    Bump(l, ranks != l.ranks && l.sorter.criterion == Custom).(ranks := ranks)
  }

  /** The files by key; of several under one key the last counts. */
  function ByKey(fs: seq<File>): map<Name, File> {
    if fs == [] then map[] else ByKey(fs[..|fs| - 1])[fs[|fs| - 1].key := fs[|fs| - 1]]
  }

  function Keys(fs: seq<File>): set<Name> { set f | f in fs :: f.key }

  /** The order in which a hash map is walked: every key once. */
  ghost predicate Walks(ks: seq<Name>, m: map<Name, File>) {
    (forall i, j :: 0 <= i < j < |ks| ==> ks[i] != ks[j]) && (forall k :: k in ks <==> k in m)
  }

  ghost predicate ListedBy(ks: seq<Name>, m: map<Name, File>, fs: seq<File>) {
    Walks(ks, m) && |ks| == |fs| && forall i :: 0 <= i < |fs| ==> ks[i] in m && fs[i] == m[ks[i]]
  }

  ghost predicate Lists(fs: seq<File>, m: map<Name, File>) { exists ks :: ListedBy(ks, m, fs) }

  /** The files of a side that are not listed there yet go to its end. */
  ghost predicate Created(l: List, fs: seq<File>, t: List) {
    var items, hidden := ByKey(Side(l.view, true, fs)) - Keys(l.items), ByKey(Side(l.view, false, fs)) - Keys(l.hidden);
    exists a, b :: Lists(a, items) && Lists(b, hidden) &&
      t == Bump(l, items != map[]).(items := l.items + a, hidden := l.hidden + b)
  }

  /** A list with, for each key, the first file of that key cut out; the keys not met; the positions. */
  datatype Cut = Cut(list: seq<File>, rest: set<Name>, gone: seq<nat>)

  function Without(fs: seq<File>, keys: set<Name>, at: nat): Cut {
    if fs == [] then Cut([], keys, [])
    else if fs[0].key in keys then
      var c := Without(fs[1..], keys - {fs[0].key}, at + 1);
      Cut(c.list, c.rest, [at] + c.gone)
    else
      var c := Without(fs[1..], keys, at + 1);
      Cut([fs[0]] + c.list, c.rest, c.gone)
  }

  function Delete(l: List, keys: set<Name>): List {
    var c := Without(l.items, keys - {[]}, 0);
    Bump(l, c.gone != []).(items := c.list, hidden := Without(l.hidden, c.rest, 0).list)
  }

  /** A list with, for each key, the first file of that key replaced; the files not placed; whether every
      replacement looked the same. */
  datatype Swap = Swap(list: seq<File>, rest: map<Name, File>, same: bool)

  function Replaced(fs: seq<File>, news: map<Name, File>): Swap {
    if fs == [] then Swap([], news, true)
    else if fs[0].key in news then
      var f := news[fs[0].key];
      var r := Replaced(fs[1..], news - {fs[0].key});
      Swap([f] + r.list, r.rest, Hits(fs[0], f) && fs[0].key == f.key && r.same)
    else
      var r := Replaced(fs[1..], news);
      Swap([fs[0]] + r.list, r.rest, r.same)
  }

  function Proper(files: map<Name, File>): map<Name, File> {
    map k | k in files && k != [] && files[k].key != [] :: files[k]
  }

  function Half(v: View, visible: bool, files: map<Name, File>): map<Name, File> {
    map k | k in files && Visible(v, files[k]) == visible :: files[k]
  }

  /** The listing with the known files replaced by what is filed under their keys, and what is left over
      for each side. */
  function Existing(l: List, files: map<Name, File>): (List, map<Name, File>, map<Name, File>) {
    var items := Replaced(l.items, Half(l.view, true, Proper(files)));
    var hidden := Replaced(l.hidden, Half(l.view, false, Proper(files)));
    (Bump(l, !items.same).(items := items.list, hidden := hidden.list), hidden.rest, items.rest)
  }

  function Retargeted(files: map<Name, File>): set<Name> {
    set k | k in files && k != files[k].key :: files[k].key
  }

  /** What was left over goes to the ends, in any order. */
  ghost predicate Extended(m: List, hidden: map<Name, File>, items: map<Name, File>, t: List) {
    exists a, b :: Lists(a, hidden) && Lists(b, items) &&
      t == Bump(m, items != map[]).(hidden := m.hidden + a, items := m.items + b)
  }

  ghost predicate Upserted(l: List, files: map<Name, File>, t: List) {
    var (m, hidden, items) := Existing(Delete(l, Retargeted(Proper(files))), files);
    Extended(m, hidden, items, t)
  }

  ghost predicate SortedFrom(l: List, before: seq<File>, after: seq<File>) {
    multiset(after) == multiset(before) && Sorted(l.sorter, TablesOf(l), after)
  }

  ghost predicate CaughtUp(l: List, t: List) {
    if l.version == l.revision then t == l
    else SortedFrom(l, l.items, t.items) && t == l.(version := l.revision, items := t.items)
  }

  function SetSorter(l: List, sorter: FilesSorter): List { Bump(l, sorter != l.sorter).(sorter := sorter) }

  predicate SameFilter(a: Option<Filter>, b: Option<Filter>) {
    if a.Some? && b.Some? then a.value.raw == b.value.raw else a.None? && b.None?
  }

  ghost predicate Filtered(l: List, filter: Option<Filter>, t: List) {
    var v := l.view.(filter := filter);
    var back := Side(v, true, l.hidden);
    if SameFilter(l.view.filter, filter) then t == l
    else if filter.None? then
      && t == l.(view := v, hidden := Side(v, false, l.hidden), items := t.items)
      && (if back == [] then t.items == l.items else SortedFrom(l, l.items + back, t.items))
    else
      && t == l.(view := v, hidden := Side(v, false, l.items + l.hidden), items := t.items)
      && SortedFrom(l, Side(v, true, l.items + l.hidden), t.items)
  }

  function SetShowHidden(l: List, state: bool): List {
    var v := l.view.(showHidden := state);
    if state == l.view.showHidden then l
    else if state then
      var items := l.items + Side(v, true, l.hidden);
      Bump(l, |items| != |l.items|).(view := v, hidden := Side(v, false, l.hidden), items := items)
    else
      var items := Side(v, true, l.items);
      Bump(l, |items| != |l.items|).(view := v, hidden := l.hidden + Side(v, false, l.items), items := items)
  }

  // --- Runs

  datatype Event =
    | GotFull(files: seq<File>, minted: nat)
    | GotPart(files: seq<File>, ticket: nat)
    | GotSizes(sizes: map<Name, int>)
    | GotRanks(ranks: map<Name, int>)
    | GotFail(minted: nat)
    | GotCreated(files: seq<File>)
    | GotDeleted(keys: set<Name>)
    | GotExisting(known: map<Name, File>)
    | GotUpserted(known: map<Name, File>)
    | Look
    | Sort(sorter: FilesSorter)
    | Narrow(filter: Option<Filter>)
    | ShowHidden(state: bool)

  ghost predicate Step(l: List, e: Event, t: List) {
    match e
    case GotFull(fs, minted) => t == Full(l, fs, minted)
    case GotPart(fs, ticket) => t == Part(l, fs, ticket)
    case GotSizes(m) => t == Sized(l, m)
    case GotRanks(m) => t == Ranked(l, m)
    case GotFail(minted) => t == Fail(l, minted)
    case GotCreated(fs) => Created(l, fs, t)
    case GotDeleted(keys) => t == Delete(l, keys)
    case GotExisting(files) => t == Existing(l, files).0
    case GotUpserted(files) => Upserted(l, files, t)
    case Look => CaughtUp(l, t)
    case Sort(sorter) => t == SetSorter(l, sorter)
    case Narrow(filter) => Filtered(l, filter, t)
    case ShowHidden(state) => t == SetShowHidden(l, state)
  }

  // --- Every file is on its side

  ghost predicate OnSide(v: View, visible: bool, fs: seq<File>) {
    forall f :: f in fs ==> f.key != [] && Visible(v, f) == visible
  }

  ghost predicate Placed(l: List) { OnSide(l.view, true, l.items) && OnSide(l.view, false, l.hidden) }

  lemma {:induction false} ByKeyHolds(fs: seq<File>)
    ensures forall k :: k in ByKey(fs) ==> ByKey(fs)[k] in fs && ByKey(fs)[k].key == k
    ensures ByKey(fs).Keys == Keys(fs)
  {
    if fs != [] {
      ByKeyHolds(fs[..|fs| - 1]);
      assert fs == fs[..|fs| - 1] + [fs[|fs| - 1]];
    }
  }

  lemma {:induction false} ListsHolds(fs: seq<File>, m: map<Name, File>)
    requires Lists(fs, m)
    ensures forall f :: f in fs <==> exists k :: k in m && m[k] == f
    ensures |fs| == 0 <==> m == map[]
  {
    var ks :| ListedBy(ks, m, fs);
    forall k | k in m ensures m[k] in fs {
      var i :| 0 <= i < |ks| && ks[i] == k;
      assert fs[i] == m[k];
    }
    if |fs| > 0 { assert ks[0] in m; }
  }

  lemma {:induction false} WithoutHolds(fs: seq<File>, keys: set<Name>, at: nat)
    ensures forall f :: f in Without(fs, keys, at).list ==> f in fs
    ensures Without(fs, keys, at).gone == [] ==> Without(fs, keys, at).list == fs
  {
    if fs != [] { WithoutHolds(fs[1..], if fs[0].key in keys then keys - {fs[0].key} else keys, at + 1); }
  }

  lemma {:induction false} ReplacedHolds(fs: seq<File>, news: map<Name, File>)
    ensures forall f :: f in Replaced(fs, news).list ==> f in fs || exists k :: k in news && news[k] == f
    ensures forall k :: k in Replaced(fs, news).rest ==> k in news && Replaced(fs, news).rest[k] == news[k]
  {
    if fs != [] {
      if fs[0].key in news {
        ReplacedHolds(fs[1..], news - {fs[0].key});
      } else {
        ReplacedHolds(fs[1..], news);
      }
    }
  }

  lemma {:induction false} CreatedPlaced(l: List, fs: seq<File>, t: List)
    requires Placed(l) && Created(l, fs, t)
    ensures Placed(t)
  {
    var items, hidden := ByKey(Side(l.view, true, fs)) - Keys(l.items), ByKey(Side(l.view, false, fs)) - Keys(l.hidden);
    var a, b :| Lists(a, items) && Lists(b, hidden) &&
      t == Bump(l, items != map[]).(items := l.items + a, hidden := l.hidden + b);
    ListsHolds(a, items);
    ListsHolds(b, hidden);
    ByKeyHolds(Side(l.view, true, fs));
    ByKeyHolds(Side(l.view, false, fs));
    SideHolds(l.view, true, fs);
    SideHolds(l.view, false, fs);
  }

  lemma {:induction false} DeletePlaced(l: List, keys: set<Name>)
    requires Placed(l)
    ensures Placed(Delete(l, keys))
  {
    WithoutHolds(l.items, keys - {[]}, 0);
    WithoutHolds(l.hidden, Without(l.items, keys - {[]}, 0).rest, 0);
  }

  lemma {:induction false} ExistingPlaced(l: List, files: map<Name, File>)
    requires Placed(l)
    ensures var (t, hidden, items) := Existing(l, files);
      && Placed(t)
      && (forall k :: k in hidden ==> hidden[k].key != [] && !Visible(l.view, hidden[k]))
      && (forall k :: k in items ==> items[k].key != [] && Visible(l.view, items[k]))
  {
    ReplacedHolds(l.items, Half(l.view, true, Proper(files)));
    ReplacedHolds(l.hidden, Half(l.view, false, Proper(files)));
  }

  lemma {:induction false} UpsertedPlaced(l: List, files: map<Name, File>, t: List)
    requires Placed(l) && Upserted(l, files, t)
    ensures Placed(t)
  {
    DeletePlaced(l, Retargeted(Proper(files)));
    ExistingPlaced(Delete(l, Retargeted(Proper(files))), files);
    var (m, hidden, items) := Existing(Delete(l, Retargeted(Proper(files))), files);
    var a, b :| Lists(a, hidden) && Lists(b, items) &&
      t == Bump(m, items != map[]).(hidden := m.hidden + a, items := m.items + b);
    ListsHolds(a, hidden);
    ListsHolds(b, items);
  }

  lemma {:induction false} SamePlace(fs: seq<File>, gs: seq<File>)
    requires multiset(fs) == multiset(gs)
    ensures forall f :: f in fs <==> f in gs
  {
    forall f ensures f in fs <==> f in gs {
      assert f in fs <==> f in multiset(fs);
    }
  }

  lemma {:induction false} FilteredPlaced(l: List, filter: Option<Filter>, t: List)
    requires Placed(l) && Filtered(l, filter, t)
    ensures Placed(t)
  {
    var v := l.view.(filter := filter);
    SideHolds(v, true, l.hidden);
    SideHolds(v, false, l.hidden);
    SideHolds(v, true, l.items + l.hidden);
    SideHolds(v, false, l.items + l.hidden);
    if !SameFilter(l.view.filter, filter) {
      if filter.Some? {
        SamePlace(Side(v, true, l.items + l.hidden), t.items);
      } else if Side(v, true, l.hidden) != [] {
        SamePlace(l.items + Side(v, true, l.hidden), t.items);
      }
    }
  }

  lemma {:induction false} ShowHiddenPlaced(l: List, state: bool)
    requires Placed(l)
    ensures Placed(SetShowHidden(l, state))
  {
    var v := l.view.(showHidden := state);
    SideHolds(v, true, l.hidden);
    SideHolds(v, false, l.hidden);
    SideHolds(v, true, l.items);
    SideHolds(v, false, l.items);
  }

  /** Whatever happens, `items` holds only visible and `hidden` only invisible files. */
  lemma {:induction false} StepPlaced(l: List, e: Event, t: List)
    requires Placed(l) && Step(l, e, t)
    ensures Placed(t)
  {
    match e {
      case GotFull(fs, _) => SideHolds(l.view, true, fs); SideHolds(l.view, false, fs);
      case GotPart(fs, _) => SideHolds(l.view, true, fs); SideHolds(l.view, false, fs);
      case GotCreated(fs) => CreatedPlaced(l, fs, t);
      case GotDeleted(keys) => DeletePlaced(l, keys);
      case GotExisting(files) => ExistingPlaced(l, files);
      case GotUpserted(files) => UpsertedPlaced(l, files, t);
      case Look => if l.version != l.revision { SamePlace(l.items, t.items); }
      case Narrow(filter) => FilteredPlaced(l, filter, t);
      case ShowHidden(state) => ShowHiddenPlaced(l, state);
      case _ =>
    }
  }

  /** So splitting everything anew would change nothing. */
  lemma {:induction false} SplitIsCurrent(l: List)
    requires Placed(l)
    ensures multiset(Side(l.view, true, l.items + l.hidden)) == multiset(l.items)
    ensures multiset(Side(l.view, false, l.items + l.hidden)) == multiset(l.hidden)
  {
    SideAppend(l.view, true, l.items, l.hidden);
    SideAppend(l.view, false, l.items, l.hidden);
    SideOfSide(l.view, true, l.items);
    SideOfSide(l.view, false, l.hidden);
  }

  lemma {:induction false} SideAppend(v: View, visible: bool, a: seq<File>, b: seq<File>)
    ensures Side(v, visible, a + b) == Side(v, visible, a) + Side(v, visible, b)
  {
    if a == [] {
      assert a + b == b;
    } else {
      assert (a + b)[1..] == a[1..] + b;
      SideAppend(v, visible, a[1..], b);
    }
  }

  lemma {:induction false} NarrowKeepsFiles(l: List, filter: Option<Filter>, t: List)
    requires Placed(l) && Filtered(l, filter, t)
    ensures multiset(t.items) + multiset(t.hidden) == multiset(l.items) + multiset(l.hidden)
  {
    var v := l.view.(filter := filter);
    SidesMakeWhole(v, l.hidden);
    SidesMakeWhole(v, l.items + l.hidden);
    assert multiset(l.items + l.hidden) == multiset(l.items) + multiset(l.hidden);
    assert multiset(l.items + Side(v, true, l.hidden)) == multiset(l.items) + multiset(Side(v, true, l.hidden));
  }

  /** Changing the filter, the hidden flag or the order loses and invents nothing. */
  lemma {:induction false} ViewChangesKeepFiles(l: List, e: Event, t: List)
    requires Placed(l) && Step(l, e, t) && (e.Narrow? || e.ShowHidden? || e.Look? || e.Sort?)
    ensures multiset(t.items) + multiset(t.hidden) == multiset(l.items) + multiset(l.hidden)
  {
    match e {
      case Narrow(filter) => NarrowKeepsFiles(l, filter, t);
      case ShowHidden(state) =>
        var v := l.view.(showHidden := state);
        SidesMakeWhole(v, l.hidden);
        SidesMakeWhole(v, l.items);
      case _ =>
    }
  }

  // --- What counts as up to date is sorted

  ghost predicate InSync(l: List) {
    && l.version <= l.revision
    && (l.version == l.revision ==> Sorted(l.sorter, TablesOf(l), l.items))
  }

  /** Files that replace others under the same key name the same path. */
  ghost predicate Coherent(l: List, e: Event) {
    e.GotExisting? || e.GotUpserted? ==>
      forall f :: f in l.items && f.key in e.known ==> SamePath(f, e.known[f.key])
  }

  lemma {:induction false} SortedIgnoresSizes(s: FilesSorter, t: Tables, sizes: map<Name, int>, fs: seq<File>)
    requires Sorted(s, t, fs) && s.criterion != Size
    ensures Sorted(s, t.(sizes := sizes), fs)
  {
    forall a, b ensures Compare(s, t, a, b) == Compare(s, t.(sizes := sizes), a, b) {}
  }

  lemma {:induction false} SortedIgnoresRanks(s: FilesSorter, t: Tables, ranks: map<Name, int>, fs: seq<File>)
    requires Sorted(s, t, fs) && s.criterion != Custom
    ensures Sorted(s, t.(ranks := ranks), fs)
  {
    forall a, b ensures Compare(s, t, a, b) == Compare(s, t.(ranks := ranks), a, b) {}
  }

  /** The new file stands where the old one stood. */
  ghost predicate StandsFor(f: File, g: File) { f == g || (Hits(f, g) && f.key == g.key && SamePath(f, g)) }

  lemma {:induction false} ReplacedStandsFor(fs: seq<File>, news: map<Name, File>)
    requires Replaced(fs, news).same
    requires forall f :: f in fs && f.key in news ==> SamePath(f, news[f.key])
    ensures var r := Replaced(fs, news).list; |r| == |fs| && forall i :: 0 <= i < |fs| ==> StandsFor(fs[i], r[i])
  {
    if fs != [] {
      assert fs[0] in fs && forall f :: f in fs[1..] ==> f in fs;
      if fs[0].key in news {
        ReplacedStandsFor(fs[1..], news - {fs[0].key});
      } else {
        ReplacedStandsFor(fs[1..], news);
      }
    }
  }

  lemma {:induction false} ReplacedSorted(s: FilesSorter, t: Tables, fs: seq<File>, news: map<Name, File>)
    requires Sorted(s, t, fs) && Replaced(fs, news).same
    requires forall f :: f in fs && f.key in news ==> SamePath(f, news[f.key])
    ensures Sorted(s, t, Replaced(fs, news).list)
  {
    ReplacedStandsFor(fs, news);
    var r := Replaced(fs, news).list;
    forall i, j | 0 <= i < j < |r| ensures Compare(s, t, r[i], r[j]) != Greater {
      if fs[i] != r[i] { HitsIsOrderEquivalent(s, t, fs[i], r[i], fs[j]); }
      if fs[j] != r[j] { HitsIsOrderEquivalent(s, t, fs[j], r[j], r[i]); }
    }
  }

  lemma {:induction false} ExistingInSync(l: List, files: map<Name, File>)
    requires InSync(l) && forall f :: f in l.items && f.key in files ==> SamePath(f, files[f.key])
    ensures InSync(Existing(l, files).0)
  {
    var news := Half(l.view, true, Proper(files));
    if l.version == l.revision && Replaced(l.items, news).same {
      ReplacedSorted(l.sorter, TablesOf(l), l.items, news);
    }
  }

  lemma {:induction false} DeleteInSync(l: List, keys: set<Name>)
    requires InSync(l)
    ensures InSync(Delete(l, keys)) && forall f :: f in Delete(l, keys).items ==> f in l.items
  {
    WithoutHolds(l.items, keys - {[]}, 0);
  }

  lemma {:induction false} UpsertedInSync(l: List, files: map<Name, File>, t: List)
    requires InSync(l) && Upserted(l, files, t)
    requires forall f :: f in l.items && f.key in files ==> SamePath(f, files[f.key])
    ensures InSync(t)
  {
    var d := Delete(l, Retargeted(Proper(files)));
    DeleteInSync(l, Retargeted(Proper(files)));
    ExistingInSync(d, files);
    var (m, hidden, items) := Existing(d, files);
    var a, b :| Lists(a, hidden) && Lists(b, items) &&
      t == Bump(m, items != map[]).(hidden := m.hidden + a, items := m.items + b);
    ListsHolds(b, items);
    if items == map[] { assert m.items + b == m.items; }
  }

  lemma {:induction false} CreatedInSync(l: List, fs: seq<File>, t: List)
    requires InSync(l) && Created(l, fs, t)
    ensures InSync(t)
  {
    var items, hidden := ByKey(Side(l.view, true, fs)) - Keys(l.items), ByKey(Side(l.view, false, fs)) - Keys(l.hidden);
    var a, b :| Lists(a, items) && Lists(b, hidden) &&
      t == Bump(l, items != map[]).(items := l.items + a, hidden := l.hidden + b);
    ListsHolds(a, items);
    if items == map[] { assert l.items + a == l.items; }
  }

  lemma {:induction false} SideOfSameLength(v: View, visible: bool, fs: seq<File>)
    ensures |Side(v, visible, fs)| <= |fs| && (|Side(v, visible, fs)| == |fs| ==> Side(v, visible, fs) == fs)
  {
    if fs != [] { SideOfSameLength(v, visible, fs[1..]); }
  }

  lemma {:induction false} ShowHiddenInSync(l: List, state: bool)
    requires InSync(l)
    ensures InSync(SetShowHidden(l, state))
  {
    var v := l.view.(showHidden := state);
    SideOfSameLength(v, true, l.items);
    if Side(v, true, l.hidden) == [] { assert l.items + Side(v, true, l.hidden) == l.items; }
  }

  lemma {:induction false} PartInSync(l: List, fs: seq<File>, ticket: nat)
    requires InSync(l)
    ensures InSync(Part(l, fs, ticket))
  {
    assert l.items + [] == l.items;
  }

  lemma {:induction false} TablesInSync(l: List, e: Event, t: List)
    requires InSync(l) && (e.GotSizes? || e.GotRanks?) && Step(l, e, t)
    ensures InSync(t)
  {
    if l.version == l.revision {
      if e.GotSizes? && l.sorter.criterion != Size {
        SortedIgnoresSizes(l.sorter, TablesOf(l), t.sizes, l.items);
      }
      if e.GotRanks? && l.sorter.criterion != Custom {
        SortedIgnoresRanks(l.sorter, TablesOf(l), t.ranks, l.items);
      }
    }
  }

  /** Whatever happens, a listing whose version is current is sorted by its criterion, its sizes and its
      ranks. */
  lemma {:induction false} StepInSync(l: List, e: Event, t: List)
    requires InSync(l) && Step(l, e, t) && Coherent(l, e)
    ensures InSync(t)
  {
    match e {
      case GotPart(fs, ticket) => PartInSync(l, fs, ticket);
      case GotSizes(m) => TablesInSync(l, e, t);
      case GotRanks(m) => TablesInSync(l, e, t);
      case GotCreated(fs) => CreatedInSync(l, fs, t);
      case GotDeleted(keys) => DeleteInSync(l, keys);
      case GotExisting(files) => ExistingInSync(l, files);
      case GotUpserted(files) => UpsertedInSync(l, files, t);
      case ShowHidden(state) => ShowHiddenInSync(l, state);
      case _ =>
    }
  }

  function New(showHidden: bool, sorter: FilesSorter, latin: Name -> Name): List {
    List([], [], 0, 0, 0, map[], map[], latin, sorter, View(None, showHidden))
  }

  ghost predicate IsRun(ls: seq<List>, es: seq<Event>) {
    |ls| == |es| + 1 && forall i :: 0 <= i < |es| ==> Step(ls[i], es[i], ls[i + 1])
  }

  ghost predicate StartsNew(ls: seq<List>) {
    |ls| > 0 && exists show, sorter, latin :: ls[0] == New(show, sorter, latin)
  }

  /** Over every run files are on the right side, so an incremental split is a full split. */
  lemma {:induction false} RunsStayPlaced(ls: seq<List>, es: seq<Event>, n: nat)
    requires IsRun(ls, es) && StartsNew(ls) && n < |ls|
    ensures Placed(ls[n])
    ensures multiset(Side(ls[n].view, true, ls[n].items + ls[n].hidden)) == multiset(ls[n].items)
  {
    if n > 0 {
      RunsStayPlaced(ls, es, n - 1);
      StepPlaced(ls[n - 1], es[n - 1], ls[n]);
    }
    SplitIsCurrent(ls[n]);
  }

  /** Over every run: whenever the version is current the shown files are sorted. */
  lemma {:induction false} RunsStayInSync(ls: seq<List>, es: seq<Event>, n: nat)
    requires IsRun(ls, es) && StartsNew(ls) && n < |ls|
    requires forall i :: 0 <= i < n ==> Coherent(ls[i], es[i])
    ensures InSync(ls[n])
  {
    if n > 0 {
      RunsStayInSync(ls, es, n - 1);
      StepInSync(ls[n - 1], es[n - 1], ls[n]);
    }
  }

  // --- The listing as the code keeps it

  lemma {:induction false} NothingReplaced(fs: seq<File>)
    ensures Replaced(fs, map[]) == Swap(fs, map[], true)
  {
    if fs != [] { NothingReplaced(fs[1..]); }
  }

  method WalkValues(m: map<Name, File>) returns (fs: seq<File>)
    ensures Lists(fs, m)
  {
    fs := [];
    ghost var ks: seq<Name> := [];
    var todo := m.Keys;
    while todo != {}
      invariant todo <= m.Keys && |ks| == |fs|
      invariant forall k :: k in ks <==> k in m.Keys - todo
      invariant forall i, j :: 0 <= i < j < |ks| ==> ks[i] != ks[j]
      invariant forall i :: 0 <= i < |fs| ==> ks[i] in m && fs[i] == m[ks[i]]
      decreases todo
    {
      var k :| k in todo;
      assert k !in ks;
      todo := todo - {k};
      fs, ks := fs + [m[k]], ks + [k];
    }
    assert ListedBy(ks, m, fs);
  }

  method CutOut(fs: seq<File>, keys0: set<Name>) returns (list: seq<File>, keys: set<Name>, gone: seq<nat>)
    ensures Cut(list, keys, gone) == Without(fs, keys0, 0)
  {
    list, keys, gone := [], keys0, [];
    for i := 0 to |fs|
      invariant var c := Without(fs[i..], keys, i); var all := Without(fs, keys0, 0);
        all.list == list + c.list && all.rest == c.rest && all.gone == gone + c.gone
    {
      assert fs[i..][1..] == fs[i + 1..];
      if fs[i].key in keys {
        keys := keys - {fs[i].key};
        gone := gone + [i];
      } else {
        list := list + [fs[i]];
      }
    }
  }

  lemma {:induction false} ExchangeOne(fs: seq<File>, i: nat, news: map<Name, File>)
    requires i < |fs|
    ensures var k := fs[i].key; var r := Replaced(fs[i + 1..], if k in news then news - {k} else news);
      Replaced(fs[i..], news) ==
        if k in news then Swap([news[k]] + r.list, r.rest, Hits(fs[i], news[k]) && k == news[k].key && r.same)
        else Swap([fs[i]] + r.list, r.rest, r.same)
  {
    assert fs[i..][1..] == fs[i + 1..];
  }

  method Exchange(fs: seq<File>, news: map<Name, File>) returns (list: seq<File>, rest: map<Name, File>, same: bool)
    ensures Swap(list, rest, same) == Replaced(fs, news)
  {
    list, rest, same := [], news, true;
    var i := 0;
    ghost var all := Replaced(fs, news);
    while i < |fs| && rest != map[]
      invariant 0 <= i <= |fs|
      invariant all == var r := Replaced(fs[i..], rest); Swap(list + r.list, r.rest, same && r.same)
      decreases |fs| - i
    {
      ExchangeOne(fs, i, rest);
      var k := fs[i].key;
      ghost var tail := Replaced(fs[i + 1..], if k in rest then rest - {k} else rest).list;
      ghost var was := list;
      if k in rest {
        var f := rest[k];
        rest := rest - {k};
        same := same && Hits(fs[i], f) && k == f.key;
        list := list + [f];
      } else {
        list := list + [fs[i]];
      }
      assert list + tail == was + ([list[|was|]] + tail);
      i := i + 1;
    }
    if i < |fs| { NothingReplaced(fs[i..]); }
    list := list + fs[i..];
  }

  lemma {:induction false} CreatedBy(l: List, fs: seq<File>, a: seq<File>, b: seq<File>, t: List)
    requires Lists(a, ByKey(Side(l.view, true, fs)) - Keys(l.items))
    requires Lists(b, ByKey(Side(l.view, false, fs)) - Keys(l.hidden))
    requires t == Bump(l, a != []).(items := l.items + a, hidden := l.hidden + b)
    ensures Created(l, fs, t)
  {
    ListsHolds(a, ByKey(Side(l.view, true, fs)) - Keys(l.items));
  }

  lemma {:induction false} ExtendedBy(m: List, hidden: map<Name, File>, items: map<Name, File>, a: seq<File>,
      b: seq<File>, t: List)
    requires Lists(a, hidden) && Lists(b, items)
    requires t == Bump(m, items != map[]).(hidden := m.hidden + a, items := m.items + b)
    ensures Extended(m, hidden, items, t)
  {}

  class Entries {
    var hidden: seq<File>
    var items: seq<File>
    var ticket: nat
    var version: nat
    var revision: nat
    var sizes: map<Name, int>
    var ranks: map<Name, int>
    var sorter: FilesSorter
    var filter: Option<Filter>
    var showHidden: bool
    const latin: Name -> Name

    ghost function Sees(): List
      reads this
    {
      List(hidden, items, ticket, version, revision, sizes, ranks, latin, sorter, View(filter, showHidden))
    }

    constructor (showHidden: bool, sorter: FilesSorter, latin: Name -> Name)
      ensures Sees() == New(showHidden, sorter, latin)
    {
      this.hidden, this.items, this.ticket, this.version, this.revision := [], [], 0, 0, 0;
      this.sizes, this.ranks, this.filter := map[], map[], None;
      this.sorter, this.showHidden, this.latin := sorter, showHidden, latin;
    }

    method SplitFiles(files: seq<File>) returns (off: seq<File>, on: seq<File>)
      ensures off == Side(Sees().view, false, files) && on == Side(Sees().view, true, files)
    {
      off, on := [], [];
      for i := |files| downto 0
        invariant off == Side(Sees().view, false, files[i..]) && on == Side(Sees().view, true, files[i..])
      {
        var f := files[i];
        assert files[i..][0] == f && files[i..][1..] == files[i + 1..];
        if f.key == [] { continue; }
        var out := false;
        if filter.Some? {
          out := (f.hidden && !showHidden) || !filter.value.accepts(f.urn);
        } else if !showHidden {
          out := f.hidden;
        }
        if out { off := [f] + off; } else { on := [f] + on; }
      }
    }

    method UpdateFull(files: seq<File>, minted: nat)
      modifies this
      ensures Sees() == Full(old(Sees()), files, minted)
    {
      ticket := minted;
      var off, on := SplitFiles(files);
      if !(on == [] && items == []) { revision := revision + 1; }
      hidden, items := off, on;
    }

    method UpdatePart(files: seq<File>, t: nat)
      modifies this
      ensures Sees() == Part(old(Sees()), files, t)
    {
      if files != [] {
        if t != ticket { return; }
        var off, on := SplitFiles(files);
        if on != [] { revision := revision + 1; }
        hidden, items := hidden + off, items + on;
        return;
      }
      ticket := t;
      hidden := [];
      if items != [] { revision, items := revision + 1, []; }
    }

    method UpdateSize(news: map<Name, int>)
      modifies this
      ensures Sees() == Sized(old(Sees()), news)
    {
      var changed := MergeSizes(news);
      if changed && sorter.criterion == Size { revision := revision + 1; }
    }

    method MergeSizes(news: map<Name, int>) returns (changed: bool)
      modifies `sizes
      ensures sizes == old(sizes) + (news - {[]}) && changed == (sizes != old(sizes))
    {
      changed := false;
      ghost var was, done := sizes, {};
      ghost var changedKey: Name := [];
      var todo := news.Keys;
      while todo != {}
        invariant todo <= news.Keys && done == news.Keys - todo
        invariant sizes == was + map k | k in done && k != [] :: news[k]
        invariant if changed then changedKey in done && changedKey in sizes &&
                    (changedKey !in was || was[changedKey] != sizes[changedKey])
                  else sizes == was
        decreases todo
      {
        var k :| k in todo;
        todo, done := todo - {k}, done + {k};
        if k != [] {
          if !(k in sizes && sizes[k] == news[k]) { changed, changedKey := true, k; }
          sizes := sizes[k := news[k]];
        }
      }
      assert sizes == was + (news - {[]});
    }

    method UpdateRank(news0: map<Name, int>)
      modifies this
      ensures Sees() == Ranked(old(Sees()), news0)
    {
      var changed, news := false, news0;
      ghost var was := ranks;
      if ranks == map[] {
        ranks := map k | k in news && news[k] != 0 && k != [] :: news[k];
        changed, news := ranks != map[], map[];
        assert ranks == NewRanks(was, news0);
      } else {
        changed := MergeRanks(news);
      }
      if changed && sorter.criterion == Custom { revision := revision + 1; }
    }

    method MergeRanks(news: map<Name, int>) returns (changed: bool)
      modifies `ranks
      ensures ranks == NewRanks(old(ranks), news) && changed == (ranks != old(ranks))
    {
      changed := false;
      ghost var was, done := ranks, {};
      ghost var changedKey: Name := [];
      var todo := news.Keys;
      while todo != {}
        invariant todo <= news.Keys && done == news.Keys - todo
        invariant forall k :: k in ranks <==> if k in done && k != [] then news[k] != 0 else k in was
        invariant forall k :: k in ranks ==> ranks[k] == if k in done && k != [] then news[k] else was[k]
        invariant if changed then changedKey in done && ((changedKey in ranks) != (changedKey in was) ||
                    (changedKey in ranks && ranks[changedKey] != was[changedKey]))
                  else ranks == was
        decreases todo
      {
        var k :| k in todo;
        todo, done := todo - {k}, done + {k};
        if k != [] {
          if news[k] == 0 {
            if k in ranks { changed, changedKey := true, k; }
            assert k !in ranks ==> ranks - {k} == ranks;
            ranks := ranks - {k};
          } else {
            if !(k in ranks && ranks[k] == news[k]) { changed, changedKey := true, k; }
            ranks := ranks[k := news[k]];
          }
        }
      }
    }

    method UpdateFail(minted: nat)
      modifies this
      ensures Sees() == Fail(old(Sees()), minted)
    {
      ticket := minted;
      if items != [] { revision := revision + 1; }
      hidden, items := [], [];
    }

    /** The files to be added to a list that does not know their keys yet. */
    method Unknown(dist: seq<File>, src: seq<File>) returns (add: seq<File>)
      ensures Lists(add, ByKey(src) - Keys(dist))
    {
      var todo: map<Name, File> := map[];
      for i := 0 to |src|
        invariant todo == ByKey(src[..i])
      {
        assert src[..i + 1][..i] == src[..i];
        todo := todo[src[i].key := src[i]];
      }
      assert src[..|src|] == src;
      for i := 0 to |dist|
        invariant todo == ByKey(src) - Keys(dist[..i])
      {
        assert dist[..i + 1] == dist[..i] + [dist[i]];
        assert Keys(dist[..i + 1]) == Keys(dist[..i]) + {dist[i].key};
        todo := todo - {dist[i].key};
      }
      assert dist[..|dist|] == dist;
      add := WalkValues(todo);
    }

    method UpdateCreate(files: seq<File>)
      modifies this
      ensures Created(old(Sees()), files, Sees())
    {
      var off, on := SplitFiles(files);
      var a := Unknown(items, on);
      var b := Unknown(hidden, off);
      Append(b, a, a != []);
      CreatedBy(old(Sees()), files, a, b, Sees());
    }

    method UpdateDelete(keys0: set<Name>) returns (deleted: seq<nat>)
      modifies this
      ensures Sees() == Delete(old(Sees()), keys0)
      ensures deleted == Without(old(items), keys0 - {[]}, 0).gone
    {
      var keys := keys0 - {[]};
      items, keys, deleted := CutOut(items, keys);
      var rest, off;
      hidden, rest, off := CutOut(hidden, keys);
      if deleted != [] { revision := revision + 1; }
    }

    method UpdateExisting(files0: map<Name, File>) returns (off: map<Name, File>, on: map<Name, File>)
      modifies this
      ensures (Sees(), off, on) == Existing(old(Sees()), files0)
    {
      var files := Proper(files0);
      off := Half(View(filter, showHidden), false, files);
      on := Half(View(filter, showHidden), true, files);
      var same, rest;
      items, on, same := Exchange(items, on);
      hidden, off, rest := Exchange(hidden, off);
      if !same { revision := revision + 1; }
    }

    method UpdateUpsert(files0: map<Name, File>)
      modifies this
      ensures Upserted(old(Sees()), files0, Sees())
    {
      var files := Proper(files0);
      var _ := UpdateDelete(Retargeted(files));
      var off, on := UpdateExisting(files0);
      Extend(off, on);
    }

    method Extend(off: map<Name, File>, on: map<Name, File>)
      modifies `revision, `hidden, `items
      ensures Extended(old(Sees()), off, on, Sees())
    {
      var a := WalkValues(off);
      var b := WalkValues(on);
      Append(a, b, on != map[]);
      ExtendedBy(old(Sees()), off, on, a, b, Sees());
    }

    method Append(a: seq<File>, b: seq<File>, grew: bool)
      modifies `revision, `hidden, `items
      ensures Sees() == Bump(old(Sees()), grew).(hidden := old(hidden) + a, items := old(items) + b)
    {
      if grew { revision := revision + 1; }
      hidden, items := hidden + a, items + b;
    }

    method CatchupRevision() returns (changed: bool)
      modifies this
      ensures CaughtUp(old(Sees()), Sees())
      ensures changed <==> old(version) != old(revision)
    {
      if version == revision { return false; }
      version := revision;
      items := Sorter.Sort(sorter, Tables(sizes, ranks, latin), items);
      changed := true;
    }

    method SetSorterTo(s: FilesSorter)
      modifies this
      ensures Sees() == SetSorter(old(Sees()), s)
    {
      if sorter != s { sorter, revision := s, revision + 1; }
    }

    method SetFilter(f: Option<Filter>) returns (changed: bool)
      modifies this
      ensures Filtered(old(Sees()), f, Sees())
      ensures changed <==> !SameFilter(old(filter), f)
    {
      if SameFilter(filter, f) { return false; }
      filter := f;
      changed := true;
      var t := Tables(sizes, ranks, latin);
      if filter.None? {
        var off, on := SplitFiles(hidden);
        hidden := off;
        if on != [] { items := Sorter.Sort(sorter, t, items + on); }
        return;
      }
      var off, on := SplitFiles(items + hidden);
      hidden := off;
      items := Sorter.Sort(sorter, t, on);
    }

    method SetShowHiddenTo(state: bool)
      modifies this
      ensures Sees() == SetShowHidden(old(Sees()), state)
    {
      if showHidden == state { return; }
      showHidden := state;
      var len := |items|;
      if showHidden {
        var off, on := SplitFiles(hidden);
        hidden, items := off, items + on;
      } else {
        var off, on := SplitFiles(items);
        hidden, items := hidden + off, on;
      }
      if |items| != len { revision := revision + 1; }
    }
  }
}
