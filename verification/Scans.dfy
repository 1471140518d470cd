/** Many scans feed one listing: each takes a ticket, resets the listing under it and then sends its chunks,
    while whole listings and failures arrive in between and take tickets of their own. Tickets come from one
    counter. Whatever the interleaving, the listing never mixes the files of two scans. */
module Scans {
  import opened Sorter
  import opened Entries

  // --- Messages

  /** The listing, the next ticket, and for each scan whether its reset has arrived. */
  datatype State = State(list: List, next: nat, scans: map<nat, bool>)

  datatype Message =
    | Begin  // a scan is given its ticket
    | Reset(ticket: nat)
    | Chunk(ticket: nat, files: seq<File>)
    | Whole(files: seq<File>)
    | Failed

  /** A scan sends its reset once and its chunks after it; chunks are not empty. */
  predicate Possible(s: State, m: Message) {
    && (m.Reset? ==> m.ticket in s.scans && !s.scans[m.ticket])
    && (m.Chunk? ==> m.ticket in s.scans && s.scans[m.ticket] && m.files != [])
  }

  function Next(s: State, m: Message): State {
    match m
    case Begin => s.(next := s.next + 1, scans := s.scans[s.next := false])
    case Reset(t) => s.(list := Part(s.list, [], t), scans := s.scans[t := true])
    case Chunk(t, fs) => s.(list := Part(s.list, fs, t))
    case Whole(fs) => s.(list := Full(s.list, fs, s.next), next := s.next + 1)
    case Failed => s.(list := Fail(s.list, s.next), next := s.next + 1)
  }

  function Start(showHidden: bool, sorter: FilesSorter, latin: Name -> Name): State {
    State(New(showHidden, sorter, latin), 1, map[])
  }

  function After(s: State, ms: seq<Message>): State
    decreases |ms|
  {
    if ms == [] then s else Next(After(s, ms[..|ms| - 1]), ms[|ms| - 1])
  }

  predicate IsRun(s: State, ms: seq<Message>)
    decreases |ms|
  {
    ms == [] || (IsRun(s, ms[..|ms| - 1]) && Possible(After(s, ms[..|ms| - 1]), ms[|ms| - 1]))
  }

  // --- What the listing should hold

  function AllFiles(l: List): multiset<File> { multiset(l.items) + multiset(l.hidden) }

  /** Files with an empty key are dropped. */
  function Named(fs: seq<File>): multiset<File> {
    if fs == [] then multiset{} else (if fs[0].key != [] then multiset{fs[0]} else multiset{}) + Named(fs[1..])
  }

  /** Everything a scan has sent. */
  function SentBy(ms: seq<Message>, t: nat): multiset<File>
    decreases |ms|
  {
    if ms == [] then multiset{}
    else
      var m := ms[|ms| - 1];
      if m.Chunk? && m.ticket == t then SentBy(ms[..|ms| - 1], t) + Named(m.files) else SentBy(ms[..|ms| - 1], t)
  }

  /** What the listing is after a start and no other since. */
  function Brings(ms: seq<Message>, start: Message): multiset<File> {
    if start.Whole? then Named(start.files)
    else if start.Reset? then SentBy(ms, start.ticket)
    else multiset{}
  }

  /** Whose listing it is. */
  datatype Owner = Nobody | Scan(ticket: nat)

  predicate StartsOver(m: Message) { m.Reset? || m.Whole? || m.Failed? }

  function OwnerFrom(m: Message): Owner { if m.Reset? then Scan(m.ticket) else Nobody }

  function OwnerOf(ms: seq<Message>): Owner
    decreases |ms|
  {
    if ms == [] then Nobody
    else if StartsOver(ms[|ms| - 1]) then OwnerFrom(ms[|ms| - 1])
    else OwnerOf(ms[..|ms| - 1])
  }

  /** Of the chunks only those of the owner count. */
  function Content(ms: seq<Message>): multiset<File>
    decreases |ms|
  {
    if ms == [] then multiset{}
    else
      var m, most := ms[|ms| - 1], ms[..|ms| - 1];
      if m.Whole? then Named(m.files)
      else if StartsOver(m) then multiset{}
      else if m.Chunk? && OwnerOf(most) == Scan(m.ticket) then Content(most) + Named(m.files)
      else Content(most)
  }

  // --- And does hold

  lemma {:induction false} SidesMakeNamed(v: View, fs: seq<File>)
    ensures multiset(Side(v, true, fs)) + multiset(Side(v, false, fs)) == Named(fs)
  {
    if fs != [] {
      SidesMakeNamed(v, fs[1..]);
      if fs[0].key != [] { SideFirst(v, fs); }
    }
  }

  lemma {:induction false} PartAdds(l: List, fs: seq<File>, t: nat)
    requires fs != []
    ensures AllFiles(Part(l, fs, t)) == if t == l.ticket then AllFiles(l) + Named(fs) else AllFiles(l)
    ensures Part(l, fs, t).ticket == l.ticket
  {
    SidesMakeNamed(l.view, fs);
  }

  /** Tickets are handed out once, so a listing that belongs to no scan has the ticket of none. */
  ghost predicate Numbered(s: State, owner: Owner) {
    && (forall t :: t in s.scans ==> 0 < t < s.next) && s.list.ticket < s.next
    && (if owner.Scan? then s.list.ticket == owner.ticket && owner.ticket in s.scans && s.scans[owner.ticket]
        else s.list.ticket !in s.scans)
  }

  /** The scan has not reset the listing yet. */
  predicate Unheard(s: State, t: nat) { t !in s.scans || !s.scans[t] }

  /** The listing is as it should be; a scan that has not reset it has sent nothing, and what an owner has
      sent is all there is. */
  ghost predicate Inv(s: State, ms: seq<Message>) {
    && Numbered(s, OwnerOf(ms)) && AllFiles(s.list) == Content(ms)
    && (forall t :: Unheard(s, t) ==> SentBy(ms, t) == multiset{})
    && (OwnerOf(ms).Scan? ==> Content(ms) == SentBy(ms, OwnerOf(ms).ticket))
  }

  lemma {:induction false} OneMore(most: seq<Message>, m: Message, t: nat)
    ensures OwnerOf(most + [m]) == if StartsOver(m) then OwnerFrom(m) else OwnerOf(most)
    ensures if m.Chunk? && m.ticket == t then SentBy(most + [m], t) == SentBy(most, t) + Named(m.files)
            else SentBy(most + [m], t) == SentBy(most, t)
    ensures m.Begin? ==> Content(most + [m]) == Content(most)
    ensures m.Chunk? ==>
      Content(most + [m]) == if OwnerOf(most) == Scan(m.ticket) then Content(most) + Named(m.files) else Content(most)
    ensures StartsOver(m) ==> Content(most + [m]) == if m.Whole? then Named(m.files) else multiset{}
  {
    assert (most + [m])[..|most|] == most;
  }

  lemma {:induction false} ChunkIsNumbered(s: State, owner: Owner, t: nat, fs: seq<File>)
    requires Numbered(s, owner) && Possible(s, Chunk(t, fs))
    ensures Numbered(Next(s, Chunk(t, fs)), owner) && (owner == Scan(t) <==> t == s.list.ticket)
  {
    PartAdds(s.list, fs, t);
  }

  lemma {:induction false} ChunkSaysNothingForOthers(s: State, most: seq<Message>, t: nat, fs: seq<File>)
    requires Possible(s, Chunk(t, fs))
    ensures forall u :: u != t ==> SentBy(most + [Chunk(t, fs)], u) == SentBy(most, u)
  {
    forall u | u != t ensures SentBy(most + [Chunk(t, fs)], u) == SentBy(most, u) {
      OneMore(most, Chunk(t, fs), u);
    }
  }

  lemma {:induction false} ChunkKeepsInv(s: State, most: seq<Message>, t: nat, fs: seq<File>)
    requires Inv(s, most) && Possible(s, Chunk(t, fs))
    ensures Inv(Next(s, Chunk(t, fs)), most + [Chunk(t, fs)])
  {
    ChunkIsNumbered(s, OwnerOf(most), t, fs);
    ChunkSaysNothingForOthers(s, most, t, fs);
    PartAdds(s.list, fs, t);
    OneMore(most, Chunk(t, fs), t);
    assert Content(most + [Chunk(t, fs)]) == AllFiles(Next(s, Chunk(t, fs)).list);
  }

  /** What the messages other than chunks do to the listing. */
  lemma {:induction false} StartsHold(s: State, m: Message)
    requires StartsOver(m)
    ensures var l := Next(s, m).list;
      && AllFiles(l) == (if m.Whole? then Named(m.files) else multiset{})
      && l.ticket == if m.Reset? then m.ticket else s.next
  {
    if m.Whole? { SidesMakeNamed(s.list.view, m.files); }
  }

  lemma {:induction false} OthersSendNothing(most: seq<Message>, m: Message)
    requires !m.Chunk?
    ensures forall t :: SentBy(most + [m], t) == SentBy(most, t)
  {
    forall t ensures SentBy(most + [m], t) == SentBy(most, t) { OneMore(most, m, t); }
  }

  lemma {:induction false} StartIsNumbered(s: State, owner: Owner, m: Message)
    requires Numbered(s, owner) && Possible(s, m) && StartsOver(m)
    ensures Numbered(Next(s, m), OwnerFrom(m)) && forall t :: Unheard(Next(s, m), t) ==> Unheard(s, t)
  {}

  lemma {:induction false} StartKeepsInv(s: State, most: seq<Message>, m: Message)
    requires Inv(s, most) && Possible(s, m) && StartsOver(m)
    ensures Inv(Next(s, m), most + [m])
  {
    StartsHold(s, m);
    StartIsNumbered(s, OwnerOf(most), m);
    OthersSendNothing(most, m);
    OneMore(most, m, 0);
  }

  lemma {:induction false} BeginIsNumbered(s: State, owner: Owner)
    requires Numbered(s, owner)
    ensures Numbered(Next(s, Begin), owner) && forall t :: Unheard(Next(s, Begin), t) ==> Unheard(s, t)
  {}

  lemma {:induction false} BeginKeepsInv(s: State, most: seq<Message>)
    requires Inv(s, most)
    ensures Inv(Next(s, Begin), most + [Begin])
  {
    BeginIsNumbered(s, OwnerOf(most));
    OthersSendNothing(most, Begin);
    OneMore(most, Begin, 0);
  }

  lemma {:induction false} NextKeepsInv(s: State, most: seq<Message>, m: Message)
    requires Inv(s, most) && Possible(s, m)
    ensures Inv(Next(s, m), most + [m])
  {
    match m {
      case Begin => BeginKeepsInv(s, most);
      case Chunk(t, fs) => ChunkKeepsInv(s, most, t, fs);
      case _ => StartKeepsInv(s, most, m);
    }
  }

  lemma {:induction false} RunsKeepInv(start: State, ms: seq<Message>)
    requires Inv(start, []) && IsRun(start, ms)
    ensures Inv(After(start, ms), ms)
    decreases |ms|
  {
    if ms != [] {
      var most := ms[..|ms| - 1];
      RunsKeepInv(start, most);
      NextKeepsInv(After(start, most), most, ms[|ms| - 1]);
      assert most + [ms[|ms| - 1]] == ms;
    }
  }

  /** Since the last start the owner is the same, and without one nothing is added. */
  lemma {:induction false} SinceStart(ms: seq<Message>, n: nat)
    requires n < |ms| && StartsOver(ms[n]) && forall i :: n < i < |ms| ==> !StartsOver(ms[i])
    ensures OwnerOf(ms) == OwnerFrom(ms[n])
    ensures !ms[n].Reset? ==> Content(ms) == Brings([], ms[n])
    decreases |ms|
  {
    if n < |ms| - 1 { SinceStart(ms[..|ms| - 1], n); }
  }

  lemma {:induction false} StartInv(showHidden: bool, sorter: FilesSorter, latin: Name -> Name)
    ensures Inv(Start(showHidden, sorter, latin), [])
  {}

  /** In every run from an empty listing: after a whole listing or a failure the listing is just that, and no
      chunk is ever added; after a scan's reset it is everything that scan has sent, and nothing else. */
  lemma {:induction false} ScansDoNotMix(showHidden: bool, sorter: FilesSorter, latin: Name -> Name,
      ms: seq<Message>, n: nat)
    requires IsRun(Start(showHidden, sorter, latin), ms)
    requires n < |ms| && StartsOver(ms[n]) && forall i :: n < i < |ms| ==> !StartsOver(ms[i])
    ensures AllFiles(After(Start(showHidden, sorter, latin), ms).list) == Brings(ms, ms[n])
  {
    StartInv(showHidden, sorter, latin);
    RunsKeepInv(Start(showHidden, sorter, latin), ms);
    SinceStart(ms, n);
  }

  /** Why tickets must be taken once: a whole listing under a scan's ticket would take in that scan's chunks. */
  lemma {:induction false} SharedTicketMixes(l: List, f: File, t: nat)
    requires f.key != []
    ensures f in AllFiles(Part(Full(Part(l, [], t), [], t), [f], t))
  {
    PartAdds(Full(Part(l, [], t), [], t), [f], t);
    assert Named([f]) == multiset{f} + Named([]);
  }
}
