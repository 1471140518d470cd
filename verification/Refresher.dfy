/** The event loop of yazi-watcher/src/refresher.rs, which scans directories one task at a time each:
    requests that arrive while a directory is being scanned wait for its result. */
module Refresher {
  type Url = string

  /** `busy` is the ticket of the scan under way, 0 when there is none; `file` stands for what is known of
      the directory itself. */
  datatype Entry = Entry(file: int, busy: nat, dirty: bool, report: bool, force: bool, stream: bool)

  datatype Outcome = ScannedFull | ScannedPart | Skipped | Failed

  /** The task started for a directory: the entry as it was when its flags were taken. */
  datatype Turn = Turn(url: Url, entry: Entry)

  /** The entries, the next ticket, the turns taken and the tickets whose results were accepted. */
  datatype State = State(entries: map<Url, Entry>, next: nat, turns: seq<Turn>, accepted: seq<nat>)

  datatype Event =
    | Sync(files: map<Url, int>)
    | Load(url: Url, file: int)
    | Refresh(url: Url, file: int, force: bool)
    | Done(prev: Turn, outcome: Outcome)
    | Tick(remote: seq<Url>)
    | TakenElsewhere  // the listing takes a ticket for itself: all are drawn from one counter

  function Fresh(file: int): Entry { Entry(file, 0, false, false, false, false) }

  const INITIAL := State(map[], 1, [], [])

  // --- The handlers as functions

  /** Starts the next scan of a directory when one is wanted and none is under way. */
  function Spawn(s: State, url: Url): State
    requires url in s.entries
  {
    var e := s.entries[url];
    if !e.dirty || e.busy != 0 then s
    else
      State(s.entries[url := Entry(e.file, s.next, false, false, false, false)], s.next + 1,
            s.turns + [Turn(url, e.(busy := s.next))], s.accepted)
  }

  function Synced(s: State, files: map<Url, int>): State {
    s.(entries := map u | u in files :: if u in s.entries then s.entries[u] else Fresh(files[u]))
  }

  /** Whether a request finds its directory busy and only leaves its file there. */
  predicate Waits(s: State, url: Url) { url in s.entries && s.entries[url].busy != 0 }

  function Known(s: State, url: Url, file: int): Entry {
    if url in s.entries then s.entries[url].(file := file) else Fresh(file)
  }

  function Loaded(s: State, url: Url, file: int): State {
    if Waits(s, url) then s.(entries := s.entries[url := Known(s, url, file)])
    else
      var e := Known(s, url, file).(dirty := true, report := true, force := true, stream := true);
      Spawn(s.(entries := s.entries[url := e]), url)
  }

  function Refreshed(s: State, url: Url, file: int, force: bool): State {
    if Waits(s, url) && !force then s.(entries := s.entries[url := Known(s, url, file)])
    else
      var k := Known(s, url, file);
      var e := k.(dirty := true, report := true, force := k.force || force, stream := false);
      Spawn(s.(entries := s.entries[url := e]), url)
  }

  /** A result counts only while its ticket is the entry's. */
  function Finished(s: State, prev: Turn, outcome: Outcome): State {
    if prev.url !in s.entries || s.entries[prev.url].busy != prev.entry.busy then s
    else
      var e := s.entries[prev.url];
      var f := e.(force := e.force || outcome == Failed,
                  file := if outcome == ScannedFull || outcome == ScannedPart then prev.entry.file else e.file,
                  busy := 0);
      Spawn(s.(entries := s.entries[prev.url := f], accepted := s.accepted + [prev.entry.busy]), prev.url)
  }

  function Ticked(s: State, remote: seq<Url>): State
    decreases |remote|
  {
    if remote == [] then s
    else Ticked(TickedOne(s, remote[0]), remote[1..])
  }

  function TickedOne(s: State, url: Url): State {
    if url in s.entries
    then Spawn(s.(entries := s.entries[url := s.entries[url].(dirty := true)]), url)
    else s
  }

  function Next(s: State, e: Event): State {
    match e
    case Sync(files) => Synced(s, files)
    case Load(url, file) => Loaded(s, url, file)
    case Refresh(url, file, force) => Refreshed(s, url, file, force)
    case Done(prev, outcome) => Finished(s, prev, outcome)
    case Tick(remote) => Ticked(s, remote)
    case TakenElsewhere => s.(next := s.next + 1)
  }

  function After(s: State, es: seq<Event>): State
    decreases |es|
  {
    if es == [] then s else After(Next(s, es[0]), es[1..])
  }

  // --- The handlers as the code performs them

  class Loop {
    var entries: map<Url, Entry>
    var next: nat
    ghost var turns: seq<Turn>
    ghost var accepted: seq<nat>

    ghost function Sees(): State
      reads this
    {
      State(entries, next, turns, accepted)
    }

    constructor ()
      ensures Sees() == INITIAL
    {
      entries, next, turns, accepted := map[], 1, [], [];
    }

    method SpawnScan(url: Url)
      requires url in entries
      modifies this
      ensures Sees() == Spawn(old(Sees()), url)
    {
      var e := entries[url];
      if !e.dirty || e.busy != 0 { return; }
      var ticket := next;
      next := next + 1;
      turns := turns + [Turn(url, e.(busy := ticket))];
      entries := entries[url := Entry(e.file, ticket, false, false, false, false)];
    }

    method HandleSync(files: map<Url, int>)
      modifies this
      ensures Sees() == Synced(old(Sees()), files)
    {
      entries := map u | u in entries && u in files :: entries[u];
      entries := (map u | u in files :: Fresh(files[u])) + entries;
    }

    method HandleLoad(url: Url, file: int)
      modifies this
      ensures Sees() == Loaded(old(Sees()), url, file)
    {
      var e: Entry;
      if url in entries {
        e := entries[url].(file := file);
        if e.busy != 0 {
          entries := entries[url := e];
          return;
        }
      } else {
        e := Fresh(file);
      }
      entries := entries[url := e.(dirty := true, report := true, force := true, stream := true)];
      SpawnScan(url);
    }

    method HandleRefresh(url: Url, file: int, force: bool)
      modifies this
      ensures Sees() == Refreshed(old(Sees()), url, file, force)
    {
      var e: Entry;
      if url in entries {
        e := entries[url].(file := file);
        if !force && e.busy != 0 {
          entries := entries[url := e];
          return;
        }
      } else {
        e := Fresh(file);
      }
      entries := entries[url := e.(dirty := true, report := true, force := e.force || force, stream := false)];
      SpawnScan(url);
    }

    method HandleDone(prev: Turn, outcome: Outcome)
      modifies this
      ensures Sees() == Finished(old(Sees()), prev, outcome)
    {
      if prev.url !in entries { return; }
      var e := entries[prev.url];
      if e.busy != prev.entry.busy { return; }
      if outcome == Failed { e := e.(force := true); }
      if outcome == ScannedFull || outcome == ScannedPart { e := e.(file := prev.entry.file); }
      accepted := accepted + [e.busy];
      entries := entries[prev.url := e.(busy := 0)];
      SpawnScan(prev.url);
    }

    method HandleTick(remote: seq<Url>)
      modifies this
      ensures Sees() == Ticked(old(Sees()), remote)
    {
      assert remote[0..] == remote;
      for i := 0 to |remote|
        invariant Ticked(Sees(), remote[i..]) == Ticked(old(Sees()), remote)
      {
        assert remote[i..][1..] == remote[i + 1..];
        if remote[i] in entries {
          entries := entries[remote[i] := entries[remote[i]].(dirty := true)];
          SpawnScan(remote[i]);
        }
      }
    }
  }

  // --- What every event keeps

  ghost predicate Distinct(ts: seq<nat>) { forall i, j :: 0 <= i < j < |ts| ==> ts[i] != ts[j] }

  /** Tickets are handed out once, belong to one directory and are accepted at most once. */
  ghost predicate Tickets(s: State) {
    && s.next > 0
    && (forall u :: u in s.entries ==> s.entries[u].busy < s.next && s.entries[u].busy !in s.accepted)
    && (forall u, v :: u in s.entries && v in s.entries && u != v && s.entries[u].busy != 0 ==>
          s.entries[u].busy != s.entries[v].busy)
    && Distinct(s.accepted) && (forall t :: t in s.accepted ==> 0 < t < s.next)
  }

  ghost predicate Tended(e: Entry) { e.dirty ==> e.busy != 0 }

  /** A directory that wants a scan has one under way. */
  ghost predicate Inv(s: State) { Tickets(s) && forall u :: u in s.entries ==> Tended(s.entries[u]) }

  /** The same, but for the one directory about to be looked at. */
  ghost predicate InvBut(s: State, url: Url) {
    Tickets(s) && url in s.entries && forall u :: u in s.entries && u != url ==> Tended(s.entries[u])
  }

  lemma {:induction false} SpawnKeepsTickets(s: State, url: Url)
    requires Tickets(s) && url in s.entries
    ensures Tickets(Spawn(s, url))
  {}

  lemma {:induction false} SpawnKeeps(s: State, url: Url)
    requires InvBut(s, url)
    ensures Inv(Spawn(s, url)) && Spawn(s, url).entries.Keys == s.entries.Keys
  {
    SpawnKeepsTickets(s, url);
  }

  lemma {:induction false} SettingKeeps(s: State, url: Url, e: Entry)
    requires Inv(s) && (if url in s.entries then e.busy == s.entries[url].busy else e.busy == 0)
    ensures InvBut(s.(entries := s.entries[url := e]), url)
  {
    assert 0 !in s.accepted;
  }

  lemma {:induction false} AcceptingKeeps(s: State, url: Url, f: Entry)
    requires Inv(s) && url in s.entries && s.entries[url].busy != 0 && f.busy == 0
    ensures InvBut(s.(entries := s.entries[url := f], accepted := s.accepted + [s.entries[url].busy]), url)
  {
    assert 0 !in s.accepted;
  }

  lemma {:induction false} FinishedKeeps(s: State, prev: Turn, outcome: Outcome)
    requires Inv(s) && prev.entry.busy != 0
    ensures Inv(Finished(s, prev, outcome))
  {
    if prev.url in s.entries && s.entries[prev.url].busy == prev.entry.busy {
      var e := s.entries[prev.url];
      var f := e.(force := e.force || outcome == Failed,
                  file := if outcome == ScannedFull || outcome == ScannedPart then prev.entry.file else e.file,
                  busy := 0);
      AcceptingKeeps(s, prev.url, f);
      SpawnKeeps(s.(entries := s.entries[prev.url := f], accepted := s.accepted + [prev.entry.busy]), prev.url);
    }
  }

  lemma {:induction false} TickedOneKeeps(s: State, url: Url)
    requires Inv(s)
    ensures Inv(TickedOne(s, url))
  {
    if url in s.entries {
      var e := s.entries[url].(dirty := true);
      SettingKeeps(s, url, e);
      SpawnKeeps(s.(entries := s.entries[url := e]), url);
    }
  }

  lemma {:induction false} TickedKeeps(s: State, remote: seq<Url>)
    requires Inv(s)
    ensures Inv(Ticked(s, remote))
    decreases |remote|
  {
    if remote != [] {
      TickedOneKeeps(s, remote[0]);
      TickedKeeps(TickedOne(s, remote[0]), remote[1..]);
    }
  }

  /** Every result comes from a turn, whose ticket is never 0. */
  ghost predicate Possible(e: Event) { e.Done? ==> e.prev.entry.busy != 0 }

  lemma {:induction false} RequestKeeps(s: State, e: Event)
    requires Inv(s) && (e.Load? || e.Refresh?)
    ensures Inv(Next(s, e))
  {
    var k := Known(s, e.url, e.file);
    SettingKeeps(s, e.url, k);
    var f := if e.Load? then k.(dirty := true, report := true, force := true, stream := true)
             else k.(dirty := true, report := true, force := k.force || e.force, stream := false);
    SettingKeeps(s, e.url, f);
    SpawnKeeps(s.(entries := s.entries[e.url := f]), e.url);
  }

  lemma {:induction false} NextKeepsInv(s: State, e: Event)
    requires Inv(s) && Possible(e)
    ensures Inv(Next(s, e))
  {
    match e {
      case Sync(files) =>
      case Done(prev, outcome) => FinishedKeeps(s, prev, outcome);
      case Tick(remote) => TickedKeeps(s, remote);
      case TakenElsewhere =>
      case _ => RequestKeeps(s, e);
    }
  }

  lemma {:induction false} RunsKeepInv(s: State, es: seq<Event>)
    requires Inv(s) && forall i :: 0 <= i < |es| ==> Possible(es[i])
    ensures Inv(After(s, es))
    decreases |es|
  {
    if es != [] {
      NextKeepsInv(s, es[0]);
      RunsKeepInv(Next(s, es[0]), es[1..]);
    }
  }

  /** Over every run, late and repeated results included: a directory that wants a scan is being scanned,
      and no ticket's result is accepted twice. */
  lemma {:induction false} DirtyIsBusyAndTicketsCountOnce(es: seq<Event>)
    requires forall i :: 0 <= i < |es| ==> Possible(es[i])
    ensures var s := After(INITIAL, es);
      && (forall u :: u in s.entries && s.entries[u].dirty ==> s.entries[u].busy != 0)
      && Distinct(s.accepted)
  {
    RunsKeepInv(INITIAL, es);
  }

  /** A result is accepted exactly when its ticket is the current one of its directory. */
  lemma {:induction false} AcceptedIffCurrent(s: State, prev: Turn, outcome: Outcome)
    ensures Next(s, Done(prev, outcome)).accepted == s.accepted + [prev.entry.busy] <==>
            prev.url in s.entries && s.entries[prev.url].busy == prev.entry.busy
    ensures Next(s, Done(prev, outcome)) == s <==>
            !(prev.url in s.entries && s.entries[prev.url].busy == prev.entry.busy)
  {
    var t := Next(s, Done(prev, outcome));
    if prev.url in s.entries && s.entries[prev.url].busy == prev.entry.busy {
      assert |t.accepted| == |s.accepted| + 1;
    } else {
      assert |s.accepted + [prev.entry.busy]| == |s.accepted| + 1;
    }
  }

  // --- Tickets are not revived

  /** No directory is waiting for a result under t, and t is no ticket still to come. */
  ghost predicate Dead(s: State, t: nat) { 0 < t < s.next && forall u :: u in s.entries ==> s.entries[u].busy != t }

  lemma {:induction false} SpawnKeepsDead(s: State, url: Url, t: nat)
    requires Dead(s, t) && url in s.entries
    ensures Dead(Spawn(s, url), t) && Spawn(s, url).accepted == s.accepted
  {}

  lemma {:induction false} TickedKeepsDead(s: State, remote: seq<Url>, t: nat)
    requires Dead(s, t)
    ensures Dead(Ticked(s, remote), t) && Ticked(s, remote).accepted == s.accepted
    decreases |remote|
  {
    if remote != [] {
      if remote[0] in s.entries {
        SpawnKeepsDead(s.(entries := s.entries[remote[0] := s.entries[remote[0]].(dirty := true)]), remote[0], t);
      }
      TickedKeepsDead(TickedOne(s, remote[0]), remote[1..], t);
    }
  }

  lemma {:induction false} NextKeepsDead(s: State, e: Event, t: nat)
    requires Dead(s, t)
    ensures Dead(Next(s, e), t) && (t in Next(s, e).accepted <==> t in s.accepted)
  {
    if e.Tick? { TickedKeepsDead(s, e.remote, t); }
  }

  /** A ticket that no directory holds is held by none however the run goes on, whatever is dropped and taken
      up again, and is not accepted any more. */
  lemma {:induction false} TicketsAreNotRevived(s: State, es: seq<Event>, t: nat)
    requires Dead(s, t)
    ensures Dead(After(s, es), t) && (t in After(s, es).accepted <==> t in s.accepted)
    decreases |es|
  {
    if es != [] {
      NextKeepsDead(s, es[0], t);
      TicketsAreNotRevived(Next(s, es[0]), es[1..], t);
    }
  }

  ghost predicate Current(s: State, url: Url, t: nat) { url in s.entries && s.entries[url].busy == t }

  /** The directory is dropped, or the scan under t reports. */
  predicate Ends(e: Event, url: Url, t: nat) {
    (e.Sync? && url !in e.files) || (e.Done? && e.prev.url == url && e.prev.entry.busy == t)
  }

  lemma {:induction false} TickedKeepsCurrent(s: State, remote: seq<Url>, url: Url, t: nat)
    requires Current(s, url, t) && t != 0
    ensures Current(Ticked(s, remote), url, t)
    decreases |remote|
  {
    if remote != [] { TickedKeepsCurrent(TickedOne(s, remote[0]), remote[1..], url, t); }
  }

  lemma {:induction false} CurrentUntilEnded(s: State, e: Event, url: Url, t: nat)
    requires Inv(s) && Current(s, url, t) && t != 0
    ensures if Ends(e, url, t) then Dead(Next(s, e), t) else Current(Next(s, e), url, t)
  {
    match e {
      case Tick(remote) => TickedKeepsCurrent(s, remote, url, t);
      case _ =>
    }
  }

  lemma {:induction false} CurrentUnlessEnded(s: State, es: seq<Event>, url: Url, t: nat)
    requires Inv(s) && Current(s, url, t) && t != 0 && forall i :: 0 <= i < |es| ==> Possible(es[i])
    ensures if exists i :: 0 <= i < |es| && Ends(es[i], url, t) then Dead(After(s, es), t) else Current(After(s, es), url, t)
    decreases |es|
  {
    if es != [] {
      var next := Next(s, es[0]);
      CurrentUntilEnded(s, es[0], url, t);
      NextKeepsInv(s, es[0]);
      if Ends(es[0], url, t) {
        TicketsAreNotRevived(next, es[1..], t);
      } else {
        CurrentUnlessEnded(next, es[1..], url, t);
        assert forall i :: 0 < i < |es| ==> es[i] == es[1..][i - 1];
      }
    }
  }

  /** The result of a scan under way counts, however the run goes on, exactly unless its directory was dropped
      meanwhile, even if it was taken up again, or a result came under the same ticket before; and then it
      changes nothing. */
  lemma {:induction false} ResultCountsUnlessDroppedOrRepeated(s: State, es: seq<Event>, prev: Turn, outcome: Outcome)
    requires Inv(s) && Current(s, prev.url, prev.entry.busy) && prev.entry.busy != 0
    requires forall i :: 0 <= i < |es| ==> Possible(es[i])
    ensures var u, z := After(s, es), Done(prev, outcome);
      if exists i :: 0 <= i < |es| && Ends(es[i], prev.url, prev.entry.busy) then Next(u, z) == u
      else Next(u, z).accepted == u.accepted + [prev.entry.busy]
  {
    CurrentUnlessEnded(s, es, prev.url, prev.entry.busy);
  }

  /** Every turn has a ticket of its own. */
  ghost predicate TurnsNumbered(s: State) {
    && (forall i :: 0 <= i < |s.turns| ==> 0 < s.turns[i].entry.busy < s.next)
    && forall i, j :: 0 <= i < j < |s.turns| ==> s.turns[i].entry.busy < s.turns[j].entry.busy
  }

  lemma {:induction false} SpawnKeepsNumbers(s: State, url: Url)
    requires TurnsNumbered(s) && s.next > 0 && url in s.entries
    ensures TurnsNumbered(Spawn(s, url)) && Spawn(s, url).next > 0
  {}

  lemma {:induction false} TickedKeepsNumbers(s: State, remote: seq<Url>)
    requires TurnsNumbered(s) && s.next > 0
    ensures TurnsNumbered(Ticked(s, remote)) && Ticked(s, remote).next > 0
    decreases |remote|
  {
    if remote != [] {
      if remote[0] in s.entries {
        SpawnKeepsNumbers(s.(entries := s.entries[remote[0] := s.entries[remote[0]].(dirty := true)]), remote[0]);
      }
      TickedKeepsNumbers(TickedOne(s, remote[0]), remote[1..]);
    }
  }

  lemma {:induction false} NextKeepsNumbers(s: State, e: Event)
    requires TurnsNumbered(s) && s.next > 0
    ensures TurnsNumbered(Next(s, e)) && Next(s, e).next > 0
  {
    if e.Tick? { TickedKeepsNumbers(s, e.remote); }
  }

  lemma {:induction false} TurnsKeepNumbers(s: State, es: seq<Event>)
    requires TurnsNumbered(s) && s.next > 0
    ensures TurnsNumbered(After(s, es))
    decreases |es|
  {
    if es != [] {
      NextKeepsNumbers(s, es[0]);
      TurnsKeepNumbers(Next(s, es[0]), es[1..]);
    }
  }

  /** In every run each scan is given a ticket never given before, to a scan or elsewhere. */
  lemma {:induction false} EachScanHasItsTicket(es: seq<Event>)
    ensures TurnsNumbered(After(INITIAL, es))
  {
    TurnsKeepNumbers(INITIAL, es);
  }

  // --- A forced refresh is not forgotten

  /** A forced scan waits for the one under way. */
  ghost predicate Owes(s: State, url: Url) {
    url in s.entries && s.entries[url].busy != 0 && s.entries[url].dirty && s.entries[url].force
  }

  /** Since s, a scan of the directory was started with force. */
  ghost predicate Forced(s: State, t: State, url: Url) {
    exists i :: |s.turns| <= i < |t.turns| && t.turns[i].url == url && t.turns[i].entry.force
  }

  /** A forced refresh either starts a forced scan at once or leaves one owed. */
  lemma {:induction false} ForcedRefreshCounts(s: State, url: Url, file: int)
    requires Inv(s)
    ensures var t := Next(s, Refresh(url, file, true));
      if Waits(s, url) then Owes(t, url) && t.turns == s.turns else Forced(s, t, url)
  {
    var t := Next(s, Refresh(url, file, true));
    if !Waits(s, url) {
      assert t.turns[|s.turns|].url == url && t.turns[|s.turns|].entry.force;
    }
  }

  lemma {:induction false} TickedKeepsOwing(s: State, remote: seq<Url>, url: Url)
    requires Owes(s, url)
    ensures Owes(Ticked(s, remote), url) && Ticked(s, remote).entries[url].busy == s.entries[url].busy
    ensures s.turns <= Ticked(s, remote).turns
    decreases |remote|
  {
    if remote != [] { TickedKeepsOwing(TickedOne(s, remote[0]), remote[1..], url); }
  }

  /** An owed scan stays owed until its directory is dropped or the running scan reports; then it starts. */
  lemma {:induction false} OwedUntilReport(s: State, e: Event, url: Url)
    requires Owes(s, url)
    ensures var t := Next(s, e);
      || (e.Sync? && url !in t.entries)
      || (Owes(t, url) && t.entries[url].busy == s.entries[url].busy)
      || (e.Done? && e.prev.url == url && e.prev.entry.busy == s.entries[url].busy && Forced(s, t, url))
    ensures s.turns <= Next(s, e).turns
  {
    var t := Next(s, e);
    match e {
      case Tick(remote) => TickedKeepsOwing(s, remote, url);
      case Done(prev, _) =>
        if prev.url == url && prev.entry.busy == s.entries[url].busy {
          assert t.turns[|s.turns|].url == url && t.turns[|s.turns|].entry.force;
        }
      case _ =>
    }
  }

  lemma {:induction false} TurnsGrow(s: State, es: seq<Event>)
    ensures s.turns <= After(s, es).turns
    decreases |es|
  {
    if es != [] {
      TurnsGrowOnce(s, es[0]);
      TurnsGrow(Next(s, es[0]), es[1..]);
    }
  }

  lemma {:induction false} TurnsGrowOnce(s: State, e: Event)
    ensures s.turns <= Next(s, e).turns
  {
    if e.Tick? { TickedGrows(s, e.remote); }
  }

  lemma {:induction false} TickedGrows(s: State, remote: seq<Url>)
    ensures s.turns <= Ticked(s, remote).turns
    decreases |remote|
  {
    if remote != [] { TickedGrows(TickedOne(s, remote[0]), remote[1..]); }
  }

  /** However a run goes on from a state that owes a forced scan: it was started, or the directory was
      dropped on the way, or the scan that was under way has still not reported. */
  lemma {:induction false} ForcedScanFollows(s: State, es: seq<Event>, url: Url)
    requires Owes(s, url)
    ensures
      || Forced(s, After(s, es), url)
      || (exists i :: 0 <= i < |es| && es[i].Sync? && url !in es[i].files)
      || (Owes(After(s, es), url) && After(s, es).entries[url].busy == s.entries[url].busy)
    decreases |es|
  {
    if es != [] {
      var t := Next(s, es[0]);
      OwedUntilReport(s, es[0], url);
      TurnsGrow(t, es[1..]);
      if Forced(s, t, url) {
        var i :| |s.turns| <= i < |t.turns| && t.turns[i].url == url && t.turns[i].entry.force;
        assert After(s, es).turns[i] == t.turns[i];
      } else if url in t.entries {
        ForcedScanFollows(t, es[1..], url);
        if i :| 0 <= i < |es[1..]| && es[1..][i].Sync? && url !in es[1..][i].files {
          assert es[i + 1] == es[1..][i];
        }
      }
    }
  }
}
