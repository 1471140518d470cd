/** The pub/sub server of yazi-dds: connections say hello with an id and the kinds they can take,
    messages are passed on to able clients, and the last message of each `@` kind is kept for those
    who join later. Handlers run one at a time; so do two broadcasts, and a broadcast and a load, which in
    the program may overlap because each holds only a read lock on the clients while it sends. */
module Dds {
  import opened Wrappers

  type Id = nat
  type Conn = nat

  /** A message: receiver 0 is everyone. Numbers are parsed, so the stored and the passed on form of a
      message to everyone are the same line. */
  datatype Line = Line(kind: string, receiver: Id, sender: Id, body: string)

  datatype Client = Client(conn: Conn, abilities: set<string>)

  /** A connection: the id it last said hello with, and everything queued to it so far. */
  datatype Link = Link(id: Option<Id>, queue: seq<Line>)

  datatype State = State(clients: map<Id, Client>, kept: Option<map<string, Line>>, links: map<Conn, Link>)

  predicate Sticky(kind: string) { kind != "" && kind[0] == '@' }

  const HEY := Line("hey", 0, 0, "")

  // --- What one connection is told, and what that amounts to

  /** The line a client holds for kind k after taking in a queue: the last message to everyone, unless
      it was a removal. */
  function Rebuilt(queue: seq<Line>, k: string): Option<Line>
    decreases |queue|
  {
    if queue == [] then None
    else
      var last := queue[|queue| - 1];
      if last.receiver == 0 && last.kind == k then (if last.body == "null" then None else Some(last))
      else Rebuilt(queue[..|queue| - 1], k)
  }

  function Stored(s: State, k: string): Option<Line> {
    if s.kept.Some? && k in s.kept.value then Some(s.kept.value[k]) else None
  }

  // --- The handlers as functions

  function Told(links: map<Conn, Link>, to: set<Conn>, lines: seq<Line>): map<Conn, Link> {
    map c | c in links :: if c in to then links[c].(queue := links[c].queue + lines) else links[c]
  }

  function Listeners(clients: map<Id, Client>): set<Conn> { set i | i in clients :: clients[i].conn }

  /** Every client is told who is there. */
  function Hey(s: State): State { s.(links := Told(s.links, Listeners(s.clients), [HEY])) }

  /** The order in which a hash map yields its values. */
  ghost predicate Yields(m: map<string, Line>, values: seq<Line>) {
    && (forall i :: 0 <= i < |values| ==> values[i].kind in m && values[i] == m[values[i].kind])
    && (forall i, j :: 0 <= i < j < |values| ==> values[i].kind != values[j].kind)
    && (forall k :: k in m ==> exists i :: 0 <= i < |values| && values[i].kind == k)
  }

  /** A hello replaces the connection's registration; the kept lines are sent on its first hello only. */
  function Hi(s: State, c: Conn, sender: Id, abilities: set<string>, replay: seq<Line>): State
    requires c in s.links
  {
    var link := s.links[c];
    var rest := if link.id.Some? then s.clients - {link.id.value} else s.clients;
    var queue := if link.id.Some? || s.kept == None then link.queue else link.queue + replay;
    Hey(State(rest[sender := Client(c, abilities)], s.kept, s.links[c := Link(Some(sender), queue)]))
  }

  /** Keeping a line: the new state, and whether that was news. */
  function Set(kept: Option<map<string, Line>>, l: Line): (Option<map<string, Line>>, bool) {
    if kept == None then (kept, false)
    else if l.body == "null" then (Some(kept.value - {l.kind}), l.kind in kept.value)
    else if l.kind in kept.value && kept.value[l.kind] == l then (kept, false)
    else (Some(kept.value[l.kind := l]), true)
  }

  function Able(s: State, l: Line): set<Conn> {
    if l.receiver == 0 then set i | i in s.clients && l.kind in s.clients[i].abilities :: s.clients[i].conn
    else if l.receiver in s.clients && l.kind in s.clients[l.receiver].abilities then {s.clients[l.receiver].conn}
    else {}
  }

  /** A message without a body is not kept, hence not passed on when it would have to be. */
  function Send(s: State, c: Conn, l: Line, hasBody: bool): State {
    if c !in s.links || s.links[c].id == None || Able(s, l) == {} then s
    else if l.receiver == 0 && Sticky(l.kind) then
      if !hasBody || !Set(s.kept, l).1 then s
      else s.(kept := Set(s.kept, l).0, links := Told(s.links, Able(s, l), [l]))
    else s.(links := Told(s.links, Able(s, l), [l]))
  }

  function Leave(s: State, c: Conn): State
    requires c in s.links
  {
    var id, links := s.links[c].id, s.links - {c};
    if id.Some? && id.value in s.clients
    then Hey(State(s.clients - {id.value}, s.kept, links))
    else s.(links := links)
  }

  /** Loading what was saved replaces the kept lines and tells every client the loaded ones. */
  function Load(s: State, saved: map<string, Line>, replay: seq<Line>): State {
    State(s.clients, Some(saved), Told(s.links, Listeners(s.clients), replay))
  }

  // --- The handlers as the code performs them

  class Server {
    var clients: map<Id, Client>
    var kept: Option<map<string, Line>>
    var links: map<Conn, Link>

    ghost function Sees(): State
      reads this
    {
      State(clients, kept, links)
    }

    method Tell(to: set<Conn>, lines: seq<Line>)
      modifies `links
      ensures links == Told(old(links), to, lines)
    {
      var todo := to;
      while todo != {}
        invariant todo <= to && links == Told(old(links), to - todo, lines)
        decreases todo
      {
        var c :| c in todo;
        if c in links { links := links[c := links[c].(queue := links[c].queue + lines)]; }
        todo := todo - {c};
      }
      assert to - {} == to;
    }

    method HandleHi(c: Conn, sender: Id, abilities: set<string>, replay: seq<Line>)
      requires c in links
      modifies this
      ensures Sees() == Hi(old(Sees()), c, sender, abilities, replay)
    {
      var link := links[c];
      if link.id.Some? {
        clients := clients - {link.id.value};
      } else if kept.Some? {
        link := link.(queue := link.queue + replay);
      }
      links := links[c := Link(Some(sender), link.queue)];
      clients := clients[sender := Client(c, abilities)];
      Tell(Listeners(clients), [HEY]);
    }

    method SetKept(l: Line) returns (news: bool)
      modifies `kept
      ensures (kept, news) == Set(old(kept), l)
      ensures !news ==> kept == old(kept)
    {
      if kept == None { return false; }
      if l.body == "null" {
        news := l.kind in kept.value;
        assert !news ==> kept.value - {l.kind} == kept.value;
        kept := Some(kept.value - {l.kind});
        return;
      }
      if l.kind in kept.value && kept.value[l.kind] == l { return false; }
      kept := Some(kept.value[l.kind := l]);
      news := true;
    }

    method HandleSend(c: Conn, l: Line, hasBody: bool)
      modifies this
      ensures Sees() == Send(old(Sees()), c, l, hasBody)
    {
      if c !in links || links[c].id == None { return; }
      var to: set<Conn> := {};
      if l.receiver == 0 {
        to := set i | i in clients && l.kind in clients[i].abilities :: clients[i].conn;
      } else if l.receiver in clients && l.kind in clients[l.receiver].abilities {
        to := {clients[l.receiver].conn};
      }
      if to == {} { return; }
      if l.receiver == 0 && Sticky(l.kind) {
        if !hasBody { return; }
        var news := SetKept(l);
        if !news { return; }
      }
      Tell(to, [l]);
    }

    method HandleLeave(c: Conn)
      requires c in links
      modifies this
      ensures Sees() == Leave(old(Sees()), c)
    {
      var id := links[c].id;
      links := links - {c};
      if id.Some? && id.value in clients {
        clients := clients - {id.value};
        Tell(Listeners(clients), [HEY]);
      }
    }
  }

  // --- Runs

  datatype Event =
    | Connect(c: Conn)
    | SayHi(c: Conn, sender: Id, abilities: set<string>, replay: seq<Line>)
    | SendLine(c: Conn, line: Line, hasBody: bool)
    | Disconnect(c: Conn)
    | LoadSaved(saved: map<string, Line>, loaded: seq<Line>)

  /** Saved lines are as they were kept: filed under their kind, to everyone, and not removals. */
  ghost predicate WellKept(m: map<string, Line>) {
    forall k :: k in m ==> m[k].kind == k && m[k].receiver == 0 && m[k].body != "null"
  }

  /** What can happen: instances have ids of their own, and hash maps yield each value once. */
  ghost predicate Possible(s: State, e: Event) {
    match e
    case Connect(c) => c !in s.links
    case SayHi(c, sender, _, replay) =>
      && c in s.links && (forall d :: d in s.links && d != c ==> s.links[d].id != Some(sender))
      && (s.kept.Some? ==> Yields(s.kept.value, replay))
    case SendLine(c, _, _) => c in s.links
    case Disconnect(c) => c in s.links
    case LoadSaved(saved, loaded) => WellKept(saved) && Yields(saved, loaded)
  }

  function Next(s: State, e: Event): State {
    match e
    case Connect(c) => s.(links := s.links[c := Link(None, [])])
    case SayHi(c, sender, abilities, replay) => if c in s.links then Hi(s, c, sender, abilities, replay) else s
    case SendLine(c, l, hasBody) => Send(s, c, l, hasBody)
    case Disconnect(c) => if c in s.links then Leave(s, c) else s
    case LoadSaved(saved, loaded) => Load(s, saved, loaded)
  }

  /** A client is registered under the id its connection last gave, and nothing is queued to a connection
      before its hello. */
  ghost predicate Inv(s: State) {
    && (forall i :: i in s.clients ==>
          s.clients[i].conn in s.links && s.links[s.clients[i].conn].id == Some(i))
    && (forall c :: c in s.links ==>
          if s.links[c].id.Some? then s.links[c].id.value in s.clients && s.clients[s.links[c].id.value].conn == c
          else s.links[c].queue == [])
    && (s.kept.Some? ==> WellKept(s.kept.value))
  }

  /** Connection c has said hello only with the ability k: what it was told about k is what is kept. */
  ghost predicate Follows(s: State, c: Conn, k: string)
    requires c in s.links
  {
    var id := s.links[c].id;
    id.Some? ==> id.value in s.clients && k in s.clients[id.value].abilities &&
                 Rebuilt(s.links[c].queue, k) == Stored(s, k)
  }

  // --- Lemmas on queues

  lemma {:induction false} RebuiltAppend(q: seq<Line>, r: seq<Line>, k: string)
    requires forall i :: 0 <= i < |r| ==> !(r[i].receiver == 0 && r[i].kind == k)
    ensures Rebuilt(q + r, k) == Rebuilt(q, k)
    decreases |r|
  {
    if r == [] {
      assert q + r == q;
    } else {
      assert (q + r)[..|q + r| - 1] == q + r[..|r| - 1];
      RebuiltAppend(q, r[..|r| - 1], k);
    }
  }

  lemma {:induction false} RebuiltOne(q: seq<Line>, l: Line, k: string)
    ensures Rebuilt(q + [l], k) ==
            if l.receiver == 0 && l.kind == k then (if l.body == "null" then None else Some(l)) else Rebuilt(q, k)
  {
    assert (q + [l])[..|q|] == q;
  }

  /** Being told all kept lines, in any order, brings the client to what is kept; a kind that is not kept
      stays as it was. */
  lemma {:induction false} RebuiltReplay(q: seq<Line>, m: map<string, Line>, values: seq<Line>, k: string)
    requires Yields(m, values) && WellKept(m)
    ensures Rebuilt(q + values, k) == if k in m then Some(m[k]) else Rebuilt(q, k)
  {
    if k in m {
      var i :| 0 <= i < |values| && values[i].kind == k;
      assert q + values == q + values[..i] + [values[i]] + values[i + 1..];
      RebuiltAppend(q + values[..i] + [values[i]], values[i + 1..], k);
      RebuiltOne(q + values[..i], values[i], k);
    } else {
      RebuiltAppend(q, values, k);
    }
  }

  // --- Runs from the empty server

  const INITIAL := State(map[], None, map[])

  ghost predicate IsRun(s: State, es: seq<Event>)
    decreases |es|
  {
    es == [] || (Possible(s, es[0]) && IsRun(Next(s, es[0]), es[1..]))
  }

  function After(s: State, es: seq<Event>): State
    decreases |es|
  {
    if es == [] then s else After(Next(s, es[0]), es[1..])
  }

  lemma {:induction false} RunAppend(s: State, a: seq<Event>, b: seq<Event>)
    ensures After(s, a + b) == After(After(s, a), b)
    ensures IsRun(s, a + b) <==> IsRun(s, a) && IsRun(After(s, a), b)
    decreases |a|
  {
    if a == [] {
      assert a + b == b;
    } else {
      assert (a + b)[1..] == a[1..] + b;
      RunAppend(Next(s, a[0]), a[1..], b);
    }
  }

  lemma {:induction false} HeyKeepsInv(s: State)
    requires Inv(s)
    ensures Inv(Hey(s))
  {}

  lemma {:induction false} HiKeepsInv(s: State, d: Conn, sender: Id, abilities: set<string>, replay: seq<Line>)
    requires Inv(s) && Possible(s, SayHi(d, sender, abilities, replay))
    ensures Inv(Hi(s, d, sender, abilities, replay))
  {
    var link := s.links[d];
    var rest := if link.id.Some? then s.clients - {link.id.value} else s.clients;
    var queue := if link.id.Some? || s.kept == None then link.queue else link.queue + replay;
    HeyKeepsInv(State(rest[sender := Client(d, abilities)], s.kept, s.links[d := Link(Some(sender), queue)]));
  }

  lemma {:induction false} NextKeepsInv(s: State, e: Event)
    requires Inv(s) && Possible(s, e)
    ensures Inv(Next(s, e))
  {
    match e {
      case Connect(c) =>
      case SayHi(d, sender, abilities, replay) => HiKeepsInv(s, d, sender, abilities, replay);
      case SendLine(d, l, hasBody) => SendKeepsInv(s, d, l, hasBody);
      case Disconnect(d) =>
        var id, links := s.links[d].id, s.links - {d};
        if id.Some? { HeyKeepsInv(State(s.clients - {id.value}, s.kept, links)); }
      case LoadSaved(saved, loaded) =>
    }
  }

  /** So every state the server can get into is in order. */
  lemma {:induction false} RunsKeepInv(s: State, es: seq<Event>)
    requires Inv(s) && IsRun(s, es)
    ensures Inv(After(s, es))
    decreases |es|
  {
    if es != [] {
      NextKeepsInv(s, es[0]);
      RunsKeepInv(Next(s, es[0]), es[1..]);
    }
  }

  // --- Agreement over every run

  lemma {:induction false} HeyKeeps(s: State, c: Conn, k: string)
    requires Inv(s) && c in s.links && Sticky(k)
    ensures Inv(Hey(s)) && c in Hey(s).links
    ensures Follows(s, c, k) ==> Follows(Hey(s), c, k)
  {
    RebuiltOne(s.links[c].queue, HEY, k);
  }

  lemma {:induction false} HiKeepsFollowing(s: State, c: Conn, k: string, d: Conn, sender: Id,
      abilities: set<string>, replay: seq<Line>)
    requires Inv(s) && c in s.links && Sticky(k) && Follows(s, c, k)
    requires Possible(s, SayHi(d, sender, abilities, replay)) && (d == c ==> k in abilities)
    ensures var t := Hi(s, d, sender, abilities, replay); Inv(t) && c in t.links && Follows(t, c, k)
  {
    var link := s.links[d];
    var rest := if link.id.Some? then s.clients - {link.id.value} else s.clients;
    var queue := if link.id.Some? || s.kept == None then link.queue else link.queue + replay;
    var t := State(rest[sender := Client(d, abilities)], s.kept, s.links[d := Link(Some(sender), queue)]);
    if d == c && link.id == None && s.kept.Some? { RebuiltReplay(link.queue, s.kept.value, replay, k); }
    HeyKeeps(t, c, k);
  }

  lemma {:induction false} SetKeeps(kept: Option<map<string, Line>>, l: Line)
    requires l.receiver == 0 && (kept.Some? ==> WellKept(kept.value))
    ensures var (kept', news) := Set(kept, l);
      && (kept'.Some? ==> WellKept(kept'.value))
      && (news ==> kept'.Some? && (if l.body == "null" then l.kind !in kept'.value
                                   else l.kind in kept'.value && kept'.value[l.kind] == l))
      && (forall k :: kept'.Some? && kept.Some? && k != l.kind ==>
            (k in kept'.value <==> k in kept.value) && (k in kept.value ==> kept'.value[k] == kept.value[k]))
  {}

  lemma {:induction false} SendKeepsInv(s: State, d: Conn, l: Line, hasBody: bool)
    requires Inv(s)
    ensures Inv(Send(s, d, l, hasBody)) && Send(s, d, l, hasBody).links.Keys == s.links.Keys
  {
    if l.receiver == 0 { SetKeeps(s.kept, l); }
  }

  lemma {:induction false} SendKeepsFollowing(s: State, c: Conn, k: string, d: Conn, l: Line, hasBody: bool)
    requires Inv(s) && c in s.links && Sticky(k) && Follows(s, c, k)
    ensures var t := Send(s, d, l, hasBody); Inv(t) && c in t.links && Follows(t, c, k)
  {
    SendKeepsInv(s, d, l, hasBody);
    RebuiltOne(s.links[c].queue, l, k);
    if l.receiver == 0 { SetKeeps(s.kept, l); }
    var id := s.links[c].id;
    if id.Some? && l.receiver == 0 && l.kind == k {
      assert s.clients[id.value].conn == c;
      assert c in Able(s, l);
    }
  }

  lemma {:induction false} LeaveKeepsFollowing(s: State, c: Conn, k: string, d: Conn)
    requires Inv(s) && c in s.links && Sticky(k) && Follows(s, c, k) && d in s.links && d != c
    ensures var t := Leave(s, d); Inv(t) && c in t.links && Follows(t, c, k)
  {
    var id, links := s.links[d].id, s.links - {d};
    if id.Some? { HeyKeeps(State(s.clients - {id.value}, s.kept, links), c, k); }
  }

  /** Loading over kept lines agrees for a registered client exactly when nothing kept is forgotten. */
  lemma {:induction false} LoadAgreesIff(s: State, c: Conn, k: string, saved: map<string, Line>, loaded: seq<Line>)
    requires Inv(s) && c in s.links && Sticky(k) && Follows(s, c, k) && WellKept(saved) && Yields(saved, loaded)
    ensures var t := Load(s, saved, loaded);
      && Inv(t) && c in t.links
      && (s.links[c].id.Some? ==> (Follows(t, c, k) <==> k in saved || Stored(s, k) == None))
  {
    RebuiltReplay(s.links[c].queue, saved, loaded, k);
    if s.links[c].id.Some? { assert s.clients[s.links[c].id.value].conn == c; }
  }

  /** A run in which connection c is there throughout, lists k in every hello, and no load forgets k. */
  ghost predicate GoodRun(s: State, es: seq<Event>, c: Conn, k: string)
    decreases |es|
  {
    es == [] || (
      && Possible(s, es[0])
      && (es[0].SayHi? && es[0].c == c ==> k in es[0].abilities)
      && !(es[0].Disconnect? && es[0].c == c)
      && (es[0].LoadSaved? ==> k in es[0].saved || Stored(s, k) == None)
      && GoodRun(Next(s, es[0]), es[1..], c, k))
  }

  lemma {:induction false} NextKeepsFollowing(s: State, e: Event, c: Conn, k: string)
    requires Inv(s) && c in s.links && Sticky(k) && Follows(s, c, k)
    requires Possible(s, e) && !(e.Disconnect? && e.c == c)
    requires (e.SayHi? && e.c == c ==> k in e.abilities) && (e.LoadSaved? ==> k in e.saved || Stored(s, k) == None)
    ensures Inv(Next(s, e)) && c in Next(s, e).links && Follows(Next(s, e), c, k)
  {
    match e {
      case Connect(d) =>
      case SayHi(d, sender, abilities, replay) => HiKeepsFollowing(s, c, k, d, sender, abilities, replay);
      case SendLine(d, l, hasBody) => SendKeepsFollowing(s, c, k, d, l, hasBody);
      case Disconnect(d) => LeaveKeepsFollowing(s, c, k, d);
      case LoadSaved(saved, loaded) => LoadAgreesIff(s, c, k, saved, loaded);
    }
  }

  lemma {:induction false} FollowingGoesOn(s: State, es: seq<Event>, c: Conn, k: string)
    requires Inv(s) && c in s.links && Sticky(k) && Follows(s, c, k) && GoodRun(s, es, c, k)
    ensures var t := After(s, es); Inv(t) && c in t.links && Follows(t, c, k)
    decreases |es|
  {
    if es != [] {
      NextKeepsFollowing(s, es[0], c, k);
      FollowingGoesOn(Next(s, es[0]), es[1..], c, k);
    }
  }

  /** A fresh connection meets the starting condition. */
  lemma {:induction false} ConnectedFollows(s: State, c: Conn, k: string)
    requires Inv(s) && c !in s.links
    ensures var t := Next(s, Connect(c)); Inv(t) && c in t.links && Follows(t, c, k)
  {}

  /** The main result: in any run from the empty server in which a connection, once made, is good to the
      kind, the lines queued to it rebuild exactly what the server keeps, through sets, overwrites,
      duplicates, removals, a late first hello and loads. */
  lemma {:induction false} ClientsRebuildWhatIsKept(es: seq<Event>, n: nat, c: Conn, k: string)
    requires IsRun(INITIAL, es) && Sticky(k) && n < |es| && es[n] == Connect(c)
    requires GoodRun(After(INITIAL, es[..n + 1]), es[n + 1..], c, k)
    ensures var t := After(INITIAL, es); Inv(t) && c in t.links && Follows(t, c, k)
  {
    assert es == es[..n] + es[n..] && es == es[..n + 1] + es[n + 1..] && es[..n + 1] == es[..n] + [es[n]];
    RunAppend(INITIAL, es[..n], es[n..]);
    RunAppend(INITIAL, es[..n + 1], es[n + 1..]);
    RunAppend(INITIAL, es[..n], [es[n]]);
    RunsKeepInv(INITIAL, es[..n]);
    var s := After(INITIAL, es[..n]);
    assert [es[n]][1..] == [];
    ConnectedFollows(s, c, k);
    FollowingGoesOn(Next(s, es[n]), es[n + 1..], c, k);
  }

  // --- A kind listed only later

  ghost predicate Registered(s: State, c: Conn) {
    c in s.links && s.links[c].id.Some? && s.links[c].id.value in s.clients
  }

  ghost predicate Lists(s: State, c: Conn, k: string) {
    Registered(s, c) && k in s.clients[s.links[c].id.value].abilities
  }

  /** What the connection was told about k is what is kept, whether or not it listed k. */
  ghost predicate Agrees(s: State, c: Conn, k: string) {
    c in s.links && Rebuilt(s.links[c].queue, k) == Stored(s, k)
  }

  /** What a hello does to its own connection. */
  lemma {:induction false} HelloTells(s: State, c: Conn, sender: Id, abilities: set<string>, replay: seq<Line>)
    requires c in s.links
    ensures var t, link := Hi(s, c, sender, abilities, replay), s.links[c];
      && t.kept == s.kept && t.links.Keys == s.links.Keys
      && t.clients == (if link.id.Some? then s.clients - {link.id.value} else s.clients)[sender := Client(c, abilities)]
      && t.links[c] == Link(Some(sender), (if link.id.Some? || s.kept == None then link.queue else link.queue + replay) + [HEY])
  {
    var t := Hi(s, c, sender, abilities, replay);
    assert t.clients[sender].conn == c && c in Listeners(t.clients);
  }

  /** A connection that says hello again is told who is there and nothing else. */
  lemma {:induction false} HelloAgain(s: State, c: Conn, sender: Id, abilities: set<string>, replay: seq<Line>)
    requires c in s.links && s.links[c].id.Some?
    ensures var t := Hi(s, c, sender, abilities, replay);
      t.kept == s.kept && c in t.links && t.links[c] == Link(Some(sender), s.links[c].queue + [HEY])
  {
    HelloTells(s, c, sender, abilities, replay);
  }

  /** A first hello brings agreement about every kind, listed or not. */
  lemma {:induction false} FirstHelloAgrees(s: State, c: Conn, sender: Id, abilities: set<string>, replay: seq<Line>,
      k: string)
    requires Inv(s) && Possible(s, SayHi(c, sender, abilities, replay)) && s.links[c].id == None && Sticky(k)
    ensures Agrees(Hi(s, c, sender, abilities, replay), c, k)
  {
    HelloTells(s, c, sender, abilities, replay);
    var told := if s.kept == None then s.links[c].queue else s.links[c].queue + replay;
    if s.kept.Some? { RebuiltReplay(s.links[c].queue, s.kept.value, replay, k); }
    RebuiltOne(told, HEY, k);
  }

  /** A load that names a kind brings every registered client to what is kept, however far it was behind. */
  lemma {:induction false} LoadRepairs(s: State, c: Conn, k: string, saved: map<string, Line>, loaded: seq<Line>)
    requires Inv(s) && Registered(s, c) && WellKept(saved) && Yields(saved, loaded) && k in saved
    ensures Agrees(Load(s, saved, loaded), c, k)
  {
    RebuiltReplay(s.links[c].queue, saved, loaded, k);
    assert s.clients[s.links[c].id.value].conn == c;
  }

  /** Neither a hello nor the end of connection c. */
  predicate Spares(e: Event, c: Conn) { !((e.SayHi? || e.Disconnect?) && e.c == c) }

  predicate Names(e: Event, k: string) { e.LoadSaved? && k in e.saved }

  /** What the last load that names k brings. */
  function LastLoaded(es: seq<Event>, k: string, was: Option<Line>): Option<Line> {
    if es == [] then was
    else LastLoaded(es[1..], k, if Names(es[0], k) then Some(es[0].saved[k]) else was)
  }

  lemma {:induction false} HeyIsNoNews(s: State, c: Conn, k: string)
    requires c in s.links && Sticky(k)
    ensures Rebuilt(Hey(s).links[c].queue, k) == Rebuilt(s.links[c].queue, k) && Hey(s).links[c].id == s.links[c].id
  {
    RebuiltOne(s.links[c].queue, HEY, k);
  }

  /** What other connections do does not tell c anything about a kind it does not list. */
  lemma {:induction false} OtherHelloIsNoNews(s: State, c: Conn, k: string, d: Conn, sender: Id,
      abilities: set<string>, replay: seq<Line>)
    requires Inv(s) && Registered(s, c) && !Lists(s, c, k) && Sticky(k) && d != c
    requires Possible(s, SayHi(d, sender, abilities, replay))
    ensures var t := Hi(s, d, sender, abilities, replay);
      Registered(t, c) && !Lists(t, c, k) && Rebuilt(t.links[c].queue, k) == Rebuilt(s.links[c].queue, k)
  {
    var link := s.links[d];
    var rest := if link.id.Some? then s.clients - {link.id.value} else s.clients;
    var queue := if link.id.Some? || s.kept == None then link.queue else link.queue + replay;
    HeyIsNoNews(State(rest[sender := Client(d, abilities)], s.kept, s.links[d := Link(Some(sender), queue)]), c, k);
  }

  lemma {:induction false} SendIsNoNews(s: State, c: Conn, k: string, d: Conn, l: Line, hasBody: bool)
    requires Inv(s) && Registered(s, c) && !Lists(s, c, k) && Sticky(k)
    ensures var t := Send(s, d, l, hasBody);
      Registered(t, c) && !Lists(t, c, k) && Rebuilt(t.links[c].queue, k) == Rebuilt(s.links[c].queue, k)
  {
    RebuiltOne(s.links[c].queue, l, k);
    if l.receiver == 0 && l.kind == k { assert c !in Able(s, l); }
  }

  lemma {:induction false} DeafStep(s: State, e: Event, c: Conn, k: string)
    requires Inv(s) && Registered(s, c) && !Lists(s, c, k) && Sticky(k) && Possible(s, e) && Spares(e, c)
    ensures var t := Next(s, e); Registered(t, c) && !Lists(t, c, k)
    ensures Rebuilt(Next(s, e).links[c].queue, k) ==
            if Names(e, k) then Some(e.saved[k]) else Rebuilt(s.links[c].queue, k)
  {
    match e {
      case Connect(d) =>
      case SayHi(d, sender, abilities, replay) => OtherHelloIsNoNews(s, c, k, d, sender, abilities, replay);
      case SendLine(d, l, hasBody) => SendIsNoNews(s, c, k, d, l, hasBody);
      case Disconnect(d) =>
        var id, links := s.links[d].id, s.links - {d};
        if id.Some? { HeyIsNoNews(State(s.clients - {id.value}, s.kept, links), c, k); }
      case LoadSaved(saved, loaded) =>
        RebuiltReplay(s.links[c].queue, saved, loaded, k);
        assert s.clients[s.links[c].id.value].conn == c;
    }
  }

  lemma {:induction false} DeafRun(s: State, es: seq<Event>, c: Conn, k: string)
    requires Inv(s) && Registered(s, c) && !Lists(s, c, k) && Sticky(k) && IsRun(s, es)
    requires forall i :: 0 <= i < |es| ==> Spares(es[i], c)
    ensures var t := After(s, es); Inv(t) && Registered(t, c)
    ensures Rebuilt(After(s, es).links[c].queue, k) == LastLoaded(es, k, Rebuilt(s.links[c].queue, k))
    decreases |es|
  {
    if es != [] {
      NextKeepsInv(s, es[0]);
      DeafStep(s, es[0], c, k);
      DeafRun(Next(s, es[0]), es[1..], c, k);
    }
  }

  lemma {:induction false} NothingLoaded(es: seq<Event>, k: string, was: Option<Line>)
    requires forall i :: 0 <= i < |es| ==> !Names(es[i], k)
    ensures LastLoaded(es, k, was) == was
  {
    if es != [] { NothingLoaded(es[1..], k, was); }
  }

  /** A client that agreed when it did not list k, and lists k in its next hello, follows from then on exactly
      when what is kept at that hello is what the last load that named k brought; without such a load,
      exactly when it is what was kept before. */
  lemma {:induction false} LateHelloFollowsIff(s: State, es: seq<Event>, z: Event, c: Conn, k: string)
    requires Inv(s) && Registered(s, c) && !Lists(s, c, k) && Agrees(s, c, k) && Sticky(k)
    requires IsRun(s, es + [z]) && forall i :: 0 <= i < |es| ==> Spares(es[i], c)
    requires z.SayHi? && z.c == c && k in z.abilities
    ensures var t := After(s, es + [z]);
      Inv(t) && Lists(t, c, k) && (Follows(t, c, k) <==> Stored(After(s, es), k) == LastLoaded(es, k, Stored(s, k)))
    ensures (forall i :: 0 <= i < |es| ==> !Names(es[i], k)) ==>
      (Follows(After(s, es + [z]), c, k) <==> Stored(After(s, es), k) == Stored(s, k))
  {
    RunAppend(s, es, [z]);
    assert [z][1..] == [];
    DeafRun(s, es, c, k);
    var u := After(s, es);
    NextKeepsInv(u, z);
    HelloAgain(u, c, z.sender, z.abilities, z.replay);
    RebuiltOne(u.links[c].queue, HEY, k);
    if forall i :: 0 <= i < |es| ==> !Names(es[i], k) { NothingLoaded(es, k, Stored(s, k)); }
  }

  // --- Runs in which a client is left behind

  lemma {:induction false} OneEvent(s: State, e: Event)
    ensures After(s, [e]) == Next(s, e) && (IsRun(s, [e]) <==> Possible(s, e))
  {
    assert [e][1..] == [];
  }

  lemma {:induction false} RunSnoc(es: seq<Event>, e: Event)
    requires IsRun(INITIAL, es) && Possible(After(INITIAL, es), e)
    ensures IsRun(INITIAL, es + [e]) && After(INITIAL, es + [e]) == Next(After(INITIAL, es), e)
  {
    RunAppend(INITIAL, es, [e]);
    OneEvent(After(INITIAL, es), e);
  }

  /** A server with nothing kept and one client, of whatever abilities. */
  lemma {:induction false} OneClient(c: Conn, id: Id, abilities: set<string>) returns (es: seq<Event>)
    ensures IsRun(INITIAL, es)
    ensures After(INITIAL, es) == State(map[id := Client(c, abilities)], Some(map[]), map[c := Link(Some(id), [HEY])])
  {
    es := [];
    RunSnoc(es, LoadSaved(map[], []));
    es := es + [LoadSaved(map[], [])];
    RunSnoc(es, Connect(c));
    es := es + [Connect(c)];
    var s := State(map[], Some(map[]), map[c := Link(None, [])]);
    assert After(INITIAL, es) == s;
    RunSnoc(es, SayHi(c, id, abilities, []));
    es := es + [SayHi(c, id, abilities, [])];
    FirstHello(s, c, id, abilities);
  }

  lemma {:induction false} FirstHello(s: State, c: Conn, id: Id, abilities: set<string>)
    requires s == State(map[], Some(map[]), map[c := Link(None, [])])
    ensures Hi(s, c, id, abilities, []) ==
            State(map[id := Client(c, abilities)], Some(map[]), map[c := Link(Some(id), [HEY])])
  {
    var clients: map<Id, Client> := map[id := Client(c, abilities)];
    assert clients[id].conn in Listeners(clients);
    var empty: seq<Line> := [];
    assert empty + [] == empty && empty + [HEY] == [HEY];
  }

  /** A second client comes, and lists k. */
  lemma {:induction false} SecondClient(s: State, k: string)
    requires s == State(map[11 := Client(1, {})], Some(map[]), map[1 := Link(Some(11), [HEY])])
    ensures IsRun(s, [Connect(2), SayHi(2, 12, {k}, [])])
    ensures var t := After(s, [Connect(2), SayHi(2, 12, {k}, [])]);
      && t.kept == Some(map[]) && t.clients == map[11 := Client(1, {}), 12 := Client(2, {k})]
      && t.links.Keys == {1, 2} && t.links[2].id == Some(12)
  {
    var hi := SayHi(2, 12, {k}, []);
    var s1 := Next(s, Connect(2));
    RunAppend(s, [Connect(2)], [hi]);
    assert [Connect(2)] + [hi] == [Connect(2), hi];
    OneEvent(s, Connect(2));
    OneEvent(s1, hi);
    HelloTells(s1, 2, 12, {k}, []);
    assert s1.links[2] == Link(None, []) && s1.links.Keys == {1, 2} && s1.kept == Some(map[]);
  }

  /** The kind is sent while only the second client lists it. */
  lemma {:induction false} SentMeanwhile(l: Line) returns (before: seq<Event>, es: seq<Event>)
    requires Sticky(l.kind) && l.receiver == 0 && l.body != "null"
    ensures IsRun(INITIAL, before) && IsRun(After(INITIAL, before), es)
    ensures var s := After(INITIAL, before); Registered(s, 1) && !Lists(s, 1, l.kind) && Agrees(s, 1, l.kind)
    ensures Stored(After(INITIAL, before), l.kind) == None
    ensures forall i :: 0 <= i < |es| ==> Spares(es[i], 1) && !Names(es[i], l.kind)
    ensures var u := After(After(INITIAL, before), es);
      u.kept == Some(map[l.kind := l]) && 1 in u.links && (2 in u.links ==> u.links[2].id == Some(12)) && u.links.Keys <= {1, 2}
  {
    before := OneClient(1, 11, {});
    var s := After(INITIAL, before);
    RebuiltOne([], HEY, l.kind);
    assert [] + [HEY] == [HEY];
    var two, send := [Connect(2), SayHi(2, 12, {l.kind}, [])], SendLine(2, l, true);
    SecondClient(s, l.kind);
    var s2 := After(s, two);
    assert s2.clients[12].conn in Able(s2, l);
    es := two + [send];
    RunAppend(s, two, [send]);
    OneEvent(s2, send);
  }

  /** Why every hello must list k: in a run from the empty server a client first lists k after something
      was kept for it, and is never told. */
  lemma {:induction false} LaterAbilityMisses(l: Line) returns (es: seq<Event>)
    requires Sticky(l.kind) && l.receiver == 0 && l.body != "null"
    ensures IsRun(INITIAL, es)
    ensures var t := After(INITIAL, es);
      Lists(t, 1, l.kind) && Rebuilt(t.links[1].queue, l.kind) == None && Stored(t, l.kind) == Some(l)
  {
    var before, gap := SentMeanwhile(l);
    var s := After(INITIAL, before);
    var z := SayHi(1, 11, {l.kind}, [l]);
    assert Yields(map[l.kind := l], [l]) by { assert [l][0].kind == l.kind; }
    RunAppend(s, gap, [z]);
    OneEvent(After(s, gap), z);
    RunsKeepInv(INITIAL, before);
    DeafRun(s, gap, 1, l.kind);
    LateHelloFollowsIff(s, gap, z, 1, l.kind);
    NothingLoaded(gap, l.kind, None);
    HelloAgain(After(s, gap), 1, 11, {l.kind}, [l]);
    RebuiltOne(After(s, gap).links[1].queue, HEY, l.kind);
    es := before + (gap + [z]);
    RunAppend(INITIAL, before, gap + [z]);
  }

  /** A load that forgets a kept line leaves its client with it. */
  lemma {:induction false} LoadForgets(l: Line) returns (es: seq<Event>)
    requires Sticky(l.kind) && l.receiver == 0 && l.body != "null"
    ensures IsRun(INITIAL, es)
    ensures var t := After(INITIAL, es);
      Lists(t, 1, l.kind) && Rebuilt(t.links[1].queue, l.kind) == Some(l) && Stored(t, l.kind) == None
  {
    es := OneClient(1, 11, {l.kind});
    var s := After(INITIAL, es);
    assert s.clients[11].conn in Able(s, l);
    RunSnoc(es, SendLine(1, l, true));
    RebuiltOne([HEY], l, l.kind);
    es := es + [SendLine(1, l, true)];
    var u := After(INITIAL, es);
    assert u.links[1].queue == [HEY] + [l] && u.clients == s.clients;
    RunSnoc(es, LoadSaved(map[], []));
    es := es + [LoadSaved(map[], [])];
    assert u.links[1].queue + [] == u.links[1].queue;
  }
}
