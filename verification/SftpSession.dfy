/** How yazi-sftp matches responses to requests: the id generator, the table of callbacks, and the receivers
    waiting on them, under every interleaving of the steps of concurrent calls, of the reader and of the
    writer. */
module SftpSession {
  import opened SftpMaps
  import opened SftpCodec
  import opened SftpPacket
  import opened Wrappers

  // --- Ids

  /** How many ids there are before they repeat: 0 is skipped. */
  const CYCLE: nat := MAX32 - 1

  /** The id handed out i-th. */
  function IdAt(i: nat): nat { i % CYCLE + 1 }

  /** The id the counter stands for: 0 is passed over. */
  function Upcoming(counter: nat): nat { if counter == 0 then 1 else counter }

  function Bumped(counter: nat): nat { (counter + 1) % MAX32 }

  /** Ids are never 0, and two are the same exactly when whole cycles lie between them. */
  lemma {:induction false} SameIdIff(i: nat, j: nat)
    ensures 0 < IdAt(i) < MAX32
    ensures IdAt(i) == IdAt(j) <==> exists k: int :: i - j == k * CYCLE
  {
    assert i == i / CYCLE * CYCLE + i % CYCLE && j == j / CYCLE * CYCLE + j % CYCLE;
    if IdAt(i) == IdAt(j) {
      assert i - j == (i / CYCLE - j / CYCLE) * CYCLE;
    }
    if k: int :| i - j == k * CYCLE {
      assert i % CYCLE - j % CYCLE == (k - i / CYCLE + j / CYCLE) * CYCLE;
      NoSmallMultiple(k - i / CYCLE + j / CYCLE);
    }
  }

  lemma {:induction false} NoSmallMultiple(k: int)
    ensures -(CYCLE as int) < k * CYCLE < CYCLE ==> k == 0
  {}

  /** So fewer than a whole cycle of consecutive ids are all different. */
  lemma {:induction false} DistinctWithinACycle(i: nat, j: nat)
    requires i < j < i + CYCLE
    ensures IdAt(i) != IdAt(j)
  {
    SameIdIff(j, i);
    if k: int :| j - i == k * CYCLE {
      NoSmallMultiple(k);
    }
  }

  lemma {:induction false} UpcomingAdvances(i: nat)
    ensures Upcoming(Bumped(IdAt(i))) == IdAt(i + 1)
  {
    var q, r := i / CYCLE, i % CYCLE;
    assert i == q * CYCLE + r;
    if r == CYCLE - 1 {
      assert i + 1 == (q + 1) * CYCLE;
      ModIs(i + 1, q + 1, 0);
    } else {
      ModIs(i + 1, q, r + 1);
    }
  }

  lemma {:induction false} ModIs(n: nat, q: nat, r: nat)
    requires n == q * CYCLE + r && r < CYCLE
    ensures n % CYCLE == r
  {
    assert n % CYCLE - r == (q - n / CYCLE) * CYCLE;
    NoSmallMultiple(q - n / CYCLE);
  }

  class Id {
    var counter: nat
    var drawn: nat  // how many ids have been handed out; only the statements about ids need it

    ghost predicate Valid()
      reads this
    {
      counter < MAX32 && Upcoming(counter) == IdAt(drawn)
    }

    constructor ()
      ensures Valid() && drawn == 0 && counter == 1
    {
      counter, drawn := 1, 0;
    }

    /** One atomic step; getting 0 means trying again. */
    method FetchAdd() returns (was: nat)
      requires Valid()
      modifies this
      ensures Valid() && was == old(counter) && counter == Bumped(was)
      ensures drawn == (if was == 0 then old(drawn) else old(drawn) + 1)
      ensures was != 0 ==> was == IdAt(old(drawn))
    {
      UpcomingAdvances(drawn);
      was := counter;
      counter := Bumped(was);
      if was != 0 { drawn := drawn + 1; }
    }

    method Next() returns (id: nat)
      requires Valid()
      modifies this
      ensures Valid() && drawn == old(drawn) + 1 && id == IdAt(old(drawn))
    {
      while true
        invariant Valid() && drawn == old(drawn)
        decreases if counter == 0 then 1 else 0
      {
        id := FetchAdd();
        if id != 0 { return; }
      }
    }
  }

  // --- Calls

  /** A call draws an id if its request has none, registers a callback under it, writes the request, and
      then waits on its receiver, which may be dropped. */
  datatype Phase = Asking | Drawn | Registered | Waiting | Received | Gone

  /** The turn says which id was drawn; the answer is what was put into the call's channel. */
  datatype Call = Call(request: Packet, phase: Phase, turn: nat, answer: Option<Packet>) {
    predicate Open() { phase.Asking? || phase.Drawn? || phase.Registered? || phase.Waiting? }

    /** The id the call goes by is settled. */
    predicate Settled() { !phase.Asking? }

    /** The receiving end of the channel is there. */
    predicate Listening() { phase.Registered? || phase.Waiting? }

    function Key(): nat { IdOf(request) }
  }

  datatype State = State(counter: nat, issued: nat, calls: seq<Call>, callback: map<nat, nat>, wire: seq<Packet>,
                         closed: bool, lost: bool)

  const FRESH := State(1, 0, [], map[], [], false, false)

  datatype Event =
    | Begin(request: Packet)
    | Fetch(call: nat)
    | Register(call: nat)
    | Transmit(call: nat)
    | Respond(packet: Packet)
    | Poll(call: nat)
    | Quit(call: nat)
    | Close
    | Lose

  const LOST_CODE: nat := 7

  /** What every pending call gets when the connection is lost. */
  function ConnectionLost(id: nat): Packet {
    Packet(Status, Vals([Num(id), Num(LOST_CODE), Raw(Ascii("connection lost")), Raw(Ascii("en"))]))
  }

  function Ascii(s: string): Bytes { seq(|s|, i requires 0 <= i < |s| => s[i] as int % 256) }

  // --- Steps

  function AtPhase(s: State, c: nat, p: Phase): State
    requires c < |s.calls|
  {
    s.(calls := s.calls[c := s.calls[c].(phase := p)])
  }

  function DoBegin(s: State, p: Packet): State {
    s.(calls := s.calls + [Call(p, if IdOf(p) == 0 then Asking else Drawn, 0, None)])
  }

  function DoFetch(s: State, c: nat): State
    requires c < |s.calls|
  {
    if s.counter == 0 then s.(counter := Bumped(0))
    else s.(counter := Bumped(s.counter), issued := s.issued + 1,
            calls := s.calls[c := Call(WithId(s.calls[c].request, s.counter), Drawn, s.issued, None)])
  }

  function DoRegister(s: State, c: nat): State
    requires c < |s.calls|
  {
    AtPhase(s, c, Registered).(callback := s.callback[s.calls[c].Key() := c])
  }

  /** When the request cannot be written or the channel is closed, the call fails and its callback stays. */
  function DoTransmit(s: State, c: nat): State
    requires c < |s.calls|
  {
    if Writable(s.calls[c].request) && !s.closed then
      AtPhase(s, c, Waiting).(wire := s.wire + [s.calls[c].request])
    else AtPhase(s, c, Gone)
  }

  function Answered(c: Call, p: Packet): Call { if c.Listening() then c.(answer := Some(p)) else c }

  predicate Bound(s: State) { forall id | id in s.callback :: s.callback[id] < |s.calls| }

  function DoRespond(s: State, p: Packet): State
    requires Bound(s)
  {
    if IdOf(p) !in s.callback then s
    else
      var c := s.callback[IdOf(p)];
      s.(callback := s.callback - {IdOf(p)}, calls := s.calls[c := Answered(s.calls[c], p)])
  }

  function DoPoll(s: State, c: nat): State
    requires c < |s.calls|
  {
    if s.calls[c].answer.Some? then AtPhase(s, c, Received) else s
  }

  /** What a waiting call sees when it looks for its answer. */
  datatype Polled = NotYet | Got(packet: Packet) | Broken

  function Looked(s: State, c: nat): Polled
    requires c < |s.calls|
  {
    match s.calls[c].answer
    case Some(p) => Got(p)
    case None => if Pending(s, c) then NotYet else Broken
  }

  function DoQuit(s: State, c: nat): State
    requires c < |s.calls|
  {
    AtPhase(s, c, Gone).(callback := s.callback - {s.calls[c].Key()})
  }

  /** The id under which the call's channel stands in the table. */
  predicate Pending(s: State, c: nat) {
    c < |s.calls| && s.calls[c].Key() in s.callback && s.callback[s.calls[c].Key()] == c
  }

  function Struck(s: State, c: nat): Call
    requires c < |s.calls|
  {
    if Pending(s, c) then Answered(s.calls[c], ConnectionLost(s.calls[c].Key())) else s.calls[c]
  }

  function DoLose(s: State): State {
    s.(callback := map[], calls := seq(|s.calls|, c requires 0 <= c < |s.calls| => Struck(s, c)), lost := true)
  }

  predicate Enabled(s: State, e: Event) {
    match e
    case Begin(p) => !IsResponse(p.kind)
    case Fetch(c) => c < |s.calls| && s.calls[c].phase.Asking?
    case Register(c) => c < |s.calls| && s.calls[c].phase.Drawn?
    case Transmit(c) => c < |s.calls| && s.calls[c].phase.Registered?
    case Respond(p) => IsResponse(p.kind) && Bound(s)
    case Poll(c) => c < |s.calls| && s.calls[c].phase.Waiting?
    case Quit(c) => c < |s.calls| && s.calls[c].phase.Waiting?
    case Close => true
    case Lose => s.closed && !s.lost
  }

  function Next(s: State, e: Event): State
    requires Enabled(s, e)
  {
    match e
    case Begin(p) => DoBegin(s, p)
    case Fetch(c) => DoFetch(s, c)
    case Register(c) => DoRegister(s, c)
    case Transmit(c) => DoTransmit(s, c)
    case Respond(p) => DoRespond(s, p)
    case Poll(c) => DoPoll(s, c)
    case Quit(c) => DoQuit(s, c)
    case Close => s.(closed := true)
    case Lose => DoLose(s)
  }

  // --- What is asked of the callers

  /** The packet has a place for its id. */
  predicate HasId(p: Packet) { p.value.Vals? && p.value.vs != [] && p.value.vs[0].Num? }

  /** No call that is still open drew its id a whole cycle ago. */
  ghost predicate Recent(s: State) {
    forall d :: 0 <= d < |s.calls| && s.calls[d].Open() && s.calls[d].Settled() ==> s.issued < s.calls[d].turn + CYCLE
  }

  ghost predicate InitIsOpen(s: State) { exists d :: 0 <= d < |s.calls| && s.calls[d].Open() && s.calls[d].request.kind.Init? }

  /** Requests are built with id 0, one Init at a time, and fewer ids than a cycle are drawn while a call is
      open. */
  ghost predicate Fair(s: State, e: Event) {
    match e
    case Begin(p) => HasId(p) && IdOf(p) == 0 && (p.kind.Init? ==> !InitIsOpen(s))
    case Fetch(_) => Recent(s)
    case _ => true
  }

  ghost predicate Legal(s: State, es: seq<Event>)
    decreases |es|
  {
    es != [] ==> Enabled(s, es[0]) && Fair(s, es[0]) && Legal(Next(s, es[0]), es[1..])
  }

  function After(s: State, es: seq<Event>): State
    requires Runs(s, es)
    decreases |es|
  {
    if es == [] then s else After(Next(s, es[0]), es[1..])
  }

  predicate Runs(s: State, es: seq<Event>)
    decreases |es|
  {
    es != [] ==> Enabled(s, es[0]) && Runs(Next(s, es[0]), es[1..])
  }

  lemma {:induction false} LegalRuns(s: State, es: seq<Event>)
    requires Legal(s, es)
    ensures Runs(s, es)
    decreases |es|
  {
    if es != [] { LegalRuns(Next(s, es[0]), es[1..]); }
  }

  // --- The invariant

  ghost predicate CounterOk(s: State) { s.counter < MAX32 && Upcoming(s.counter) == IdAt(s.issued) }

  /** A call goes by the id it drew; Init has none. */
  predicate CallOk(s: State, c: Call) {
    && !IsResponse(c.request.kind) && HasId(c.request)
    && (if c.Settled() then c.turn < s.issued && c.Key() == (if c.request.kind.Init? then 0 else IdAt(c.turn))
        else c.Key() == 0)
    && (c.answer.Some? ==> c.phase.Waiting? || c.phase.Registered? || c.phase.Received? || c.phase.Gone?)
    && (c.answer.Some? ==> IdOf(c.answer.value) == c.Key())
    && (c.phase.Received? ==> c.answer.Some?)
    && (s.lost && c.phase.Waiting? ==> c.answer.Some?)
  }

  ghost predicate CallsOk(s: State) { forall c :: 0 <= c < |s.calls| ==> CallOk(s, s.calls[c]) }

  /** Open calls differ in their ids. */
  predicate Apart(c: Call, d: Call) {
    c.Open() && d.Open() ==>
      && (c.Settled() && d.Settled() ==> c.Key() != d.Key())
      && !(c.request.kind.Init? && d.request.kind.Init?)
  }

  ghost predicate AllApart(s: State) {
    forall c, d :: 0 <= c < |s.calls| && 0 <= d < |s.calls| && c != d ==> Apart(s.calls[c], s.calls[d])
  }

  /** The table holds channels not used yet, each under its call's id. */
  predicate EntryOk(s: State, id: nat, c: nat) {
    c < |s.calls| && s.calls[c].Key() == id && s.calls[c].answer.None?
    && (s.calls[c].Listening() || s.calls[c].phase.Gone?)
  }

  ghost predicate TableOk(s: State) { forall id | id in s.callback :: EntryOk(s, id, s.callback[id]) }

  /** A call listening for an answer is in the table. */
  ghost predicate ListenersAreThere(s: State) {
    forall c :: 0 <= c < |s.calls| && s.calls[c].Listening() && s.calls[c].answer.None? ==> Pending(s, c)
  }

  ghost predicate Inv(s: State) {
    && CounterOk(s) && CallsOk(s) && AllApart(s) && TableOk(s) && ListenersAreThere(s) && (s.lost ==> s.closed)
  }

  lemma {:induction false} BeginKeepsInv(s: State, p: Packet)
    requires Inv(s) && Enabled(s, Begin(p)) && Fair(s, Begin(p))
    ensures Inv(DoBegin(s, p))
  {}

  lemma {:induction false} FetchedIsApart(s: State, c: nat, d: nat)
    requires Inv(s) && Enabled(s, Fetch(c)) && Recent(s) && s.counter != 0 && d < |s.calls| && d != c
    ensures Apart(DoFetch(s, c).calls[c], s.calls[d]) && Apart(s.calls[d], DoFetch(s, c).calls[c])
  {
    var b := s.calls[d];
    assert CallOk(s, s.calls[c]) && CallOk(s, b) && Apart(s.calls[c], b);
    SameIdIff(s.issued, b.turn);
    if b.Open() && b.Settled() {
      assert b.turn < s.issued < b.turn + CYCLE;
      DistinctWithinACycle(b.turn, s.issued);
    }
  }

  lemma {:induction false} FetchedIsOk(s: State, c: nat)
    requires Inv(s) && Enabled(s, Fetch(c)) && s.counter != 0
    ensures CallOk(DoFetch(s, c), DoFetch(s, c).calls[c]) && CounterOk(DoFetch(s, c))
  {
    assert CallOk(s, s.calls[c]);
    UpcomingAdvances(s.issued);
  }

  lemma {:induction false} FetchKeepsTable(s: State, c: nat)
    requires Inv(s) && Enabled(s, Fetch(c)) && s.counter != 0
    ensures TableOk(DoFetch(s, c)) && ListenersAreThere(DoFetch(s, c))
  {
    var t := DoFetch(s, c);
    forall id | id in s.callback ensures EntryOk(t, id, t.callback[id]) {
      assert EntryOk(s, id, s.callback[id]);
    }
    forall d | 0 <= d < |t.calls| && t.calls[d].Listening() && t.calls[d].answer.None? ensures Pending(t, d) {
      assert d != c && Pending(s, d);
    }
  }

  lemma {:induction false} FetchKeepsInv(s: State, c: nat)
    requires Inv(s) && Enabled(s, Fetch(c)) && Recent(s)
    ensures Inv(DoFetch(s, c))
  {
    var t := DoFetch(s, c);
    if s.counter == 0 {
      assert Inv(s.(counter := 1));
    } else {
      FetchedIsOk(s, c);
      FetchKeepsTable(s, c);
      forall d | 0 <= d < |s.calls| && d != c
        ensures Apart(t.calls[c], s.calls[d]) && Apart(s.calls[d], t.calls[c]) && CallOk(t, s.calls[d])
      {
        FetchedIsApart(s, c, d);
        assert CallOk(s, s.calls[d]);
      }
    }
  }

  lemma {:induction false} RegisterKeepsInv(s: State, c: nat)
    requires Inv(s) && Enabled(s, Register(c))
    ensures Inv(DoRegister(s, c))
  {
    var t := DoRegister(s, c);
    forall d | 0 <= d < |s.calls| && d != c ensures Apart(s.calls[c], s.calls[d]) {}
    forall id | id in t.callback ensures EntryOk(t, id, t.callback[id]) {
      if id in s.callback { assert EntryOk(s, id, s.callback[id]); }
    }
    forall d | 0 <= d < |t.calls| && t.calls[d].Listening() && t.calls[d].answer.None? ensures Pending(t, d) {
      if d != c { assert Pending(s, d) && Apart(s.calls[c], s.calls[d]); }
    }
  }

  lemma {:induction false} MovingOnKeepsInv(s: State, c: nat, p: Phase)
    requires Inv(s) && Enabled(s, Transmit(c)) && ((p.Waiting? && !s.closed) || p.Gone?)
    ensures Inv(AtPhase(s, c, p))
  {
    var t := AtPhase(s, c, p);
    assert CallOk(s, s.calls[c]);
    forall d | 0 <= d < |s.calls| && d != c ensures CallOk(t, s.calls[d]) { assert CallOk(s, s.calls[d]); }
    forall id | id in t.callback ensures EntryOk(t, id, t.callback[id]) {
      assert EntryOk(s, id, s.callback[id]);
    }
    forall d | 0 <= d < |t.calls| && t.calls[d].Listening() && t.calls[d].answer.None? ensures Pending(t, d) {
      assert Pending(s, d);
    }
  }

  lemma {:induction false} WireIsFree(s: State, w: seq<Packet>)
    requires Inv(s)
    ensures Inv(s.(wire := w))
  {
    var t := s.(wire := w);
    forall c | 0 <= c < |s.calls| ensures CallOk(t, s.calls[c]) { assert CallOk(s, s.calls[c]); }
    forall id | id in t.callback ensures EntryOk(t, id, t.callback[id]) { assert EntryOk(s, id, s.callback[id]); }
    forall d | 0 <= d < |t.calls| && t.calls[d].Listening() && t.calls[d].answer.None? ensures Pending(t, d) {
      assert Pending(s, d);
    }
  }

  lemma {:induction false} TransmitKeepsInv(s: State, c: nat)
    requires Inv(s) && Enabled(s, Transmit(c))
    ensures Inv(DoTransmit(s, c))
  {
    var phase := DoTransmit(s, c).calls[c].phase;
    MovingOnKeepsInv(s, c, phase);
    WireIsFree(AtPhase(s, c, phase), DoTransmit(s, c).wire);
  }

  lemma {:induction false} TableIsBound(s: State)
    requires TableOk(s)
    ensures Bound(s)
  {
    forall id | id in s.callback ensures s.callback[id] < |s.calls| { assert EntryOk(s, id, s.callback[id]); }
  }

  /** Taking an entry out of the table and answering its call. */
  lemma {:induction false} AnsweringKeepsTable(s: State, id: nat, p: Packet)
    requires Inv(s) && id in s.callback && s.callback[id] < |s.calls|
    ensures var c := s.callback[id];
      var t := s.(callback := s.callback - {id}, calls := s.calls[c := Answered(s.calls[c], p)]);
      TableOk(t) && ListenersAreThere(t)
  {
    var c := s.callback[id];
    var t := s.(callback := s.callback - {id}, calls := s.calls[c := Answered(s.calls[c], p)]);
    assert EntryOk(s, id, c);
    forall i | i in t.callback ensures EntryOk(t, i, t.callback[i]) { assert EntryOk(s, i, s.callback[i]); }
    forall d | 0 <= d < |t.calls| && t.calls[d].Listening() && t.calls[d].answer.None? ensures Pending(t, d) {
      assert Pending(s, d);
    }
  }

  lemma {:induction false} RespondKeepsInv(s: State, p: Packet)
    requires Inv(s)
    ensures Bound(s) && Inv(DoRespond(s, p))
  {
    TableIsBound(s);
    if IdOf(p) in s.callback {
      var t, c := DoRespond(s, p), s.callback[IdOf(p)];
      AnsweringKeepsTable(s, IdOf(p), p);
      assert EntryOk(s, IdOf(p), c) && CallOk(s, s.calls[c]);
      forall d | 0 <= d < |s.calls| && d != c ensures CallOk(t, s.calls[d]) { assert CallOk(s, s.calls[d]); }
    }
  }

  lemma {:induction false} PollKeepsInv(s: State, c: nat)
    requires Inv(s) && Enabled(s, Poll(c))
    ensures Inv(DoPoll(s, c))
  {
    var t := DoPoll(s, c);
    forall id | id in t.callback ensures EntryOk(t, id, t.callback[id]) {
      assert EntryOk(s, id, s.callback[id]);
    }
    forall d | 0 <= d < |t.calls| && t.calls[d].Listening() && t.calls[d].answer.None? ensures Pending(t, d) {
      assert Pending(s, d);
    }
  }

  lemma {:induction false} QuitKeepsInv(s: State, c: nat)
    requires Inv(s) && Enabled(s, Quit(c))
    ensures Inv(DoQuit(s, c))
  {
    var t := DoQuit(s, c);
    forall id | id in t.callback ensures EntryOk(t, id, t.callback[id]) {
      assert EntryOk(s, id, s.callback[id]);
    }
    forall d | 0 <= d < |t.calls| && t.calls[d].Listening() && t.calls[d].answer.None? ensures Pending(t, d) {
      assert Pending(s, d) && Apart(s.calls[c], s.calls[d]);
    }
  }

  lemma {:induction false} LoseKeepsInv(s: State)
    requires Inv(s) && s.closed
    ensures Inv(DoLose(s))
  {
    var t := DoLose(s);
    forall c | 0 <= c < |s.calls|
      ensures CallOk(t, t.calls[c]) && (t.calls[c].Listening() ==> t.calls[c].answer.Some?)
    {
      assert CallOk(s, s.calls[c]);
      if Pending(s, c) { assert EntryOk(s, s.calls[c].Key(), c); }
    }
  }

  lemma {:induction false} StepKeepsInv(s: State, e: Event)
    requires Inv(s) && Enabled(s, e) && Fair(s, e)
    ensures Inv(Next(s, e))
  {
    match e {
      case Begin(p) => BeginKeepsInv(s, p);
      case Fetch(c) => FetchKeepsInv(s, c);
      case Register(c) => RegisterKeepsInv(s, c);
      case Transmit(c) => TransmitKeepsInv(s, c);
      case Respond(p) => RespondKeepsInv(s, p);
      case Poll(c) => PollKeepsInv(s, c);
      case Quit(c) => QuitKeepsInv(s, c);
      case Close =>
      case Lose => LoseKeepsInv(s);
    }
  }

  /** Whatever the interleaving, calls go by the ids they drew, open ones by different ones; each unanswered
      listener stands in the table under its id; and no answer has another id than its call. */
  lemma {:induction false} RunsKeepInv(s: State, es: seq<Event>)
    requires Inv(s) && Legal(s, es)
    ensures Runs(s, es) && Inv(After(s, es))
    decreases |es|
  {
    if es != [] {
      StepKeepsInv(s, es[0]);
      RunsKeepInv(Next(s, es[0]), es[1..]);
    }
  }

  lemma FreshInv()
    ensures Inv(FRESH)
  {}

  // --- What follows

  /** A response is for the call that listens for its id. */
  ghost predicate IsFor(s: State, p: Packet, c: nat) {
    c < |s.calls| && s.calls[c].Listening() && s.calls[c].answer.None? && s.calls[c].Key() == IdOf(p)
  }

  /** A response answers exactly the unanswered listener with its id, of which there is at most one, and
      touches no other call. */
  lemma {:induction false} ResponseFindsItsRequest(s: State, p: Packet, c: nat)
    requires Inv(s) && Enabled(s, Respond(p)) && c < |s.calls|
    ensures Next(s, Respond(p)).calls[c] == if IsFor(s, p, c) then s.calls[c].(answer := Some(p)) else s.calls[c]
    ensures forall d :: IsFor(s, p, c) && IsFor(s, p, d) ==> c == d
  {
    if IdOf(p) in s.callback { assert EntryOk(s, IdOf(p), s.callback[IdOf(p)]); }
    forall d | IsFor(s, p, c) && IsFor(s, p, d) ensures c == d {
      assert Pending(s, c) && Pending(s, d);
    }
  }

  /** The reply of Version goes to Init and to no other call. */
  lemma {:induction false} SlotZeroIsForInit(s: State, c: nat)
    requires Inv(s) && c < |s.calls| && s.calls[c].Settled()
    ensures s.calls[c].Key() == 0 <==> s.calls[c].request.kind.Init?
    ensures 0 in s.callback ==> s.callback[0] < |s.calls| && s.calls[s.callback[0]].request.kind.Init?
  {
    assert CallOk(s, s.calls[c]);
    SameIdIff(s.calls[c].turn, 0);
    if 0 in s.callback {
      var d := s.callback[0];
      assert EntryOk(s, 0, d) && CallOk(s, s.calls[d]);
      SameIdIff(s.calls[d].turn, 0);
    }
  }

  /** Once a call has an answer it keeps it. */
  lemma {:induction false} AnswerStays(s: State, e: Event, c: nat)
    requires Inv(s) && Enabled(s, e) && c < |s.calls| && s.calls[c].answer.Some?
    ensures c < |Next(s, e).calls| && Next(s, e).calls[c].answer == s.calls[c].answer
  {
    assert CallOk(s, s.calls[c]);
    match e {
      case Respond(p) => ResponseFindsItsRequest(s, p, c);
      case _ =>
    }
  }

  /** So a call is answered at most once in a run. */
  lemma {:induction false} AnsweredAtMostOnce(s: State, es: seq<Event>, c: nat)
    requires Inv(s) && Legal(s, es) && c < |s.calls| && s.calls[c].answer.Some?
    ensures Runs(s, es) && c < |After(s, es).calls| && After(s, es).calls[c].answer == s.calls[c].answer
    decreases |es|
  {
    if es != [] {
      AnswerStays(s, es[0], c);
      StepKeepsInv(s, es[0]);
      AnsweredAtMostOnce(Next(s, es[0]), es[1..], c);
    }
  }

  /** The first response with the given id. */
  function FirstReply(es: seq<Event>, id: nat): Option<Packet> {
    if es == [] then None
    else if es[0].Respond? && IdOf(es[0].packet) == id then Some(es[0].packet)
    else FirstReply(es[1..], id)
  }

  /** The receiver is not dropped, nor the connection lost. */
  ghost predicate Undisturbed(es: seq<Event>, c: nat) { forall i :: 0 <= i < |es| ==> es[i] != Quit(c) && !es[i].Lose? }

  lemma {:induction false} WaitingGoesOn(s: State, e: Event, c: nat)
    requires Inv(s) && Enabled(s, e) && c < |s.calls| && s.calls[c].phase.Waiting? && s.calls[c].answer.None?
    requires e != Quit(c) && !e.Lose?
    ensures var t := Next(s, e); c < |t.calls| && t.calls[c].phase.Waiting? && t.calls[c].Key() == s.calls[c].Key()
    ensures Next(s, e).calls[c].answer ==
            if e.Respond? && IdOf(e.packet) == s.calls[c].Key() then Some(e.packet) else None
  {
    match e {
      case Respond(p) => ResponseFindsItsRequest(s, p, c);
      case _ =>
    }
  }

  /** In any run, a waiting call has been answered by the first response with its id, if there was one. */
  lemma {:induction false} TheFirstReplyIsTheAnswer(s: State, es: seq<Event>, c: nat)
    requires Inv(s) && Legal(s, es) && Undisturbed(es, c)
    requires c < |s.calls| && s.calls[c].phase.Waiting? && s.calls[c].answer.None?
    ensures Runs(s, es) && c < |After(s, es).calls|
    ensures After(s, es).calls[c].answer == FirstReply(es, s.calls[c].Key())
    decreases |es|
  {
    LegalRuns(s, es);
    if es != [] {
      var e, t := es[0], Next(s, es[0]);
      WaitingGoesOn(s, e, c);
      StepKeepsInv(s, e);
      assert Undisturbed(es[1..], c) by { assert forall i :: 0 <= i < |es| - 1 ==> es[1..][i] == es[i + 1]; }
      if t.calls[c].answer.Some? {
        AnsweredAtMostOnce(t, es[1..], c);
      } else {
        TheFirstReplyIsTheAnswer(t, es[1..], c);
      }
    }
  }

  /** When the connection is lost, all that wait are told so, each under its own id, those answered already
      excepted; and from then on nobody waits without an answer. */
  lemma {:induction false} LossIsTold(s: State, c: nat)
    requires Inv(s) && Enabled(s, Lose) && c < |s.calls|
    ensures var was := s.calls[c].answer; s.calls[c].Listening() ==>
      Next(s, Lose).calls[c].answer == (if was.Some? then was else Some(ConnectionLost(s.calls[c].Key())))
    ensures !s.calls[c].Listening() ==> Next(s, Lose).calls[c] == s.calls[c]
  {
    if Pending(s, c) { assert EntryOk(s, s.calls[c].Key(), c); }
  }

  lemma {:induction false} NobodyIsStranded(es: seq<Event>, c: nat)
    requires Legal(FRESH, es)
    ensures Runs(FRESH, es)
    ensures var s := After(FRESH, es); c < |s.calls| && s.calls[c].phase.Waiting? ==>
      Looked(s, c) == (if s.calls[c].answer.Some? then Got(s.calls[c].answer.value) else NotYet)
      && (s.lost ==> s.calls[c].answer.Some?)
  {
    FreshInv();
    RunsKeepInv(FRESH, es);
    var s := After(FRESH, es);
    if c < |s.calls| && s.calls[c].phase.Waiting? { assert CallOk(s, s.calls[c]); }
  }

  /** The bound on ids is needed, and it is exact: a call that draws when another has been open for whole
      cycles takes that one's id, and registering drives it out of the table, so that no response reaches it. */
  lemma {:induction false} SharedIdDrivesOut(s: State, c: nat, d: nat)
    requires Inv(s) && Enabled(s, Fetch(c)) && s.counter != 0 && !s.calls[c].request.kind.Init?
    requires d < |s.calls| && d != c && s.calls[d].Listening() && s.calls[d].answer.None?
    requires !s.calls[d].request.kind.Init?
    ensures var t := DoRegister(DoFetch(s, c), c);
      Pending(t, c) && (!Pending(t, d) <==> exists k: int :: s.issued - s.calls[d].turn == k * CYCLE)
  {
    assert CallOk(s, s.calls[d]) && CallOk(s, s.calls[c]) && Pending(s, d);
    SameIdIff(s.issued, s.calls[d].turn);
  }

  // --- A call that is driven out

  lemma {:induction false} RunsAppend(s: State, a: seq<Event>, b: seq<Event>)
    requires Runs(s, a) && Runs(After(s, a), b)
    ensures Runs(s, a + b) && After(s, a + b) == After(After(s, a), b)
    decreases |a|
  {
    if a == [] {
      assert a + b == b;
    } else {
      assert (a + b)[1..] == a[1..] + b;
      RunsAppend(Next(s, a[0]), a[1..], b);
    }
  }

  lemma {:induction false} RunsOneMore(es: seq<Event>, e: Event)
    requires Runs(FRESH, es) && Enabled(After(FRESH, es), e)
    ensures Runs(FRESH, es + [e]) && After(FRESH, es + [e]) == Next(After(FRESH, es), e)
  {
    var s := After(FRESH, es);
    assert [e][1..] == [];
    assert Runs(s, [e]) && After(s, [e]) == Next(s, e);
    RunsAppend(FRESH, es, [e]);
  }

  /** A request for the attributes of the empty path. */
  function StatRequest(id: nat): Packet { Packet(Stat, Vals([Num(id), Raw([])])) }

  lemma {:induction false} StatIsWritable(id: nat)
    ensures Writable(StatRequest(id)) && WithId(StatRequest(0), id) == StatRequest(id) && IdOf(StatRequest(id)) == id
  {
    var vs: seq<Value> := [Num(id), Raw([])];
    assert [U32, Blob][1..] == [Blob] && [Blob][1..] == [] && vs[1..] == [Raw([])] && vs[1..][1..] == [];
    assert Short(Blob, Raw([])) && FieldsShort([Blob], [Raw([])]);
    assert FieldsLen([Blob], [Raw([])]) == 4;
    assert [Num(0), Raw([])][0 := Num(id)] == vs;
  }

  /** The first call is waiting, and n others have come and gone since. */
  predicate Standing(s: State, n: nat) {
    && |s.calls| == n + 1 && s.calls[0] == Call(StatRequest(1), Phase.Waiting, 0, None)
    && s.callback == map[1 := 0] && s.issued == n + 1 && s.counter == (n + 2) % MAX32 && !s.closed && !s.lost
  }

  /** A call up to its registration, when the counter is not 0. */
  lemma {:induction false} CallRegisters(es: seq<Event>) returns (fs: seq<Event>)
    requires Runs(FRESH, es) && After(FRESH, es).counter != 0
    ensures var s := After(FRESH, es); var c := |s.calls|;
      Runs(FRESH, fs) && After(FRESH, fs) ==
        s.(counter := Bumped(s.counter), issued := s.issued + 1, callback := s.callback[s.counter := c],
           calls := s.calls + [Call(StatRequest(s.counter), Registered, s.issued, None)])
  {
    var s := After(FRESH, es);
    var c := |s.calls|;
    StatIsWritable(0);
    StatIsWritable(s.counter);
    RunsOneMore(es, Begin(StatRequest(0)));
    fs := es + [Begin(StatRequest(0))];
    assert After(FRESH, fs).calls == s.calls + [Call(StatRequest(0), Asking, 0, None)];
    RunsOneMore(fs, Fetch(c));
    fs := fs + [Fetch(c)];
    assert After(FRESH, fs).calls == s.calls + [Call(StatRequest(s.counter), Drawn, s.issued, None)];
    RunsOneMore(fs, Register(c));
    fs := fs + [Register(c)];
    assert After(FRESH, fs).calls == s.calls + [Call(StatRequest(s.counter), Registered, s.issued, None)];
  }

  lemma {:induction false} CallWaits(es: seq<Event>, c: nat) returns (fs: seq<Event>)
    requires Runs(FRESH, es)
    requires var s := After(FRESH, es);
      !s.closed && c == |s.calls| - 1 && s.calls[c].phase.Registered? && Writable(s.calls[c].request)
    ensures var s := After(FRESH, es);
      Runs(FRESH, fs) && After(FRESH, fs) ==
        s.(calls := s.calls[c := s.calls[c].(phase := Phase.Waiting)], wire := s.wire + [s.calls[c].request])
  {
    RunsOneMore(es, Transmit(c));
    fs := es + [Transmit(c)];
  }

  /** One more call comes and its receiver is dropped. */
  lemma {:induction false} OneMoreGoes(es: seq<Event>, n: nat) returns (fs: seq<Event>)
    requires Runs(FRESH, es) && Standing(After(FRESH, es), n) && n + 2 < MAX32
    ensures Runs(FRESH, fs) && Standing(After(FRESH, fs), n + 1)
  {
    var s := After(FRESH, es);
    StatIsWritable(s.counter);
    fs := CallRegisters(es);
    fs := CallWaits(fs, n + 1);
    var u := After(FRESH, fs);
    assert u.calls[n + 1].Key() == n + 2 && u.callback == map[1 := 0, n + 2 := n + 1];
    RunsOneMore(fs, Quit(n + 1));
    fs := fs + [Quit(n + 1)];
    LastQuits(u, n);
  }

  lemma {:induction false} LastQuits(u: State, n: nat)
    requires |u.calls| == n + 2 && u.calls[0] == Call(StatRequest(1), Phase.Waiting, 0, None)
    requires u.calls[n + 1].Key() == n + 2 && u.callback == map[1 := 0, n + 2 := n + 1]
    requires u.issued == n + 2 && u.counter == (n + 3) % MAX32 && !u.closed && !u.lost
    ensures Standing(DoQuit(u, n + 1), n + 1)
  {
    assert u.callback - {n + 2} == map[1 := 0];
  }

  lemma {:induction false} ManyGo(n: nat) returns (es: seq<Event>)
    requires n < CYCLE
    ensures Runs(FRESH, es) && Standing(After(FRESH, es), n)
  {
    if n == 0 {
      StatIsWritable(1);
      es := CallRegisters([]);
      es := CallWaits(es, 0);
    } else {
      es := ManyGo(n - 1);
      es := OneMoreGoes(es, n - 1);
    }
  }

  /** The same when the counter is 0, which is passed over. */
  lemma {:induction false} CallPassesZero(es: seq<Event>) returns (fs: seq<Event>)
    requires Runs(FRESH, es) && After(FRESH, es).counter == 0
    ensures var s := After(FRESH, es); var c := |s.calls|;
      Runs(FRESH, fs) && After(FRESH, fs) ==
        s.(counter := 2, issued := s.issued + 1, callback := s.callback[1 := c],
           calls := s.calls + [Call(StatRequest(1), Registered, s.issued, None)])
  {
    var s := After(FRESH, es);
    var c := |s.calls|;
    StatIsWritable(0);
    StatIsWritable(1);
    RunsOneMore(es, Begin(StatRequest(0)));
    fs := es + [Begin(StatRequest(0))];
    assert After(FRESH, fs).calls == s.calls + [Call(StatRequest(0), Asking, 0, None)];
    RunsOneMore(fs, Fetch(c));
    fs := fs + [Fetch(c)];
    RunsOneMore(fs, Fetch(c));
    fs := fs + [Fetch(c)];
    assert After(FRESH, fs).calls == s.calls + [Call(StatRequest(1), Drawn, s.issued, None)];
    RunsOneMore(fs, Register(c));
    fs := fs + [Register(c)];
    assert After(FRESH, fs).calls == s.calls + [Call(StatRequest(1), Registered, s.issued, None)];
  }

  /** The input of that kind: a run from the start in which the first call is left waiting while all other ids
      are drawn; the next call gets its id, and it is left with a broken channel. */
  lemma FirstCallIsDrivenOut() returns (es: seq<Event>)
    ensures Runs(FRESH, es)
    ensures var s := After(FRESH, es);
      && |s.calls| == MAX32 && s.calls[0].phase.Waiting? && s.calls[0].answer.None?
      && s.calls[CYCLE].turn - s.calls[0].turn == CYCLE && s.calls[CYCLE].Key() == s.calls[0].Key()
      && Pending(s, CYCLE) && Looked(s, 0) == Broken
  {
    es := ManyGo(CYCLE - 1);
    StatIsWritable(1);
    es := CallPassesZero(es);
  }

  // --- The session

  /** Each entry of the table is of a registered call, under its id. */
  predicate Keyed(s: State) {
    forall id | id in s.callback :: s.callback[id] < |s.calls| && EntryIs(s.calls[s.callback[id]], id)
  }

  predicate EntryIs(c: Call, id: nat) { c.Key() == id && !c.phase.Asking? && !c.phase.Drawn? }

  /** The id a call gets when nothing comes between, a passed-over 0 included. */
  function DoDraw(s: State, c: nat): State
    requires c < |s.calls|
  {
    if s.counter == 0 then DoFetch(DoFetch(s, c), c) else DoFetch(s, c)
  }

  /** A call from its request to waiting, when nothing comes between. */
  function DoSend(s: State, p: Packet): State {
    var c := |s.calls|;
    var begun := DoBegin(s, p);
    var drawn := if IdOf(p) == 0 then DoDraw(begun, c) else begun;
    DoTransmit(DoRegister(drawn, c), c)
  }

  /** While the table is drained: those whose entries are out have been told. */
  ghost predicate HalfLost(was: State, calls: seq<Call>, callback: map<nat, nat>) {
    && |calls| == |was.calls|
    && (forall k | k in callback :: k in was.callback && callback[k] == was.callback[k])
    && forall c :: 0 <= c < |calls| ==>
         calls[c] == if was.calls[c].Key() in callback then was.calls[c] else Struck(was, c)
  }

  lemma {:induction false} OneMoreLost(was: State, calls: seq<Call>, callback: map<nat, nat>, k: nat)
    requires Keyed(was) && HalfLost(was, calls, callback) && k in callback
    ensures callback[k] < |calls|
    ensures HalfLost(was, calls[callback[k] := Answered(calls[callback[k]], ConnectionLost(k))], callback - {k})
  {
    var c := callback[k];
    assert EntryIs(was.calls[was.callback[k]], k);
    var next := calls[c := Answered(calls[c], ConnectionLost(k))];
    forall d | 0 <= d < |calls|
      ensures next[d] == if was.calls[d].Key() in callback - {k} then was.calls[d] else Struck(was, d)
    {
      if d != c && was.calls[d].Key() == k { assert !Pending(was, d); }
    }
  }

  lemma {:induction false} AllLost(was: State, calls: seq<Call>)
    requires HalfLost(was, calls, map[])
    ensures calls == DoLose(was).calls
  {}

  lemma {:induction false} NoneLost(was: State)
    requires Keyed(was)
    ensures HalfLost(was, was.calls, was.callback)
  {}

  class Session {
    const id: Id
    var calls: seq<Call>
    var callback: map<nat, nat>
    var wire: seq<Packet>
    var closed: bool
    var lost: bool

    ghost function View(): State
      reads this, id
    {
      State(id.counter, id.drawn, calls, callback, wire, closed, lost)
    }

    ghost predicate Valid()
      reads this, id
    {
      id.Valid() && Keyed(View())
    }

    constructor ()
      ensures Valid() && View() == FRESH && fresh(id)
    {
      id := new Id();
      calls, callback, wire, closed, lost := [], map[], [], false, false;
    }

    method Begin(p: Packet) returns (c: nat)
      requires Valid()
      modifies this
      ensures Valid() && c == old(|calls|) && View() == DoBegin(old(View()), p)
    {
      c := |calls|;
      calls := calls + [Call(p, if IdOf(p) == 0 then Asking else Drawn, 0, None)];
    }

    method Fetch(c: nat)
      requires Valid() && Enabled(View(), Event.Fetch(c))
      modifies this, id
      ensures Valid() && View() == DoFetch(old(View()), c)
    {
      var turn := id.drawn;
      var was := id.FetchAdd();
      if was != 0 { calls := calls[c := Call(WithId(calls[c].request, was), Drawn, turn, None)]; }
    }

    method Register(c: nat)
      requires Valid() && Enabled(View(), Event.Register(c))
      modifies this
      ensures Valid() && View() == DoRegister(old(View()), c)
    {
      calls := calls[c := calls[c].(phase := Registered)];
      callback := callback[calls[c].Key() := c];
    }

    method Transmit(c: nat)
      requires Valid() && Enabled(View(), Event.Transmit(c))
      modifies this
      ensures Valid() && View() == DoTransmit(old(View()), c)
    {
      var request := calls[c].request;
      var bytes := ToBytes(request);
      if bytes.None? || closed {
        calls := calls[c := calls[c].(phase := Gone)];
      } else {
        wire := wire + [request];
        calls := calls[c := calls[c].(phase := Phase.Waiting)];
      }
    }

    /** One call, uninterrupted. */
    method SendSync(p: Packet) returns (c: nat)
      requires Valid()
      modifies this, id
      ensures Valid() && c == old(|calls|) && View() == DoSend(old(View()), p)
    {
      c := Begin(p);
      ghost var begun := View();
      while calls[c].phase.Asking?
        invariant Valid() && |calls| == c + 1
        invariant calls[c].phase.Asking? ==>
          IdOf(p) == 0 && (View() == begun || (begun.counter == 0 && View() == DoFetch(begun, c)))
        invariant !calls[c].phase.Asking? ==>
          View() == if IdOf(p) == 0 then DoDraw(begun, c) else begun
        decreases calls[c].phase.Asking?, if id.counter == 0 then 1 else 0
      {
        Fetch(c);
      }
      Register(c);
      Transmit(c);
    }

    method OnPacket(p: Packet)
      requires Valid()
      modifies this
      ensures Valid() && Bound(old(View())) && View() == DoRespond(old(View()), p)
    {
      if IdOf(p) in callback {
        var c := callback[IdOf(p)];
        callback := callback - {IdOf(p)};
        calls := calls[c := Answered(calls[c], p)];
      }
    }

    /** A channel whose sending end is gone unused is broken. */
    method Poll(c: nat) returns (r: Polled)
      requires Valid() && Enabled(View(), Event.Poll(c))
      modifies this
      ensures Valid() && View() == DoPoll(old(View()), c) && r == Looked(old(View()), c)
    {
      var answer, key := calls[c].answer, calls[c].Key();
      if answer.Some? {
        calls := calls[c := calls[c].(phase := Received)];
        return Got(answer.value);
      }
      r := if key in callback && callback[key] == c then NotYet else Broken;
    }

    method Quit(c: nat)
      requires Valid() && Enabled(View(), Event.Quit(c))
      modifies this
      ensures Valid() && View() == DoQuit(old(View()), c)
    {
      calls := calls[c := calls[c].(phase := Gone)];
      callback := callback - {calls[c].Key()};
    }

    method Lose()
      requires Valid() && Enabled(View(), Event.Lose)
      modifies this
      ensures Valid() && View() == DoLose(old(View()))
    {
      DrainCallbacks();
      lost := true;
    }

    method DrainCallbacks()
      requires Keyed(View())
      modifies this`calls, this`callback
      ensures callback == map[] && calls == DoLose(old(View())).calls
    {
      ghost var was := View();
      NoneLost(was);
      while callback != map[]
        invariant HalfLost(was, calls, callback)
        decreases |callback|
      {
        var k :| k in callback;
        OneMoreLost(was, calls, callback, k);
        var c := callback[k];
        callback := callback - {k};
        calls := calls[c := Answered(calls[c], ConnectionLost(k))];
      }
      AllLost(was, calls);
    }
  }
}
