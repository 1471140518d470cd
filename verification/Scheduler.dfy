/** The life of a task in yazi-scheduler: the locked map of ongoing tasks, the atomic status of each,
    hooks and cancellation, under every interleaving of the lock-protected operations and the workers'
    own status writes. */
module Scheduler {
  import opened TaskStatus
  import opened Wrappers

  type Id = nat

  datatype Cleanup = CleanPending | CleanSuccess | CleanFailed

  /** What the op loop asks of a task's progress. */
  datatype Progress = Progress(running: bool, cooked: bool, cleaned: Option<Cleanup>) {
    predicate Success() { cooked && (cleaned == None || cleaned == Some(CleanSuccess)) }
  }

  /** Every hook installed has a number of its own. */
  datatype Task = Task(prog: Progress, hook: Option<nat>)

  /** `status` holds the cell of every task ever added, since workers keep handles; `hooks` counts the
      hooks installed and `submitted` lists the hooks handed on to run. */
  datatype State = State(status: map<Id, Status>, ongoing: map<Id, Task>, next: Id,
                         hooks: nat, submitted: seq<nat>)

  /** What reducing a worker's report does to its task: new progress, perhaps a new hook, perhaps a
      cancellation. */
  datatype Report = Report(prog: Progress, installs: bool, cancels: bool)

  datatype Event =
    | Added(prog: Progress, hooked: bool)
    | WorkStarted(id: Id)
    | CancelAsked(id: Id, force: bool)
    | Reported(id: Id, report: Report)

  const INITIAL := State(map[], map[], 1, 0, [])

  // --- The operations as functions

  function Write(s: State, u: Update, id: Id): State
    requires id in s.status
  {
    s.(status := s.status[id := Updated(u, s.status[id])])
  }

  function Add(s: State, prog: Progress, hooked: bool): State {
    State(s.status[s.next := Pending],
          s.ongoing[s.next := Task(prog, if hooked then Some(s.hooks) else None)],
          s.next + 1, if hooked then s.hooks + 1 else s.hooks, s.submitted)
  }

  /** Cancels a task: a task with a hook stays for its hook to run, one without is dropped. */
  function CancelTask(s: State, id: Id): State
    requires id in s.ongoing && id in s.status
  {
    var task, c := s.ongoing[id], Write(s, Cancel, id);
    match task.hook
    case Some(h) => c.(ongoing := c.ongoing[id := task.(hook := None)], submitted := c.submitted + [h])
    case None => c.(ongoing := c.ongoing - {id})
  }

  function CancelAsk(s: State, id: Id, force: bool): State {
    if id !in s.ongoing || id !in s.status || (!force && s.status[id] == Canceled) then s
    else CancelTask(s, id)
  }

  function Land(s: State, id: Id, r: Report): State
    requires id in s.ongoing
  {
    s.(ongoing := s.ongoing[id := Task(r.prog, if r.installs then Some(s.hooks) else s.ongoing[id].hook)],
       hooks := if r.installs then s.hooks + 1 else s.hooks)
  }

  /** The task after reducing a report, and after being failed when it neither runs nor succeeded. */
  function Reduce(s: State, id: Id, r: Report): State
    requires id in s.ongoing && id in s.status
  {
    var t := Land(s, id, r);
    var c := if r.cancels then Write(t, Cancel, id) else t;
    if !r.prog.running && !r.prog.Success() then Write(c, Fail, id) else c
  }

  function Settle(s: State, id: Id): State
    requires id in s.ongoing && id in s.status
  {
    var task, st := s.ongoing[id], s.status[id];
    if !task.prog.cooked && !st.IsFinished() then s
    else if st == Failed then s
    else match task.hook
      case Some(h) => s.(ongoing := s.ongoing[id := task.(hook := None)], submitted := s.submitted + [h])
      case None =>
        if task.prog.cleaned == Some(CleanPending) then s
        else Write(s.(ongoing := s.ongoing - {id}), Succeed, id)
  }

  function Next(s: State, e: Event): State {
    match e
    case Added(prog, hooked) => Add(s, prog, hooked)
    case WorkStarted(id) => if id in s.status then Write(s, Start, id) else s
    case CancelAsked(id, force) => CancelAsk(s, id, force)
    case Reported(id, r) => if id in s.ongoing && id in s.status then Settle(Reduce(s, id, r), id) else s
  }

  function After(s: State, es: seq<Event>): State
    decreases |es|
  {
    if es == [] then s else After(Next(s, es[0]), es[1..])
  }

  // --- The operations as the code performs them

  class Worker {
    var status: map<Id, Status>
    var ongoing: map<Id, Task>
    var nextId: Id
    var hooks: nat
    var submitted: seq<nat>

    ghost function Sees(): State
      reads this
    {
      State(status, ongoing, nextId, hooks, submitted)
    }

    ghost predicate Valid()
      reads this
    {
      ongoing.Keys <= status.Keys && forall id :: id in status ==> id < nextId
    }

    constructor ()
      ensures Valid() && Sees() == INITIAL
    {
      status, ongoing, nextId, hooks, submitted := map[], map[], 1, 0, [];
    }

    method AddTask(prog: Progress, hooked: bool) returns (id: Id)
      requires Valid()
      modifies this
      ensures Valid() && Sees() == Add(old(Sees()), prog, hooked) && id == old(nextId)
      ensures id !in old(status)
    {
      id := nextId;
      nextId := nextId + 1;
      status := status[id := Pending];
      var hook := None;
      if hooked {
        hook, hooks := Some(hooks), hooks + 1;
      }
      ongoing := ongoing[id := Task(prog, hook)];
    }

    method Store(id: Id, u: Update)
      requires Valid() && id in status
      modifies `status
      ensures Valid() && Sees() == Write(old(Sees()), u, id)
    {
      if Allows(u, status[id]) { status := status[id := Target(u)]; }
      assert status == old(status)[id := Updated(u, old(status)[id])];
    }

    /** Takes a task out of the map unless a hook has to run for it first. */
    method OngoingCancel(id: Id) returns (hook: Option<nat>)
      requires Valid() && id in ongoing
      modifies `status, `ongoing
      ensures Valid() && hook == old(ongoing)[id].hook
      ensures var s := CancelTask(old(Sees()), id); status == s.status && ongoing == s.ongoing
    {
      Store(id, Update.Cancel);
      hook := ongoing[id].hook;
      if hook.Some? {
        ongoing := ongoing[id := ongoing[id].(hook := None)];
      } else {
        ongoing := ongoing - {id};
      }
    }

    /** True when the task is gone. */
    method CancelRequest(id: Id, force: bool) returns (gone: bool)
      requires Valid()
      modifies this
      ensures Valid() && Sees() == CancelAsk(old(Sees()), id, force)
      ensures gone <==> id !in ongoing
    {
      if !force && id in ongoing && status[id] == Canceled { return false; }
      if id in ongoing {
        var hook := OngoingCancel(id);
        if hook.Some? {
          submitted := submitted + [hook.value];
          return false;
        }
      }
      gone := true;
    }

    /** One turn of the op loop. */
    method Handle(id: Id, r: Report)
      requires Valid()
      modifies this
      ensures Valid() && Sees() == Next(old(Sees()), Reported(id, r))
    {
      if id !in ongoing { return; }

      var hook := ongoing[id].hook;
      if r.installs { hook, hooks := Some(hooks), hooks + 1; }
      ongoing := ongoing[id := Task(r.prog, hook)];
      if r.cancels { Store(id, Update.Cancel); }
      if !r.prog.running && !r.prog.Success() { Store(id, Update.Fail); }

      var st, task := status[id], ongoing[id];
      if !task.prog.cooked && !st.IsFinished() {
        return;
      } else if st == Failed {
        return;
      } else if task.hook.Some? {
        ongoing := ongoing[id := task.(hook := None)];
        submitted := submitted + [task.hook.value];
      } else if task.prog.cleaned == Some(CleanPending) {
        return;
      } else {
        ongoing := ongoing - {id};
        Store(id, Update.Succeed);
      }
    }
  }

  // --- What every run keeps

  ghost predicate Distinct(hs: seq<nat>) { forall i, j :: 0 <= i < j < |hs| ==> hs[i] != hs[j] }

  /** The map holds no succeeded task; what left it succeeded or was canceled. A hook waits with one task,
      or has been submitted, once. */
  ghost predicate Inv(s: State) { Statuses(s) && HooksOnce(s) }

  ghost predicate Statuses(s: State) {
    && s.ongoing.Keys <= s.status.Keys
    && (forall id :: id in s.status ==> id < s.next)
    && (forall id :: id in s.ongoing ==> s.status[id] != Succeeded)
    && (forall id :: id in s.status && id !in s.ongoing ==> s.status[id] == Succeeded || s.status[id] == Canceled)
  }

  ghost predicate HooksOnce(s: State) {
    && Distinct(s.submitted)
    && (forall h :: h in s.submitted ==> h < s.hooks)
    && (forall id :: id in s.ongoing && s.ongoing[id].hook.Some? ==>
          s.ongoing[id].hook.value < s.hooks && s.ongoing[id].hook.value !in s.submitted)
    && (forall i, j :: i in s.ongoing && j in s.ongoing && i != j && s.ongoing[i].hook.Some? ==>
          s.ongoing[i].hook != s.ongoing[j].hook)
  }

  lemma {:induction false} AddKeepsInv(s: State, prog: Progress, hooked: bool)
    requires Inv(s)
    ensures Inv(Add(s, prog, hooked))
  {}

  lemma {:induction false} CancelKeepsInv(s: State, id: Id)
    requires Inv(s) && id in s.ongoing
    ensures Inv(CancelTask(s, id))
  {}

  lemma {:induction false} WriteKeepsRest(s: State, u: Update, x: Id)
    requires x in s.status
    ensures var t := Write(s, u, x);
      && t.ongoing == s.ongoing && t.hooks == s.hooks && t.submitted == s.submitted && t.next == s.next
      && t.status.Keys == s.status.Keys
      && (forall id :: id in s.status ==> Reaches(s.status[id], t.status[id]))
      && (forall id :: id in s.status && id != x ==> t.status[id] == s.status[id])
      && (u != Succeed && s.status[x] != Succeeded ==> t.status[x] != Succeeded)
  {}

  lemma {:induction false} LandKeepsInv(s: State, id: Id, r: Report)
    requires Inv(s) && id in s.ongoing
    ensures Inv(Land(s, id, r))
  {}

  lemma {:induction false} WriteKeepsInv(s: State, u: Update, x: Id)
    requires Inv(s) && x in s.ongoing && u != Succeed
    ensures Inv(Write(s, u, x))
  {
    WriteKeepsRest(s, u, x);
  }

  lemma {:induction false} ReduceKeepsInv(s: State, id: Id, r: Report)
    requires Inv(s) && id in s.ongoing
    ensures Inv(Reduce(s, id, r)) && id in Reduce(s, id, r).ongoing
  {
    LandKeepsInv(s, id, r);
    var t := Land(s, id, r);
    WriteKeepsInv(t, Fail, id);
    WriteKeepsInv(t, Cancel, id);
    WriteKeepsInv(Write(t, Cancel, id), Fail, id);
  }

  lemma {:induction false} SettleKeepsInv(s: State, id: Id)
    requires Inv(s) && id in s.ongoing
    ensures Inv(Settle(s, id))
  {}

  lemma {:induction false} NextKeepsInv(s: State, e: Event)
    requires Inv(s)
    ensures Inv(Next(s, e))
  {
    match e {
      case Added(prog, hooked) => AddKeepsInv(s, prog, hooked);
      case WorkStarted(id) =>
      case CancelAsked(id, force) => if id in s.ongoing { CancelKeepsInv(s, id); }
      case Reported(id, r) =>
        if id in s.ongoing {
          ReduceKeepsInv(s, id, r);
          SettleKeepsInv(Reduce(s, id, r), id);
        }
    }
  }

  /** One event moves a task's status forward only, and a task that is gone does not come back. */
  lemma {:induction false} NextMovesForward(s: State, e: Event, id: Id)
    requires Inv(s) && id in s.status
    ensures Forward(s, Next(s, e), id)
  {
    match e {
      case Added(_, _) =>
      case WorkStarted(x) => if x in s.status { WriteKeepsRest(s, Start, x); }
      case CancelAsked(x, _) => if x in s.ongoing { WriteKeepsRest(s, Cancel, x); }
      case Reported(x, r) =>
        if x in s.ongoing {
          ReduceMovesForward(s, x, r, id);
          SettleMovesForward(Reduce(s, x, r), x, id);
        }
    }
  }

  ghost predicate Forward(s: State, t: State, id: Id)
    requires id in s.status
  {
    id in t.status && Reaches(s.status[id], t.status[id]) && (id !in s.ongoing ==> id !in t.ongoing)
  }

  lemma {:induction false} ReduceMovesForward(s: State, x: Id, r: Report, id: Id)
    requires x in s.ongoing && x in s.status && id in s.status
    ensures Forward(s, Reduce(s, x, r), id) && x in Reduce(s, x, r).ongoing && x in Reduce(s, x, r).status
  {
    var t := Land(s, x, r);
    WriteKeepsRest(t, Cancel, x);
    WriteKeepsRest(Write(t, Cancel, x), Fail, x);
    WriteKeepsRest(t, Fail, x);
  }

  lemma {:induction false} SettleMovesForward(s: State, x: Id, id: Id)
    requires x in s.ongoing && x in s.status && id in s.status
    ensures Forward(s, Settle(s, x), id)
  {
    WriteKeepsRest(s.(ongoing := s.ongoing - {x}), Succeed, x);
  }

  lemma {:induction false} RunsMoveForward(s: State, es: seq<Event>, id: Id)
    requires Inv(s)
    ensures Inv(After(s, es))
    ensures id in s.status ==>
      && id in After(s, es).status && Reaches(s.status[id], After(s, es).status[id])
      && (id !in s.ongoing ==> id !in After(s, es).ongoing)
    decreases |es|
  {
    if es != [] {
      NextKeepsInv(s, es[0]);
      if id in s.status { NextMovesForward(s, es[0], id); }
      RunsMoveForward(Next(s, es[0]), es[1..], id);
    }
  }

  lemma {:induction false} AfterAppend(s: State, es: seq<Event>, fs: seq<Event>)
    ensures After(s, es + fs) == After(After(s, es), fs)
    decreases |es|
  {
    if es == [] {
      assert es + fs == fs;
    } else {
      assert (es + fs)[1..] == es[1..] + fs;
      AfterAppend(Next(s, es[0]), es[1..], fs);
    }
  }

  /** Over every run: no succeeded task is in the map, a task is gone only as succeeded or canceled, and no
      hook is submitted twice. */
  lemma {:induction false} TaskMapInvariant(es: seq<Event>)
    ensures var s := After(INITIAL, es);
      && (forall id :: id in s.ongoing ==> id in s.status && s.status[id] != Succeeded)
      && (forall id :: id in s.status && id !in s.ongoing ==> s.status[id] == Succeeded || s.status[id] == Canceled)
      && Distinct(s.submitted)
  {
    RunsMoveForward(INITIAL, es, 0);
  }

  /** However a run continues, a task seen canceled stays canceled, and a task seen failed is still there
      as failed or has been canceled: it never succeeds and never just disappears. */
  lemma {:induction false} FailedAndCanceledAreNotUndone(es: seq<Event>, more: seq<Event>, id: Id)
    requires id in After(INITIAL, es).status
    ensures var s, t := After(INITIAL, es), After(INITIAL, es + more);
      && id in t.status
      && (s.status[id] == Canceled ==> t.status[id] == Canceled)
      && (s.status[id] == Failed ==> t.status[id] == Canceled || (t.status[id] == Failed && id in t.ongoing))
      && (s.status[id] == Succeeded ==> t.status[id] == Succeeded && id !in t.ongoing)
  {
    RunsMoveForward(INITIAL, es, id);
    RunsMoveForward(After(INITIAL, es), more, id);
    AfterAppend(INITIAL, es, more);
  }

  /** The only events that take a failed task away are those that cancel it. */
  lemma {:induction false} FailedLeavesOnlyByCancel(s: State, e: Event, id: Id)
    requires Inv(s) && id in s.ongoing && s.status[id] == Failed && Next(s, e).status[id] != Failed
    ensures (e.CancelAsked? && e.id == id) || (e.Reported? && e.id == id && e.report.cancels)
    ensures Next(s, e).status[id] == Canceled
  {
    NextMovesForward(s, e, id);
    if e.Reported? && e.id in s.ongoing { SettleMovesForward(Reduce(s, e.id, e.report), e.id, id); }
  }

  /** No event takes a task away while a hook is still waiting with it. */
  lemma {:induction false} HooksAreNotDropped(s: State, e: Event, id: Id)
    requires Inv(s) && id in s.ongoing && id !in Next(s, e).ongoing
    ensures s.ongoing[id].hook == None
  {}

  // --- What becomes of a hook

  ghost predicate Waits(s: State, h: nat) { exists id :: id in s.ongoing && s.ongoing[id].hook == Some(h) }

  /** A hook that was installed but neither waits nor was submitted: it never runs. */
  ghost predicate Lost(s: State, h: nat) { h < s.hooks && h !in s.submitted && !Waits(s, h) }

  /** A report installs another hook on the task with which the hook waits. */
  ghost predicate Replaces(s: State, e: Event, h: nat) {
    e.Reported? && e.id in s.ongoing && e.report.installs && s.ongoing[e.id].hook == Some(h)
  }

  /** Changes of a task that keep its hook, or hand it on. */
  ghost predicate KeepsHooks(s: State, t: State) {
    forall h :: Lost(t, h) <==> Lost(s, h)
  }

  lemma {:induction false} AddKeepsHooks(s: State, prog: Progress, hooked: bool)
    requires Inv(s)
    ensures KeepsHooks(s, Add(s, prog, hooked))
  {
    var t := Add(s, prog, hooked);
    forall h: nat ensures Lost(t, h) <==> Lost(s, h) {
      if id :| id in s.ongoing && s.ongoing[id].hook == Some(h) { assert t.ongoing[id] == s.ongoing[id]; }
      if h == s.hooks && hooked { assert t.ongoing[s.next].hook == Some(h); }
    }
  }

  /** A task that loses its hook to the list of the submitted, or its place in the map without one. */
  lemma {:induction false} HandingOnKeepsHooks(s: State, id: Id, t: State)
    requires id in s.ongoing && t.hooks == s.hooks
    requires match s.ongoing[id].hook
      case Some(h) => t.ongoing == s.ongoing[id := s.ongoing[id].(hook := None)] && t.submitted == s.submitted + [h]
      case None => t.ongoing == s.ongoing - {id} && t.submitted == s.submitted
    ensures KeepsHooks(s, t)
  {
    forall h: nat ensures Lost(t, h) <==> Lost(s, h) {
      if x :| x in s.ongoing && s.ongoing[x].hook == Some(h) {
        if x != id { assert t.ongoing[x] == s.ongoing[x]; }
      }
      if x :| x in t.ongoing && t.ongoing[x].hook == Some(h) { assert s.ongoing[x].hook == Some(h); }
    }
  }

  lemma {:induction false} SettleKeepsHooks(s: State, id: Id)
    requires id in s.ongoing && id in s.status
    ensures KeepsHooks(s, Settle(s, id))
  {
    var t := Settle(s, id);
    if t.ongoing != s.ongoing { HandingOnKeepsHooks(s, id, t); }
  }

  lemma {:induction false} LandLosesReplaced(s: State, id: Id, r: Report, h: nat)
    requires Inv(s) && id in s.ongoing
    ensures Lost(Land(s, id, r), h) <==> Lost(s, h) || Replaces(s, Reported(id, r), h)
  {
    var t := Land(s, id, r);
    if x :| x in s.ongoing && s.ongoing[x].hook == Some(h) {
      if x != id || !r.installs { assert t.ongoing[x].hook == Some(h); }
    }
    if r.installs { assert t.ongoing[id].hook == Some(s.hooks); }
    if x :| x in t.ongoing && t.ongoing[x].hook == Some(h) {
      if x != id || !r.installs { assert s.ongoing[x].hook == Some(h); }
    }
  }

  lemma {:induction false} NextLosesReplaced(s: State, e: Event, h: nat)
    requires Inv(s)
    ensures Lost(Next(s, e), h) <==> Lost(s, h) || Replaces(s, e, h)
  {
    match e {
      case Added(prog, hooked) => AddKeepsHooks(s, prog, hooked);
      case WorkStarted(id) =>
      case CancelAsked(id, force) => if Next(s, e) != s { HandingOnKeepsHooks(s, id, Next(s, e)); }
      case Reported(id, r) =>
        if id in s.ongoing {
          LandLosesReplaced(s, id, r, h);
          var c := Reduce(s, id, r);
          assert c.ongoing == Land(s, id, r).ongoing && c.hooks == Land(s, id, r).hooks;
          SettleKeepsHooks(c, id);
        }
    }
  }

  /** Over every run: a hook that was installed waits, or was submitted, unless a report installed another on its
      task while it waited; exactly then it never runs. */
  lemma {:induction false} HookIsLostIffReplaced(es: seq<Event>, h: nat)
    ensures Lost(After(INITIAL, es), h) <==>
            exists i :: 0 <= i < |es| && Replaces(After(INITIAL, es[..i]), es[i], h)
    decreases |es|
  {
    if es != [] {
      var n := |es| - 1;
      var before, s := es[..n], After(INITIAL, es[..n]);
      assert es == before + [es[n]];
      AfterAppend(INITIAL, before, [es[n]]);
      assert After(s, [es[n]]) == Next(s, es[n]) by { assert [es[n]][1..] == []; }
      HookIsLostIffReplaced(before, h);
      RunsMoveForward(INITIAL, before, 0);
      NextLosesReplaced(s, es[n], h);
      assert forall i :: 0 <= i < n ==> before[i] == es[i] && before[..i] == es[..i];
    }
  }

  /** The smallest run that loses a hook: a task is added with one and reports that it installs another. */
  lemma {:induction false} SecondHookReplaces(prog: Progress, r: Report)
    requires r.installs
    ensures Lost(After(INITIAL, [Added(prog, true), Reported(1, r)]), 0)
  {
    var es := [Added(prog, true), Reported(1, r)];
    assert es[..1] == [es[0]] && [es[0]][1..] == [];
    assert After(INITIAL, es[..1]) == Next(INITIAL, es[0]);
    assert Replaces(After(INITIAL, es[..1]), es[1], 0);
    HookIsLostIffReplaced(es, 0);
  }
}
