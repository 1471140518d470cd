/** The wait loop of yazi-scheduler/src/handle.rs (and of the completion token in
    yazi-shared/src/completion_token.rs) against writers that store a status and then notify, under
    every interleaving of their atomic steps. */
module Waiting {
  import opened TaskStatus

  /** What a waiter waits for: that the task is not pending any more, or that it has finished. */
  datatype Goal = NotPending | Finished

  predicate Ready(g: Goal, s: Status) {
    match g
    case NotPending => s != Pending
    case Finished => s.IsFinished()
  }

  /** Where a waiter stands in its loop. A registration is served by the notifications sent after it, so
      it is identified by how many had been sent when it was made. */
  datatype Waiter =
    | FirstLook
    | Register
    | SecondLook(registered: nat)
    | Parked(registered: nat)
    | Returned(result: Status)

  /** The cell, every status it has held so far, the number of notifications sent, the number of successful
      writes whose notification is still to be sent, and the waiters. */
  datatype Sys = Sys(status: Status, held: seq<Status>, sent: nat, unsent: nat,
                     goals: map<nat, Goal>, waiters: map<nat, Waiter>)

  datatype Step = Write(update: Update) | Notify | Join(id: nat, goal: Goal) | Run(id: nat)

  function Moved(sys: Sys, g: Goal, w: Waiter): Waiter {
    match w
    case FirstLook => if Ready(g, sys.status) then Returned(sys.status) else Register
    case Register => SecondLook(sys.sent)
    case SecondLook(n) => if Ready(g, sys.status) then Returned(sys.status) else Parked(n)
    case Parked(n) => if sys.sent > n then FirstLook else w
    case Returned(_) => w
  }

  ghost predicate Enabled(sys: Sys, s: Step) {
    match s
    case Write(_) => true
    case Notify => sys.unsent > 0
    case Join(id, _) => id !in sys.waiters
    case Run(id) => id in sys.waiters && id in sys.goals && CanRun(sys, sys.waiters[id])
  }

  /** A parked waiter runs only once a notification has been sent after it registered. */
  predicate CanRun(sys: Sys, w: Waiter) {
    match w
    case Parked(n) => sys.sent > n
    case Returned(_) => false
    case _ => true
  }

  function Next(sys: Sys, s: Step): Sys {
    match s
    case Write(u) =>
      if Allows(u, sys.status)
      then sys.(status := Target(u), held := sys.held + [Target(u)], unsent := sys.unsent + 1) else sys
    case Notify => if sys.unsent > 0 then sys.(sent := sys.sent + 1, unsent := sys.unsent - 1) else sys
    case Join(id, g) => sys.(goals := sys.goals[id := g], waiters := sys.waiters[id := FirstLook])
    case Run(id) =>
      if id in sys.waiters && id in sys.goals
      then sys.(waiters := sys.waiters[id := Moved(sys, sys.goals[id], sys.waiters[id])]) else sys
  }

  const START := Sys(Pending, [Pending], 0, 0, map[], map[])

  ghost predicate IsRun(sys: Sys, steps: seq<Step>)
    decreases |steps|
  {
    steps == [] || (Enabled(sys, steps[0]) && IsRun(Next(sys, steps[0]), steps[1..]))
  }

  function Final(sys: Sys, steps: seq<Step>): Sys
    decreases |steps|
  {
    if steps == [] then sys else Final(Next(sys, steps[0]), steps[1..])
  }

  /** A waiter that is parked although what it waits for has come is owed a notification; a returned
      waiter was given a status it waited for. */
  ghost predicate Owed(sys: Sys, g: Goal, w: Waiter) {
    match w
    case SecondLook(n) => n <= sys.sent
    case Parked(n) => n <= sys.sent && (Ready(g, sys.status) && n == sys.sent ==> sys.unsent > 0)
    case Returned(s) => Ready(g, s) && s in sys.held && Reaches(s, sys.status)
    case _ => true
  }

  ghost predicate Inv(sys: Sys) {
    && sys.waiters.Keys == sys.goals.Keys && sys.status in sys.held
    && forall id :: id in sys.waiters ==> Owed(sys, sys.goals[id], sys.waiters[id])
  }

  lemma {:induction false} NextKeepsInv(sys: Sys, s: Step)
    requires Inv(sys) && Enabled(sys, s)
    ensures Inv(Next(sys, s))
  {}

  lemma {:induction false} RunsKeepInv(sys: Sys, steps: seq<Step>)
    requires Inv(sys) && IsRun(sys, steps)
    ensures Inv(Final(sys, steps))
    decreases |steps|
  {
    if steps != [] {
      NextKeepsInv(sys, steps[0]);
      RunsKeepInv(Next(sys, steps[0]), steps[1..]);
    }
  }

  /** No lost wake-up: after any run in which every write's notification has been sent, a waiter whose
      condition holds has returned or can run. */
  lemma {:induction false} NobodyIsLeftParked(steps: seq<Step>, id: nat)
    requires IsRun(START, steps)
    ensures var sys := Final(START, steps);
      id in sys.waiters && id in sys.goals && sys.unsent == 0 && Ready(sys.goals[id], sys.status)
      ==> sys.waiters[id].Returned? || CanRun(sys, sys.waiters[id])
  {
    RunsKeepInv(START, steps);
    var sys := Final(START, steps);
    if id in sys.waiters { assert Owed(sys, sys.goals[id], sys.waiters[id]); }
  }

  /** The history is what the cell held: its entries are the statuses at the stages of the run. */
  lemma {:induction false} HeldWasStatus(sys: Sys, steps: seq<Step>, s: Status)
    requires s in Final(sys, steps).held && s !in sys.held
    ensures exists n :: 0 <= n <= |steps| && Final(sys, steps[..n]).status == s
    decreases |steps|
  {
    var next := Next(sys, steps[0]);
    if s in next.held {
      assert steps[..1][1..] == [];
      assert Final(sys, steps[..1]).status == s;
    } else {
      HeldWasStatus(next, steps[1..], s);
      var n :| 0 <= n <= |steps[1..]| && Final(next, steps[1..][..n]).status == s;
      assert steps[..n + 1][1..] == steps[1..][..n];
      assert Final(sys, steps[..n + 1]).status == s;
    }
  }

  /** What a waiter returns is a status it waited for, and one the cell held at some stage of the run, on its
      way to the present one. */
  lemma {:induction false} ReturnedWasReady(steps: seq<Step>, id: nat)
    requires IsRun(START, steps)
    ensures var sys := Final(START, steps);
      id in sys.waiters && id in sys.goals && sys.waiters[id].Returned? ==>
        var r := sys.waiters[id].result;
        && Ready(sys.goals[id], r) && Reaches(r, sys.status)
        && exists n :: 0 <= n <= |steps| && Final(START, steps[..n]).status == r
  {
    RunsKeepInv(START, steps);
    var sys := Final(START, steps);
    if id in sys.waiters && id in sys.goals && sys.waiters[id].Returned? {
      assert Owed(sys, sys.goals[id], sys.waiters[id]);
      if sys.waiters[id].result == Pending {
        assert Final(START, steps[..0]).status == Pending;
      } else {
        HeldWasStatus(START, steps, sys.waiters[id].result);
      }
    }
  }

  /** How many of its own steps a waiter whose condition holds still needs. */
  function ToGo(w: Waiter): nat {
    match w
    case Returned(_) => 0
    case FirstLook => 1
    case SecondLook(_) => 1
    case Register => 2
    case Parked(_) => 2
  }

  /** Once its condition holds it keeps holding, each of a waiter's own steps brings it closer to
      returning, and nobody else's step sets it back: it returns within two steps of its own. */
  lemma {:induction false} ReadyWaiterProgresses(sys: Sys, s: Step, id: nat)
    requires Inv(sys) && Enabled(sys, s) && id in sys.waiters && Ready(sys.goals[id], sys.status)
    ensures var next := Next(sys, s);
      && id in next.waiters && id in next.goals && Ready(next.goals[id], next.status)
      && (if s == Run(id) then ToGo(next.waiters[id]) < ToGo(sys.waiters[id])
          else next.waiters[id] == sys.waiters[id])
    ensures ToGo(sys.waiters[id]) <= 2
  {}
}
