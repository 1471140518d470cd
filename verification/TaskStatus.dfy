/** Task states and the atomic cell that holds one (yazi-scheduler/src/status.rs and handle.rs). */
module TaskStatus {
  datatype Status = Pending | Started | Succeeded | Failed | Canceled {
    predicate IsCancelable() { Pending? || Started? || Failed? }
    predicate IsFinishable() { Pending? || Started? }
    predicate IsFinished() { Succeeded? || Failed? || Canceled? }
  }

  /** The updates a cell takes: each stores its state only over the states it is allowed from. */
  datatype Update = Start | Succeed | Fail | Cancel

  predicate Allows(u: Update, s: Status) {
    match u
    case Start => s == Pending
    case Succeed => s.IsFinishable()
    case Fail => s.IsFinishable()
    case Cancel => s.IsCancelable()
  }

  function Target(u: Update): Status {
    match u
    case Start => Started
    case Succeed => Succeeded
    case Fail => Failed
    case Cancel => Canceled
  }

  function Updated(u: Update, s: Status): Status { if Allows(u, s) then Target(u) else s }

  /** How far a task can still move. */
  function Height(s: Status): nat {
    match s
    case Pending => 3
    case Started => 2
    case Failed => 1
    case _ => 0
  }

  /** The states reachable from a state by any updates. */
  predicate Reaches(s: Status, t: Status) {
    s == t || s == Pending || (s == Started && t != Pending) || (s == Failed && t == Canceled)
  }

  function UpdatedAll(us: seq<Update>, s: Status): Status
    decreases |us|
  {
    if us == [] then s else UpdatedAll(us[1..], Updated(us[0], s))
  }

  /** A cell only moves forward: pending is never seen again, a finished task stays finished, a failed
      one can only become canceled, and success and cancellation are final. */
  lemma {:induction false} UpdatesMoveForward(us: seq<Update>, s: Status)
    ensures Reaches(s, UpdatedAll(us, s)) && Height(UpdatedAll(us, s)) <= Height(s)
    decreases |us|
  {
    if us != [] { UpdatesMoveForward(us[1..], Updated(us[0], s)); }
  }

  /** The converse: every state claimed reachable is reached by some updates. */
  lemma {:induction false} ReachesIsReachable(s: Status, t: Status) returns (us: seq<Update>)
    requires Reaches(s, t)
    ensures UpdatedAll(us, s) == t
  {
    if s == t { return []; }
    var u := match t case Started => Start case Succeeded => Succeed case Failed => Fail case _ => Cancel;
    us := [u];
    assert us[1..] == [];
  }

  class TaskHandle {
    var status: Status

    constructor ()
      ensures status == Pending
    {
      status := Pending;
    }

    /** Compare-and-exchange from Pending; tells whether waiters are to be notified. */
    method Start() returns (notify: bool)
      modifies this
      ensures status == Updated(Update.Start, old(status)) && notify == Allows(Update.Start, old(status))
    {
      notify := status == Pending;
      if notify { status := Started; }
    }

    method Transition(to: Update) returns (notify: bool)
      modifies this
      ensures status == Updated(to, old(status)) && notify == Allows(to, old(status))
    {
      notify := Allows(to, status);
      if notify { status := Target(to); }
    }
  }
}
