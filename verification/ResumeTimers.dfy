/** The timer that resumes scheduling when a pause runs out: it may be set again before it fires,
    and stopping it may come too late. */
module ResumeTimers {
  import opened RunTypes

  /** `resumeAt` is the deadline of the timer that counts; `pending` are the callbacks still to
      run, those of stopped timers among them if the stop came too late. */
  datatype State = State(resumeAt: Option<int>, pending: multiset<int>, draining: bool)

  datatype Step =
    | Ensure(until: int, tooLate: bool)
    | Fire(due: int)
    | BeginDrain(tooLate: bool)

  const INIT := State(None, multiset{}, false)

  predicate Enabled(s: State, step: Step) {
    step.Fire? ==> step.due in s.pending
  }

  function Stopped(s: State, tooLate: bool): multiset<int> {
    if s.resumeAt.Some? && !tooLate then s.pending - multiset{s.resumeAt.value} else s.pending
  }

  function Apply(s: State, step: Step): State {
    match step
    case Ensure(until, tooLate) =>
      if s.draining || s.resumeAt == Some(until) then s
      else State(Some(until), Stopped(s, tooLate) + multiset{until}, false)
    case Fire(due) =>
      s.(pending := s.pending - multiset{due}, resumeAt := if s.resumeAt == Some(due) then None else s.resumeAt)
    case BeginDrain(tooLate) =>
      if s.draining then s else State(None, Stopped(s, tooLate), true)
  }

  /** The step runs a scheduling pass. */
  predicate Schedules(s: State, step: Step) {
    step.Fire? && s.resumeAt == Some(step.due) && !s.draining
  }

  class ResumeTimer {
    var resumeAt: Option<int>
    var pending: multiset<int>
    var draining: bool

    function Now(): State
      reads this
    {
      State(resumeAt, pending, draining)
    }

    constructor ()
      ensures Now() == INIT
    {
      resumeAt, pending, draining := None, multiset{}, false;
    }

    method EnsureResumeTimer(until: int, tooLate: bool)
      modifies this
      ensures Now() == Apply(old(Now()), Ensure(until, tooLate))
    {
      if draining || (resumeAt.Some? && resumeAt.value == until) {
        return;
      }
      if resumeAt.Some? && !tooLate {
        pending := pending - multiset{resumeAt.value};
      }
      resumeAt := Some(until);
      pending := pending + multiset{until};
    }

    /** The callback of a timer for `due`. */
    method OnTimer(due: int) returns (schedules: bool)
      requires due in pending
      modifies this
      ensures Now() == Apply(old(Now()), Fire(due)) && schedules == Schedules(old(Now()), Fire(due))
    {
      pending := pending - multiset{due};
      if resumeAt != Some(due) {
        return false;
      }
      resumeAt := None;
      schedules := !draining;
    }

    method BeginDrain(tooLate: bool)
      modifies this
      ensures Now() == Apply(old(Now()), Step.BeginDrain(tooLate))
    {
      if draining {
        return;
      }
      draining := true;
      if resumeAt.Some? {
        if !tooLate {
          pending := pending - multiset{resumeAt.value};
        }
        resumeAt := None;
      }
    }
  }

  ghost predicate IsRun(ss: seq<State>, steps: seq<Step>) {
    && |ss| == |steps| + 1
    && ss[0] == INIT
    && forall i :: 0 <= i < |steps| ==> Enabled(ss[i], steps[i]) && ss[i + 1] == Apply(ss[i], steps[i])
  }

  predicate Inv(s: State) {
    (s.resumeAt.Some? ==> s.resumeAt.value in s.pending) && (s.draining ==> s.resumeAt.None?)
  }

  lemma {:induction false} AlwaysInv(ss: seq<State>, steps: seq<Step>, k: nat)
    requires IsRun(ss, steps) && k < |ss|
    ensures Inv(ss[k])
  {
    if k > 0 {
      AlwaysInv(ss, steps, k - 1);
      assert Enabled(ss[k - 1], steps[k - 1]) && ss[(k - 1) + 1] == Apply(ss[k - 1], steps[k - 1]);
    }
  }

  /** No wake-up is lost: from a request for a deadline on, its callback is pending, until it
      runs a pass, another deadline is asked for, or the server drains. */
  lemma {:induction false} WakeUpIsKept(ss: seq<State>, steps: seq<Step>, i: nat, j: nat)
    requires IsRun(ss, steps) && i < j < |ss| && steps[i].Ensure? && !ss[i].draining
    requires forall k :: i < k < j ==> !steps[k].BeginDrain? && !Schedules(ss[k], steps[k])
                                       && (steps[k].Ensure? ==> steps[k].until == steps[i].until)
    ensures ss[j].resumeAt == Some(steps[i].until) && steps[i].until in ss[j].pending && !ss[j].draining
  {
    assert ss[(j - 1) + 1] == Apply(ss[j - 1], steps[j - 1]);
    AlwaysInv(ss, steps, j);
    if i < j - 1 {
      WakeUpIsKept(ss, steps, i, j - 1);
    }
  }

  lemma {:induction false} NothingToSchedule(ss: seq<State>, steps: seq<Step>, i: nat, j: nat)
    requires IsRun(ss, steps) && i < j < |ss| && Schedules(ss[i], steps[i])
    requires forall k :: i < k < j ==> !steps[k].Ensure?
    ensures ss[j].resumeAt.None?
  {
    assert ss[(j - 1) + 1] == Apply(ss[j - 1], steps[j - 1]);
    if i < j - 1 {
      NothingToSchedule(ss, steps, i, j - 1);
    }
  }

  /** And none is doubled: between two passes run by callbacks the timer was asked for again,
      however many callbacks were stopped too late. */
  lemma OnePassPerRequest(ss: seq<State>, steps: seq<Step>, i: nat, j: nat)
    requires IsRun(ss, steps) && i < j < |steps| && Schedules(ss[i], steps[i]) && Schedules(ss[j], steps[j])
    ensures exists k :: i < k < j && steps[k].Ensure?
  {
    if forall k :: i < k < j ==> !steps[k].Ensure? {
      NothingToSchedule(ss, steps, i, j);
    }
  }
}
