/** A pause and the timer that ends it, for one server among others: whoever learns of a pause sets
    the timer to its deadline, and the timer's callback runs a pass that looks for a pause again. */
module WakeUps {
  import opened RunTypes
  import R = ResumeTimers
  import T = RunTables

  /** `deadline` is that of the pause in force, `owed` are deadlines that some goroutine of this
      server has got from the store and not set the timer to yet, and `passes` counts its passes
      that are about to look for a pause. */
  datatype State = State(timer: R.State, deadline: Option<int>, clock: int, owed: multiset<int>, passes: nat)

  datatype Step =
    | Tick(elapsed: nat)
    | PauseCall(until: int, fails: bool)   // pauseWorkersUntil; if the store fails, the timer is set all the same
    | OtherPause(until: int)               // a pause call of another server
    | Arm(until: int, tooLate: bool)       // ensureResumeTimer
    | StartPass                            // for any reason but the timer
    | Look(read: int, fails: bool)         // each look of a pass counts as a pass
    | Fire(due: int)
    | Drain(tooLate: bool)

  const INIT := State(R.INIT, None, 0, multiset{}, 0)

  function Later(deadline: Option<int>, until: int): int {
    if deadline.Some? && deadline.value > until then deadline.value else until
  }

  /** That is what the statement does to the row. */
  lemma LaterIsStored(d: T.Tables, why: string, until: int)
    ensures var before := if WORKERS in d.pauses then Some(d.pauses[WORKERS].until) else None;
            T.PauseScheduler(d, WORKERS, why, until).pauses[WORKERS].until == Later(before, until)
  {
  }

  /** The lookup finds the pause in force. */
  predicate Finds(s: State, read: int, fails: bool) {
    !fails && s.deadline.Some? && s.deadline.value > read
  }

  predicate Enabled(s: State, step: Step) {
    match step
    case Arm(until, _) => until in s.owed
    case Look(read, _) => s.passes > 0 && read <= s.clock
    case Fire(due) => due in s.timer.pending && due <= s.clock
    case _ => true
  }

  function Apply(s: State, step: Step): State
    requires Enabled(s, step)
  {
    match step
    case Tick(elapsed) => s.(clock := s.clock + elapsed)
    case PauseCall(until, fails) =>
      var effective := if fails then until else Later(s.deadline, until);
      s.(deadline := if fails then s.deadline else Some(effective), owed := s.owed + multiset{effective})
    case OtherPause(until) => s.(deadline := Some(Later(s.deadline, until)))
    case Arm(until, tooLate) =>
      s.(owed := s.owed - multiset{until}, timer := R.Apply(s.timer, R.Ensure(until, tooLate)))
    case StartPass => s.(passes := s.passes + 1)
    case Look(read, fails) =>
      s.(passes := s.passes - 1, owed := if Finds(s, read, fails) then s.owed + multiset{s.deadline.value} else s.owed)
    case Fire(due) =>
      s.(timer := R.Apply(s.timer, R.Fire(due)),
         passes := s.passes + if R.Schedules(s.timer, R.Fire(due)) then 1 else 0)
    case Drain(tooLate) => s.(timer := R.Apply(s.timer, R.BeginDrain(tooLate)))
  }

  ghost predicate IsRun(ss: seq<State>, steps: seq<Step>) {
    && |ss| == |steps| + 1
    && ss[0] == INIT
    && forall i :: 0 <= i < |steps| ==> Enabled(ss[i], steps[i]) && ss[i + 1] == Apply(ss[i], steps[i])
  }

  predicate Armed(s: State) {
    s.timer.resumeAt.Some? && s.timer.resumeAt.value in s.timer.pending
  }

  /** A wake-up is pending, or on its way to be: a goroutine is about to set the timer or a pass
      is about to look. */
  predicate Awaited(s: State) {
    Armed(s) || s.owed != multiset{} || s.passes > 0
  }

  lemma {:induction false} TimerInv(ss: seq<State>, steps: seq<Step>, k: nat)
    requires IsRun(ss, steps) && k < |ss|
    ensures R.Inv(ss[k].timer)
  {
    if k > 0 {
      TimerInv(ss, steps, k - 1);
      assert Enabled(ss[k - 1], steps[k - 1]) && ss[(k - 1) + 1] == Apply(ss[k - 1], steps[k - 1]);
    }
  }

  /** Only a look that finds no pause, or a drain, can end the waiting. */
  lemma StepKeepsAwaited(s: State, step: Step)
    requires R.Inv(s.timer) && Enabled(s, step) && Awaited(s) && !Apply(s, step).timer.draining
    requires step.Look? ==> Finds(s, step.read, step.fails)
    ensures Awaited(Apply(s, step))
  {
    var s' := Apply(s, step);
    match step
    case Arm(until, tooLate) => assert Armed(s');
    case Look(_, _) => assert s.deadline.value in s'.owed;
    case PauseCall(until, fails) => assert (if fails then until else Later(s.deadline, until)) in s'.owed;
    case _ =>
  }

  lemma DrainingStays(s: State, step: Step)
    requires Enabled(s, step)
    ensures s.timer.draining ==> Apply(s, step).timer.draining
    ensures s.clock <= Apply(s, step).clock
    ensures s.deadline.Some? ==> Apply(s, step).deadline.Some? && s.deadline.value <= Apply(s, step).deadline.value
  {
  }

  /** This server has recorded a pause until `until` in step i. */
  predicate Records(step: Step, until: int) {
    step.PauseCall? && !step.fails && step.until == until
  }

  predicate LookupsWork(steps: seq<Step>, i: nat, j: nat) {
    forall k :: i < k < j && k < |steps| && steps[k].Look? ==> !steps[k].fails
  }

  /** A server that has recorded a pause is going to wake up: as long as the deadline has not
      passed, the server is not draining and no lookup failed since, a wake-up is pending or on
      its way, and the pause in force is still that one or a longer one. */
  lemma {:induction false} PausedServerWakesUp(ss: seq<State>, steps: seq<Step>, i: nat, j: nat, until: int)
    requires IsRun(ss, steps) && i < j < |ss| && Records(steps[i], until)
    requires until > ss[j].clock && !ss[j].timer.draining
    requires LookupsWork(steps, i, j)
    ensures PausedAndAwaited(ss[j], until)
  {
    StepAt(ss, steps, j - 1);
    if i == j - 1 {
      RecordIsKept(ss[i], steps[i], until);
    } else {
      PausedServerWakesUp(ss, steps, i, j - 1, until);
      TimerInv(ss, steps, j - 1);
      PauseIsKept(ss[j - 1], steps[j - 1], until);
    }
  }

  lemma StepAt(ss: seq<State>, steps: seq<Step>, k: nat)
    requires IsRun(ss, steps) && k < |steps|
    ensures Enabled(ss[k], steps[k]) && ss[k + 1] == Apply(ss[k], steps[k])
    ensures ss[k].timer.draining ==> ss[k + 1].timer.draining
    ensures ss[k].clock <= ss[k + 1].clock
  {
    DrainingStays(ss[k], steps[k]);
  }

  ghost predicate PausedAndAwaited(s: State, until: int) {
    Awaited(s) && s.deadline.Some? && s.deadline.value >= until
  }

  lemma RecordIsKept(s: State, step: Step, until: int)
    requires Records(step, until)
    ensures PausedAndAwaited(Apply(s, step), until)
  {
    assert Later(s.deadline, until) in Apply(s, step).owed;
  }

  lemma PauseIsKept(s: State, step: Step, until: int)
    requires Enabled(s, step) && R.Inv(s.timer) && PausedAndAwaited(s, until)
    requires until > Apply(s, step).clock && !Apply(s, step).timer.draining && (step.Look? ==> !step.fails)
    ensures PausedAndAwaited(Apply(s, step), until)
  {
    DrainingStays(s, step);
    StepKeepsAwaited(s, step);
  }

  /** The deadline is that of the pause in force or an earlier one. */
  predicate InTime(s: State, due: int) {
    s.deadline.Some? && due <= s.deadline.value
  }

  /** A pause call for this deadline could not be stored. */
  ghost predicate Unstored(steps: seq<Step>, k: nat, due: int) {
    exists i :: 0 <= i < k && i < |steps| && steps[i] == PauseCall(due, true)
  }

  /** The deadlines that the timer is set to or about to be. */
  predicate Expected(s: State, due: int) {
    due in s.owed || s.timer.resumeAt == Some(due)
  }

  lemma ExpectedBefore(s: State, step: Step, due: int)
    requires Enabled(s, step) && Expected(Apply(s, step), due)
    ensures Expected(s, due) || InTime(Apply(s, step), due) || step == PauseCall(due, true)
  {
  }

  /** And it does not wake up late: no wake-up is later than the end of the pause in force, unless
      a pause call for that very deadline could not be stored. */
  lemma {:induction false} WakesUpInTime(ss: seq<State>, steps: seq<Step>, k: nat, due: int)
    requires IsRun(ss, steps) && k < |ss| && Expected(ss[k], due)
    ensures InTime(ss[k], due) || Unstored(steps, k, due)
  {
    if k > 0 {
      StepAt(ss, steps, k - 1);
      ExpectedBefore(ss[k - 1], steps[k - 1], due);
      if Expected(ss[k - 1], due) {
        WakesUpInTime(ss, steps, k - 1, due);
        DrainingStays(ss[k - 1], steps[k - 1]);
      }
    }
  }

  lemma OneMoreStep(ss: seq<State>, steps: seq<Step>, step: Step) returns (ss': seq<State>, steps': seq<Step>)
    requires IsRun(ss, steps) && Enabled(ss[|ss| - 1], step)
    ensures IsRun(ss', steps') && ss'[|ss'| - 1] == Apply(ss[|ss| - 1], step)
  {
    ss', steps' := ss + [Apply(ss[|ss| - 1], step)], steps + [step];
    forall i | 0 <= i < |steps'|
      ensures Enabled(ss'[i], steps'[i]) && ss'[i + 1] == Apply(ss'[i], steps'[i])
    {
      if i < |steps| {
        assert ss[i + 1] == Apply(ss[i], steps[i]);
      }
    }
  }

  /** Nothing is on its way, and the timer is set to `due`. */
  predicate SetTo(s: State, due: int) {
    s.timer.resumeAt == Some(due) && s.owed == multiset{} && s.passes == 0
  }

  /** It may wake up early: two pauses are recorded, and the goroutine with the shorter one sets
      the timer last. */
  lemma EarlyWakeUpHappens()
    ensures exists ss: seq<State>, steps: seq<Step> ::
              IsRun(ss, steps) && ss[|ss| - 1].deadline == Some(20) && SetTo(ss[|ss| - 1], 10)
  {
    var ss, steps := OneMoreStep([INIT], [], PauseCall(10, false));
    ss, steps := OneMoreStep(ss, steps, PauseCall(20, false));
    ss, steps := OneMoreStep(ss, steps, Arm(20, false));
    ss, steps := OneMoreStep(ss, steps, Arm(10, false));
    assert SetTo(ss[|ss| - 1], 10);
  }

  /** Its pass then finds the longer pause, and sets the timer again. */
  lemma EarlyWakeUpLooksAgain(s: State, due: int, read: int)
    requires SetTo(s, due) && R.Inv(s.timer) && due <= read <= s.clock && s.deadline.Some? && read < s.deadline.value
    ensures Enabled(s, Fire(due)) && Enabled(Apply(s, Fire(due)), Look(read, false))
    ensures var found := Apply(Apply(s, Fire(due)), Look(read, false));
            && Enabled(found, Arm(s.deadline.value, false))
            && SetTo(Apply(found, Arm(s.deadline.value, false)), s.deadline.value)
  {
  }

  /** A pause that another server recorded wakes up nobody here until a pass has found it. */
  lemma OthersPauseWakesNobody()
    ensures exists ss: seq<State>, steps: seq<Step> ::
              IsRun(ss, steps) && ss[|ss| - 1].deadline == Some(20) && !Awaited(ss[|ss| - 1])
  {
    var ss, steps := OneMoreStep([INIT], [], OtherPause(20));
    assert !Awaited(ss[|ss| - 1]);
  }
}
