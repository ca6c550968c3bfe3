/** The completion comment of one run: any number of notifiers may try to post it, may crash,
    and may be told that a post failed that did take effect. */
module CompletionComments {
  import opened RunTypes

  const CLAIM_TIMEOUT: int := 300_000_000_000 // 5 minutes in nanoseconds

  datatype CommentState = Pending | Posting | Posted | PostFailed

  type AttemptId = nat

  /** Where an attempt stands; `at` is when it claimed. */
  datatype Pc =
    | Unstarted
    | Checked                 // found no notification record
    | Claimed(at: int)        // lists the comments next
    | Absent(at: int)         // found none of this run; posts next
    | Ambiguous(at: int)      // the post returned an error; lists again next
    | Present(at: int)        // knows the comment is there; records it next
    | Recorded(at: int)       // marks the run posted next
    | Failing(at: int)        // marks the run failed next
    | Ended

  /** `comments` counts the comments on GitHub that carry this run's token. */
  datatype State = State(
    state: CommentState,
    claimedAt: Option<int>,
    recorded: bool,
    comments: nat,
    clock: int,
    attempts: map<AttemptId, Pc>)

  datatype Step =
    | Tick(elapsed: nat)
    | Check(a: AttemptId)
    | Claim(a: AttemptId, read: int)              // `read` is the clock reading the cutoff comes from
    | List(a: AttemptId, fails: bool)
    | BuildFails(a: AttemptId)
    | Post(a: AttemptId, takesEffect: bool, reportsError: bool)
    | Relist(a: AttemptId, fails: bool)
    | Record(a: AttemptId, saved: bool)
    | MarkPosted(a: AttemptId, saved: bool)
    | MarkFailed(a: AttemptId, saved: bool)
    | Crash(a: AttemptId)

  function PcOf(s: State, a: AttemptId): Pc {
    if a in s.attempts then s.attempts[a] else Unstarted
  }

  predicate Holding(pc: Pc) {
    pc.Claimed? || pc.Absent? || pc.Ambiguous? || pc.Present? || pc.Recorded? || pc.Failing?
  }

  /** The attempt's claim has not gone stale. */
  predicate InTime(s: State, a: AttemptId) {
    Holding(PcOf(s, a)) ==> s.clock <= PcOf(s, a).at + CLAIM_TIMEOUT
  }

  predicate ClaimAllowed(s: State, read: int) {
    || s.state == Pending || s.state == PostFailed
    || (s.state == Posting && s.claimedAt.Some? && s.claimedAt.value < read - CLAIM_TIMEOUT)
  }

  predicate Enabled(s: State, step: Step) {
    match step
    case Tick(_) => true
    case Check(a) => PcOf(s, a).Unstarted?
    case Claim(a, read) => PcOf(s, a).Checked? && read <= s.clock
    case List(a, _) => PcOf(s, a).Claimed?
    case BuildFails(a) => PcOf(s, a).Absent?
    case Post(a, takesEffect, reportsError) => PcOf(s, a).Absent? && (takesEffect || reportsError)
    case Relist(a, _) => PcOf(s, a).Ambiguous?
    case Record(a, _) => PcOf(s, a).Present?
    case MarkPosted(a, _) => PcOf(s, a).Recorded?
    case MarkFailed(a, _) => PcOf(s, a).Failing?
    case Crash(_) => true
  }

  function Goto(s: State, a: AttemptId, pc: Pc): State {
    s.(attempts := s.attempts[a := pc])
  }

  function Apply(s: State, step: Step): State
    requires Enabled(s, step)
  {
    match step
    case Tick(n) => s.(clock := s.clock + n)
    case Check(a) => Goto(s, a, if s.recorded then Ended else Checked)
    case Claim(a, read) =>
      if ClaimAllowed(s, read) then Goto(s.(state := Posting, claimedAt := Some(s.clock)), a, Claimed(s.clock))
      else Goto(s, a, Ended)
    case List(a, fails) =>
      var at := PcOf(s, a).at;
      Goto(s, a, if fails then Failing(at) else if s.comments > 0 then Present(at) else Absent(at))
    case BuildFails(a) => Goto(s, a, Failing(PcOf(s, a).at))
    case Post(a, takesEffect, reportsError) =>
      var at := PcOf(s, a).at;
      Goto(s.(comments := if takesEffect then s.comments + 1 else s.comments), a,
           if reportsError then Ambiguous(at) else Present(at))
    case Relist(a, fails) =>
      var at := PcOf(s, a).at;
      Goto(s, a, if !fails && s.comments > 0 then Present(at) else Failing(at))
    case Record(a, saved) => Goto(s.(recorded := s.recorded || saved), a, Recorded(PcOf(s, a).at))
    case MarkPosted(a, saved) => Goto(if saved then s.(state := Posted, claimedAt := None) else s, a, Ended)
    case MarkFailed(a, saved) => Goto(if saved then s.(state := PostFailed, claimedAt := None) else s, a, Ended)
    case Crash(a) => Goto(s, a, Ended)
  }

  /** In a timely step the acting attempt's claim is not stale. The GitHub calls of an attempt
      share a deadline of 15 seconds, a twentieth of the claim timeout. */
  predicate Timely(s: State, step: Step) {
    step.Tick? || step.Crash? || InTime(s, step.a)
  }

  const INIT := State(Pending, None, false, 0, 0, map[])

  ghost predicate IsRun(ss: seq<State>, steps: seq<Step>) {
    && |ss| == |steps| + 1
    && ss[0] == INIT
    && forall i :: 0 <= i < |steps| ==> Enabled(ss[i], steps[i]) && ss[i + 1] == Apply(ss[i], steps[i])
  }

  // ---------- at most one comment ----------

  predicate Live(s: State, a: AttemptId) {
    Holding(PcOf(s, a)) && InTime(s, a)
  }

  ghost predicate Exclusive(s: State) {
    && (forall a :: Live(s, a) ==> s.state == Posting && s.claimedAt == Some(PcOf(s, a).at))
    && (forall a, b :: Live(s, a) && Live(s, b) ==> a == b)
  }

  ghost predicate Inv(s: State) {
    && Exclusive(s)
    && s.comments <= 1
    && (forall a :: Live(s, a) && PcOf(s, a).Absent? ==> s.comments == 0)
    && (forall a :: PcOf(s, a).Present? || PcOf(s, a).Recorded? ==> s.comments == 1)
    && (s.state == Posted || s.recorded ==> s.comments == 1)
  }

  lemma StepKeepsExclusive(s: State, step: Step)
    requires Inv(s) && Enabled(s, step) && Timely(s, step)
    ensures Exclusive(Apply(s, step))
  {
    var s' := Apply(s, step);
    if step.Tick? {
      assert forall a :: PcOf(s', a) == PcOf(s, a) && (Live(s', a) ==> Live(s, a));
    } else {
      forall a | Live(s', a)
        ensures s'.state == Posting && s'.claimedAt == Some(PcOf(s', a).at)
        ensures a != step.a ==> Live(s, a) && !Live(s', step.a)
      {
        OnlyActorMoves(s, step, a);
        if a == step.a {
          assert Live(s, a) || step.Claim?;
        } else {
          assert Live(s, a) && !Live(s, step.a);
        }
      }
    }
  }

  lemma OnlyActorMoves(s: State, step: Step, a: AttemptId)
    requires Enabled(s, step) && !step.Tick?
    ensures a != step.a ==> PcOf(Apply(s, step), a) == PcOf(s, a)
    ensures Apply(s, step).clock == s.clock
  {
  }

  lemma StepKeepsInv(s: State, step: Step)
    requires Inv(s) && Enabled(s, step) && Timely(s, step)
    ensures Inv(Apply(s, step))
  {
    StepKeepsExclusive(s, step);
    StepKeepsCount(s, step);
  }

  lemma StepKeepsCount(s: State, step: Step)
    requires Inv(s) && Enabled(s, step) && Timely(s, step)
    ensures var s' := Apply(s, step);
            && s'.comments <= 1
            && (forall a :: Live(s', a) && PcOf(s', a).Absent? ==> s'.comments == 0)
            && (forall a :: PcOf(s', a).Present? || PcOf(s', a).Recorded? ==> s'.comments == 1)
            && (s'.state == Posted || s'.recorded ==> s'.comments == 1)
  {
    var s' := Apply(s, step);
    if step.Tick? {
      assert forall a :: PcOf(s', a) == PcOf(s, a) && (Live(s', a) ==> Live(s, a));
    } else {
      forall a | Live(s', a) && PcOf(s', a).Absent?
        ensures s'.comments == 0
      {
        OnlyActorMoves(s, step, a);
        if a != step.a {
          assert Live(s, a) && PcOf(s, a).Absent?;
          assert step.Post? ==> Live(s, step.a);
          assert s'.comments == s.comments;
        }
      }
      forall a | PcOf(s', a).Present? || PcOf(s', a).Recorded?
        ensures s'.comments == 1
      {
        OnlyActorMoves(s, step, a);
        assert step.Post? ==> Live(s, step.a) && s.comments == 0;
      }
    }
  }

  lemma {:induction false} AlwaysInv(ss: seq<State>, steps: seq<Step>, k: nat)
    requires IsRun(ss, steps) && (forall i :: 0 <= i < |steps| ==> Timely(ss[i], steps[i])) && k < |ss|
    ensures Inv(ss[k])
  {
    if k > 0 {
      AlwaysInv(ss, steps, k - 1);
      StepKeepsInv(ss[k - 1], steps[k - 1]);
      assert ss[(k - 1) + 1] == Apply(ss[k - 1], steps[k - 1]);
    }
  }

  /** Whatever fails or crashes, a run gets at most one completion comment, and it is marked
      posted or recorded only when it has one. */
  lemma AtMostOneComment(ss: seq<State>, steps: seq<Step>, k: nat)
    requires IsRun(ss, steps) && (forall i :: 0 <= i < |steps| ==> Timely(ss[i], steps[i])) && k < |ss|
    ensures ss[k].comments <= 1
    ensures ss[k].state == Posted || ss[k].recorded ==> ss[k].comments == 1
  {
    AlwaysInv(ss, steps, k);
  }

  // ---------- the assumption is needed ----------

  lemma OneMoreStep(ss: seq<State>, steps: seq<Step>, step: Step) returns (ss': seq<State>, steps': seq<Step>)
    requires IsRun(ss, steps) && Enabled(ss[|ss| - 1], step)
    ensures IsRun(ss', steps') && ss'[|ss'| - 1] == Apply(ss[|ss| - 1], step)
  {
    ss', steps' := ss + [Apply(ss[|ss| - 1], step)], steps + [step];
    forall i | 0 <= i < |steps'|
      ensures Enabled(ss'[i], steps'[i]) && ss'[i + 1] == Apply(ss'[i], steps'[i])
    {
      if i < |steps| {
        assert ss[i + 1] == Apply(ss[i], steps[i]);
      }
    }
  }

  /** An attempt that sleeps through its timeout between listing and posting posts a second
      comment. */
  lemma LateAttemptPostsTwice()
    ensures exists ss: seq<State>, steps: seq<Step> :: IsRun(ss, steps) && ss[|ss| - 1].comments == 2
  {
    var ss, steps := OneMoreStep([INIT], [], Check(0));
    ss, steps := OneMoreStep(ss, steps, Claim(0, 0));
    ss, steps := OneMoreStep(ss, steps, List(0, false));
    ss, steps := OneMoreStep(ss, steps, Tick(CLAIM_TIMEOUT + 1));
    ss, steps := OneMoreStep(ss, steps, Check(1));
    ss, steps := OneMoreStep(ss, steps, Claim(1, CLAIM_TIMEOUT + 1));
    ss, steps := OneMoreStep(ss, steps, List(1, false));
    ss, steps := OneMoreStep(ss, steps, Post(1, true, false));
    ss, steps := OneMoreStep(ss, steps, Post(0, true, false));
    assert IsRun(ss, steps) && ss[|ss| - 1].comments == 2;
  }

  predicate Posts(step: Step) {
    step.Post? && step.takesEffect
  }

  lemma {:induction false} CommentsComeFromPosts(ss: seq<State>, steps: seq<Step>, i: nat, k: nat)
    requires IsRun(ss, steps) && i <= k < |ss|
    ensures ss[i].comments <= ss[k].comments
    ensures ss[i].comments < ss[k].comments <==> exists p :: i <= p < k && Posts(steps[p])
  {
    if i < k {
      CommentsComeFromPosts(ss, steps, i, k - 1);
      assert Enabled(ss[k - 1], steps[k - 1]) && ss[(k - 1) + 1] == Apply(ss[k - 1], steps[k - 1]);
    }
  }

  /** An attempt about to post has listed, and when it did there was no comment. */
  lemma {:induction false} AbsentSinceListing(ss: seq<State>, steps: seq<Step>, k: nat, a: AttemptId) returns (l: nat)
    requires IsRun(ss, steps) && k < |ss| && PcOf(ss[k], a).Absent?
    ensures l < k && steps[l] == List(a, false) && ss[l].comments == ss[l + 1].comments == 0
    ensures forall j :: l < j <= k ==> PcOf(ss[j], a).Absent?
  {
    assert Enabled(ss[k - 1], steps[k - 1]) && ss[(k - 1) + 1] == Apply(ss[k - 1], steps[k - 1]);
    if PcOf(ss[k - 1], a).Absent? {
      l := AbsentSinceListing(ss, steps, k - 1, a);
    } else {
      l := k - 1;
    }
  }

  /** The post at k makes one comment too many exactly if some other post took effect between
      the attempt's listing, from which it has been about to post, and this post. */
  ghost predicate ListedTooEarly(ss: seq<State>, steps: seq<Step>, k: nat, l: nat, p: nat)
    requires |ss| == |steps| + 1 && k < |steps| && steps[k].Post?
  {
    && l < p < k && steps[l] == List(steps[k].a, false) && Posts(steps[p])
    && forall j :: l < j <= k ==> PcOf(ss[j], steps[k].a).Absent?
  }

  lemma SecondCommentIff(ss: seq<State>, steps: seq<Step>, k: nat)
    requires IsRun(ss, steps) && k < |steps| && Posts(steps[k])
    ensures ss[k + 1].comments >= 2 <==> exists l: nat, p: nat :: ListedTooEarly(ss, steps, k, l, p)
  {
    assert Enabled(ss[k], steps[k]) && ss[k + 1] == Apply(ss[k], steps[k]);
    var l := AbsentSinceListing(ss, steps, k, steps[k].a);
    CommentsComeFromPosts(ss, steps, l + 1, k);
    if ss[k].comments > 0 {
      var p :| l + 1 <= p < k && Posts(steps[p]);
      assert ListedTooEarly(ss, steps, k, l, p);
    }
    forall l': nat, p: nat | ListedTooEarly(ss, steps, k, l', p)
      ensures ss[k].comments >= 1
    {
      CommentsComeFromPosts(ss, steps, 0, k);
    }
  }

  /** In such a run some attempt acted after its claim had gone stale. */
  lemma SecondCommentIsUntimely(ss: seq<State>, steps: seq<Step>, k: nat)
    requires IsRun(ss, steps) && k < |ss| && ss[k].comments >= 2
    ensures exists i :: 0 <= i < |steps| && !Timely(ss[i], steps[i])
  {
    if forall i :: 0 <= i < |steps| ==> Timely(ss[i], steps[i]) {
      AtMostOneComment(ss, steps, k);
      assert false;
    }
  }

  // ---------- the notifier itself ----------

  ghost predicate Path(s: State, steps: seq<Step>, s': State) {
    if steps == [] then s == s'
    else
      var n := |steps| - 1;
      exists mid :: Path(s, steps[..n], mid) && Enabled(mid, steps[n]) && s' == Apply(mid, steps[n])
  }

  lemma PathExtends(s: State, steps: seq<Step>, mid: State, step: Step)
    requires Path(s, steps, mid) && Enabled(mid, step)
    ensures Path(s, steps + [step], Apply(mid, step))
  {
    var all, n := steps + [step], |steps|;
    assert all[..n] == steps && all[n] == step;
    assert Path(s, all[..n], mid) && Enabled(mid, all[n]);
  }

  /** How the world treats one attempt. A post that reports no error took effect. */
  datatype Luck = Luck(listFails: bool, buildFails: bool, takesEffect: bool, reportsError: bool, relistFails: bool,
                       recordSaved: bool, markSaved: bool)

  /** The run's row and notification record, and the comments on GitHub. */
  class CommentStore {
    var state: CommentState
    var claimedAt: Option<int>
    var recorded: bool
    var comments: nat
    var clock: int
    ghost var attempts: map<AttemptId, Pc>

    ghost function Now(): State
      reads this
    {
      State(state, claimedAt, recorded, comments, clock, attempts)
    }

    constructor ()
      ensures Now() == INIT
    {
      state, claimedAt, recorded, comments, clock, attempts := Pending, None, false, 0, 0, map[];
    }

    // Each call to the store or to GitHub is one step of the protocol.

    method NotificationAlreadyPosted(ghost a: AttemptId) returns (posted: bool)
      requires Enabled(Now(), Check(a))
      modifies `attempts
      ensures Now() == Apply(old(Now()), Check(a)) && posted == recorded
    {
      posted := recorded;
      attempts := attempts[a := if recorded then Ended else Checked];
    }

    method ClaimRunCompletionComment(ghost a: AttemptId, read: int) returns (claimed: bool)
      requires Enabled(Now(), Claim(a, read))
      modifies `state, `claimedAt, `attempts
      ensures Now() == Apply(old(Now()), Claim(a, read)) && claimed == ClaimAllowed(old(Now()), read)
    {
      claimed := state == Pending || state == PostFailed
                 || (state == Posting && claimedAt.Some? && claimedAt.value < read - CLAIM_TIMEOUT);
      if claimed {
        state, claimedAt := Posting, Some(clock);
      }
      attempts := attempts[a := if claimed then Claimed(clock) else Ended];
    }

    method CompletionCommentAlreadyPosted(ghost a: AttemptId, fails: bool) returns (posted: bool)
      requires PcOf(Now(), a).Claimed? || PcOf(Now(), a).Ambiguous?
      modifies `attempts
      ensures Now() == Apply(old(Now()), if PcOf(old(Now()), a).Claimed? then List(a, fails) else Relist(a, fails))
      ensures posted == (!fails && comments > 0)
    {
      posted := !fails && comments > 0;
      attempts := attempts[a := if posted then Present(attempts[a].at)
                                else if attempts[a].Claimed? && !fails then Absent(attempts[a].at)
                                 else Failing(attempts[a].at)];
    }

    method CreateIssueComment(ghost a: AttemptId, takesEffect: bool, reportsError: bool)
      requires Enabled(Now(), Post(a, takesEffect, reportsError))
      modifies `comments, `attempts
      ensures Now() == Apply(old(Now()), Post(a, takesEffect, reportsError))
    {
      comments := if takesEffect then comments + 1 else comments;
      attempts := attempts[a := if reportsError then Ambiguous(attempts[a].at) else Present(attempts[a].at)];
    }

    method UpsertRunNotification(ghost a: AttemptId, saved: bool)
      requires Enabled(Now(), Record(a, saved))
      modifies `recorded, `attempts
      ensures Now() == Apply(old(Now()), Record(a, saved))
    {
      recorded := recorded || saved;
      attempts := attempts[a := Recorded(attempts[a].at)];
    }

    method MarkRunCompletionCommentPosted(ghost a: AttemptId, saved: bool)
      requires Enabled(Now(), MarkPosted(a, saved))
      modifies `state, `claimedAt, `attempts
      ensures Now() == Apply(old(Now()), MarkPosted(a, saved))
    {
      if saved {
        state, claimedAt := Posted, None;
      }
      attempts := attempts[a := Ended];
    }

    method MarkRunCompletionCommentFailed(ghost a: AttemptId, saved: bool)
      requires Enabled(Now(), MarkFailed(a, saved))
      modifies `state, `claimedAt, `attempts
      ensures Now() == Apply(old(Now()), MarkFailed(a, saved))
    {
      if saved {
        state, claimedAt := PostFailed, None;
      }
      attempts := attempts[a := Ended];
    }

    /** NotifyRunCompleted, from the record check on, as attempt `a`: one path of the protocol.
        Left alone, it never adds to a comment that is there, and if nothing fails the run has
        its comment afterwards. */
    method NotifyRunCompleted(ghost a: AttemptId, luck: Luck) returns (ghost steps: seq<Step>)
      requires Enabled(Now(), Check(a)) && (luck.takesEffect || luck.reportsError)
      modifies this
      ensures Path(old(Now()), steps, Now())
      ensures if old(comments) > 0 then comments == old(comments) else comments <= 1
      ensures !old(recorded) && ClaimAllowed(old(Now()), old(clock)) && AllGoesWell(luck)
              ==> comments > 0 && state == Posted && recorded
    {
      ghost var start := Now();
      steps := [Check(a)];
      PathExtends(start, [], start, Check(a));
      var posted := NotificationAlreadyPosted(a);
      if posted {
        return;
      }
      PathExtends(start, steps, Now(), Claim(a, clock));
      steps := steps + [Claim(a, clock)];
      var claimed := ClaimRunCompletionComment(a, clock);
      if !claimed {
        return;
      }
      steps := PostOnce(a, luck, start, steps);
    }

    /** The claim is held: lists, posts if nothing is there, and confirms. */
    method PostOnce(ghost a: AttemptId, luck: Luck, ghost start: State, ghost before: seq<Step>)
      returns (ghost steps: seq<Step>)
      requires Path(start, before, Now()) && PcOf(Now(), a).Claimed? && (luck.takesEffect || luck.reportsError)
      modifies this
      ensures Path(start, steps, Now())
      ensures if old(comments) > 0 then comments == old(comments) else comments <= 1
      ensures AllGoesWell(luck) ==> comments > 0 && state == Posted && recorded
    {
      PathExtends(start, before, Now(), List(a, luck.listFails));
      steps := before + [List(a, luck.listFails)];
      var posted := CompletionCommentAlreadyPosted(a, luck.listFails);
      if luck.listFails {
        PathExtends(start, steps, Now(), MarkFailed(a, luck.markSaved));
        steps := steps + [MarkFailed(a, luck.markSaved)];
        MarkRunCompletionCommentFailed(a, luck.markSaved);
        return;
      }
      if !posted {
        posted, steps := PostComment(a, luck, start, steps);
      }
      if posted {
        steps := ConfirmPosted(a, luck, start, steps);
      }
    }

    method ConfirmPosted(ghost a: AttemptId, luck: Luck, ghost start: State, ghost before: seq<Step>)
      returns (ghost steps: seq<Step>)
      requires Path(start, before, Now()) && PcOf(Now(), a).Present?
      modifies `recorded, `state, `claimedAt, `attempts
      ensures Path(start, steps, Now())
      ensures luck.recordSaved && luck.markSaved ==> state == Posted && recorded
    {
      PathExtends(start, before, Now(), Record(a, luck.recordSaved));
      steps := before + [Record(a, luck.recordSaved)];
      UpsertRunNotification(a, luck.recordSaved);
      PathExtends(start, steps, Now(), MarkPosted(a, luck.markSaved));
      steps := steps + [MarkPosted(a, luck.markSaved)];
      MarkRunCompletionCommentPosted(a, luck.markSaved);
    }

    /** Builds and posts the comment; after an error it looks whether the post took effect. */
    method PostComment(ghost a: AttemptId, luck: Luck, ghost start: State, ghost before: seq<Step>)
      returns (posted: bool, ghost steps: seq<Step>)
      requires Path(start, before, Now()) && PcOf(Now(), a).Absent? && (luck.takesEffect || luck.reportsError)
      modifies `state, `claimedAt, `comments, `attempts
      ensures Path(start, steps, Now())
      ensures comments == if !luck.buildFails && luck.takesEffect then old(comments) + 1 else old(comments)
      ensures posted ==> PcOf(Now(), a).Present? && comments > 0
      ensures AllGoesWell(luck) ==> posted
    {
      steps := before;
      posted := false;
      if luck.buildFails {
        PathExtends(start, steps, Now(), BuildFails(a));
        steps := steps + [BuildFails(a)];
        attempts := attempts[a := Failing(attempts[a].at)];
      } else {
        PathExtends(start, steps, Now(), Post(a, luck.takesEffect, luck.reportsError));
        steps := steps + [Post(a, luck.takesEffect, luck.reportsError)];
        CreateIssueComment(a, luck.takesEffect, luck.reportsError);
        if !luck.reportsError {
          return true, steps;
        }
        PathExtends(start, steps, Now(), Relist(a, luck.relistFails));
        steps := steps + [Relist(a, luck.relistFails)];
        posted := CompletionCommentAlreadyPosted(a, luck.relistFails);
        if posted {
          return;
        }
      }
      PathExtends(start, steps, Now(), MarkFailed(a, luck.markSaved));
      steps := steps + [MarkFailed(a, luck.markSaved)];
      MarkRunCompletionCommentFailed(a, luck.markSaved);
    }
  }

  predicate AllGoesWell(luck: Luck) {
    !luck.listFails && !luck.buildFails && luck.takesEffect && !luck.relistFails && luck.recordSaved && luck.markSaved
  }
}
