/** Bringing the runs of a pull request in line when it is merged, closed or reopened. */
module PullRequests {
  import opened RunTypes
  import opened RunStores
  import opened Scheduling
  import opened Paths
  import T = RunTables

  datatype PREvent = Merged | ClosedUnmerged | Reopened

  function Target(e: PREvent): PRStatus {
    match e
    case Merged => PRStatusMerged
    case ClosedUnmerged => PRClosedUnmerged
    case Reopened => PROpen
  }

  /** A merge wins over everything that comes later; a run in review ends with its pull request. */
  function ReconciledRow(r: Run, e: PREvent, now: int): Run {
    if e != Merged && r.prStatus == PRStatusMerged then r
    else
      var patched := r.(prStatus := Target(e));
      if r.status != Review || e == Reopened then patched
      else if e == Merged then T.TransitionRow(patched, Succeeded, "", NoReason, now)
      else T.TransitionRow(patched, Canceled, "pull request closed without merge", PRClosed, now)
  }

  datatype Delivered = Delivered(e: PREvent, at: int)

  function AfterEvents(r: Run, events: seq<Delivered>): Run {
    if events == [] then r
    else
      var last := events[|events| - 1];
      ReconciledRow(AfterEvents(r, events[..|events| - 1]), last.e, last.at)
  }

  /** The first event that is not a reopening. */
  function FirstClosing(events: seq<Delivered>): (closing: Option<PREvent>)
    ensures closing != Some(Reopened)
    ensures closing.None? <==> forall i :: 0 <= i < |events| ==> events[i].e == Reopened
  {
    if events == [] then None
    else
      var first, last := FirstClosing(events[..|events| - 1]), events[|events| - 1].e;
      if first.Some? then first else if last != Reopened then Some(last) else None
  }

  /** Over any sequence of events, the first closing decides how a run in review ends, and its
      pull request is merged in the end if and only if some event was a merge. */
  lemma {:induction false} FirstClosingDecides(r: Run, events: seq<Delivered>)
    requires r.status == Review && r.prStatus != PRStatusMerged
    ensures AfterEvents(r, events).status ==
            match FirstClosing(events) case None => Review case Some(e) => if e == Merged then Succeeded else Canceled
    ensures AfterEvents(r, events).prStatus == PRStatusMerged <==>
            exists i :: 0 <= i < |events| && events[i].e == Merged
  {
    if events != [] {
      var n := |events| - 1;
      FirstClosingDecides(r, events[..n]);
      assert forall i :: 0 <= i < n ==> events[..n][i] == events[i];
      assert (exists i :: 0 <= i < |events| && events[i].e == Merged) <==>
             events[n].e == Merged || exists i :: 0 <= i < n && events[..n][i].e == Merged;
    }
  }

  /** So the same two events end the same run differently: delivered in order they make it a
      success; the other way round the close cancels it, and the merge comes too late. */
  lemma CloseBeforeMergeCancels(r: Run, close: Delivered, merge: Delivered)
    requires r.status == Review && r.prStatus != PRStatusMerged && close.e == ClosedUnmerged && merge.e == Merged
    ensures AfterEvents(r, [merge, close]).status == Succeeded
            && AfterEvents(r, [merge, close]).prStatus == PRStatusMerged
    ensures AfterEvents(r, [close, merge]).status == Canceled
            && AfterEvents(r, [close, merge]).prStatus == PRStatusMerged
  {
    FirstClosingOfTwo(merge, close);
    FirstClosingOfTwo(close, merge);
    FirstClosingDecides(r, [merge, close]);
    FirstClosingDecides(r, [close, merge]);
    assert [merge, close][0].e == Merged && [close, merge][1].e == Merged;
  }

  lemma FirstClosingOfTwo(a: Delivered, b: Delivered)
    requires a.e != Reopened
    ensures FirstClosing([a, b]) == Some(a.e)
  {
    assert [a, b][..1] == [a] && [a][..0] == [];
  }

  /** After a merge nothing that follows changes the run, if it is not in review any more. */
  lemma {:induction false} MergedIsForever(r: Run, events: seq<Delivered>)
    requires r.prStatus == PRStatusMerged && r.status != Review
    ensures AfterEvents(r, events) == r
  {
    if events != [] {
      MergedIsForever(r, events[..|events| - 1]);
    }
  }

  predicate ReconciledAt(d: T.Tables, d': T.Tables, reached: bool, id: RunId, prNumber: nat, e: PREvent, now: int) {
    && (id in d'.runs <==> id in d.runs)
    && (id in d.runs ==>
          d'.runs[id] == if reached && d.runs[id].prNumber == prNumber
                         then ReconciledRow(d.runs[id], e, now) else d.runs[id])
  }

  /** The tables after the event reached the runs `ids`. */
  ghost predicate ReconciledRuns(d: T.Tables, d': T.Tables, ids: set<RunId>, prNumber: nat, e: PREvent, now: int) {
    && InSteps(d, d')
    && SameTaskFlags(d, d')
    && d' == d.(runs := d'.runs, tasks := d'.tasks)
    && forall id :: ReconciledAt(d, d', id in ids, id, prNumber, e, now)
  }

  lemma ReconcilesOne(d: T.Tables, mid: T.Tables, d': T.Tables, ids: set<RunId>, id: RunId, prNumber: nat,
                      e: PREvent, now: int)
    requires ReconciledRuns(d, mid, ids, prNumber, e, now) && id in d.runs && id !in ids
    requires id in mid.runs && InSteps(mid, d')
    requires var r := d.runs[id];
             d'.runs == mid.runs[id := if r.prNumber == prNumber then ReconciledRow(r, e, now) else r]
    requires SameTaskFlags(mid, d') && d' == mid.(runs := d'.runs, tasks := d'.tasks)
    ensures ReconciledRuns(d, d', ids + {id}, prNumber, e, now)
  {
    InMoreSteps(d, mid, d');
    forall o
      ensures ReconciledAt(d, d', o in ids + {id}, o, prNumber, e, now)
    {
      assert ReconciledAt(d, mid, o in ids, o, prNumber, e, now);
    }
  }

  lemma ReviewRow(d: T.Tables, id: RunId, e: PREvent, now: int)
    requires T.Inv(d) && id in d.runs && d.runs[id].status == Review && e != Reopened
    requires e == Merged || d.runs[id].prStatus != PRStatusMerged
    ensures var to := if e == Merged then Succeeded else Canceled;
            var error := if e == Merged then "" else "pull request closed without merge";
            var reason := if e == Merged then NoReason else PRClosed;
            var d' := T.TransitionBatch(d, id, to, T.PRPatch(0, "", "", Some(Target(e))), error, reason, now);
            && d'.runs == d.runs[id := ReconciledRow(d.runs[id], e, now)]
            && InSteps(d, d') && SameTaskFlags(d, d') && d' == d.(runs := d'.runs, tasks := d'.tasks)
  {
    var to := if e == Merged then Succeeded else Canceled;
    TransitionInSteps(d, id, to, T.PRPatch(0, "", "", Some(Target(e))),
                      if e == Merged then "" else "pull request closed without merge",
                      if e == Merged then NoReason else PRClosed, now);
  }

  lemma OtherRow(d: T.Tables, id: RunId, e: PREvent, now: int)
    requires T.Inv(d) && id in d.runs && (d.runs[id].status != Review || e == Reopened)
    requires e == Merged || d.runs[id].prStatus != PRStatusMerged
    ensures var d' := T.PatchRun(d, id, T.PRPatch(0, "", "", Some(Target(e))));
            && d'.runs == d.runs[id := ReconciledRow(d.runs[id], e, now)]
            && InSteps(d, d') && SameTaskFlags(d, d') && d' == d.(runs := d'.runs, tasks := d'.tasks)
  {
    PatchInSteps(d, id, T.PRPatch(0, "", "", Some(Target(e))));
  }

  ghost function FirstIds(runs: seq<Run>, i: int): set<RunId>
    requires 0 <= i <= |runs|
  {
    set k | 0 <= k < i :: runs[k].id
  }

  class PullRequestHandler {
    const store: RunStore
    const sm: RunStateMachine

    ghost predicate Valid()
      reads this, store
    {
      sm.store == store && store.Valid()
    }

    constructor (sm: RunStateMachine)
      requires sm.store.Valid()
      ensures Valid() && this.sm == sm
    {
      this.sm, this.store := sm, sm.store;
    }

    /** Both reconcile loops: the listed runs of the pull request, newest first. */
    method Reconcile(prNumber: nat, e: PREvent, now: int)
      requires Valid()
      modifies store`runs, store`tasks
      ensures Valid()
      ensures var reached := if prNumber == 0 then {} else T.TrimOldRuns(old(store.runs), T.LISTED).Keys;
              ReconciledRuns(old(store.Db()), store.Db(), reached, prNumber, e, now)
    {
      ghost var d0 := store.Db();
      InNoSteps(d0);
      if prNumber == 0 {
        return;
      }
      var runs := store.ListRuns(T.LISTED);
      for i := 0 to |runs|
        invariant Valid() && ReconciledRuns(d0, store.Db(), FirstIds(runs, i), prNumber, e, now)
      {
        assert runs[i] in runs && runs[i].id !in FirstIds(runs, i);
        assert FirstIds(runs, i + 1) == FirstIds(runs, i) + {runs[i].id};
        ReconcileRun(runs[i], prNumber, e, now, d0, FirstIds(runs, i));
      }
      assert FirstIds(runs, |runs|) == T.TrimOldRuns(d0.runs, T.LISTED).Keys by {
        forall id | id in T.TrimOldRuns(d0.runs, T.LISTED) ensures id in FirstIds(runs, |runs|) {
          assert d0.runs[id] in runs;
        }
      }
    }

    /** The run ends with its pull request if it is in review, else only the field is written. */
    method WriteStatus(run: Run, e: PREvent, now: int)
      requires Valid() && run.id in store.runs && store.runs[run.id] == run
      requires e == Merged || run.prStatus != PRStatusMerged
      modifies store`runs, store`tasks
      ensures Valid() && InSteps(old(store.Db()), store.Db())
      ensures store.runs == old(store.runs)[run.id := ReconciledRow(run, e, now)]
      ensures SameTaskFlags(old(store.Db()), store.Db())
    {
      ghost var d := store.Db();
      var id := run.id;
      var status := match e
                    case Merged => PRStatusMerged
                    case ClosedUnmerged => PRClosedUnmerged
                    case Reopened => PROpen;
      var patch := T.PRPatch(0, "", "", Some(status));
      if run.status == Review && e == Merged {
        ReviewRow(d, id, e, now);
        var _ := sm.TransitionBatch(id, Succeeded, patch, "", NoReason, now);
      } else if run.status == Review && e == ClosedUnmerged {
        ReviewRow(d, id, e, now);
        var _ := sm.TransitionBatch(id, Canceled, patch, "pull request closed without merge", PRClosed, now);
      } else {
        OtherRow(d, id, e, now);
        T.PatchRunKeeps(d, id, patch);
        var _ := store.UpdateRun(id, (r: Run) => r.(id := id, prStatus := status));
      }
    }

    method ReconcileRun(run: Run, prNumber: nat, e: PREvent, now: int, ghost d0: T.Tables, ghost ids: set<RunId>)
      requires Valid() && ReconciledRuns(d0, store.Db(), ids, prNumber, e, now) && run.id !in ids
      requires run.id in d0.runs && d0.runs[run.id] == run
      modifies store`runs, store`tasks
      ensures Valid() && ReconciledRuns(d0, store.Db(), ids + {run.id}, prNumber, e, now)
    {
      ghost var mid := store.Db();
      var id := run.id;
      assert ReconciledAt(d0, mid, false, id, prNumber, e, now);
      if run.prNumber == prNumber && (e == Merged || run.prStatus != PRStatusMerged) {
        WriteStatus(run, e, now);
      } else {
        assert mid.runs == mid.runs[id := mid.runs[id]];
        InNoSteps(mid);
      }
      ReconcilesOne(d0, mid, store.Db(), ids, id, prNumber, e, now);
    }
  }
}
