/** What a sequence of PauseScheduler calls adds up to. */
module SchedulerPauses {
  import opened RunTypes
  import opened RunTables

  datatype Call = Call(reason: string, until: int)

  function AfterCalls(db: Tables, scope: string, calls: seq<Call>): Tables {
    if calls == [] then db
    else PauseScheduler(AfterCalls(db, scope, calls[..|calls| - 1]), scope, calls[|calls| - 1].reason,
                        calls[|calls| - 1].until)
  }

  /** `k` is the latest call that asked for the latest deadline. */
  ghost predicate LatestOfMax(calls: seq<Call>, k: nat) {
    && k < |calls|
    && (forall j :: 0 <= j < |calls| ==> calls[j].until <= calls[k].until)
    && (forall j :: k < j < |calls| ==> calls[j].until < calls[k].until)
  }

  /** Calls merge to the maximum: the row holds the latest deadline asked for, with the reason
      of the latest call that asked for it, and other scopes are untouched. */
  lemma {:induction false} CallsMergeToMax(db: Tables, scope: string, calls: seq<Call>) returns (k: nat)
    requires scope !in db.pauses && calls != []
    ensures LatestOfMax(calls, k)
    ensures AfterCalls(db, scope, calls).pauses == db.pauses[scope := SchedulerPause(calls[k].reason, calls[k].until)]
  {
    var before := calls[..|calls| - 1];
    k := |calls| - 1;
    if before != [] {
      var m := CallsMergeToMax(db, scope, before);
      if calls[m].until > calls[k].until {
        k := m;
      }
    }
  }
}
