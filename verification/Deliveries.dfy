/** Webhook deliveries: claims with a token and a deadline, so that a redelivered event is
    handled once. */
module Deliveries {
  import opened RunTypes

  type DeliveryId = string
  type Token = string

  const CLAIM_TIMEOUT: int := 600_000_000_000 // 10 minutes in nanoseconds
  const MAX_DELIVERIES: nat := 1000

  datatype Delivery = Delivery(processed: bool, token: Token, claimedBy: string, claimedAt: int, seenAt: int,
                               processedAt: Option<int>)

  type Rows = map<DeliveryId, Delivery>

  // ---------- the statements ----------

  predicate Claimable(rows: Rows, id: DeliveryId, now: int) {
    id !in rows || (!rows[id].processed && rows[id].claimedAt < now - CLAIM_TIMEOUT)
  }

  /** Insert, or take over a claim that timed out; `seen_at` stays that of the first claim. */
  function Claim(rows: Rows, id: DeliveryId, token: Token, owner: string, now: int): Rows {
    if id !in rows then rows[id := Delivery(false, token, owner, now, now, None)]
    else if Claimable(rows, id, now) then rows[id := rows[id].(token := token, claimedBy := owner, claimedAt := now)]
    else rows
  }

  predicate Holds(rows: Rows, id: DeliveryId, token: Token) {
    id in rows && rows[id].token == token
  }

  /** What the claimer reads back. */
  predicate Holding(rows: Rows, id: DeliveryId, token: Token) {
    Holds(rows, id, token) && !rows[id].processed
  }

  function OwnerName(claimedBy: string): string {
    if claimedBy == "" then "rascald" else claimedBy
  }

  function Complete(rows: Rows, id: DeliveryId, token: Token, now: int): Rows {
    if Holds(rows, id, token) then rows[id := Delivery(true, "", "", 0, now, Some(now))] else rows
  }

  function Release(rows: Rows, id: DeliveryId, token: Token): Rows {
    if Holds(rows, id, token) then rows - {id} else rows
  }

  function Record(rows: Rows, id: DeliveryId, now: int): Rows {
    rows[id := Delivery(true, "", "", 0, now, Some(now))]
  }

  /** `n` rows with the smallest `seen_at`; which ones among equals is up to the database. */
  ghost predicate OldestDropped(rows: Rows, rows': Rows, n: nat) {
    && rows'.Keys <= rows.Keys && (forall id :: id in rows' ==> rows'[id] == rows[id])
    && |rows'| == (if n <= |rows| then |rows| - n else 0)
    && forall gone, kept :: gone in rows && gone !in rows' && kept in rows' ==> rows[gone].seenAt <= rows[kept].seenAt
  }

  /** One statement of anybody. Evictions are of any rows. */
  datatype Step =
    | ClaimStep(id: DeliveryId, token: Token, owner: string, now: int)
    | CompleteStep(id: DeliveryId, token: Token, now: int)
    | ReleaseStep(id: DeliveryId, token: Token)
    | RecordStep(id: DeliveryId, now: int)
    | EvictStep(ids: set<DeliveryId>)

  function RowsAfter(rows: Rows, step: Step): Rows {
    match step
    case ClaimStep(id, token, owner, now) => Claim(rows, id, token, owner, now)
    case CompleteStep(id, token, now) => Complete(rows, id, token, now)
    case ReleaseStep(id, token) => Release(rows, id, token)
    case RecordStep(id, now) => Record(rows, id, now)
    case EvictStep(ids) => rows - ids
  }

  function RowsAfterAll(rows: Rows, steps: seq<Step>): Rows
    decreases |steps|
  {
    if steps == [] then rows else RowsAfterAll(RowsAfter(rows, steps[0]), steps[1..])
  }

  /** How many rows a trim deletes that counted `count` rows. */
  function Surplus(count: nat): nat {
    if count > MAX_DELIVERIES then count - MAX_DELIVERIES else 0
  }

  datatype ClaimResult = NoDeliveryId | TrimFailed | Won | Lost

  /** What befalls a trim: the statements of others before the count and before the deletion, and
      whether either fails. */
  datatype Trim = Trim(beforeCount: seq<Step>, countFails: bool, beforeDelete: seq<Step>, deleteFails: bool)

  predicate Fails(t: Trim, rows: Rows) {
    t.countFails || (t.deleteFails && Surplus(|RowsAfterAll(rows, t.beforeCount)|) > 0)
  }

  /** The trim deletes as many of the oldest rows as were too many when it counted. */
  ghost predicate Trimmed(rows: Rows, rows': Rows, t: Trim) {
    var counted := RowsAfterAll(rows, t.beforeCount);
    var later := RowsAfterAll(counted, t.beforeDelete);
    OldestDropped(later, rows', if Fails(t, rows) then 0 else Surplus(|counted|))
  }

  // ---------- the table ----------

  class DeliveryTable {
    var rows: Rows

    constructor ()
      ensures rows == map[]
    {
      rows := map[];
    }

    /** Whatever others do in the meantime. */
    method OthersRun(script: seq<Step>)
      modifies this
      ensures rows == RowsAfterAll(old(rows), script)
    {
      rows := RowsAfterAll(rows, script);
    }

    method TrimDeliveriesIfNeeded(t: Trim) returns (ok: bool)
      modifies this
      ensures Trimmed(old(rows), rows, t) && ok == !Fails(t, old(rows))
    {
      OthersRun(t.beforeCount);
      var count := |rows|;
      OthersRun(t.beforeDelete);
      if t.countFails {
        return false;
      }
      if count <= MAX_DELIVERIES {
        return true;
      }
      if t.deleteFails {
        return false;
      }
      DeleteOldest(count - MAX_DELIVERIES);
      ok := true;
    }

    /** `token` is fresh. A claim whose trim fails stands, though its token is not handed out. */
    method ClaimDelivery(id: DeliveryId, claimedBy: string, token: Token, now: int,
                         t: Trim) returns (result: ClaimResult)
      modifies this
      ensures result == NoDeliveryId <==> id == ""
      ensures id == "" ==> rows == old(rows)
      ensures id != "" ==>
                var after := Claim(old(rows), id, token, OwnerName(claimedBy), now);
                && Trimmed(after, rows, t)
                && result == if Fails(t, after) then TrimFailed else if Holding(after, id, token) then Won else Lost
    {
      if id == "" {
        return NoDeliveryId;
      }
      var owner := if claimedBy != "" then claimedBy else "rascald";
      if id !in rows {
        rows := rows[id := Delivery(false, token, owner, now, now, None)];
      } else if !rows[id].processed && rows[id].claimedAt < now - CLAIM_TIMEOUT {
        rows := rows[id := rows[id].(token := token, claimedBy := owner, claimedAt := now)];
      }
      var won := rows[id].token == token && !rows[id].processed;
      var ok := TrimDeliveriesIfNeeded(t);
      result := if !ok then TrimFailed else if won then Won else Lost;
    }

    method RecordDelivery(id: DeliveryId, now: int, t: Trim) returns (ok: bool)
      modifies this
      ensures id == "" ==> ok && rows == old(rows)
      ensures id != "" ==> var after := Record(old(rows), id, now); Trimmed(after, rows, t) && ok == !Fails(t, after)
    {
      if id == "" {
        return true;
      }
      rows := rows[id := Delivery(true, "", "", 0, now, Some(now))];
      ok := TrimDeliveriesIfNeeded(t);
    }

    method DeleteOldest(n: nat)
      modifies this
      ensures OldestDropped(old(rows), rows, n)
    {
      var i := 0;
      while i < n && rows != map[]
        invariant i <= n && OldestDropped(old(rows), rows, i)
      {
        assert rows.Keys != {};
        OldestExists(rows, rows.Keys);
        var oldest :| oldest in rows.Keys && forall o :: o in rows.Keys ==> rows[oldest].seenAt <= rows[o].seenAt;
        ghost var before := rows;
        rows := rows - {oldest};
        assert rows.Keys == before.Keys - {oldest} && |rows.Keys| == |rows| && |before.Keys| == |before|;
        i := i + 1;
      }
      assert rows == map[] ==> |rows| == 0;
    }

    /** Fails when the claim is no longer the caller's. */
    method CompleteDeliveryClaim(id: DeliveryId, token: Token, now: int) returns (ok: bool)
      modifies this
      ensures ok == (id != "" && token != "" && Holds(old(rows), id, token))
      ensures rows == if ok then Complete(old(rows), id, token, now) else old(rows)
    {
      ok := id != "" && token != "" && id in rows && rows[id].token == token;
      if ok {
        rows := rows[id := Delivery(true, "", "", 0, now, Some(now))];
      }
    }

    method ReleaseDeliveryClaim(id: DeliveryId, token: Token)
      modifies this
      ensures rows == if id == "" || token == "" then old(rows) else Release(old(rows), id, token)
    {
      if id != "" && token != "" && id in rows && rows[id].token == token {
        rows := rows - {id};
      }
    }
  }

  lemma {:induction false} OldestExists(rows: Rows, s: set<DeliveryId>)
    requires s <= rows.Keys && s != {}
    ensures exists id :: id in s && forall o :: o in s ==> rows[id].seenAt <= rows[o].seenAt
  {
    var x :| x in s;
    if s == {x} {
      assert forall o :: o in s ==> rows[x].seenAt <= rows[o].seenAt;
    } else {
      OldestExists(rows, s - {x});
      var y :| y in s - {x} && forall o :: o in s - {x} ==> rows[y].seenAt <= rows[o].seenAt;
      var best := if rows[x].seenAt <= rows[y].seenAt then x else y;
      assert best in s && forall o :: o in s ==> rows[best].seenAt <= rows[o].seenAt;
    }
  }

  /** A claim wins exactly when nobody has the delivery or its claim timed out unprocessed. */
  lemma ClaimWinsIff(rows: Rows, id: DeliveryId, token: Token, owner: string, now: int)
    requires !Holds(rows, id, token)
    ensures Holding(Claim(rows, id, token, owner, now), id, token) <==> Claimable(rows, id, now)
  {
  }

  // ---------- runs of the protocol ----------

  /** `used` are the tokens drawn so far; tokens are random, so a claim draws a new one. */
  datatype State = State(rows: Rows, used: set<Token>)

  predicate Enabled(s: State, step: Step) {
    match step
    case ClaimStep(_, token, _, _) => token != "" && token !in s.used
    case CompleteStep(_, token, _) => token != ""
    case ReleaseStep(_, token) => token != ""
    case _ => true
  }

  function Apply(s: State, step: Step): State {
    State(RowsAfter(s.rows, step), if step.ClaimStep? then s.used + {step.token} else s.used)
  }

  ghost predicate IsRun(ss: seq<State>, steps: seq<Step>) {
    && |ss| == |steps| + 1
    && ss[0] == State(map[], {})
    && forall i :: 0 <= i < |steps| ==> Enabled(ss[i], steps[i]) && ss[i + 1] == Apply(ss[i], steps[i])
  }

  ghost predicate TokensUsed(s: State) {
    forall id :: id in s.rows ==> s.rows[id].token == "" || s.rows[id].token in s.used
  }

  lemma {:induction false} AlwaysTokensUsed(ss: seq<State>, steps: seq<Step>, k: nat)
    requires IsRun(ss, steps) && k < |ss|
    ensures TokensUsed(ss[k])
  {
    if k > 0 {
      AlwaysTokensUsed(ss, steps, k - 1);
      assert ss[(k - 1) + 1] == Apply(ss[k - 1], steps[k - 1]);
    }
  }

  /** A claim that was lost, by takeover, completion, release or eviction, is lost for good. */
  lemma {:induction false} LostStaysLost(ss: seq<State>, steps: seq<Step>, i: nat, j: nat, id: DeliveryId, token: Token)
    requires IsRun(ss, steps) && i <= j < |ss|
    requires token != "" && token in ss[i].used && !Holds(ss[i].rows, id, token)
    ensures token in ss[j].used && !Holds(ss[j].rows, id, token)
  {
    if i < j {
      LostStaysLost(ss, steps, i, j - 1, id, token);
      assert Enabled(ss[j - 1], steps[j - 1]) && ss[(j - 1) + 1] == Apply(ss[j - 1], steps[j - 1]);
    }
  }

  /** So a superseded holder can neither complete nor release the delivery of its successor. */
  lemma SupersededHasNoEffect(ss: seq<State>, steps: seq<Step>, i: nat, j: nat, id: DeliveryId, token: Token, now: int)
    requires IsRun(ss, steps) && i <= j < |ss|
    requires token != "" && token in ss[i].used && !Holds(ss[i].rows, id, token)
    ensures Complete(ss[j].rows, id, token, now) == ss[j].rows && Release(ss[j].rows, id, token) == ss[j].rows
  {
    LostStaysLost(ss, steps, i, j, id, token);
  }

  predicate Wins(s: State, step: Step, id: DeliveryId) {
    step.ClaimStep? && step.id == id && Holding(Apply(s, step).rows, id, step.token)
  }

  predicate Completes(s: State, step: Step, id: DeliveryId) {
    step.CompleteStep? && step.id == id && Holds(s.rows, id, step.token)
  }

  /** The step ends the claim on `id` or removes its row. */
  predicate Ends(s: State, step: Step, id: DeliveryId) {
    || Completes(s, step, id)
    || (step.ReleaseStep? && step.id == id && Holds(s.rows, id, step.token))
    || (step.RecordStep? && step.id == id)
    || (step.EvictStep? && id in step.ids)
  }

  lemma {:induction false} ClaimPersists(ss: seq<State>, steps: seq<Step>, i: nat, j: nat, id: DeliveryId)
    requires IsRun(ss, steps) && i < j < |ss| && Wins(ss[i], steps[i], id)
    requires forall k :: i < k < j ==> !Ends(ss[k], steps[k], id)
    ensures id in ss[j].rows && !ss[j].rows[id].processed && ss[j].rows[id].claimedAt >= steps[i].now
  {
    var s, step := ss[j - 1], steps[j - 1];
    assert Enabled(s, step) && ss[(j - 1) + 1] == Apply(s, step);
    if i < j - 1 {
      ClaimPersists(ss, steps, i, j - 1, id);
    } else {
      AlwaysTokensUsed(ss, steps, i);
    }
  }

  /** Two claims on a delivery both succeed, with nothing ending the first, only more than ten
      minutes apart. */
  lemma ClaimsAreFarApart(ss: seq<State>, steps: seq<Step>, i: nat, j: nat, id: DeliveryId)
    requires IsRun(ss, steps) && i < j < |steps| && Wins(ss[i], steps[i], id) && Wins(ss[j], steps[j], id)
    requires forall k :: i < k < j ==> !Ends(ss[k], steps[k], id)
    ensures steps[j].now > steps[i].now + CLAIM_TIMEOUT
  {
    ClaimPersists(ss, steps, i, j, id);
    AlwaysTokensUsed(ss, steps, j);
  }

  lemma {:induction false} ProcessedPersists(ss: seq<State>, steps: seq<Step>, i: nat, j: nat, id: DeliveryId)
    requires IsRun(ss, steps) && i < j < |ss| && Completes(ss[i], steps[i], id)
    requires forall k :: i < k < j && steps[k].EvictStep? ==> id !in steps[k].ids
    ensures id in ss[j].rows && ss[j].rows[id].processed && ss[j].rows[id].token == ""
  {
    var s, step := ss[j - 1], steps[j - 1];
    assert Enabled(s, step) && ss[(j - 1) + 1] == Apply(s, step);
    if i < j - 1 {
      ProcessedPersists(ss, steps, i, j - 1, id);
    }
  }

  /** Once completed, a delivery is neither completed nor claimed again until it is evicted. */
  lemma CompletedOncePerEviction(ss: seq<State>, steps: seq<Step>, i: nat, j: nat, id: DeliveryId)
    requires IsRun(ss, steps) && i < j < |steps| && Completes(ss[i], steps[i], id)
    requires Completes(ss[j], steps[j], id) || Wins(ss[j], steps[j], id)
    ensures exists k :: i < k < j && steps[k].EvictStep? && id in steps[k].ids
  {
    assert Enabled(ss[j], steps[j]);
    if forall k :: i < k < j && steps[k].EvictStep? ==> id !in steps[k].ids {
      ProcessedPersists(ss, steps, i, j, id);
    }
  }
}
