/** The supervisor's lease heartbeat: when it renews, and how late it may be. */
module Heartbeats {
  import opened RunTypes

  const RENEW_EVERY: int := RUN_LEASE_TTL / 3

  datatype Answer = Renewed | StoreError

  /** One tick: the clock at its check, the delays until the store reads the clock for the
      renewal and from there until the timer is set again, how the store answers, and who takes
      the lease over before the tick. */
  datatype Beat = Beat(check: int, before: nat, after: nat, answer: Answer, takenBy: Option<InstanceId>)

  /** The lease row and the loop's variables; `errors` counts failed renewals since the last
      good one. */
  datatype Heart = Heart(owner: InstanceId, expiresAt: int, nextRenewAt: int, errors: nat, lost: bool)

  function RenewalAt(b: Beat): int {
    b.check + b.before
  }

  function Taken(h: Heart, b: Beat): Heart {
    if b.takenBy.Some? then h.(owner := b.takenBy.value, expiresAt := b.check + RUN_LEASE_TTL) else h
  }

  function Tick(h: Heart, me: InstanceId, b: Beat): Heart {
    var now := Taken(h, b);
    if h.lost || b.check < h.nextRenewAt then now
    else if b.answer == StoreError
    then now.(nextRenewAt := RenewalAt(b) + b.after + RENEW_EVERY, errors := now.errors + 1)
    else if now.owner != me then now.(lost := true)
    else
      now.(expiresAt := RenewalAt(b) + RUN_LEASE_TTL, nextRenewAt := RenewalAt(b) + b.after + RENEW_EVERY, errors := 0)
  }

  function After(h: Heart, me: InstanceId, beats: seq<Beat>): Heart {
    if beats == [] then h else Tick(After(h, me, beats[..|beats| - 1]), me, beats[|beats| - 1])
  }

  /** The row of the lease and the loop over it. */
  class Supervisor {
    const me: InstanceId
    var owner: InstanceId
    var expiresAt: int

    constructor (me: InstanceId, acquiredAt: int)
      ensures this.me == me && owner == me && expiresAt == acquiredAt + RUN_LEASE_TTL
    {
      this.me, owner, expiresAt := me, me, acquiredAt + RUN_LEASE_TTL;
    }

    method TakeOver(newOwner: InstanceId, now: int)
      modifies this
      ensures owner == newOwner && expiresAt == now + RUN_LEASE_TTL
    {
      owner, expiresAt := newOwner, now + RUN_LEASE_TTL;
    }

    method RenewRunLease(now: int) returns (ok: bool)
      modifies this
      ensures ok == (old(owner) == me) && owner == old(owner)
      ensures expiresAt == if ok then now + RUN_LEASE_TTL else old(expiresAt)
    {
      ok := owner == me;
      if ok {
        expiresAt := now + RUN_LEASE_TTL;
      }
    }

    /** The heartbeat of superviseRun, over the ticks until it stops or they end. */
    method SuperviseRun(start: int, beats: seq<Beat>) returns (lost: bool)
      modifies this
      ensures var h := After(Heart(old(owner), old(expiresAt), start + RENEW_EVERY, 0, false), me, beats);
              lost == h.lost && (!lost ==> owner == h.owner && expiresAt == h.expiresAt)
    {
      ghost var h0 := Heart(owner, expiresAt, start + RENEW_EVERY, 0, false);
      var nextRenewAt := start + RENEW_EVERY;
      ghost var errors: nat := 0;
      for i := 0 to |beats|
        invariant After(h0, me, beats[..i]) == Heart(owner, expiresAt, nextRenewAt, errors, false)
      {
        assert beats[..i + 1][..i] == beats[..i];
        assert beats[i..] == [beats[i]] + beats[i + 1..];
        var b := beats[i];
        if b.takenBy.Some? {
          TakeOver(b.takenBy.value, b.check);
        }
        if b.check >= nextRenewAt {
          if b.answer == StoreError {
            errors := errors + 1;
          } else {
            var ok := RenewRunLease(RenewalAt(b));
            if !ok {
              LostForGood(h0, me, beats, i + 1);
              return true;
            }
            errors := 0;
          }
          nextRenewAt := RenewalAt(b) + b.after + RENEW_EVERY;
        }
      }
      assert beats[..|beats|] == beats;
      lost := false;
    }
  }

  lemma {:induction false} LostForGood(h: Heart, me: InstanceId, beats: seq<Beat>, i: nat)
    requires i <= |beats| && After(h, me, beats[..i]).lost
    ensures After(h, me, beats).lost
  {
    if i < |beats| {
      assert beats[..|beats| - 1][..i] == beats[..i];
      LostForGood(h, me, beats[..|beats| - 1], i);
    } else {
      assert beats[..i] == beats;
    }
  }

  // ---------- the bound ----------

  /** Checks at most `gap` apart, from `start` on, each before the next; delays bounded too. */
  ghost predicate Regular(start: int, beats: seq<Beat>, gap: int, before: int, after: int) {
    forall i :: 0 <= i < |beats| ==>
      && Previous(start, beats, i) <= beats[i].check <= Previous(start, beats, i) + gap
      && beats[i].before <= before && beats[i].after <= after
  }

  function Previous(start: int, beats: seq<Beat>, i: int): int
    requires 0 <= i < |beats|
  {
    if i == 0 then start else beats[i - 1].check
  }

  ghost predicate Undisturbed(h: Heart, me: InstanceId, beats: seq<Beat>, f: nat) {
    && (forall i :: 0 <= i < |beats| ==> beats[i].takenBy.None?)
    && (forall i :: 0 <= i <= |beats| ==> After(h, me, beats[..i]).errors <= f)
  }

  /** The longest a renewal can come after the one before it, in nanoseconds. */
  function Period(gap: int, before: int, after: int): int {
    RENEW_EVERY + gap + before + after - 1
  }

  lemma NotNegative(k: int, p: int)
    requires k >= 0 && p >= 0
    ensures k * p >= 0
  {
  }

  lemma PrefixStaysUndisturbed(h: Heart, me: InstanceId, beats: seq<Beat>, f: nat, i: nat)
    requires Undisturbed(h, me, beats, f) && i <= |beats|
    ensures Undisturbed(h, me, beats[..i], f)
  {
    var rest := beats[..i];
    forall j | 0 <= j <= i
      ensures After(h, me, rest[..j]).errors <= f
    {
      assert rest[..j] == beats[..j];
    }
  }

  lemma PrefixStaysRegular(start: int, beats: seq<Beat>, gap: int, before: int, after: int, i: nat)
    requires Regular(start, beats, gap, before, after) && i <= |beats|
    ensures Regular(start, beats[..i], gap, before, after)
  {
    forall j | 0 <= j < i
      ensures Previous(start, beats[..i], j) == Previous(start, beats, j)
    {
    }
  }

  /** Lifetime left for all the failures still allowed. */
  predicate HasSlack(e: Heart, me: InstanceId, gap: int, before: int, after: int, f: nat) {
    && e.owner == me && !e.lost && e.errors <= f
    && e.expiresAt > e.nextRenewAt + gap + before - 1 + (f - e.errors) * Period(gap, before, after)
  }

  lemma TickKeepsSlack(e: Heart, me: InstanceId, b: Beat, previous: int, gap: int, before: int, after: int, f: nat)
    requires HasSlack(e, me, gap, before, after, f) && previous < e.nextRenewAt && gap >= 0
    requires b.check <= previous + gap && b.before <= before && b.after <= after && b.takenBy.None?
    requires Tick(e, me, b).errors <= f && (f + 1) * Period(gap, before, after) < RUN_LEASE_TTL
    ensures HasSlack(Tick(e, me, b), me, gap, before, after, f) && b.check < Tick(e, me, b).nextRenewAt
  {
    OneFewer(f - e.errors, Period(gap, before, after));
    OneFewer(f + 1, Period(gap, before, after));
  }

  lemma {:induction false} KeepsSlack(h: Heart, me: InstanceId, start: int, beats: seq<Beat>, gap: int,
                                      before: int, after: int, f: nat)
    requires Regular(start, beats, gap, before, after) && Undisturbed(h, me, beats, f) && gap >= 0
    requires h.errors == 0 && HasSlack(h, me, gap, before, after, f) && start < h.nextRenewAt
    requires (f + 1) * Period(gap, before, after) < RUN_LEASE_TTL
    ensures HasSlack(After(h, me, beats), me, gap, before, after, f)
    ensures (if beats == [] then start else beats[|beats| - 1].check) < After(h, me, beats).nextRenewAt
  {
    if beats != [] {
      var n := |beats| - 1;
      PrefixStaysUndisturbed(h, me, beats, f, n);
      PrefixStaysRegular(start, beats, gap, before, after, n);
      KeepsSlack(h, me, start, beats[..n], gap, before, after, f);
      assert beats[..n + 1] == beats;
      TickKeepsSlack(After(h, me, beats[..n]), me, beats[n], Previous(start, beats, n), gap, before, after, f);
    }
  }

  lemma OneFewer(k: int, p: int)
    ensures (k - 1) * p == k * p - p
  {
  }

  /** With ticks at most `gap` apart, no takeover, and at most f failed renewals in a row, the
      lease is never expired: it still runs when the next renewal is due and done. */
  lemma LeaseOutlivesTicks(h: Heart, me: InstanceId, start: int, beats: seq<Beat>, gap: int, before: int,
                           after: int, f: nat, i: nat)
    requires Regular(start, beats, gap, before, after) && Undisturbed(h, me, beats, f)
    requires gap >= 0 && before >= 0 && after >= 0
    requires h.errors == 0 && HasSlack(h, me, gap, before, after, f) && start < h.nextRenewAt
    requires (f + 1) * Period(gap, before, after) < RUN_LEASE_TTL
    requires i < |beats|
    ensures After(h, me, beats[..i]).expiresAt > RenewalAt(beats[i])
  {
    PrefixStaysUndisturbed(h, me, beats, f, i);
    PrefixStaysRegular(start, beats, gap, before, after, i);
    KeepsSlack(h, me, start, beats[..i], gap, before, after, f);
    var e := After(h, me, beats[..i]);
    NotNegative(f - e.errors, Period(gap, before, after));
    assert beats[i].check <= Previous(start, beats, i) + gap;
  }

  // ---------- the bound is exact ----------

  /** Ticks that find nothing to do, at most `gap` apart, the last one at `until`. */
  function Waiting(from: int, until: int, gap: int): (beats: seq<Beat>)
    requires gap >= 1 && from <= until
    ensures beats != [] && beats[|beats| - 1].check == until
    decreases until - from
  {
    if until - from <= gap then [Beat(until, 0, 0, Renewed, None)]
    else [Beat(from + gap, 0, 0, Renewed, None)] + Waiting(from + gap, until, gap)
  }

  lemma {:induction false} AfterSplits(h: Heart, me: InstanceId, a: seq<Beat>, b: seq<Beat>)
    ensures After(h, me, a + b) == After(After(h, me, a), me, b)
  {
    if b == [] {
      assert a + b == a;
    } else {
      AfterSplits(h, me, a, b[..|b| - 1]);
      assert (a + b)[..|a + b| - 1] == a + b[..|b| - 1];
    }
  }

  lemma AfterOne(h: Heart, me: InstanceId, b: Beat)
    ensures After(h, me, [b]) == Tick(h, me, b)
  {
    assert [b][..0] == [];
  }

  lemma RegularJoins(start: int, a: seq<Beat>, b: seq<Beat>, gap: int, before: int, after: int)
    requires a != [] && Regular(start, a, gap, before, after) && Regular(a[|a| - 1].check, b, gap, before, after)
    ensures Regular(start, a + b, gap, before, after)
  {
    forall i | 0 <= i < |a + b|
      ensures Previous(start, a + b, i)
              == if i < |a| then Previous(start, a, i) else Previous(a[|a| - 1].check, b, i - |a|)
    {
    }
  }

  lemma UndisturbedJoins(h: Heart, me: InstanceId, a: seq<Beat>, b: seq<Beat>, f: nat)
    requires Undisturbed(h, me, a, f) && Undisturbed(After(h, me, a), me, b, f)
    ensures Undisturbed(h, me, a + b, f)
  {
    forall i | 0 <= i <= |a + b|
      ensures After(h, me, (a + b)[..i]).errors <= f
    {
      if i <= |a| {
        assert (a + b)[..i] == a[..i];
      } else {
        assert (a + b)[..i] == a + b[..i - |a|];
        AfterSplits(h, me, a, b[..i - |a|]);
      }
    }
  }

  lemma {:induction false} WaitingChangesNothing(h: Heart, me: InstanceId, from: int, until: int, gap: int,
                                                 before: nat, after: nat, f: nat)
    requires gap >= 1 && from <= until < h.nextRenewAt && h.errors <= f
    ensures var w := Waiting(from, until, gap);
            After(h, me, w) == h && Undisturbed(h, me, w, f) && Regular(from, w, gap, before, after)
    decreases until - from
  {
    var w := Waiting(from, until, gap);
    AfterOne(h, me, w[0]);
    OneUndisturbed(h, me, w[0], f);
    if until - from > gap {
      var rest := Waiting(from + gap, until, gap);
      WaitingChangesNothing(h, me, from + gap, until, gap, before, after, f);
      AfterSplits(h, me, [w[0]], rest);
      UndisturbedJoins(h, me, [w[0]], rest, f);
      RegularJoins(from, [w[0]], rest, gap, before, after);
    }
  }

  lemma OneUndisturbed(h: Heart, me: InstanceId, b: Beat, f: nat)
    requires b.takenBy.None? && h.errors <= f && Tick(h, me, b).errors <= f
    ensures Undisturbed(h, me, [b], f)
  {
    AfterOne(h, me, b);
    assert [b][..0] == [] && [b][..1] == [b];
  }

  /** At the last tick of the beats the lease has expired. */
  ghost predicate ExpiresAtLast(h: Heart, me: InstanceId, beats: seq<Beat>) {
    beats != [] && After(h, me, beats[..|beats| - 1]).expiresAt <= RenewalAt(beats[|beats| - 1])
  }

  lemma ExpiryJoins(h: Heart, me: InstanceId, a: seq<Beat>, b: seq<Beat>)
    requires ExpiresAtLast(After(h, me, a), me, b)
    ensures ExpiresAtLast(h, me, a + b)
  {
    AfterSplits(h, me, a, b[..|b| - 1]);
    assert (a + b)[..|a + b| - 1] == a + b[..|b| - 1];
  }

  /** The latest tick that the gap allows after the timer was due. */
  function Latest(h: Heart, gap: int, before: nat, after: nat, answer: Answer): Beat {
    Beat(h.nextRenewAt - 1 + gap, before, after, answer, None)
  }

  /** One period: nothing to do until just before the timer is due, then the latest tick. */
  lemma OnePeriod(h: Heart, me: InstanceId, from: int, gap: int, before: nat, after: nat, answer: Answer, f: nat)
    returns (beats: seq<Beat>)
    requires h.owner == me && !h.lost && from < h.nextRenewAt && gap >= 1 && h.errors <= f
             && (answer == StoreError ==> h.errors < f)
    ensures var late := Latest(h, gap, before, after, answer);
            && |beats| > 1 && beats[|beats| - 1] == late
            && Regular(from, beats, gap, before, after) && Undisturbed(h, me, beats, f)
            && After(h, me, beats[..|beats| - 1]) == h && After(h, me, beats) == Tick(h, me, late)
  {
    var late := Latest(h, gap, before, after, answer);
    var w := Waiting(from, h.nextRenewAt - 1, gap);
    WaitingChangesNothing(h, me, from, h.nextRenewAt - 1, gap, before, after, f);
    beats := w + [late];
    AfterOne(h, me, late);
    OneUndisturbed(h, me, late, f);
    AfterSplits(h, me, w, [late]);
    UndisturbedJoins(h, me, w, [late], f);
    RegularJoins(from, w, [late], gap, before, after);
    assert beats[..|beats| - 1] == w;
  }

  /** `left` failed renewals and then a tick, each as late as can be, outlast the lease. */
  lemma {:induction false} LateTicksOutlast(h: Heart, me: InstanceId, from: int, gap: int, before: nat, after: nat,
                                            f: nat, left: nat)
    returns (beats: seq<Beat>)
    requires h.owner == me && !h.lost && from < h.nextRenewAt && gap >= 1 && h.errors + left == f
    requires h.expiresAt <= h.nextRenewAt + gap + before - 1 + left * Period(gap, before, after)
    ensures Regular(from, beats, gap, before, after) && Undisturbed(h, me, beats, f) && ExpiresAtLast(h, me, beats)
    decreases left
  {
    var late := Latest(h, gap, before, after, if left == 0 then Renewed else StoreError);
    beats := OnePeriod(h, me, from, gap, before, after, late.answer, f);
    if left > 0 {
      var h' := Tick(h, me, late);
      OneFewer(left, Period(gap, before, after));
      var rest := LateTicksOutlast(h', me, late.check, gap, before, after, f, left - 1);
      UndisturbedJoins(h, me, beats, rest, f);
      RegularJoins(from, beats, rest, gap, before, after);
      ExpiryJoins(h, me, beats, rest);
      beats := beats + rest;
    }
  }

  /** A supervisor whose tick at `start` has just renewed the lease. */
  function JustRenewed(me: InstanceId, start: int, before: nat, after: nat): Heart {
    Heart(me, start + before + RUN_LEASE_TTL, start + before + after + RENEW_EVERY, 0, false)
  }

  ghost predicate NeverExpires(h: Heart, me: InstanceId, start: int, gap: int, before: nat, after: nat, f: nat) {
    forall beats, i :: Regular(start, beats, gap, before, after) && Undisturbed(h, me, beats, f) && 0 <= i < |beats| ==>
                         After(h, me, beats[..i]).expiresAt > RenewalAt(beats[i])
  }

  /** The bound is exact, for every number f of failed renewals in a row: after a renewal no
      schedule within the gap and the delays lets the lease expire if and only if f + 1 periods
      are shorter than its lifetime. */
  lemma HeartbeatIsSafeIff(me: InstanceId, start: int, gap: int, before: nat, after: nat, f: nat)
    requires gap >= 1
    ensures NeverExpires(JustRenewed(me, start, before, after), me, start, gap, before, after, f) <==>
            (f + 1) * Period(gap, before, after) < RUN_LEASE_TTL
  {
    var h := JustRenewed(me, start, before, after);
    OneFewer(f + 1, Period(gap, before, after));
    if (f + 1) * Period(gap, before, after) < RUN_LEASE_TTL {
      forall beats, i | Regular(start, beats, gap, before, after) && Undisturbed(h, me, beats, f) && 0 <= i < |beats|
        ensures After(h, me, beats[..i]).expiresAt > RenewalAt(beats[i])
      {
        LeaseOutlivesTicks(h, me, start, beats, gap, before, after, f, i);
      }
    } else {
      var beats := LateTicksOutlast(h, me, start, gap, before, after, f, f);
      assert !(After(h, me, beats[..|beats| - 1]).expiresAt > RenewalAt(beats[|beats| - 1]));
    }
  }
}
