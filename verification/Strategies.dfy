/** How a credential is picked from the listed candidates. */
module Strategies {
  import opened RunTypes
  import opened CredentialTables

  datatype Candidate = Candidate(id: CredentialId, owner: UserId, scope: Scope, weight: int, activeLeases: int,
                                 usageTokens: int, usageRuns: int)

  /** How the result of an operation on floating-point numbers is rounded: any function. */
  type Rounding = real -> real

  datatype StrategyName =
    | RequesterOwnThenShared
    | SharedLeastActiveLeases
    | SharedWeightedUsage(round: Rounding)
    | PriorityBurst
    | HybridReservePlusPool

  datatype Pool = Everyone | SharedOnes | OwnOnes(user: UserId) | IdleOwnOnes(user: UserId)

  datatype Rule = ByLeases | ByLeasesSharedFirst | ByScore(round: Rounding) | ByIdAlone

  predicate InPool(p: Pool, c: Candidate) {
    match p
    case Everyone => true
    case SharedOnes => c.scope == Shared
    case OwnOnes(user) => c.scope == Personal && c.owner == user
    case IdleOwnOnes(user) => c.scope == Personal && c.owner == user && c.activeLeases == 0
  }

  /** Load and usage per weight, rounded after every operation. */
  function WeightedUsageScore(c: Candidate, round: Rounding): real {
    var weight := AtLeastOne(round(c.weight as real));
    var load := round(round(c.activeLeases as real) / weight);
    var tokens := round(round(round(c.usageTokens as real) / weight) / 1000000.0);
    var runs := round(round(c.usageRuns as real) / weight);
    round(load + round(tokens + runs))
  }

  function AtLeastOne(x: real): (r: real)
    ensures r >= 1.0
  {
    if x < 1.0 then 1.0 else x
  }

  predicate Less(r: Rule, a: Candidate, b: Candidate) {
    match r
    case ByLeases => a.activeLeases < b.activeLeases
    case ByLeasesSharedFirst =>
      a.activeLeases < b.activeLeases || (a.activeLeases == b.activeLeases && a.scope == Shared && b.scope != Shared)
    case ByScore(round) => WeightedUsageScore(a, round) < WeightedUsageScore(b, round)
    case ByIdAlone => false
  }

  /** String order, character by character. */
  predicate Before(a: string, b: string) {
    b != "" && (a == "" || a[0] < b[0] || (a[0] == b[0] && Before(a[1..], b[1..])))
  }

  lemma {:induction false} BeforeIsTotal(a: string, b: string)
    ensures Before(a, b) || Before(b, a) || a == b
    ensures !(Before(a, b) && Before(b, a))
  {
    if a != "" && b != "" {
      BeforeIsTotal(a[1..], b[1..]);
      assert a == [a[0]] + a[1..] && b == [b[0]] + b[1..];
    }
  }

  lemma {:induction false} BeforeIsTransitive(a: string, b: string, c: string)
    requires !Before(b, a) && !Before(c, b)
    ensures !Before(c, a)
  {
    if a != "" && b != "" && c != "" && a[0] == b[0] == c[0] {
      BeforeIsTransitive(a[1..], b[1..], c[1..]);
    }
  }

  /** In words: at the first difference the smaller character decides, and a proper prefix comes
      before what it begins. */
  lemma {:induction false} BeforeIff(a: string, b: string)
    ensures Before(a, b) <==> exists k: nat :: FirstDifference(a, b, k)
  {
    if a != "" && b != "" && a[0] == b[0] {
      BeforeIff(a[1..], b[1..]);
      if Before(a, b) {
        var k: nat :| FirstDifference(a[1..], b[1..], k);
        assert a == [a[0]] + a[1..] && b == [b[0]] + b[1..];
        assert a[..k + 1] == [a[0]] + a[1..][..k] && b[..k + 1] == [b[0]] + b[1..][..k];
        assert FirstDifference(a, b, k + 1);
      }
      if k: nat :| FirstDifference(a, b, k) {
        assert k > 0 && a[1..][..k - 1] == a[..k][1..] && b[1..][..k - 1] == b[..k][1..];
        assert FirstDifference(a[1..], b[1..], k - 1);
      }
    } else if Before(a, b) {
      assert FirstDifference(a, b, 0);
    }
  }

  predicate FirstDifference(a: string, b: string, k: nat) {
    k <= |a| && k < |b| && a[..k] == b[..k] && (k == |a| || a[k] < b[k])
  }

  /** The rule's key decides, then the id. */
  predicate Precedes(r: Rule, a: Candidate, b: Candidate) {
    Less(r, a, b) || (!Less(r, b, a) && Before(a.id, b.id))
  }

  ghost predicate Favourite(r: Rule, p: Pool, cs: seq<Candidate>, c: Candidate) {
    c in cs && InPool(p, c) && forall d :: d in cs && InPool(p, d) ==> !Precedes(r, d, c)
  }

  ghost predicate Picks(r: Rule, p: Pool, cs: seq<Candidate>, choice: Option<CredentialId>) {
    if choice.None? then forall c :: c in cs ==> !InPool(p, c)
    else exists c :: Favourite(r, p, cs, c) && c.id == choice.value
  }

  ghost predicate Drained(p: Pool, cs: seq<Candidate>) {
    forall c :: c in cs ==> !InPool(p, c)
  }

  /** What each strategy promises about its choice; no choice means no eligible candidate. */
  ghost predicate Chosen(name: StrategyName, user: UserId, cs: seq<Candidate>, choice: Option<CredentialId>) {
    match name
    case PriorityBurst => Picks(ByLeasesSharedFirst, Everyone, cs, choice)
    case SharedLeastActiveLeases => Picks(ByLeases, SharedOnes, cs, choice)
    case SharedWeightedUsage(round) => Picks(ByScore(round), SharedOnes, cs, choice)
    case RequesterOwnThenShared =>
      Picks(ByLeases, if Drained(OwnOnes(user), cs) then SharedOnes else OwnOnes(user),
                                         cs, choice)
    case HybridReservePlusPool =>
      if !Drained(IdleOwnOnes(user), cs) then Picks(ByIdAlone, IdleOwnOnes(user), cs, choice)
      else if !Drained(SharedOnes, cs) then Picks(ByLeases, SharedOnes, cs, choice)
      else Picks(ByIdAlone, OwnOnes(user), cs, choice)
  }

  lemma FavouritesShareId(r: Rule, p: Pool, cs: seq<Candidate>, a: Candidate, b: Candidate)
    requires Favourite(r, p, cs, a) && Favourite(r, p, cs, b)
    ensures a.id == b.id
  {
    BeforeIsTotal(a.id, b.id);
  }

  lemma PicksOne(r: Rule, p: Pool, cs: seq<Candidate>, cs': seq<Candidate>, x: Option<CredentialId>,
                 y: Option<CredentialId>)
    requires forall c :: c in cs <==> c in cs'
    requires Picks(r, p, cs, x) && Picks(r, p, cs', y)
    ensures x == y
  {
    if x.Some? {
      var a :| Favourite(r, p, cs, a) && a.id == x.value;
      assert a in cs' && y.Some?;
      var b :| Favourite(r, p, cs', b) && b.id == y.value;
      assert Favourite(r, p, cs, b);
      FavouritesShareId(r, p, cs, a, b);
    }
  }

  /** The choice depends only on which candidates there are, not on how they are listed. */
  lemma OrderDoesNotMatter(name: StrategyName, user: UserId, cs: seq<Candidate>, cs': seq<Candidate>,
                           x: Option<CredentialId>, y: Option<CredentialId>)
    requires multiset(cs) == multiset(cs')
    requires Chosen(name, user, cs, x) && Chosen(name, user, cs', y)
    ensures x == y
  {
    forall c
      ensures c in cs <==> c in cs'
    {
      assert c in multiset(cs) <==> c in multiset(cs');
    }
    forall p
      ensures Drained(p, cs) <==> Drained(p, cs')
    {
    }
    match name
    case PriorityBurst => PicksOne(ByLeasesSharedFirst, Everyone, cs, cs', x, y);
    case SharedLeastActiveLeases => PicksOne(ByLeases, SharedOnes, cs, cs', x, y);
    case SharedWeightedUsage(round) => PicksOne(ByScore(round), SharedOnes, cs, cs', x, y);
    case RequesterOwnThenShared =>
      PicksOne(ByLeases, if Drained(OwnOnes(user), cs) then SharedOnes else OwnOnes(user), cs, cs', x, y);
    case HybridReservePlusPool =>
      if !Drained(IdleOwnOnes(user), cs) {
        PicksOne(ByIdAlone, IdleOwnOnes(user), cs, cs', x, y);
      } else if !Drained(SharedOnes, cs) {
        PicksOne(ByLeases, SharedOnes, cs, cs', x, y);
      } else {
        PicksOne(ByIdAlone, OwnOnes(user), cs, cs', x, y);
      }
  }

  /** The choice is a listed candidate that the requester may use, when the list holds only
      such candidates; and the list is passed over only if the strategy has no pool for it. */
  lemma ChoiceIsListed(name: StrategyName, user: UserId, cs: seq<Candidate>, choice: Option<CredentialId>)
    requires Chosen(name, user, cs, choice)
    ensures choice.Some? ==> exists c :: c in cs && c.id == choice.value
    ensures choice.None? <==>
            || Drained(Everyone, cs)
            || (!name.PriorityBurst? && Drained(SharedOnes, cs)
                && (name.SharedLeastActiveLeases? || name.SharedWeightedUsage? || Drained(OwnOnes(user), cs)))
  {
    var u := user;
    assert forall c :: InPool(IdleOwnOnes(u), c) ==> InPool(OwnOnes(u), c);
    assert forall c :: InPool(Everyone, c);
  }

  /** Rounding never turns an order around. */
  ghost predicate Monotone(round: Rounding) {
    forall x: real, y: real :: x <= y ==> round(x) <= round(y)
  }

  /** No more weighed down: at least the weight, with no more leases, tokens and runs. */
  predicate NoHeavier(a: Candidate, b: Candidate) {
    && a.weight >= b.weight
    && 0 <= a.activeLeases <= b.activeLeases && 0 <= a.usageTokens <= b.usageTokens && 0 <= a.usageRuns <= b.usageRuns
  }

  lemma QuotientsFollow(x: real, y: real, v: real, w: real)
    requires 0.0 <= x <= y && 1.0 <= w <= v
    ensures 0.0 <= x / v <= y / w
  {
    assert (y / w - x / v) * (v * w) == y * v - x * w;
    assert y * v >= x * v >= x * w;
  }

  /** Whatever the rounding, as long as it is monotone and keeps zero: a candidate that carries no
      more is never passed over for one that carries more, except on equal scores. */
  lemma ScoreFollowsLoad(a: Candidate, b: Candidate, round: Rounding)
    requires Monotone(round) && round(0.0) == 0.0 && NoHeavier(a, b)
    ensures WeightedUsageScore(a, round) <= WeightedUsageScore(b, round)
  {
    var v, w := AtLeastOne(round(a.weight as real)), AtLeastOne(round(b.weight as real));
    QuotientsFollow(round(a.activeLeases as real), round(b.activeLeases as real), v, w);
    QuotientsFollow(round(a.usageTokens as real), round(b.usageTokens as real), v, w);
    QuotientsFollow(round(a.usageRuns as real), round(b.usageRuns as real), v, w);
  }

  /** Without rounding the score is what the credential carries, per weight: its leases, its runs
      and its tokens in millions. */
  lemma ExactScore(c: Candidate)
    requires c.weight >= 1
    ensures WeightedUsageScore(c, x => x) * (c.weight as real)
            == c.activeLeases as real + c.usageRuns as real + (c.usageTokens as real) / 1000000.0
  {
    var w := c.weight as real;
    Cancels(c.activeLeases as real, w);
    Cancels(c.usageRuns as real, w);
    Cancels(c.usageTokens as real, w);
    var l, r, t := (c.activeLeases as real) / w, (c.usageRuns as real) / w, (c.usageTokens as real) / w;
    assert WeightedUsageScore(c, x => x) == l + (t / 1000000.0 + r);
    assert (l + (t / 1000000.0 + r)) * w == l * w + (t * w) / 1000000.0 + r * w;
  }

  lemma Cancels(x: real, w: real)
    requires w >= 1.0
    ensures x / w * w == x
  {
  }

  /** What each strategy's choice is, in terms of the candidates alone. `c` is the one chosen and
      `d` any other that would have done. */
  lemma ChoiceIsBest(name: StrategyName, user: UserId, cs: seq<Candidate>, id: CredentialId) returns (c: Candidate)
    requires Chosen(name, user, cs, Some(id))
    ensures c in cs && c.id == id
    ensures name.SharedLeastActiveLeases? ==>
              c.scope == Shared && forall d :: d in cs && d.scope == Shared ==> NotBusier(c, d)
    ensures name.SharedWeightedUsage? ==>
              && c.scope == Shared
              && forall d :: d in cs && d.scope == Shared ==>
                   var x, y := WeightedUsageScore(c, name.round), WeightedUsageScore(d, name.round);
                   x < y || (x == y && !Before(d.id, c.id))
    ensures name.PriorityBurst? ==>
              forall d :: d in cs ==>
                            || c.activeLeases < d.activeLeases
                            || (c.activeLeases == d.activeLeases && c.scope == Shared && d.scope != Shared)
                            || (c.activeLeases == d.activeLeases && c.scope == d.scope && !Before(d.id, c.id))
    ensures name.RequesterOwnThenShared? ==>
              && (c.scope == Shared || IsOwn(c, user))
              && forall d :: d in cs ==>
                   && (IsOwn(d, user) ==> IsOwn(c, user) && NotBusier(c, d))
                   && (c.scope == Shared && d.scope == Shared ==> NotBusier(c, d))
    ensures name.HybridReservePlusPool? ==>
              && (c.scope == Shared || IsOwn(c, user))
              && forall d :: d in cs ==>
                   && (IsOwn(d, user) && d.activeLeases == 0 ==>
                         IsOwn(c, user) && c.activeLeases == 0 && !Before(d.id, c.id))
                   && (d.scope == Shared ==> (c.scope == Shared && NotBusier(c, d)) || c.activeLeases == 0)
                   && (c.scope != Shared && c.activeLeases != 0 && IsOwn(d, user) ==> !Before(d.id, c.id))
  {
    match name
    case SharedLeastActiveLeases =>
      c :| Favourite(ByLeases, SharedOnes, cs, c) && c.id == id;
    case SharedWeightedUsage(round) =>
      c :| Favourite(ByScore(round), SharedOnes, cs, c) && c.id == id;
    case PriorityBurst =>
      c :| Favourite(ByLeasesSharedFirst, Everyone, cs, c) && c.id == id;
      assert forall d :: d in cs ==> InPool(Everyone, d);
    case RequesterOwnThenShared =>
      c := OwnIsBest(user, cs, id);
    case HybridReservePlusPool =>
      c := HybridIsBest(user, cs, id);
  }

  predicate IsOwn(c: Candidate, user: UserId) {
    c.scope == Personal && c.owner == user
  }

  /** No more leases, and with as many no later id. */
  predicate NotBusier(c: Candidate, d: Candidate) {
    c.activeLeases < d.activeLeases || (c.activeLeases == d.activeLeases && !Before(d.id, c.id))
  }

  lemma OwnIsBest(user: UserId, cs: seq<Candidate>, id: CredentialId) returns (c: Candidate)
    requires Chosen(RequesterOwnThenShared, user, cs, Some(id))
    ensures c in cs && c.id == id && (c.scope == Shared || IsOwn(c, user))
    ensures forall d :: d in cs ==>
              && (IsOwn(d, user) ==> IsOwn(c, user) && NotBusier(c, d))
              && (c.scope == Shared && d.scope == Shared ==> NotBusier(c, d))
  {
    var pool := if Drained(OwnOnes(user), cs) then SharedOnes else OwnOnes(user);
    c :| Favourite(ByLeases, pool, cs, c) && c.id == id;
    assert forall d :: d in cs && IsOwn(d, user) ==> InPool(OwnOnes(user), d);
  }

  lemma HybridIsBest(user: UserId, cs: seq<Candidate>, id: CredentialId) returns (c: Candidate)
    requires Chosen(HybridReservePlusPool, user, cs, Some(id))
    ensures c in cs && c.id == id && (c.scope == Shared || IsOwn(c, user))
    ensures forall d :: d in cs ==>
              && (IsOwn(d, user) && d.activeLeases == 0 ==>
                    IsOwn(c, user) && c.activeLeases == 0 && !Before(d.id, c.id))
              && (d.scope == Shared ==> (c.scope == Shared && NotBusier(c, d)) || c.activeLeases == 0)
              && (c.scope != Shared && c.activeLeases != 0 && IsOwn(d, user) ==> !Before(d.id, c.id))
  {
    assert forall d :: d in cs && IsOwn(d, user) ==> InPool(OwnOnes(user), d);
    assert forall d :: d in cs && IsOwn(d, user) && d.activeLeases == 0 ==> InPool(IdleOwnOnes(user), d);
    if !Drained(IdleOwnOnes(user), cs) {
      c :| Favourite(ByIdAlone, IdleOwnOnes(user), cs, c) && c.id == id;
    } else if !Drained(SharedOnes, cs) {
      c :| Favourite(ByLeases, SharedOnes, cs, c) && c.id == id;
    } else {
      c :| Favourite(ByIdAlone, OwnOnes(user), cs, c) && c.id == id;
    }
  }

  // ---------- the loops ----------

  ghost predicate SortedById(cs: seq<Candidate>) {
    forall i, j :: 0 <= i < j < |cs| ==> !Before(cs[j].id, cs[i].id)
  }

  method CloneAndSort(values: seq<Candidate>) returns (out: seq<Candidate>)
    ensures SortedById(out) && multiset(out) == multiset(values)
  {
    out := [];
    for i := 0 to |values|
      invariant SortedById(out) && multiset(out) == multiset(values[..i])
    {
      var k := |out|;
      while k > 0 && Before(values[i].id, out[k - 1].id)
        invariant 0 <= k <= |out|
        invariant forall j :: k <= j < |out| ==> !Before(out[j].id, values[i].id)
      {
        BeforeIsTotal(values[i].id, out[k - 1].id);
        k := k - 1;
      }
      InsertedAt(out, k, values[i]);
      assert values[..i + 1] == values[..i] + [values[i]];
      out := out[..k] + [values[i]] + out[k..];
    }
    assert values[..|values|] == values;
  }

  lemma InsertedAt(out: seq<Candidate>, k: nat, c: Candidate)
    requires SortedById(out) && k <= |out|
    requires k > 0 ==> !Before(c.id, out[k - 1].id)
    requires forall j :: k <= j < |out| ==> !Before(out[j].id, c.id)
    ensures SortedById(out[..k] + [c] + out[k..])
    ensures multiset(out[..k] + [c] + out[k..]) == multiset(out) + multiset{c}
  {
    EarlierAreBefore(out, k, c);
    InsertedSorted(out[..k], c, out[k..]);
    assert out == out[..k] + out[k..];
  }

  lemma EarlierAreBefore(out: seq<Candidate>, k: nat, c: Candidate)
    requires SortedById(out) && k <= |out| && (k > 0 ==> !Before(c.id, out[k - 1].id))
    ensures forall i :: 0 <= i < k ==> !Before(c.id, out[i].id)
  {
    forall i | 0 <= i < k
      ensures !Before(c.id, out[i].id)
    {
      if i < k - 1 {
        BeforeIsTransitive(out[i].id, out[k - 1].id, c.id);
      }
    }
  }

  lemma InsertedSorted(a: seq<Candidate>, c: Candidate, b: seq<Candidate>)
    requires SortedById(a) && SortedById(b)
    requires forall i, j :: 0 <= i < |a| && 0 <= j < |b| ==> !Before(b[j].id, a[i].id)
    requires (forall i :: 0 <= i < |a| ==> !Before(c.id, a[i].id))
             && (forall j :: 0 <= j < |b| ==> !Before(b[j].id, c.id))
    ensures SortedById(a + [c] + b)
  {
  }

  method Filter<T>(values: seq<T>, pred: T -> bool) returns (out: seq<T>)
    ensures out == Filtered(values, pred)
  {
    out := [];
    for i := 0 to |values|
      invariant out == Filtered(values[..i], pred)
    {
      assert values[..i + 1][..i] == values[..i];
      if pred(values[i]) {
        out := out + [values[i]];
      }
    }
    assert values[..|values|] == values;
  }

  function Filtered<T>(values: seq<T>, pred: T -> bool): seq<T> {
    if values == [] then []
    else
      var n := |values| - 1;
      Filtered(values[..n], pred) + if pred(values[n]) then [values[n]] else []
  }

  method First<T(0)>(values: seq<T>, pred: T -> bool) returns (found: bool, value: T)
    ensures found <==> exists i :: 0 <= i < |values| && pred(values[i])
    ensures found ==> exists i :: 0 <= i < |values| && values[i] == value && pred(value) && forall j :: 0 <= j < i ==>
              !pred(values[j])
  {
    for i := 0 to |values|
      invariant forall j :: 0 <= j < i ==> !pred(values[j])
    {
      if pred(values[i]) {
        return true, values[i];
      }
    }
    found, value := false, *;
  }

  ghost predicate FirstMinimum<T(!new)>(values: seq<T>, less: (T, T) -> bool, k: int) {
    && 0 <= k < |values|
    && (forall j :: 0 <= j < k ==> !less(values[j], values[k]) && less(values[k], values[j]))
    && (forall j :: k <= j < |values| ==> !less(values[j], values[k]))
  }

  ghost predicate StrictWeakOrder<T(!new)>(less: (T, T) -> bool) {
    && (forall a, b :: less(a, b) ==> !less(b, a))
    && (forall a, b, c :: !less(b, a) && !less(c, b) ==> !less(c, a))
  }

  method MinBy<T(0,!new)>(values: seq<T>, less: (T, T) -> bool) returns (found: bool, best: T)
    requires StrictWeakOrder(less)
    ensures found == (values != [])
    ensures found ==> exists k :: FirstMinimum(values, less, k) && values[k] == best
  {
    if values == [] {
      found, best := false, *;
      return;
    }
    best := values[0];
    ghost var k := 0;
    for i := 1 to |values|
      invariant FirstMinimum(values[..i], less, k) && values[k] == best
    {
      if less(values[i], best) {
        best, k := values[i], i;
      }
    }
    found := true;
    assert values[..|values|] == values;
  }

  // ---------- the strategies ----------

  function PoolOf(p: Pool): Candidate -> bool {
    c => InPool(p, c)
  }

  function RuleOf(r: Rule): (Candidate, Candidate) -> bool {
    (a, b) => Less(r, a, b)
  }

  lemma {:induction false} FilteredKeeps(values: seq<Candidate>, p: Pool)
    requires SortedById(values)
    ensures SortedById(Filtered(values, PoolOf(p)))
    ensures forall c :: c in Filtered(values, PoolOf(p)) <==> c in values && InPool(p, c)
  {
    if values != [] {
      var n := |values| - 1;
      FilteredKeeps(values[..n], p);
      assert values == values[..n] + [values[n]];
      forall c | c in values[..n]
        ensures !Before(values[n].id, c.id)
      {
      }
    }
  }

  /** In id order, the first minimum by the rule's key is the favourite. */
  lemma FirstMinimumIsFavourite(r: Rule, p: Pool, cs: seq<Candidate>, pooled: seq<Candidate>, k: nat)
    requires SortedById(pooled) && FirstMinimum(pooled, RuleOf(r), k)
    requires forall c :: c in pooled <==> c in cs && InPool(p, c)
    ensures Favourite(r, p, cs, pooled[k])
  {
    var best := pooled[k];
    assert best in pooled;
    forall d | d in cs && InPool(p, d)
      ensures !Precedes(r, d, best)
    {
      assert d in pooled;
      var j :| 0 <= j < |pooled| && pooled[j] == d;
      assert !RuleOf(r)(pooled[j], pooled[k]);
      if j < k {
        assert RuleOf(r)(pooled[k], pooled[j]);
      } else {
        BeforeIsTotal(d.id, best.id);
      }
    }
  }

  lemma SameCandidates(cs: seq<Candidate>, sorted: seq<Candidate>)
    requires multiset(sorted) == multiset(cs)
    ensures forall c :: c in sorted <==> c in cs
  {
    forall c
      ensures c in sorted <==> c in cs
    {
      assert c in multiset(sorted) <==> c in multiset(cs);
    }
  }

  /** The least busy candidate of a pool, out of the candidates in id order. */
  method PickFrom(r: Rule, p: Pool, cs: seq<Candidate>, sorted: seq<Candidate>) returns (choice: Option<CredentialId>)
    requires SortedById(sorted) && multiset(sorted) == multiset(cs)
    ensures Picks(r, p, cs, choice)
  {
    SameCandidates(cs, sorted);
    FilteredKeeps(sorted, p);
    var pooled := Filter(sorted, PoolOf(p));
    var found, best := MinBy(pooled, RuleOf(r));
    if !found {
      return None;
    }
    ghost var k :| FirstMinimum(pooled, RuleOf(r), k) && pooled[k] == best;
    FirstMinimumIsFavourite(r, p, cs, pooled, k);
    choice := Some(best.id);
  }

  method SelectPriorityBurst(user: UserId, cs: seq<Candidate>) returns (choice: Option<CredentialId>)
    ensures Chosen(PriorityBurst, user, cs, choice)
  {
    var sorted := CloneAndSort(cs);
    SameCandidates(cs, sorted);
    var found, best := MinBy(sorted, RuleOf(ByLeasesSharedFirst));
    if !found {
      assert forall c :: c in cs ==> c in sorted;
      return None;
    }
    ghost var k :| FirstMinimum(sorted, RuleOf(ByLeasesSharedFirst), k) && sorted[k] == best;
    FirstMinimumIsFavourite(ByLeasesSharedFirst, Everyone, cs, sorted, k);
    choice := Some(best.id);
  }

  method SelectSharedLeastActiveLeases(user: UserId, cs: seq<Candidate>) returns (choice: Option<CredentialId>)
    ensures Chosen(SharedLeastActiveLeases, user, cs, choice)
  {
    var sorted := CloneAndSort(cs);
    choice := PickFrom(ByLeases, SharedOnes, cs, sorted);
  }

  method SelectSharedWeightedUsage(round: Rounding, user: UserId,
                                   cs: seq<Candidate>) returns (choice: Option<CredentialId>)
    ensures Chosen(SharedWeightedUsage(round), user, cs, choice)
  {
    var sorted := CloneAndSort(cs);
    choice := PickFrom(ByScore(round), SharedOnes, cs, sorted);
  }

  method SelectRequesterOwnThenShared(user: UserId, cs: seq<Candidate>) returns (choice: Option<CredentialId>)
    ensures Chosen(RequesterOwnThenShared, user, cs, choice)
  {
    var sorted := CloneAndSort(cs);
    choice := PickFrom(ByLeases, OwnOnes(user), cs, sorted);
    if choice.None? {
      choice := PickFrom(ByLeases, SharedOnes, cs, sorted);
    }
  }

  lemma FirstIdleIsFavourite(user: UserId, cs: seq<Candidate>, personal: seq<Candidate>, k: nat)
    requires SortedById(personal) && k < |personal| && personal[k].activeLeases == 0
    requires forall c :: c in personal <==> c in cs && InPool(OwnOnes(user), c)
    requires forall j :: 0 <= j < k ==> personal[j].activeLeases != 0
    ensures Favourite(ByIdAlone, IdleOwnOnes(user), cs, personal[k])
  {
    forall d | d in cs && InPool(IdleOwnOnes(user), d)
      ensures !Precedes(ByIdAlone, d, personal[k])
    {
      assert d in personal;
      var j :| 0 <= j < |personal| && personal[j] == d;
      BeforeIsTotal(d.id, personal[k].id);
    }
  }

  lemma LowestIdIsFavourite(user: UserId, cs: seq<Candidate>, personal: seq<Candidate>)
    requires SortedById(personal) && personal != []
    requires forall c :: c in personal <==> c in cs && InPool(OwnOnes(user), c)
    ensures Favourite(ByIdAlone, OwnOnes(user), cs, personal[0])
  {
    assert personal[0] in personal;
    forall d | d in cs && InPool(OwnOnes(user), d)
      ensures !Precedes(ByIdAlone, d, personal[0])
    {
      assert d in personal;
      var j :| 0 <= j < |personal| && personal[j] == d;
      BeforeIsTotal(d.id, personal[0].id);
    }
  }

  method SelectHybridReservePlusPool(user: UserId, cs: seq<Candidate>) returns (choice: Option<CredentialId>)
    ensures Chosen(HybridReservePlusPool, user, cs, choice)
  {
    var sorted := CloneAndSort(cs);
    SameCandidates(cs, sorted);
    FilteredKeeps(sorted, OwnOnes(user));
    var personal := Filter(sorted, PoolOf(OwnOnes(user)));
    var found, available := First(personal, (c: Candidate) => c.activeLeases == 0);
    if found {
      ghost var k :| 0 <= k < |personal| && personal[k] == available && available.activeLeases == 0
                     && forall j :: 0 <= j < k ==> personal[j].activeLeases != 0;
      FirstIdleIsFavourite(user, cs, personal, k);
      return Some(available.id);
    }
    assert Drained(IdleOwnOnes(user), cs) by {
      NoIdleMeansDrained(user, cs, personal);
    }
    choice := PickFrom(ByLeases, SharedOnes, cs, sorted);
    if choice.None? {
      if personal == [] {
        assert Drained(OwnOnes(user), cs) by {
          assert forall c :: c in cs && InPool(OwnOnes(user), c) ==> c in personal;
        }
      } else {
        LowestIdIsFavourite(user, cs, personal);
        choice := Some(personal[0].id);
      }
    }
  }

  lemma NoIdleMeansDrained(user: UserId, cs: seq<Candidate>, personal: seq<Candidate>)
    requires forall c :: c in personal <==> c in cs && InPool(OwnOnes(user), c)
    requires forall i :: 0 <= i < |personal| ==> personal[i].activeLeases != 0
    ensures Drained(IdleOwnOnes(user), cs)
  {
    forall c | c in cs
      ensures !InPool(IdleOwnOnes(user), c)
    {
      if InPool(OwnOnes(user), c) {
        assert c in personal;
      }
    }
  }

  method Select(name: StrategyName, user: UserId, cs: seq<Candidate>) returns (choice: Option<CredentialId>)
    ensures Chosen(name, user, cs, choice)
  {
    match name
    case RequesterOwnThenShared => choice := SelectRequesterOwnThenShared(user, cs);
    case SharedLeastActiveLeases => choice := SelectSharedLeastActiveLeases(user, cs);
    case SharedWeightedUsage(round) => choice := SelectSharedWeightedUsage(round, user, cs);
    case PriorityBurst => choice := SelectPriorityBurst(user, cs);
    case HybridReservePlusPool => choice := SelectHybridReservePlusPool(user, cs);
  }
}
