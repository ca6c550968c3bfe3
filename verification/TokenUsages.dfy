/** Token usage: optional counters, the folds over logs, and the two ways to get one run's share. */
module TokenUsages {
  import opened RunTypes

  datatype TokenUsage = TokenUsage(provider: string, model: string, total: int, input: Option<int>, output: Option<int>,
                                   cached: Option<int>, reasoning: Option<int>, raw: string)

  /** The counters alone, absent ones read as zero. */
  datatype Counts = Counts(total: int, input: int, output: int, cached: int, reasoning: int)

  const NO_USAGE := TokenUsage("", "", 0, None, None, None, None, "")
  const NO_COUNTS := Counts(0, 0, 0, 0, 0)

  function OrZero(v: Option<int>): int {
    if v.Some? then v.value else 0
  }

  function CountsOf(u: TokenUsage): Counts {
    Counts(u.total, OrZero(u.input), OrZero(u.output), OrZero(u.cached), OrZero(u.reasoning))
  }

  function Plus(a: Counts, b: Counts): Counts {
    Counts(a.total + b.total, a.input + b.input, a.output + b.output, a.cached + b.cached, a.reasoning + b.reasoning)
  }

  predicate NonNegative(c: Counts) {
    c.total >= 0 && c.input >= 0 && c.output >= 0 && c.cached >= 0 && c.reasoning >= 0
  }

  function FirstNonEmpty(a: string, b: string): string {
    if a != "" then a else b
  }

  function AddOptional(a: Option<int>, b: Option<int>): Option<int> {
    if a.None? && b.None? then None else Some(OrZero(a) + OrZero(b))
  }

  function Add(left: TokenUsage, right: TokenUsage): TokenUsage {
    TokenUsage(FirstNonEmpty(right.provider, left.provider), FirstNonEmpty(right.model, left.model),
               left.total + right.total,
               AddOptional(left.input, right.input), AddOptional(left.output, right.output),
               AddOptional(left.cached, right.cached), AddOptional(left.reasoning, right.reasoning), right.raw)
  }

  function SubtractOptional(total: Option<int>, baseline: Option<int>): Option<int> {
    if total.None? then None
    else if baseline.None? then total
    else if total.value < baseline.value then None
    else Some(total.value - baseline.value)
  }

  predicate HasNothing(u: TokenUsage) {
    u.total == 0 && u.input.None? && u.output.None? && u.cached.None? && u.reasoning.None?
  }

  function Subtract(total: TokenUsage, baseline: TokenUsage): Option<TokenUsage> {
    if total.total < baseline.total then None
    else
      var u := TokenUsage(FirstNonEmpty(total.provider, baseline.provider), FirstNonEmpty(total.model, baseline.model),
                          total.total - baseline.total,
                          SubtractOptional(total.input, baseline.input),
                              SubtractOptional(total.output, baseline.output),
                          SubtractOptional(total.cached, baseline.cached),
                              SubtractOptional(total.reasoning, baseline.reasoning),
                          total.raw);
      if HasNothing(u) then None else Some(u)
  }

  function CountsOrNone(u: Option<TokenUsage>): Counts {
    if u.Some? then CountsOf(u.value) else NO_COUNTS
  }

  /** Whenever one usage is another plus a non-negative difference, subtracting gives exactly
      the difference. */
  lemma SubtractRecoversDifference(total: TokenUsage, baseline: TokenUsage, difference: Counts)
    requires CountsOf(total) == Plus(CountsOf(baseline), difference)
    requires NonNegative(difference) && NonNegative(CountsOf(baseline))
    ensures CountsOrNone(Subtract(total, baseline)) == difference
  {
  }

  /** Adding and subtracting again gives back the counters; the names and the raw text are those
      of the sum. Only here the baseline may be negative. */
  lemma SubtractUndoesAdd(baseline: TokenUsage, u: TokenUsage)
    requires NonNegative(CountsOf(u))
    ensures CountsOrNone(Subtract(Add(baseline, u), baseline)) == CountsOf(u)
    ensures Subtract(Add(baseline, u), baseline).None? <==>
            && u.total == 0
            && AddOptional(baseline.input, u.input).None? && AddOptional(baseline.output, u.output).None?
            && AddOptional(baseline.cached, u.cached).None? && AddOptional(baseline.reasoning, u.reasoning).None?
  {
  }

  lemma AddIsMonoid(a: TokenUsage, b: TokenUsage, c: TokenUsage)
    ensures Add(Add(a, b), c) == Add(a, Add(b, c)) && Add(NO_USAGE, a) == a
  {
  }

  // ---------- session logs ----------

  /** A log line, as read: not a token event, undecodable, too long for the scanner, or a token
      event. */
  datatype Line = Other | Broken | TooLong | Event(cumulative: Option<TokenUsage>, last: Option<TokenUsage>)

  datatype Extracted = Found(usage: TokenUsage) | Nothing | Bad

  function CumulativeOf(log: seq<Line>): Extracted {
    if log == [] then Nothing
    else
      var before, line := CumulativeOf(log[..|log| - 1]), log[|log| - 1];
      if line.Event? && line.cumulative.Some? then Found(line.cumulative.value)
      else if line.Broken? && before == Nothing then Bad else before
  }

  function DeltaOf(log: seq<Line>): Extracted {
    if log == [] then Nothing
    else
      var before, line := DeltaOf(log[..|log| - 1]), log[|log| - 1];
      if line.Event? && line.last.Some?
      then Found(if before.Found? then Add(before.usage, line.last.value) else line.last.value)
      else if line.Broken? && before == Nothing then Bad else before
  }

  predicate Unscannable(log: seq<Line>) {
    exists i :: 0 <= i < |log| && log[i].TooLong?
  }

  /** What is read of a log: one line that is too long spoils all of it. */
  function TotalIn(log: seq<Line>): Extracted {
    if Unscannable(log) then Bad else CumulativeOf(log)
  }

  function DeltaIn(log: seq<Line>): Extracted {
    if Unscannable(log) then Bad else DeltaOf(log)
  }

  method ExtractCodexSessionUsage(log: seq<Line>) returns (r: Extracted)
    ensures r == TotalIn(log)
  {
    var best, found, firstErr := NO_USAGE, false, false;
    for i := 0 to |log|
      invariant !Unscannable(log[..i])
      invariant CumulativeOf(log[..i]) == if found then Found(best) else if firstErr then Bad else Nothing
    {
      assert log[..i + 1][..i] == log[..i];
      match log[i]
      case Other =>
      case Broken => firstErr := true;
      case TooLong => return Bad;
      case Event(cumulative, _) =>
        if cumulative.Some? {
          best, found := cumulative.value, true;
        }
    }
    assert log[..|log|] == log;
    r := if found then Found(best) else if firstErr then Bad else Nothing;
  }

  method ExtractCodexSessionUsageDelta(log: seq<Line>) returns (r: Extracted)
    ensures r == DeltaIn(log)
  {
    var total, found, firstErr := NO_USAGE, false, false;
    for i := 0 to |log|
      invariant !Unscannable(log[..i])
      invariant DeltaOf(log[..i]) == if found then Found(total) else if firstErr then Bad else Nothing
      invariant !found ==> total == NO_USAGE
    {
      assert log[..i + 1][..i] == log[..i];
      match log[i]
      case Other =>
      case Broken => firstErr := true;
      case TooLong => return Bad;
      case Event(_, last) =>
        if last.Some? {
          AddIsMonoid(last.value, last.value, last.value);
          total, found := Add(total, last.value), true;
        }
    }
    assert log[..|log|] == log;
    r := if found then Found(total) else if firstErr then Bad else Nothing;
  }

  function Join(a: Extracted, b: Extracted): Extracted {
    if a.Found? && b.Found? then Found(Add(a.usage, b.usage))
    else if a.Found? || b == Nothing then a
    else if b.Found? || a == Nothing then b
    else Bad
  }

  /** Reading a log in two parts and joining is reading it at once. */
  lemma {:induction false} DeltaOfParts(a: seq<Line>, b: seq<Line>)
    ensures DeltaOf(a + b) == Join(DeltaOf(a), DeltaOf(b))
  {
    if b == [] {
      assert a + b == a;
    } else {
      var rest, line := b[..|b| - 1], b[|b| - 1];
      DeltaOfParts(a, rest);
      assert (a + b)[..|a + b| - 1] == a + rest;
      if DeltaOf(a).Found? && DeltaOf(rest).Found? && line.Event? && line.last.Some? {
        AddIsMonoid(DeltaOf(a).usage, DeltaOf(rest).usage, line.last.value);
      }
    }
  }

  lemma {:induction false} CumulativeOfParts(a: seq<Line>, b: seq<Line>)
    ensures CumulativeOf(a + b)
            == if CumulativeOf(b).Found? || CumulativeOf(a) == Nothing then CumulativeOf(b) else CumulativeOf(a)
  {
    if b == [] {
      assert a + b == a;
    } else {
      CumulativeOfParts(a, b[..|b| - 1]);
      assert (a + b)[..|a + b| - 1] == a + b[..|b| - 1];
    }
  }

  lemma ScannableParts(a: seq<Line>, b: seq<Line>)
    ensures Unscannable(a + b) <==> Unscannable(a) || Unscannable(b)
  {
    if i :| 0 <= i < |a| && a[i].TooLong? {
      assert (a + b)[i].TooLong?;
    } else if i :| 0 <= i < |b| && b[i].TooLong? {
      assert (a + b)[|a| + i].TooLong?;
    }
  }

  // ---------- one run's share of a session ----------

  /** What is noted before the run: the session's file, its length and its usage so far. */
  datatype Baseline = Baseline(sessionPath: string, offset: nat, usage: Option<TokenUsage>)

  /** What fails when the baseline is noted: finding the file, or reading it. */
  datatype Fault = NoFault | NotFound | NotRead

  function UsageIn(e: Extracted): Option<TokenUsage> {
    if e.Found? then Some(e.usage) else None
  }

  function Captured(sessionPath: string, log: seq<Line>, fault: Fault): Baseline {
    if sessionPath == "" || fault == NotFound then Baseline("", 0, None)
    else Baseline(sessionPath, |log|, if fault == NotRead then None else UsageIn(TotalIn(log)))
  }

  method CaptureCodexUsageBaseline(sessionPath: string, log: seq<Line>, fault: Fault) returns (b: Baseline)
    ensures b == Captured(sessionPath, log, fault)
  {
    if sessionPath == "" || fault == NotFound {
      return Baseline("", 0, None);
    }
    b := Baseline(sessionPath, |log|, None);
    if fault == NotRead {
      return;
    }
    var usage := ExtractCodexSessionUsage(log);
    if usage.Found? {
      b := b.(usage := Some(usage.usage));
    }
  }

  function Named(u: TokenUsage, source: Extracted): TokenUsage {
    if source.Found?
    then u.(provider := FirstNonEmpty(u.provider, source.usage.provider),
            model := FirstNonEmpty(u.model, source.usage.model))
    else u
  }

  function Share(final: TokenUsage, baseline: Option<TokenUsage>): Extracted {
    if baseline.None? then Found(final)
    else if Subtract(final, baseline.value).Some? then Found(Subtract(final, baseline.value).value)
    else Nothing
  }

  /** Where the run's part of the log starts; none if the baseline is from another file. */
  function StartOfRun(sessionPath: string, log: seq<Line>, baseline: Baseline): (start: Option<nat>)
    ensures start.Some? ==> start.value <= |log|
  {
    if baseline.offset == 0 then Some(0)
    else if sessionPath == baseline.sessionPath then Some(if baseline.offset > |log| then |log| else baseline.offset)
    else None
  }

  /** The run's usage from the session's file after the run: what was added since the baseline,
      if that can be read, and otherwise the difference of the totals. */
  function Loaded(sessionPath: string, log: seq<Line>, baseline: Baseline): Extracted {
    var final := TotalIn(log);
    var start := StartOfRun(sessionPath, log, baseline);
    var delta := if start.Some? then DeltaIn(log[start.value..]) else Nothing;
    if sessionPath == "" then Nothing
    else if delta.Found? then Found(Named(delta.usage, final))
    else if final.Found? then Share(final.usage, baseline.usage)
    else if delta == Bad then Bad else final
  }

  method LoadCodexRunTokenUsage(sessionPath: string, log: seq<Line>, baseline: Baseline) returns (r: Extracted)
    ensures r == Loaded(sessionPath, log, baseline)
  {
    if sessionPath == "" {
      return Nothing;
    }
    var final := ExtractCodexSessionUsage(log);
    var failed := final == Bad;
    var offset := baseline.offset;
    if sessionPath == baseline.sessionPath && offset > |log| {
      offset := |log|;
    }
    if offset > 0 && sessionPath == baseline.sessionPath {
      var delta := ExtractCodexSessionUsageDelta(log[offset..]);
      if delta.Found? {
        return Found(Named(delta.usage, final));
      }
      failed := failed || delta == Bad;
    } else if offset == 0 {
      var delta := ExtractCodexSessionUsageDelta(log[0..]);
      if delta.Found? {
        return Found(Named(delta.usage, final));
      }
      failed := failed || delta == Bad;
    }
    if final.Found? {
      return Share(final.usage, baseline.usage);
    }
    r := if failed then Bad else Nothing;
  }

  // ---------- sums of a log ----------

  lemma LaggingPair(first: Line, second: Line, one: TokenUsage)
    requires first == Event(None, Some(one)) && second == Event(Some(one), None) && NonNegative(CountsOf(one))
    ensures Consistent([first] + [second])
  {
    var none: seq<Line> := [];
    assert none + [first] == [first];
    ConsistentExtends(none, first);
    UsageAlone(first, one);
    SumExtends([first], second);
    ConsistentExtends([first], second);
  }

  lemma UsageAlone(line: Line, u: TokenUsage)
    requires line == Event(None, Some(u))
    ensures Lag([line]) == CountsOf(u) && Sum([line]) == CountsOf(u)
  {
    assert [line][..0] == [];
    assert Lag([line]) == Plus(Lag([]), CountsOf(u)) && Sum([line]) == Plus(Sum([]), CountsOf(u));
  }

  lemma TotalAlone(line: Line, u: TokenUsage)
    requires line == Event(Some(u), None)
    ensures CumulativeOf([line]) == Found(u) && DeltaOf([line]) == Nothing
  {
    assert [line][..0] == [];
    assert DeltaOf([]) == Nothing;
  }

  lemma ConsistentExtends(log: seq<Line>, line: Line)
    requires Consistent(log) && (Adds(line) ==> NonNegative(CountsOf(line.last.value)))
    requires line.Event? && line.cumulative.Some? ==> CountsOf(line.cumulative.value) == Sum(log + [line])
    ensures Consistent(log + [line])
  {
    var all := log + [line];
    SumExtends(log, line);
    forall k | 0 <= k < |all| && all[k].Event? && all[k].cumulative.Some?
      ensures CountsOf(all[k].cumulative.value) == Sum(all[..k + 1])
    {
      if k < |log| {
        assert all[..k + 1] == log[..k + 1];
      } else {
        assert all[..k + 1] == all;
      }
    }
  }

  function CountsOrZero(e: Extracted): Counts {
    if e.Found? then CountsOf(e.usage) else NO_COUNTS
  }

  predicate Adds(line: Line) {
    line.Event? && line.last.Some?
  }

  function Sum(log: seq<Line>): Counts {
    if log == [] then NO_COUNTS
    else
      var before, line := Sum(log[..|log| - 1]), log[|log| - 1];
      if Adds(line) then Plus(before, CountsOf(line.last.value)) else before
  }

  /** Every cumulative usage is the running sum of the single ones, and no counter is negative.
      An event may carry either usage without the other. */
  ghost predicate Consistent(log: seq<Line>) {
    forall k :: 0 <= k < |log| && log[k].Event? ==>
                  && (log[k].last.Some? ==> NonNegative(CountsOf(log[k].last.value)))
                  && (log[k].cumulative.Some? ==> CountsOf(log[k].cumulative.value) == Sum(log[..k + 1]))
  }

  /** What was used since the last total. */
  function Lag(log: seq<Line>): Counts {
    if log == [] then NO_COUNTS
    else
      var before, line := Lag(log[..|log| - 1]), log[|log| - 1];
      if line.Event? && line.cumulative.Some? then NO_COUNTS
      else if Adds(line) then Plus(before, CountsOf(line.last.value)) else before
  }

  /** If no usage comes without a total, no total ever lags. */
  lemma {:induction false} TotalsUpToDate(log: seq<Line>)
    requires forall k :: 0 <= k < |log| && log[k].Event? && log[k].last.Some? ==> log[k].cumulative.Some?
    ensures Lag(log) == NO_COUNTS
  {
    if log != [] {
      TotalsUpToDate(log[..|log| - 1]);
    }
  }

  lemma {:induction false} NothingAddsNoLag(log: seq<Line>)
    requires !DeltaOf(log).Found?
    ensures Sum(log) == NO_COUNTS && Lag(log) == NO_COUNTS
  {
    if log != [] {
      NothingAddsNoLag(log[..|log| - 1]);
    }
  }

  lemma {:induction false} LagOfParts(a: seq<Line>, b: seq<Line>)
    ensures Lag(a + b) == if CumulativeOf(b).Found? then Lag(b) else Plus(Lag(a), Sum(b))
  {
    if b == [] {
      assert a + b == a;
    } else {
      var rest, line := b[..|b| - 1], b[|b| - 1];
      LagOfParts(a, rest);
      assert b == rest + [line];
      LagOfMoreParts(a, rest, line);
    }
  }

  lemma LagOfMoreParts(a: seq<Line>, b: seq<Line>, line: Line)
    requires Lag(a + b) == if CumulativeOf(b).Found? then Lag(b) else Plus(Lag(a), Sum(b))
    ensures var more := b + [line];
            Lag(a + more) == if CumulativeOf(more).Found? then Lag(more) else Plus(Lag(a), Sum(more))
  {
    assert a + (b + [line]) == (a + b) + [line];
    LagExtends(a + b, line);
    LagExtends(b, line);
    SumExtends(b, line);
    assert (b + [line])[..|b|] == b;
    if Adds(line) {
      PlusIsMonoid(Lag(a), Sum(b), CountsOf(line.last.value));
    }
  }

  lemma LagExtends(log: seq<Line>, line: Line)
    ensures Lag(log + [line]) == if line.Event? && line.cumulative.Some? then NO_COUNTS
                                 else if Adds(line) then Plus(Lag(log), CountsOf(line.last.value))
                                 else Lag(log)
  {
    assert (log + [line])[..|log|] == log;
  }

  lemma {:induction false} DeltaCounts(log: seq<Line>)
    ensures CountsOrZero(DeltaOf(log)) == Sum(log)
  {
    if log != [] {
      DeltaCounts(log[..|log| - 1]);
    }
  }

  lemma {:induction false} SumOfParts(a: seq<Line>, b: seq<Line>)
    ensures Sum(a + b) == Plus(Sum(a), Sum(b))
  {
    if b == [] {
      assert a + b == a && Sum(b) == NO_COUNTS;
      PlusIsMonoid(Sum(a), NO_COUNTS, NO_COUNTS);
    } else {
      var rest, line := b[..|b| - 1], b[|b| - 1];
      SumOfParts(a, rest);
      assert b == rest + [line];
      SumOfMoreParts(a, rest, line);
    }
  }

  lemma SumOfMoreParts(a: seq<Line>, b: seq<Line>, line: Line)
    requires Sum(a + b) == Plus(Sum(a), Sum(b))
    ensures Sum(a + (b + [line])) == Plus(Sum(a), Sum(b + [line]))
  {
    assert a + (b + [line]) == (a + b) + [line];
    SumExtends(a + b, line);
    SumExtends(b, line);
    if Adds(line) {
      PlusIsMonoid(Sum(a), Sum(b), CountsOf(line.last.value));
    }
  }

  lemma PlusIsMonoid(a: Counts, b: Counts, c: Counts)
    ensures Plus(Plus(a, b), c) == Plus(a, Plus(b, c)) && Plus(a, NO_COUNTS) == a
  {
  }

  lemma SumExtends(log: seq<Line>, line: Line)
    ensures Sum(log + [line]) == if Adds(line) then Plus(Sum(log), CountsOf(line.last.value)) else Sum(log)
  {
    assert (log + [line])[..|log|] == log;
  }

  lemma PrefixStaysConsistent(log: seq<Line>, n: nat)
    requires Consistent(log) && n <= |log|
    ensures Consistent(log[..n])
  {
    forall k | 0 <= k < n && log[..n][k].Event? && log[..n][k].cumulative.Some?
      ensures CountsOf(log[..n][k].cumulative.value) == Sum(log[..n][..k + 1])
    {
      assert log[..n][..k + 1] == log[..k + 1];
    }
  }

  predicate Accounts(settled: Counts, lag: Counts, sum: Counts) {
    Plus(settled, lag) == sum && NonNegative(settled) && NonNegative(lag) && NonNegative(sum)
  }

  lemma AccountsGrow(settled: Counts, lag: Counts, sum: Counts, more: Counts)
    requires Accounts(settled, lag, sum) && NonNegative(more)
    ensures Accounts(settled, Plus(lag, more), Plus(sum, more)) && Accounts(Plus(sum, more), NO_COUNTS, Plus(sum, more))
    ensures Accounts(sum, NO_COUNTS, sum)
  {
  }

  lemma AccountsExtend(log: seq<Line>, n: nat)
    requires Consistent(log) && |log| == n + 1
    requires Accounts(CountsOrZero(CumulativeOf(log[..n])), Lag(log[..n]), Sum(log[..n]))
    ensures Accounts(CountsOrZero(CumulativeOf(log)), Lag(log), Sum(log))
  {
    var settled, lag, sum := CountsOrZero(CumulativeOf(log[..n])), Lag(log[..n]), Sum(log[..n]);
    if Adds(log[n]) {
      AccountsGrow(settled, lag, sum, CountsOf(log[n].last.value));
    } else {
      AccountsGrow(settled, lag, sum, NO_COUNTS);
    }
    if log[n].Event? && log[n].cumulative.Some? {
      assert log[..n + 1] == log;
    }
  }

  /** The last total and what was used since make up the sum. */
  lemma {:induction false} CumulativeCounts(log: seq<Line>)
    requires Consistent(log)
    ensures Accounts(CountsOrZero(CumulativeOf(log)), Lag(log), Sum(log))
  {
    if log == [] {
      assert CumulativeOf(log) == Nothing && Lag(log) == NO_COUNTS && Sum(log) == NO_COUNTS;
    } else {
      PrefixStaysConsistent(log, |log| - 1);
      CumulativeCounts(log[..|log| - 1]);
      AccountsExtend(log, |log| - 1);
    }
  }

  /** The difference of the totals is what was added, late by how much each total lags; so the
      two ways agree if and only if the log lags at its end as it did at the baseline. */
  lemma DifferenceCounts(a: seq<Line>, b: seq<Line>)
    requires Consistent(a + b)
    ensures CountsOrZero(DeltaOf(b)) == Sum(b)
    ensures CumulativeOf(a + b).Found? ==>
              var difference := CountsOrZero(Share(CumulativeOf(a + b).usage, UsageIn(CumulativeOf(a))));
              && Plus(difference, Lag(a + b)) == Plus(Sum(b), Lag(a))
              && (difference == CountsOrZero(DeltaOf(b)) <==> Lag(a + b) == Lag(a))
  {
    TotalsDiffer(a, b);
    DeltaCounts(b);
    if CumulativeOf(a + b).Found? {
      PlusCancels(Between(a, b), Lag(a + b), Sum(b), Lag(a));
      BetweenIsDifference(a, b);
      ShareIsDifference(CumulativeOf(a + b).usage, CumulativeOf(a), Between(a, b));
    }
  }

  lemma PlusCancels(a: Counts, b: Counts, c: Counts, d: Counts)
    requires Plus(a, b) == Plus(c, d)
    ensures a == c <==> b == d
  {
  }

  lemma BetweenIsDifference(a: seq<Line>, b: seq<Line>)
    ensures CountsOrZero(CumulativeOf(a + b)) == Plus(CountsOrZero(CumulativeOf(a)), Between(a, b))
  {
  }

  /** What was used between the last totals of the two logs. */
  function Between(a: seq<Line>, b: seq<Line>): Counts {
    var after, before := CountsOrZero(CumulativeOf(a + b)), CountsOrZero(CumulativeOf(a));
    Counts(after.total - before.total, after.input - before.input, after.output - before.output,
           after.cached - before.cached, after.reasoning - before.reasoning)
  }

  lemma ShareIsDifference(final: TokenUsage, before: Extracted, difference: Counts)
    requires CountsOf(final) == Plus(CountsOrZero(before), difference)
    requires NonNegative(difference) && NonNegative(CountsOrZero(before))
    ensures CountsOrZero(Share(final, UsageIn(before))) == difference
  {
    if before.Found? {
      SubtractRecoversDifference(final, before.usage, difference);
    }
  }

  lemma TotalsDiffer(a: seq<Line>, b: seq<Line>)
    requires Consistent(a + b)
    ensures NonNegative(Between(a, b)) && NonNegative(CountsOrZero(CumulativeOf(a)))
    ensures Plus(Between(a, b), Lag(a + b)) == Plus(Sum(b), Lag(a))
  {
    var log := a + b;
    assert log[..|a|] == a && log[|a|..|a| + |b|] == b;
    PrefixStaysConsistent(log, |a|);
    CumulativeCounts(log);
    CumulativeCounts(a);
    SumOfParts(a, b);
    CumulativeOfParts(a, b);
    LagOfParts(a, b);
    LagIsWithinSum(log, b, |a|);
  }

  lemma {:induction false} LagIsWithinSum(log: seq<Line>, b: seq<Line>, from: nat)
    requires Consistent(log) && from + |b| <= |log| && log[from..from + |b|] == b
    ensures AtMost(Lag(b), Sum(b)) && NonNegative(Sum(b))
  {
    if b != [] {
      assert b[|b| - 1] == log[from + |b| - 1];
      LagIsWithinSum(log, b[..|b| - 1], from);
    }
  }

  predicate AtMost(a: Counts, b: Counts) {
    a.total <= b.total && a.input <= b.input && a.output <= b.output && a.cached <= b.cached
        && a.reasoning <= b.reasoning
  }

  // ---------- what a run is charged ----------

  /** One run: the file of its session, the file its baseline was noted from, that file before the
      run, the lines that the run wrote, and what failed when the baseline was noted. */
  datatype RunLog = RunLog(path: string, baselinePath: string, before: seq<Line>, own: seq<Line>, fault: Fault)

  /** The run resumed the session of its baseline. */
  predicate Resumed(r: RunLog) {
    r.path == r.baselinePath
  }

  function LogAfter(r: RunLog): seq<Line> {
    if Resumed(r) then r.before + r.own else r.own
  }

  function BaselineOf(r: RunLog): Baseline {
    Captured(r.baselinePath, r.before, r.fault)
  }

  function Charge(r: RunLog): Counts {
    CountsOrZero(Loaded(r.path, LogAfter(r), BaselineOf(r)))
  }

  /** There is a session after the run, and the totals of both sessions are running sums. */
  ghost predicate Accounted(r: RunLog) {
    r.path != "" && (r.baselinePath == "" ==> r.before == []) && Consistent(r.before) && Consistent(LogAfter(r))
  }

  /** Taking `base` from `own` leaves it as it is. */
  predicate Untouched(own: Counts, base: Counts) {
    || own == NO_COUNTS
    || (&& base.total == 0
        && (own.input == 0 || base.input == 0) && (own.output == 0 || base.output == 0)
        && (own.cached == 0 || base.cached == 0) && (own.reasoning == 0 || base.reasoning == 0))
  }

  /** When the difference of totals is right for a run that reported no single usage: when no
      total is read, or without a baseline none counts anything, or the run reported none, or
      the last one before it was up to date. */
  predicate DifferenceFits(r: RunLog) {
    || Unscannable(r.before)
    || (if r.fault == NotRead then CountsOrZero(CumulativeOf(LogAfter(r))) == NO_COUNTS
        else !CumulativeOf(r.own).Found? || Lag(r.before) == NO_COUNTS)
  }

  /** The inputs on which the run is charged what it used. */
  predicate Chargeable(r: RunLog) {
    if BaselineOf(r).offset == 0 then
      // the whole log is taken for the run's
      Sum(r.own) == if Unscannable(LogAfter(r)) then NO_COUNTS else Sum(LogAfter(r))
    else if Unscannable(r.own) then Sum(r.own) == NO_COUNTS
    else if Resumed(r) then DeltaOf(r.own).Found? || DifferenceFits(r)
    else
      // the total of the other session is subtracted
      Lag(r.own) == NO_COUNTS && Untouched(Sum(r.own), CountsOrNone(BaselineOf(r).usage))
  }

  /** The run is charged exactly the sum of its own events, if and only if its input is one of
      those, whichever session it had and whatever failed. */
  lemma RunIsChargedItsShare(r: RunLog)
    requires Accounted(r)
    ensures Charge(r) == Sum(r.own) <==> Chargeable(r)
  {
    if BaselineOf(r).offset == 0 {
      WholeLogIsCharged(r);
    } else if Resumed(r) {
      ResumedIsCharged(r);
    } else {
      OtherSessionIsCharged(r);
    }
  }

  lemma WholeLogIsCharged(r: RunLog)
    requires Accounted(r) && BaselineOf(r).offset == 0
    ensures Charge(r) == if Unscannable(LogAfter(r)) then NO_COUNTS else Sum(LogAfter(r))
  {
    var log := LogAfter(r);
    assert log[0..] == log;
    DeltaCounts(log);
    if !DeltaOf(log).Found? {
      NothingAddsNoTotal(log);
    }
  }

  lemma NothingAddsNoTotal(log: seq<Line>)
    requires Consistent(log) && !DeltaOf(log).Found?
    ensures CountsOrZero(CumulativeOf(log)) == NO_COUNTS
  {
    CumulativeCounts(log);
    NothingAddsNoLag(log);
  }

  lemma ResumedIsCharged(r: RunLog)
    requires Accounted(r) && BaselineOf(r).offset > 0 && Resumed(r)
    ensures Charge(r) == Sum(r.own) <==>
            if Unscannable(r.own) then Sum(r.own) == NO_COUNTS else DeltaOf(r.own).Found? || DifferenceFits(r)
  {
    var log := LogAfter(r);
    assert log[|r.before|..] == r.own;
    ScannableParts(r.before, r.own);
    DeltaCounts(r.own);
    if !DeltaOf(r.own).Found? {
      NothingAddsNoLag(r.own);
      DifferenceCounts(r.before, r.own);
      LagOfParts(r.before, r.own);
      CumulativeOfParts(r.before, r.own);
    }
  }

  lemma OtherSessionIsCharged(r: RunLog)
    requires Accounted(r) && BaselineOf(r).offset > 0 && !Resumed(r)
    ensures Charge(r) == Sum(r.own) <==>
            if Unscannable(r.own) then Sum(r.own) == NO_COUNTS
            else Lag(r.own) == NO_COUNTS && Untouched(Sum(r.own), CountsOrNone(BaselineOf(r).usage))
  {
    CumulativeCounts(r.before);
    CumulativeCounts(r.own);
    if CumulativeOf(r.own).Found? {
      ShareOfOther(CumulativeOf(r.own).usage, BaselineOf(r).usage, Lag(r.own));
    }
  }

  function Monus(a: int, b: int): int {
    if a < b then 0 else a - b
  }

  function TakenFrom(own: Counts, base: Counts): Counts {
    if own.total < base.total then NO_COUNTS
    else Counts(own.total - base.total, Monus(own.input, base.input), Monus(own.output, base.output),
                Monus(own.cached, base.cached), Monus(own.reasoning, base.reasoning))
  }

  lemma SubtractIsMonus(total: Option<int>, baseline: Option<int>)
    requires OrZero(total) >= 0 && OrZero(baseline) >= 0
    ensures OrZero(SubtractOptional(total, baseline)) == Monus(OrZero(total), OrZero(baseline))
  {
  }

  lemma ShareIsTakenFrom(final: TokenUsage, base: Option<TokenUsage>)
    requires NonNegative(CountsOf(final)) && NonNegative(CountsOrNone(base))
    ensures CountsOrZero(Share(final, base)) == TakenFrom(CountsOf(final), CountsOrNone(base))
  {
    if base.Some? {
      SubtractIsMonus(final.input, base.value.input);
      SubtractIsMonus(final.output, base.value.output);
      SubtractIsMonus(final.cached, base.value.cached);
      SubtractIsMonus(final.reasoning, base.value.reasoning);
    }
  }

  /** Nothing is left as it was by a subtraction but what the baseline does not touch. */
  lemma TakenFromIsAll(own: Counts, base: Counts, lag: Counts)
    requires NonNegative(own) && NonNegative(base) && NonNegative(lag)
    ensures TakenFrom(own, base) == Plus(own, lag) <==> lag == NO_COUNTS && Untouched(Plus(own, lag), base)
  {
  }

  lemma ShareOfOther(final: TokenUsage, base: Option<TokenUsage>, lag: Counts)
    requires NonNegative(CountsOf(final)) && NonNegative(CountsOrNone(base)) && NonNegative(lag)
    ensures CountsOrZero(Share(final, base)) == Plus(CountsOf(final), lag) <==>
            lag == NO_COUNTS && Untouched(Plus(CountsOf(final), lag), CountsOrNone(base))
  {
    ShareIsTakenFrom(final, base);
    TakenFromIsAll(CountsOf(final), CountsOrNone(base), lag);
  }

  /** A resumed session fails for every used-up amount: a usage without a total before the run,
      and that total without a usage in it. */
  lemma LaggingBaselineMischarges(path: string, first: Line, second: Line, one: TokenUsage)
    requires path != "" && NonNegative(CountsOf(one)) && CountsOf(one) != NO_COUNTS
    requires first == Event(None, Some(one)) && second == Event(Some(one), None)
    ensures var r := RunLog(path, path, [first], [second], NoFault); Accounted(r) && Charge(r) != Sum(r.own)
  {
    LaggingPair(first, second, one);
    PrefixStaysConsistent([first] + [second], 1);
    assert ([first] + [second])[..1] == [first];
    UsageAlone(first, one);
    TotalAlone(second, one);
    RunIsChargedItsShare(RunLog(path, path, [first], [second], NoFault));
  }

  /** A new session fails for any two usages with a positive total, one before the run and one in
      it, although both are reported with an up-to-date total. */
  lemma OtherSessionMischarges(path: string, other: string, u: TokenUsage, v: TokenUsage)
    requires path != "" && other != "" && path != other
    requires NonNegative(CountsOf(u)) && NonNegative(CountsOf(v)) && u.total > 0 && v.total > 0
    ensures var r := RunLog(path, other, [Event(Some(v), Some(v))], [Event(Some(u), Some(u))], NoFault);
            Accounted(r) && DeltaOf(r.own).Found? && Charge(r) != Sum(r.own)
  {
    UpToDateAlone(u);
    UpToDateAlone(v);
    RunIsChargedItsShare(RunLog(path, other, [Event(Some(v), Some(v))], [Event(Some(u), Some(u))], NoFault));
  }

  lemma UpToDateAlone(u: TokenUsage)
    requires NonNegative(CountsOf(u))
    ensures var log := [Event(Some(u), Some(u))];
            Consistent(log) && Sum(log) == CountsOf(u) && TotalIn(log) == Found(u) && DeltaOf(log) == Found(u)
  {
    var line := Event(Some(u), Some(u));
    ReadAlone(line, u);
    SumAlone(line, u);
    ConsistentAlone(line, u);
  }

  lemma ReadAlone(line: Line, u: TokenUsage)
    requires line == Event(Some(u), Some(u))
    ensures TotalIn([line]) == Found(u) && DeltaOf([line]) == Found(u)
  {
    assert [line][..0] == [];
  }

  lemma SumAlone(line: Line, u: TokenUsage)
    requires line == Event(Some(u), Some(u))
    ensures Sum([line]) == CountsOf(u)
  {
    assert [line][..0] == [];
    assert Sum([line]) == Plus(Sum([]), CountsOf(u));
  }

  lemma ConsistentAlone(line: Line, u: TokenUsage)
    requires line == Event(Some(u), Some(u)) && NonNegative(CountsOf(u)) && Sum([line]) == CountsOf(u)
    ensures Consistent([line])
  {
    var none: seq<Line> := [];
    assert none + [line] == [line];
    ConsistentExtends(none, line);
  }

  /** And a session whose file was not found before the run is charged to it from the start. */
  lemma LostBaselineCharges(path: string, before: seq<Line>, own: seq<Line>)
    requires path != "" && Consistent(before + own) && !Unscannable(before + own)
    ensures Charge(RunLog(path, path, before, own, NotFound)) == Plus(Sum(before), Sum(own))
  {
    PrefixStaysConsistent(before + own, |before|);
    assert (before + own)[..|before|] == before;
    WholeLogIsCharged(RunLog(path, path, before, own, NotFound));
    SumOfParts(before, own);
  }

  // ---------- agent output ----------

  /** A line of agent output: not an object, or one that may name the model and the provider and
      may carry usage, with a priority. */
  datatype OutputLine = Noise | Record(model: string, provider: string, usage: Option<TokenUsage>, priority: int)

  predicate Carries(lines: seq<OutputLine>, k: int) {
    0 <= k < |lines| && lines[k].Record? && lines[k].usage.Some?
  }

  function LastModel(lines: seq<OutputLine>): string {
    if lines == [] then ""
    else
      var n := |lines| - 1;
      if lines[n].Record? && lines[n].model != "" then lines[n].model else LastModel(lines[..n])
  }

  function LastProvider(lines: seq<OutputLine>): string {
    if lines == [] then ""
    else
      var n := |lines| - 1;
      if lines[n].Record? && lines[n].provider != "" then lines[n].provider else LastProvider(lines[..n])
  }

  function Completed(lines: seq<OutputLine>, k: int): TokenUsage
    requires Carries(lines, k)
  {
    var u := lines[k].usage.value;
    u.(model := FirstNonEmpty(u.model, LastModel(lines[..k + 1])),
       provider := FirstNonEmpty(u.provider, LastProvider(lines[..k + 1])))
  }

  /** Nothing has a higher priority, and nothing later has the same. */
  ghost predicate Best(lines: seq<OutputLine>, k: int) {
    Carries(lines, k) && forall j :: Carries(lines, j) ==>
                                       lines[j].priority < lines[k].priority
                                           || (lines[j].priority == lines[k].priority && j <= k)
  }

  method ExtractTokenUsage(lines: seq<OutputLine>) returns (found: bool, usage: TokenUsage)
    ensures found <==> exists k :: Best(lines, k)
    ensures found <==> exists k :: Carries(lines, k)
    ensures forall k :: Best(lines, k) ==> usage == Completed(lines, k)
  {
    found, usage := false, NO_USAGE;
    var bestPriority := 0;
    var model, provider := "", "";
    ghost var best := 0;
    for i := 0 to |lines|
      invariant model == LastModel(lines[..i]) && provider == LastProvider(lines[..i])
      invariant found ==> 0 <= best < i && Carries(lines, best)
      invariant found ==> usage == Completed(lines, best) && bestPriority == lines[best].priority
      invariant found ==> forall j :: j < i && Carries(lines, j) ==>
                                        || lines[j].priority < bestPriority
                                        || (lines[j].priority == bestPriority && j <= best)
      invariant !found ==> forall j :: j < i ==> !Carries(lines, j)
    {
      assert lines[..i + 1][..i] == lines[..i];
      if lines[i].Record? {
        model, provider := FirstNonEmpty(lines[i].model, model), FirstNonEmpty(lines[i].provider, provider);
        if lines[i].usage.Some? && (!found || lines[i].priority >= bestPriority) {
          var u := lines[i].usage.value;
          usage := u.(model := FirstNonEmpty(u.model, model), provider := FirstNonEmpty(u.provider, provider));
          found, bestPriority, best := true, lines[i].priority, i;
        }
      }
    }
    assert found ==> Best(lines, best);
    forall k | Best(lines, k)
      ensures usage == Completed(lines, k)
    {
      BestIsUnique(lines, k, best);
    }
  }

  lemma BestIsUnique(lines: seq<OutputLine>, j: int, k: int)
    requires Best(lines, j) && Best(lines, k)
    ensures j == k
  {
  }
}
