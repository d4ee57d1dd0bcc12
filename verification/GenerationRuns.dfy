/** Runs of the generator compose, resume after their cap, and emit the rule's own dates. */
module GenerationRuns {
  import opened Results
  import opened CivilCalendar
  import opened Transactions
  import opened Recurrence
  import opened Generation

  // What a run without a cap would emit.

  ghost function Full(rule: Rule, target: Date, threshold: Date): seq<Date>
    decreases threshold + 1 - target
  {
    StepIsLater(rule.schedule, target);
    if target > threshold || IsPastEnd(rule, target) || !IsAccepted(rule) then []
    else [target] + Full(rule, Next(rule, target), threshold)
  }

  ghost predicate FullFindsEnd(rule: Rule, target: Date, threshold: Date)
    decreases threshold + 1 - target
  {
    StepIsLater(rule.schedule, target);
    if target > threshold then false
    else if IsPastEnd(rule, target) then true
    else IsAccepted(rule) && FullFindsEnd(rule, Next(rule, target), threshold)
  }

  /** The date after some emitted ones. */
  function After(rule: Rule, target: Date, dates: seq<Date>): Date {
    if dates == [] then target else Next(rule, dates[|dates| - 1])
  }

  lemma {:induction false} CappedIsPrefix(rule: Rule, target: Date, threshold: Date, cap: nat)
    ensures Emit(rule, target, threshold, cap)
         == if cap <= |Full(rule, target, threshold)| then Full(rule, target, threshold)[..cap] else Full(rule, target, threshold)
    ensures FindsEnd(rule, target, threshold, cap)
         == (FullFindsEnd(rule, target, threshold) && |Full(rule, target, threshold)| < cap)
    decreases cap
  {
    hide NextGenerationDate, IsAccepted, IsPastEnd;
    if cap > 0 && target <= threshold && !IsPastEnd(rule, target) && IsAccepted(rule) {
      CappedIsPrefix(rule, Next(rule, target), threshold, cap - 1);
    }
  }

  /** Taking up where a run stopped emits exactly the rest. */
  lemma {:induction false} FullFrom(rule: Rule, target: Date, threshold: Date, n: nat)
    requires n <= |Full(rule, target, threshold)|
    ensures var middle := After(rule, target, Full(rule, target, threshold)[..n]);
            && Full(rule, middle, threshold) == Full(rule, target, threshold)[n..]
            && FullFindsEnd(rule, middle, threshold) == FullFindsEnd(rule, target, threshold)
    decreases n
  {
    hide NextGenerationDate, IsAccepted, IsPastEnd;
    if n > 0 {
      var all := Full(rule, target, threshold);
      FullFrom(rule, Next(rule, target), threshold, n - 1);
      assert all[1..] == Full(rule, Next(rule, target), threshold);
      assert all[1..][..n - 1] == all[1..n];
      assert all[..n][n - 1] == all[n - 1];
    }
  }

  /** A later threshold only adds dates at the end, and an end once found stays found. */
  lemma {:induction false} FullGrows(rule: Rule, target: Date, first: Date, second: Date)
    requires first <= second
    ensures |Full(rule, target, first)| <= |Full(rule, target, second)|
    ensures Full(rule, target, first) == Full(rule, target, second)[..|Full(rule, target, first)|]
    ensures FullFindsEnd(rule, target, first) ==>
              FullFindsEnd(rule, target, second) && Full(rule, target, first) == Full(rule, target, second)
    decreases first + 1 - target
  {
    hide NextGenerationDate, IsAccepted, IsPastEnd;
    StepIsLater(rule.schedule, target);
    if target <= first && !IsPastEnd(rule, target) && IsAccepted(rule) {
      FullGrows(rule, Next(rule, target), first, second);
    }
  }

  // A job run: only a listed rule is generated.

  /** The query of the job: active, started, and not yet generated up to the reference date. */
  predicate IsListed(rule: Rule, reference: Date) {
    && rule.active
    && rule.schedule.startDate <= reference
    && (rule.lastGenerated.None? || rule.lastGenerated.value < reference)
  }

  datatype RunResult = RunResult(rule: Rule, dates: seq<Date>)

  function RunJob(rule: Rule, threshold: Date): RunResult {
    if IsListed(rule, threshold) then RunResult(Generated(rule, threshold), Emitted(rule, threshold))
    else RunResult(rule, [])
  }

  /** The generator has never gone back before the start of the rule. */
  predicate HasStarted(rule: Rule) {
    rule.lastGenerated.Some? ==> rule.schedule.startDate <= rule.lastGenerated.value
  }

  /** What an uncapped run leaves. */
  ghost function FullRun(rule: Rule, threshold: Date): RunResult {
    var dates := Full(rule, FirstTarget(rule), threshold);
    RunResult(rule.(lastGenerated := LastOf(dates, rule.lastGenerated),
                    active := !FullFindsEnd(rule, FirstTarget(rule), threshold)),
              dates)
  }

  /** A rule the query leaves out had nothing to generate. */
  lemma UnlistedHasNothing(rule: Rule, threshold: Date)
    requires rule.active && HasStarted(rule) && !IsListed(rule, threshold)
    ensures FullRun(rule, threshold) == RunResult(rule, [])
  {
    hide NextGenerationDate;
    if rule.lastGenerated.Some? {
      StepIsLater(rule.schedule, rule.lastGenerated.value);
    }
  }

  /** Below the cap, a job run on an active rule is the uncapped run. */
  lemma RunBelowCapIsFull(rule: Rule, threshold: Date)
    requires rule.active && HasStarted(rule)
    requires |Full(rule, FirstTarget(rule), threshold)| < MaxGenerations(rule.schedule.frequency)
    ensures RunJob(rule, threshold) == FullRun(rule, threshold)
  {
    hide Full, FullFindsEnd, Emit, FindsEnd, FirstTarget, MaxGenerations;
    if IsListed(rule, threshold) {
      CappedIsPrefix(rule, FirstTarget(rule), threshold, MaxGenerations(rule.schedule.frequency));
    } else {
      UnlistedHasNothing(rule, threshold);
    }
  }

  /** Any rule that differs from this one only in how far it has been generated. */
  predicate SameTerms(a: Rule, b: Rule) {
    a == b.(lastGenerated := a.lastGenerated, active := a.active)
  }

  lemma {:induction false} FullOfSameTerms(a: Rule, b: Rule, target: Date, threshold: Date)
    requires SameTerms(a, b)
    ensures Full(a, target, threshold) == Full(b, target, threshold)
    ensures FullFindsEnd(a, target, threshold) == FullFindsEnd(b, target, threshold)
    decreases threshold + 1 - target
  {
    hide NextGenerationDate, Created;
    assert OccurrenceOf(a, 0, a.schedule.startDate) == OccurrenceOf(b, 0, b.schedule.startDate);
    StepIsLater(a.schedule, target);
    if target <= threshold && !IsPastEnd(a, target) && IsAccepted(a) {
      FullOfSameTerms(a, b, Next(a, target), threshold);
    }
  }

  /** Where the next run starts after a run that emitted some of its dates. */
  lemma NextTarget(rule: Rule, after: Rule, dates: seq<Date>)
    requires SameTerms(after, rule) && after.lastGenerated == LastOf(dates, rule.lastGenerated)
    ensures FirstTarget(after) == After(rule, FirstTarget(rule), dates)
  {
  }

  /** Dates go up, so what was generated stays after the start. */
  lemma {:induction false} FullIsAfterTarget(rule: Rule, target: Date, threshold: Date)
    ensures forall i :: 0 <= i < |Full(rule, target, threshold)| ==> target <= Full(rule, target, threshold)[i] <= threshold
    decreases threshold + 1 - target
  {
    hide NextGenerationDate, IsAccepted, IsPastEnd;
    StepIsLater(rule.schedule, target);
    if target <= threshold && !IsPastEnd(rule, target) && IsAccepted(rule) {
      FullIsAfterTarget(rule, Next(rule, target), threshold);
    }
  }

  lemma FullRunHasStarted(rule: Rule, threshold: Date, n: nat)
    requires HasStarted(rule) && n <= |Full(rule, FirstTarget(rule), threshold)|
    ensures HasStarted(rule.(lastGenerated := LastOf(Full(rule, FirstTarget(rule), threshold)[..n], rule.lastGenerated)))
  {
    hide NextGenerationDate, Full;
    FullIsAfterTarget(rule, FirstTarget(rule), threshold);
    if rule.lastGenerated.Some? {
      StepIsLater(rule.schedule, rule.lastGenerated.value);
    }
  }

  /** Below the cap, running on from where an uncapped run stopped does the rest of the later run. */
  lemma RunningOn(rule: Rule, first: Date, second: Date)
    requires rule.active && HasStarted(rule) && first <= second
    requires |Full(rule, FirstTarget(rule), second)| < MaxGenerations(rule.schedule.frequency)
    requires !FullFindsEnd(rule, FirstTarget(rule), first)
    ensures var middle := FullRun(rule, first);
            var rest := RunJob(middle.rule, second);
            rest.rule == FullRun(rule, second).rule && middle.dates + rest.dates == FullRun(rule, second).dates
  {
    hide Full, FullFindsEnd, FirstTarget, MaxGenerations, RunJob, HasStarted, IsListed;
    var all, part := Full(rule, FirstTarget(rule), second), Full(rule, FirstTarget(rule), first);
    var middle := FullRun(rule, first).rule;
    FullGrows(rule, FirstTarget(rule), first, second);
    NextTarget(rule, middle, part);
    FullFrom(rule, FirstTarget(rule), second, |part|);
    FullRunHasStarted(rule, first, |part|);
    assert part[..|part|] == part;
    StartedWhateverActive(middle, rule.(lastGenerated := LastOf(part, rule.lastGenerated)));
    FullOfSameTerms(middle, rule, FirstTarget(middle), second);
    RunBelowCapIsFull(middle, second);
    assert all == part + all[|part|..];
  }

  /**
   Below the cap, running to one threshold and then to a later one is running to the later one:
   the same dates in the same order, and the same rule at the end.
   */
  lemma RunsCompose(rule: Rule, first: Date, second: Date)
    requires rule.active && HasStarted(rule) && first <= second
    requires |Full(rule, FirstTarget(rule), second)| < MaxGenerations(rule.schedule.frequency)
    ensures var once, then_, direct := RunJob(rule, first), RunJob(RunJob(rule, first).rule, second), RunJob(rule, second);
            then_.rule == direct.rule && once.dates + then_.dates == direct.dates
  {
    hide Full, FullFindsEnd, FirstTarget, MaxGenerations, RunJob, HasStarted;
    FullGrows(rule, FirstTarget(rule), first, second);
    RunBelowCapIsFull(rule, first);
    RunBelowCapIsFull(rule, second);
    if FullFindsEnd(rule, FirstTarget(rule), first) {
      InactiveIsLeftAlone(RunJob(rule, first).rule, second);
    } else {
      RunningOn(rule, first, second);
    }
  }

  lemma StartedWhateverActive(a: Rule, b: Rule)
    requires SameTerms(a, b) && a.lastGenerated == b.lastGenerated && HasStarted(b)
    ensures HasStarted(a)
  {
  }

  lemma InactiveIsLeftAlone(rule: Rule, threshold: Date)
    requires !rule.active
    ensures RunJob(rule, threshold) == RunResult(rule, [])
  {
  }

  // Capped runs to the same threshold.

  function RunJobs(rule: Rule, threshold: Date, runs: nat): RunResult {
    if runs == 0 then RunResult(rule, [])
    else
      var before := RunJobs(rule, threshold, runs - 1);
      var last := RunJob(before.rule, threshold);
      RunResult(last.rule, before.dates + last.dates)
  }

  function AtMost(a: nat, b: nat): nat {
    if a <= b then a else b
  }

  /** What any number of runs has done so far: a prefix of the uncapped run, its rule in step with it. */
  ghost predicate IsPartOfFull(rule: Rule, threshold: Date, done: RunResult, n: nat) {
    var all := Full(rule, FirstTarget(rule), threshold);
    && n <= |all|
    && done.dates == all[..n]
    && SameTerms(done.rule, rule)
    && done.rule.lastGenerated == LastOf(all[..n], rule.lastGenerated)
    && (!done.rule.active ==> n == |all| && FullFindsEnd(rule, FirstTarget(rule), threshold))
  }

  lemma OneMoreRun(rule: Rule, threshold: Date, done: RunResult, n: nat)
    requires HasStarted(rule) && IsPartOfFull(rule, threshold, done, n) && done.rule.active
    ensures var last := RunJob(done.rule, threshold);
            var all := Full(rule, FirstTarget(rule), threshold);
            var more := AtMost(n + MaxGenerations(rule.schedule.frequency), |all|);
            && IsPartOfFull(rule, threshold, RunResult(last.rule, done.dates + last.dates), more)
            && (|all| < n + MaxGenerations(rule.schedule.frequency) ==>
                  last.rule.active == !FullFindsEnd(rule, FirstTarget(rule), threshold))
  {
    hide Full, FullFindsEnd, FirstTarget, MaxGenerations, Emit, FindsEnd, HasStarted;
    var target, cap := FirstTarget(rule), MaxGenerations(rule.schedule.frequency);
    var all := Full(rule, target, threshold);
    NextTarget(rule, done.rule, all[..n]);
    FullFrom(rule, target, threshold, n);
    FullOfSameTerms(done.rule, rule, FirstTarget(done.rule), threshold);
    FullRunHasStarted(rule, threshold, n);
    StartedWhateverActive(done.rule, rule.(lastGenerated := done.rule.lastGenerated));
    var rest := all[n..];
    if IsListed(done.rule, threshold) {
      CappedIsPrefix(done.rule, FirstTarget(done.rule), threshold, cap);
      var now := Emitted(done.rule, threshold);
      assert all[..n] + now == all[..AtMost(n + cap, |all|)];
    } else {
      hide IsListed, LastOf;
      UnlistedHasNothing(done.rule, threshold);
      assert rest == [];
    }
  }

  /** Each run adds up to its cap, and enough of them do what one uncapped run would. */
  lemma {:induction false} CappedRunsResume(rule: Rule, threshold: Date, runs: nat)
    requires rule.active && HasStarted(rule)
    ensures var all := Full(rule, FirstTarget(rule), threshold);
            var cap := MaxGenerations(rule.schedule.frequency);
            && IsPartOfFull(rule, threshold, RunJobs(rule, threshold, runs), AtMost(runs * cap, |all|))
            && (|all| < runs * cap ==> RunJobs(rule, threshold, runs) == FullRun(rule, threshold))
  {
    hide Full, FullFindsEnd, FirstTarget, MaxGenerations, RunJob, HasStarted;
    var all, cap := Full(rule, FirstTarget(rule), threshold), MaxGenerations(rule.schedule.frequency);
    if runs > 0 {
      CappedRunsResume(rule, threshold, runs - 1);
      assert runs * cap == (runs - 1) * cap + cap;
      var before := RunJobs(rule, threshold, runs - 1);
      if before.rule.active {
        OneMoreRun(rule, threshold, before, AtMost((runs - 1) * cap, |all|));
      } else {
        InactiveIsLeftAlone(before.rule, threshold);
        assert before.dates + [] == before.dates;
      }
    } else {
      assert all[..0] == [];
    }
  }

  // The dates are the rule's own chain.

  lemma {:induction false} FullFollowsTheChain(rule: Rule, k: nat, i: nat, threshold: Date)
    requires i < |Full(rule, Chain(rule.schedule, k), threshold)|
    ensures Full(rule, Chain(rule.schedule, k), threshold)[i] == Chain(rule.schedule, k + i)
    decreases i
  {
    hide NextGenerationDate, IsAccepted, IsPastEnd;
    if i > 0 {
      FullFollowsTheChain(rule, k + 1, i - 1, threshold);
    }
  }

  /** And all of it: a chained date up to the threshold and the end is emitted. */
  lemma {:induction false} FullMissesNothing(rule: Rule, k: nat, i: nat, threshold: Date)
    requires IsAccepted(rule)
    ensures i < |Full(rule, Chain(rule.schedule, k), threshold)|
            <==> Chain(rule.schedule, k + i) <= threshold && !IsPastEnd(rule, Chain(rule.schedule, k + i))
    decreases i
  {
    hide NextGenerationDate, IsAccepted;
    var target := Chain(rule.schedule, k);
    ChainIsInjective(rule.schedule, k, k + i);
    if i > 0 && target <= threshold && !IsPastEnd(rule, target) {
      FullMissesNothing(rule, k + 1, i - 1, threshold);
    }
  }

  /** The end is found exactly when the chain goes past it within the threshold. */
  lemma {:induction false} EndIsFoundPastTheChain(rule: Rule, k: nat, threshold: Date)
    requires IsAccepted(rule)
    ensures var n := |Full(rule, Chain(rule.schedule, k), threshold)|;
            FullFindsEnd(rule, Chain(rule.schedule, k), threshold)
            <==> Chain(rule.schedule, k + n) <= threshold && IsPastEnd(rule, Chain(rule.schedule, k + n))
    decreases threshold + 1 - Chain(rule.schedule, k)
  {
    hide NextGenerationDate, IsAccepted, IsPastEnd;
    var target := Chain(rule.schedule, k);
    StepIsLater(rule.schedule, target);
    if target <= threshold && !IsPastEnd(rule, target) {
      EndIsFoundPastTheChain(rule, k + 1, threshold);
    }
  }

  // What a capped run emits, date by date.

  /** The steps of the rule from a date on. */
  function Steps(rule: Rule, target: Date, k: nat): Date {
    if k == 0 then target else Next(rule, Steps(rule, target, k - 1))
  }

  lemma {:induction false} StepsFromTheSecond(rule: Rule, target: Date, k: nat)
    ensures Steps(rule, Next(rule, target), k) == Steps(rule, target, k + 1)
  {
    hide Next;
    if k > 0 { StepsFromTheSecond(rule, target, k - 1); }
  }

  /** The dates of a run are the steps of the rule from its first target, one after another. */
  lemma {:induction false} EmitTakesSteps(rule: Rule, target: Date, threshold: Date, cap: nat, i: nat)
    requires i < |Emit(rule, target, threshold, cap)|
    ensures Emit(rule, target, threshold, cap)[i] == Steps(rule, target, i)
    ensures Steps(rule, target, i) <= threshold && !IsPastEnd(rule, Steps(rule, target, i))
    decreases cap
  {
    hide NextGenerationDate, IsPastEnd, IsAccepted;
    if i > 0 {
      EmitTakesSteps(rule, Next(rule, target), threshold, cap - 1, i - 1);
      StepsFromTheSecond(rule, target, i - 1);
    }
  }

  /** The first of them is the start of a new rule, or one step after the last one generated. */
  lemma RunTakesSteps(rule: Rule, threshold: Date, i: nat)
    requires i < |Emitted(rule, threshold)|
    ensures var first := if rule.lastGenerated.None? then rule.schedule.startDate
                         else NextGenerationDate(rule.schedule, rule.lastGenerated.value);
            Emitted(rule, threshold)[i] == Steps(rule, first, i)
  {
    hide NextGenerationDate;
    EmitTakesSteps(rule, FirstTarget(rule), threshold, MaxGenerations(rule.schedule.frequency), i);
  }

  /** One run generates at most 104 weekly, 24 monthly or 10 yearly rows, and fewer only for want of dates. */
  lemma RunsAreCapped(rule: Rule, threshold: Date)
    ensures var cap := match rule.schedule.frequency case WEEKLY => 104 case MONTHLY => 24 case YEARLY => 10;
            |Emitted(rule, threshold)| == AtMost(cap, |Full(rule, FirstTarget(rule), threshold)|)
  {
    hide NextGenerationDate, Full, FullFindsEnd, Emit, FindsEnd, FirstTarget;
    CappedIsPrefix(rule, FirstTarget(rule), threshold, MaxGenerations(rule.schedule.frequency));
  }

  /** A run leaves the rule at its last date, and deactivates it exactly when it saw the end before its cap. */
  lemma RunLeavesTheRule(rule: Rule, threshold: Date)
    ensures var dates, after := Emitted(rule, threshold), Generated(rule, threshold);
            var all := Full(rule, FirstTarget(rule), threshold);
            && SameTerms(after, rule)
            && after.lastGenerated == (if dates == [] then rule.lastGenerated else Some(dates[|dates| - 1]))
            && (after.active <==> rule.active && !(FullFindsEnd(rule, FirstTarget(rule), threshold)
                                                   && |all| < MaxGenerations(rule.schedule.frequency)))
  {
    hide NextGenerationDate, Full, FullFindsEnd, Emit, FindsEnd, FirstTarget, MaxGenerations;
    CappedIsPrefix(rule, FirstTarget(rule), threshold, MaxGenerations(rule.schedule.frequency));
  }
}
