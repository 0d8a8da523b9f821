/** What the gates say, told by the raw fields of the records alone. */
module GovernanceLaw {
  import opened Seqs
  import opened GovernanceGate

  // ---- Rounding ----

  /** Rounding gives the nearest tenth; of two that are equally near, the even one. */
  lemma RoundsToTheNearest(x: real, tenths: int)
    ensures RoundTenths(x) == tenths as real / 10.0 <==>
              && tenths as real - 0.5 <= 10.0 * x <= tenths as real + 0.5
              && (10.0 * x == tenths as real - 0.5 || 10.0 * x == tenths as real + 0.5 ==> tenths % 2 == 0)
  {
    var y := 10.0 * x;
    var low := y.Floor;
    var chosen := if y - low as real < 0.5 || (y - low as real == 0.5 && low % 2 == 0) then low else low + 1;
    assert RoundTenths(x) == chosen as real / 10.0;
    assert low as real <= y < low as real + 1.0;
    if tenths == low || tenths == low + 1 {
    } else if tenths < low {
      assert tenths as real + 1.0 <= low as real;
    } else {
      assert low as real + 2.0 <= tenths as real;
    }
  }

  // ---- The gates, on the records alone ----

  function Long(group: string): Test {
    (r: Record) => r.group == group && r.category == "long"
  }

  function Short(group: string): Test {
    (r: Record) => r.group == group && r.category == "short"
  }

  function Recovering(group: string): Test {
    (r: Record) => r.group == group && (r.workflow == "compaction" || r.workflow == "resume")
  }

  ghost predicate HasAny(records: seq<Record>, arm: Test) {
    exists r :: r in records && arm(r)
  }

  function KnownOf(records: seq<Record>, arm: Test, f: Record -> Option<bool>): nat {
    Count(records, r => arm(r) && f(r).Some?)
  }

  function TrueOf(records: seq<Record>, arm: Test, f: Record -> Option<bool>): nat {
    Count(records, r => arm(r) && f(r) == Some(true))
  }

  /** Of the records with the field, the ledger arm's share of true ones is at least a twentieth above
      the control arm's, in whole numbers. */
  predicate Gains(records: seq<Record>, control: Test, ledger: Test, f: Record -> Option<bool>) {
    var n, m := KnownOf(records, control, f), KnownOf(records, ledger, f);
    n > 0 && m > 0 && 20 * (TrueOf(records, ledger, f) * n - TrueOf(records, control, f) * m) >= n * m
  }

  function MeasuredOf(records: seq<Record>, arm: Test, f: Record -> Option<real>): nat {
    Count(records, r => arm(r) && f(r).Some?)
  }

  /** The mean over the records of an arm that have the measure, to one digit. */
  function MeanOf(records: seq<Record>, arm: Test, f: Record -> Option<real>): real
    requires MeasuredOf(records, arm, f) > 0
  {
    RoundTenths(Total(records, r => if arm(r) then f(r) else None) / MeasuredOf(records, arm, f) as real)
  }

  predicate Comparable(records: seq<Record>, f: Record -> Option<real>) {
    && MeasuredOf(records, Short("control"), f) > 0 && MeasuredOf(records, Short("ledger"), f) > 0
    && MeanOf(records, Short("control"), f) > 0.0
  }

  /** The ledger's short tasks take at most a fifth more than the control's. */
  predicate Affordable(records: seq<Record>, f: Record -> Option<real>) {
    Comparable(records, f) && 5.0 * MeanOf(records, Short("ledger"), f) <= 6.0 * MeanOf(records, Short("control"), f)
  }

  function Unsupportedly(records: seq<Record>, group: string): nat {
    Count(records, (r: Record) => r.group == group && r.processCompleted && !r.verifyOk)
  }

  ghost predicate Restores(records: seq<Record>) {
    && (exists r :: r in records && Recovering("ledger")(r) && r.stateRestorationOk.Some?)
    && (forall r :: r in records && Recovering("ledger")(r) ==> r.stateRestorationOk != Some(false))
  }

  ghost predicate Safe(records: seq<Record>) {
    forall r :: r in records ==>
      && !r.bindingViolation && r.permissionBypass != Some(true) && r.promptSurfaceDivergence != Some(true)
      && (r.nativeLedgerCompleted == Some(true) ==> r.verifyOk)
  }

  ghost function StatusOf(known: bool, met: bool): Status {
    if !known then Inconclusive else if met then Pass else NotMet
  }

  /** The five gates on records of which none violates its binding. */
  ghost predicate GatesTell(g: Gates, bound: seq<Record>) {
    && g.long == StatusOf(HasAny(bound, Long("control")) && HasAny(bound, Long("ledger")),
                        Gains(bound, Long("control"), Long("ledger"), (r: Record) => Some(r.verifyOk)))
    && g.short == StatusOf(Comparable(bound, (r: Record) => r.elapsed) && Comparable(bound, (r: Record) => r.totalTokens),
                         Affordable(bound, (r: Record) => r.elapsed) && Affordable(bound, (r: Record) => r.totalTokens))
    && g.recovery == StatusOf(HasAny(bound, Recovering("control")) && HasAny(bound, Recovering("ledger")),
                            Gains(bound, Recovering("control"), Recovering("ledger"), (r: Record) => r.workflowRecoverySuccess) && Restores(bound))
    && g.unsupported == StatusOf(true, Unsupportedly(bound, "ledger") < Unsupportedly(bound, "control"))
  }

  // ---- The gates are these ----

  lemma CountedAlike(records: seq<Record>, arm: Test, f: Record -> Option<bool>, group: Test, kind: Test, h: Record -> Option<bool>)
    requires forall r :: arm(r) == (group(r) && kind(r))
    requires forall r :: f(r) == h(r)
    ensures KnownOf(records, arm, f) == Known(records, group, kind, h) && TrueOf(records, arm, f) == Hits(records, group, kind, h)
  {
    CountSame(records, r => arm(r) && f(r).Some?, r => group(r) && kind(r) && h(r).Some?);
    CountSame(records, r => arm(r) && f(r) == Some(true), r => group(r) && kind(r) && h(r) == Some(true));
  }

  lemma MeanAlike(records: seq<Record>, arm: Test, f: Record -> Option<real>, group: Test, kind: Test, h: Record -> Option<real>)
    requires forall r :: arm(r) == (group(r) && kind(r))
    requires forall r :: f(r) == h(r)
    ensures MeasuredOf(records, arm, f) == Measured(records, group, kind, h)
    ensures MeasuredOf(records, arm, f) > 0 ==> MeanOf(records, arm, f) == KindMean(records, group, kind, h)
  {
    CountSame(records, r => arm(r) && f(r).Some?, r => group(r) && kind(r) && h(r).Some?);
    TotalSame(records, r => if arm(r) then f(r) else None, r => if group(r) && kind(r) then h(r) else None);
  }

  lemma GainsMeans(records: seq<Record>, control: Test, ledger: Test, kind: Test, f: Record -> Option<bool>, h: Record -> Option<bool>)
    requires forall r :: control(r) == (Control(r) && kind(r))
    requires forall r :: ledger(r) == (Ledger(r) && kind(r))
    requires forall r :: f(r) == h(r)
    ensures Gains(records, control, ledger, f) <==> Improves(records, kind, h)
  {
    CountedAlike(records, control, f, Control, kind, h);
    CountedAlike(records, ledger, f, Ledger, kind, h);
  }

  lemma LongTells(bound: seq<Record>)
    requires Select(bound, Bound) == bound
    ensures LongStatus(Arm(bound, Control, IsLong), Arm(bound, Ledger, IsLong))
         == StatusOf(HasAny(bound, Long("control")) && HasAny(bound, Long("ledger")),
                     Gains(bound, Long("control"), Long("ledger"), (r: Record) => Some(r.verifyOk)))
  {
    LongGateMeans(bound);
    GainsMeans(bound, Long("control"), Long("ledger"), IsLong, (r: Record) => Some(r.verifyOk), Verified);
    ArmIsThere(bound, Control, IsLong, Long("control"));
    ArmIsThere(bound, Ledger, IsLong, Long("ledger"));
  }

  lemma ArmIsThere(bound: seq<Record>, group: Test, kind: Test, arm: Test)
    requires Select(bound, Bound) == bound
    requires forall r :: arm(r) == (group(r) && kind(r))
    ensures Arm(bound, group, kind) != [] <==> HasAny(bound, arm)
  {
    ArmMembers(bound, group, kind);
    SelectedFrom(bound, Bound);
    if Arm(bound, group, kind) != [] {
      assert Arm(bound, group, kind)[0] in Arm(bound, group, kind);
    }
  }

  lemma RatioTells(bound: seq<Record>, f: Record -> Option<real>, h: Record -> Option<real>)
    requires Select(bound, Bound) == bound
    requires forall r :: f(r) == h(r)
    ensures var ratio := Ratio(MeanAvailable(Arm(bound, Ledger, IsShort), h), MeanAvailable(Arm(bound, Control, IsShort), h));
            && (ratio.Some? <==> Comparable(bound, f))
            && (ratio.Some? && ratio.value <= SHORT_OVERHEAD_BUDGET <==> Affordable(bound, f))
  {
    RatioMeans(bound, h);
    MeanOfArm(bound, Control, IsShort, h);
    MeanOfArm(bound, Ledger, IsShort, h);
    MeanAlike(bound, Short("control"), f, Control, IsShort, h);
    MeanAlike(bound, Short("ledger"), f, Ledger, IsShort, h);
  }

  lemma ShortTells(bound: seq<Record>)
    requires Select(bound, Bound) == bound
    ensures ShortStatus(Arm(bound, Control, IsShort), Arm(bound, Ledger, IsShort))
         == StatusOf(Comparable(bound, (r: Record) => r.elapsed) && Comparable(bound, (r: Record) => r.totalTokens),
                     Affordable(bound, (r: Record) => r.elapsed) && Affordable(bound, (r: Record) => r.totalTokens))
  {
    RatioTells(bound, (r: Record) => r.elapsed, Elapsed);
    RatioTells(bound, (r: Record) => r.totalTokens, Tokens);
  }

  lemma SomeKnown(records: seq<Record>, group: Test, kind: Test, f: Record -> Option<bool>)
    ensures Known(records, group, kind, f) > 0 <==> exists r :: r in records && group(r) && kind(r) && f(r).Some?
  {
    CountZero(records, r => group(r) && kind(r) && f(r).Some?);
  }

  lemma RestoresMeans(bound: seq<Record>)
    ensures Restores(bound) <==>
              Known(bound, Ledger, Recovers, Restored) > 0 && NoneFails(bound, Ledger, Recovers, Restored)
  {
    SomeKnown(bound, Ledger, Recovers, Restored);
    assert forall r :: Recovering("ledger")(r) == (Ledger(r) && Recovers(r)) && Restored(r) == r.stateRestorationOk;
  }

  lemma RecoveryTells(bound: seq<Record>)
    requires Select(bound, Bound) == bound && !Undecided(bound)
    ensures RecoveryStatus(Arm(bound, Control, Recovers), Arm(bound, Ledger, Recovers))
         == Some(StatusOf(HasAny(bound, Recovering("control")) && HasAny(bound, Recovering("ledger")),
                          Gains(bound, Recovering("control"), Recovering("ledger"), (r: Record) => r.workflowRecoverySuccess)
                          && Restores(bound)))
  {
    DecideFailsIff(bound);
    RecoveryGateMeans(bound);
    GainsMeans(bound, Recovering("control"), Recovering("ledger"), Recovers, (r: Record) => r.workflowRecoverySuccess, Recovered);
    RestoresMeans(bound);
    ArmIsThere(bound, Control, Recovers, Recovering("control"));
    ArmIsThere(bound, Ledger, Recovers, Recovering("ledger"));
  }

  lemma UnsupportedTells(bound: seq<Record>)
    requires Select(bound, Bound) == bound
    ensures UnsupportedStatus(Select(bound, Control), Select(bound, Ledger))
         == StatusOf(true, Unsupportedly(bound, "ledger") < Unsupportedly(bound, "control"))
  {
    CountSelected(bound, Control, Unsupported);
    CountSelected(bound, Ledger, Unsupported);
    UnsupportedAlike(bound, Control, "control", Unsupported);
    UnsupportedAlike(bound, Ledger, "ledger", Unsupported);
  }

  lemma UnsupportedAlike(records: seq<Record>, group: Test, name: string, unsupported: Test)
    requires forall r :: group(r) == (r.group == name)
    requires forall r :: unsupported(r) == (r.processCompleted && !r.verifyOk)
    ensures Count(records, r => group(r) && unsupported(r)) == Unsupportedly(records, name)
  {
    CountSame(records, r => group(r) && unsupported(r), (r: Record) => r.group == name && r.processCompleted && !r.verifyOk);
  }

  lemma SelectTwice(records: seq<Record>, p: Test)
    ensures Select(Select(records, p), p) == Select(records, p)
  {
    SelectedFrom(records, p);
    SelectAll(Select(records, p), p);
  }

  lemma UndecidedBound(records: seq<Record>)
    ensures Undecided(Select(records, Bound)) <==> Undecided(records)
  {
    SelectedFrom(records, Bound);
    assert forall r :: r in Select(records, Bound) <==> r in records && Bound(r);
  }

  lemma SafetyTells(records: seq<Record>)
    ensures SafetyStatus(records) == StatusOf(true, Safe(records))
  {
    CountZero(records, Unsafe);
  }

  lemma BoundTells(records: seq<Record>, bound: seq<Record>)
    requires bound == Select(records, Bound) && Decide(records).Some? && !Undecided(bound)
    ensures GatesTell(Decide(records).value, bound)
  {
    SelectTwice(records, Bound);
    LongTells(bound);
    ShortTells(bound);
    RecoveryTells(bound);
    UnsupportedTells(bound);
  }

  /** Whenever there is a decision, each gate says what the records without binding violations say,
      and the last what all of them say. */
  lemma DecisionTells(records: seq<Record>)
    requires !Undecided(records)
    ensures Decide(records).Some? && GatesTell(Decide(records).value, Select(records, (r: Record) => !r.bindingViolation))
    ensures Decide(records).value.safety == if Safe(records) then Pass else NotMet
  {
    DecideFailsIff(records);
    UndecidedBound(records);
    BoundTells(records, Select(records, Bound));
    SafetyTells(records);
    SameSelection(records, Bound, (r: Record) => !r.bindingViolation);
  }

  lemma {:induction false} SameSelection(records: seq<Record>, p: Test, q: Test)
    requires forall r :: p(r) == q(r)
    ensures Select(records, p) == Select(records, q)
  {
    if records != [] {
      SameSelection(records[1..], p, q);
    }
  }

  /** The default is enabled exactly if nothing is unsafe, the long tasks and the recoveries improve by
      a twentieth, restorations hold, the short tasks stay within a fifth in time and in tokens, and
      there are fewer unsupported completions. */
  lemma EnablesIff(records: seq<Record>)
    ensures Enables(records) <==>
              && Safe(records)
              && Gains(records, Long("control"), Long("ledger"), (r: Record) => Some(r.verifyOk))
              && Gains(records, Recovering("control"), Recovering("ledger"), (r: Record) => r.workflowRecoverySuccess)
              && Restores(records)
              && Affordable(records, (r: Record) => r.elapsed) && Affordable(records, (r: Record) => r.totalTokens)
              && Unsupportedly(records, "ledger") < Unsupportedly(records, "control")
  {
    EnablesIfPasses(records);
    SafetyTells(records);
    CountZero(records, Unsafe);
    if Safe(records) {
      NothingUnsafeNothingFiltered(records);
      GainsMeans(records, Long("control"), Long("ledger"), IsLong, (r: Record) => Some(r.verifyOk), Verified);
      GainsMeans(records, Recovering("control"), Recovering("ledger"), Recovers, (r: Record) => r.workflowRecoverySuccess, Recovered);
      RestoresMeans(records);
      RatioTells(records, (r: Record) => r.elapsed, Elapsed);
      RatioTells(records, (r: Record) => r.totalTokens, Tokens);
      RatioMeans(records, Elapsed);
      RatioMeans(records, Tokens);
      UnsupportedTells(records);
    }
  }
}
