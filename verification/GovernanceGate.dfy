/** The decision whether the native ledger becomes the default, over a list of run records.

    Rates and means are exact; the rounding of the means is the program's own, to one digit
    with ties to even. */
module GovernanceGate {
  import opened Seqs

  const SHORT_OVERHEAD_BUDGET := 1.20
  const LONG_IMPROVEMENT_MIN := 0.05
  const RECOVERY_IMPROVEMENT_MIN := 0.05

  /** A record as the harness writes it; a field is absent where it does not apply. */
  datatype Record = Record(
    group: string, category: string, workflow: string,
    bindingViolation: bool, verifyOk: bool, processCompleted: bool,
    workflowRecoverySuccess: Option<bool>, stateRestorationOk: Option<bool>,
    permissionBypass: Option<bool>, promptSurfaceDivergence: Option<bool>, nativeLedgerCompleted: Option<bool>,
    elapsed: Option<real>, totalTokens: Option<real>)

  type Test = Record -> bool

  // ---- Selecting, counting, adding ----

  function Select(records: seq<Record>, p: Test): seq<Record> {
    if records == [] then []
    else if p(records[0]) then [records[0]] + Select(records[1..], p)
    else Select(records[1..], p)
  }

  function Count(records: seq<Record>, p: Test): nat {
    if records == [] then 0 else (if p(records[0]) then 1 else 0) + Count(records[1..], p)
  }

  function Total(records: seq<Record>, f: Record -> Option<real>): real {
    if records == [] then 0.0 else f(records[0]).GetOr(0.0) + Total(records[1..], f)
  }

  /** The share of records on which a field is true, among those that have the field. */
  function Rate(records: seq<Record>, f: Record -> Option<bool>): Option<real> {
    var known := Count(records, r => f(r).Some?);
    if known == 0 then None else Some(Count(records, r => f(r) == Some(true)) as real / known as real)
  }

  /** To one digit, ties to even. */
  function RoundTenths(x: real): real {
    var y := 10.0 * x;
    var low := y.Floor;
    var rest := y - low as real;
    (if rest < 0.5 || (rest == 0.5 && low % 2 == 0) then low else low + 1) as real / 10.0
  }

  function MeanAvailable(records: seq<Record>, f: Record -> Option<real>): Option<real> {
    var n := Count(records, r => f(r).Some?);
    if n == 0 then None else Some(RoundTenths(Total(records, f) / n as real))
  }

  function Ratio(numerator: Option<real>, denominator: Option<real>): Option<real> {
    if numerator.None? || denominator.None? || denominator.value <= 0.0 then None
    else Some(numerator.value / denominator.value)
  }

  // ---- The arms ----

  function Control(r: Record): bool { r.group == "control" }
  function Ledger(r: Record): bool { r.group == "ledger" }
  function IsLong(r: Record): bool { r.category == "long" }
  function IsShort(r: Record): bool { r.category == "short" }
  function Recovers(r: Record): bool { r.workflow == "compaction" || r.workflow == "resume" }

  function Bound(r: Record): bool { !r.bindingViolation }

  function Arm(records: seq<Record>, group: Test, kind: Test): seq<Record> {
    Select(Select(Select(records, Bound), group), kind)
  }

  function Unsupported(r: Record): bool { r.processCompleted && !r.verifyOk }

  function Unsafe(r: Record): bool {
    || r.bindingViolation
    || r.permissionBypass == Some(true)
    || r.promptSurfaceDivergence == Some(true)
    || (r.nativeLedgerCompleted == Some(true) && !r.verifyOk)
  }

  // ---- The gates ----

  datatype Status = Pass | NotMet | Inconclusive

  datatype Gates = Gates(long: Status, short: Status, recovery: Status, unsupported: Status, safety: Status) {
    predicate Enabled() {
      long == Pass && short == Pass && recovery == Pass && unsupported == Pass && safety == Pass
    }
  }

  function Verified(r: Record): Option<bool> { Some(r.verifyOk) }

  function PassIf(b: bool): Status {
    if b then Pass else NotMet
  }

  function LongStatus(control: seq<Record>, ledger: seq<Record>): Status {
    if control == [] || ledger == [] then Inconclusive
    else PassIf(Rate(ledger, Verified).GetOr(0.0) - Rate(control, Verified).GetOr(0.0) >= LONG_IMPROVEMENT_MIN)
  }

  function Elapsed(r: Record): Option<real> { r.elapsed }
  function Tokens(r: Record): Option<real> { r.totalTokens }

  function ShortStatus(control: seq<Record>, ledger: seq<Record>): Status {
    var time := Ratio(MeanAvailable(ledger, Elapsed), MeanAvailable(control, Elapsed));
    var tokens := Ratio(MeanAvailable(ledger, Tokens), MeanAvailable(control, Tokens));
    if time.None? || tokens.None? then Inconclusive
    else PassIf(time.value <= SHORT_OVERHEAD_BUDGET && tokens.value <= SHORT_OVERHEAD_BUDGET)
  }

  function Recovered(r: Record): Option<bool> { r.workflowRecoverySuccess }
  function Restored(r: Record): Option<bool> { r.stateRestorationOk }

  /** No status when a rate is missing: the program fails on arithmetic with it. */
  function RecoveryStatus(control: seq<Record>, ledger: seq<Record>): Option<Status> {
    if control == [] || ledger == [] then Some(Inconclusive)
    else
      var before, after, restored := Rate(control, Recovered), Rate(ledger, Recovered), Rate(ledger, Restored);
      if before.None? || after.None? || restored.None? then None
      else Some(PassIf(restored.value == 1.0 && after.value - before.value >= RECOVERY_IMPROVEMENT_MIN))
  }

  function UnsupportedStatus(control: seq<Record>, ledger: seq<Record>): Status {
    PassIf(Count(ledger, Unsupported) < Count(control, Unsupported))
  }

  function SafetyStatus(records: seq<Record>): Status {
    PassIf(Count(records, Unsafe) == 0)
  }

  /** The five gates, or nothing when a recovery rate is undefined. */
  function Decide(records: seq<Record>): Option<Gates> {
    var recovery := RecoveryStatus(Arm(records, Control, Recovers), Arm(records, Ledger, Recovers));
    if recovery.None? then None
    else
      Some(Gates(
        LongStatus(Arm(records, Control, IsLong), Arm(records, Ledger, IsLong)),
        ShortStatus(Arm(records, Control, IsShort), Arm(records, Ledger, IsShort)),
        recovery.value,
        UnsupportedStatus(Select(Select(records, Bound), Control), Select(Select(records, Bound), Ledger)),
        SafetyStatus(records)))
  }

  predicate Enables(records: seq<Record>) {
    Decide(records).Some? && Decide(records).value.Enabled()
  }

  function Named(g: Gates): map<string, Status> {
    map["long_task_completion" := g.long, "short_task_overhead" := g.short, "recovery" := g.recovery,
        "unsupported_completion" := g.unsupported, "authority_and_safety" := g.safety]
  }

  lemma AllNamedPass(g: Gates)
    ensures (forall name :: name in Named(g) ==> Named(g)[name] == Pass) <==> g.Enabled()
  {
    assert "long_task_completion" in Named(g) && "short_task_overhead" in Named(g) && "recovery" in Named(g)
           && "unsupported_completion" in Named(g) && "authority_and_safety" in Named(g);
  }

  /** A field that no bound record of a recovery arm has. */
  ghost predicate Missing(records: seq<Record>, group: Test, f: Record -> Option<bool>) {
    forall r :: r in records && Bound(r) && group(r) && Recovers(r) ==> f(r).None?
  }

  ghost predicate HasRecovery(records: seq<Record>, group: Test) {
    exists r :: r in records && Bound(r) && group(r) && Recovers(r)
  }

  /** Both recovery arms have a bound record, and in one of them nothing is known of a rate. */
  ghost predicate Undecided(records: seq<Record>) {
    && HasRecovery(records, Control) && HasRecovery(records, Ledger)
    && (Missing(records, Control, Recovered) || Missing(records, Ledger, Recovered) || Missing(records, Ledger, Restored))
  }

  lemma ArmMembers(records: seq<Record>, group: Test, kind: Test)
    ensures forall r :: r in Arm(records, group, kind) <==> r in records && Bound(r) && group(r) && kind(r)
  {
    SelectedFrom(records, Bound);
    SelectedFrom(Select(records, Bound), group);
    SelectedFrom(Select(Select(records, Bound), group), kind);
  }

  lemma RecoveryArm(records: seq<Record>, group: Test)
    ensures Arm(records, group, Recovers) != [] <==> HasRecovery(records, group)
  {
    ArmMembers(records, group, Recovers);
    if Arm(records, group, Recovers) != [] {
      assert Arm(records, group, Recovers)[0] in Arm(records, group, Recovers);
    }
  }

  lemma UnknownRate(records: seq<Record>, group: Test, f: Record -> Option<bool>)
    ensures Rate(Arm(records, group, Recovers), f).None? <==> Missing(records, group, f)
  {
    ArmMembers(records, group, Recovers);
    CountZero(Arm(records, group, Recovers), r => f(r).Some?);
  }

  /** The decision fails exactly on the undecided records. */
  lemma DecideFailsIff(records: seq<Record>)
    ensures Decide(records).None? <==> Undecided(records)
  {
    RecoveryArm(records, Control);
    RecoveryArm(records, Ledger);
    UnknownRate(records, Control, Recovered);
    UnknownRate(records, Ledger, Recovered);
    UnknownRate(records, Ledger, Restored);
  }

  /** The decision as the program takes it: gate after gate into a table, then all of them. */
  method DecideDefault(records: seq<Record>) returns (failed: bool, gates: map<string, Status>, enabled: bool)
    ensures failed <==> Undecided(records)
    ensures !failed ==> Decide(records).Some? && gates == Named(Decide(records).value)
    ensures enabled <==> Enables(records)
  {
    failed, enabled, gates := true, false, map[];
    DecideFailsIff(records);
    var valid := Select(records, Bound);
    var control := Select(valid, Control);
    var ledger := Select(valid, Ledger);
    gates := gates["long_task_completion" := LongStatus(Select(control, IsLong), Select(ledger, IsLong))];
    gates := gates["short_task_overhead" := ShortStatus(Select(control, IsShort), Select(ledger, IsShort))];
    var recovery := RecoveryStatus(Select(control, Recovers), Select(ledger, Recovers));
    if recovery.None? {
      return;
    }
    gates := gates["recovery" := recovery.value];
    gates := gates["unsupported_completion" := UnsupportedStatus(control, ledger)];
    gates := gates["authority_and_safety" := SafetyStatus(records)];
    failed := false;
    enabled := forall name :: name in gates ==> gates[name] == Pass;
    AllNamedPass(Decide(records).value);
  }

  // ---- Counting through selections ----

  lemma {:induction false} CountSame(records: seq<Record>, p: Test, q: Test)
    requires forall i :: 0 <= i < |records| ==> p(records[i]) == q(records[i])
    ensures Count(records, p) == Count(records, q)
  {
    if records != [] {
      CountSame(records[1..], p, q);
    }
  }

  lemma {:induction false} CountSelected(records: seq<Record>, p: Test, q: Test)
    ensures Count(Select(records, p), q) == Count(records, r => p(r) && q(r))
  {
    if records != [] {
      CountSelected(records[1..], p, q);
      if p(records[0]) {
        assert Select(records, p)[1..] == Select(records[1..], p);
      }
    }
  }

  lemma {:induction false} CountZero(records: seq<Record>, p: Test)
    ensures Count(records, p) == 0 <==> forall r :: r in records ==> !p(r)
  {
    if records != [] {
      CountZero(records[1..], p);
      assert forall r :: r in records <==> r == records[0] || r in records[1..];
    }
  }

  lemma {:induction false} SelectedFrom(records: seq<Record>, p: Test)
    ensures forall r :: r in Select(records, p) <==> r in records && p(r)
  {
    if records != [] {
      SelectedFrom(records[1..], p);
    }
  }

  lemma {:induction false} SelectAll(records: seq<Record>, p: Test)
    requires forall r :: r in records ==> p(r)
    ensures Select(records, p) == records
  {
    if records != [] {
      SelectAll(records[1..], p);
    }
  }

  /** With nothing filtered out, an arm is counted on the records themselves. */
  lemma CountArm(records: seq<Record>, group: Test, kind: Test, q: Test)
    requires Select(records, Bound) == records
    ensures Count(Arm(records, group, kind), q) == Count(records, r => group(r) && kind(r) && q(r))
  {
    CountSelected(Select(records, group), kind, q);
    CountSelected(records, group, r => kind(r) && q(r));
    CountSame(records, r => group(r) && (r => kind(r) && q(r))(r), r => group(r) && kind(r) && q(r));
  }

  // ---- When the ledger becomes the default ----

  function Known(records: seq<Record>, group: Test, kind: Test, f: Record -> Option<bool>): nat {
    Count(records, r => group(r) && kind(r) && f(r).Some?)
  }

  function Hits(records: seq<Record>, group: Test, kind: Test, f: Record -> Option<bool>): nat {
    Count(records, r => group(r) && kind(r) && f(r) == Some(true))
  }

  /** The ledger's rate exceeds the control's by at least a twentieth, both rates known. */
  predicate Improves(records: seq<Record>, kind: Test, f: Record -> Option<bool>) {
    var n, m := Known(records, Control, kind, f), Known(records, Ledger, kind, f);
    && n > 0 && m > 0
    && 20 * (Hits(records, Ledger, kind, f) * n - Hits(records, Control, kind, f) * m) >= n * m
  }

  lemma RateOfArm(records: seq<Record>, group: Test, kind: Test, f: Record -> Option<bool>)
    requires Select(records, Bound) == records
    ensures Rate(Arm(records, group, kind), f)
            == if Known(records, group, kind, f) == 0 then None
               else Some(Hits(records, group, kind, f) as real / Known(records, group, kind, f) as real)
  {
    CountArm(records, group, kind, r => f(r).Some?);
    CountArm(records, group, kind, r => f(r) == Some(true));
    CountSame(records, r => group(r) && kind(r) && (r => f(r).Some?)(r), r => group(r) && kind(r) && f(r).Some?);
    CountSame(records, r => group(r) && kind(r) && (r => f(r) == Some(true))(r),
              r => group(r) && kind(r) && f(r) == Some(true));
  }

  lemma TwentiethApart(a: nat, m: nat, b: nat, n: nat)
    requires m > 0 && n > 0
    ensures a as real / m as real - b as real / n as real >= 0.05 <==> 20 * (a * n - b * m) >= n * m
  {
    CrossMultiplied(a as real, m as real, b as real, n as real);
    assert (a * n) as real == a as real * n as real && (b * m) as real == b as real * m as real;
    assert (n * m) as real == n as real * m as real;
  }

  lemma CrossMultiplied(a: real, m: real, b: real, n: real)
    requires m > 0.0 && n > 0.0
    ensures a / m - b / n >= 0.05 <==> 20.0 * (a * n - b * m) >= n * m
  {
    var x, y := a / m, b / n;
    assert x * m == a && y * n == b;
    var mn := n * m;
    Positive(n, m);
    assert a * n == x * mn && b * m == y * mn;
    ScaledAtLeast(x - y, 0.05, mn);
    assert (x - y) * mn == x * mn - y * mn;
  }

  lemma Positive(a: real, b: real)
    requires a > 0.0 && b > 0.0
    ensures a * b > 0.0
  {
  }

  lemma ScaledAtLeast(a: real, b: real, d: real)
    requires d > 0.0
    ensures a >= b <==> a * d >= b * d
  {
  }

  predicate NoneFails(records: seq<Record>, group: Test, kind: Test, f: Record -> Option<bool>) {
    forall r :: r in records && group(r) && kind(r) ==> f(r) != Some(false)
  }

  lemma {:induction false} HitsAndKnown(records: seq<Record>, group: Test, kind: Test, f: Record -> Option<bool>)
    ensures Hits(records, group, kind, f) <= Known(records, group, kind, f)
    ensures Hits(records, group, kind, f) == Known(records, group, kind, f) <==> NoneFails(records, group, kind, f)
  {
    if records != [] {
      var first, rest := records[0], records[1..];
      HitsAndKnown(rest, group, kind, f);
      assert forall r :: r in records <==> r == first || r in rest;
      var inArm := group(first) && kind(first);
      assert Known(records, group, kind, f) == (if inArm && f(first).Some? then 1 else 0) + Known(rest, group, kind, f);
      assert Hits(records, group, kind, f) == (if inArm && f(first) == Some(true) then 1 else 0) + Hits(rest, group, kind, f);
      if inArm && f(first) == Some(false) {
        assert !NoneFails(records, group, kind, f);
      } else {
        assert NoneFails(records, group, kind, f) <==> NoneFails(rest, group, kind, f);
        assert f(first).Some? ==> f(first) == if f(first).value then Some(true) else Some(false);
      }
    }
  }

  lemma RestorationWhole(records: seq<Record>)
    requires Select(records, Bound) == records
    ensures Rate(Arm(records, Ledger, Recovers), Restored) == Some(1.0)
            <==> Known(records, Ledger, Recovers, Restored) > 0 && NoneFails(records, Ledger, Recovers, Restored)
  {
    RateOfArm(records, Ledger, Recovers, Restored);
    HitsAndKnown(records, Ledger, Recovers, Restored);
    var n, h := Known(records, Ledger, Recovers, Restored), Hits(records, Ledger, Recovers, Restored);
    if n > 0 {
      WholeRate(h, n);
    }
  }

  lemma WholeRate(h: nat, n: nat)
    requires n > 0
    ensures h as real / n as real == 1.0 <==> h == n
  {
    assert (h as real / n as real) * n as real == h as real;
  }

  // ---- The short tasks ----

  function Measured(records: seq<Record>, group: Test, kind: Test, f: Record -> Option<real>): nat {
    Count(records, r => group(r) && kind(r) && f(r).Some?)
  }

  function SumMeasured(records: seq<Record>, group: Test, kind: Test, f: Record -> Option<real>): real {
    Total(records, r => if group(r) && kind(r) then f(r) else None)
  }

  /** The mean of a group's tasks of a kind, to one digit. */
  function KindMean(records: seq<Record>, group: Test, kind: Test, f: Record -> Option<real>): real
    requires Measured(records, group, kind, f) > 0
  {
    RoundTenths(SumMeasured(records, group, kind, f) / Measured(records, group, kind, f) as real)
  }

  /** Both means are known, the control's is positive, and the ledger's is at most a fifth
      above it. */
  predicate InBudget(records: seq<Record>, f: Record -> Option<real>) {
    && Measured(records, Control, IsShort, f) > 0 && Measured(records, Ledger, IsShort, f) > 0
    && KindMean(records, Control, IsShort, f) > 0.0
    && 5.0 * KindMean(records, Ledger, IsShort, f) <= 6.0 * KindMean(records, Control, IsShort, f)
  }

  lemma {:induction false} TotalSame(records: seq<Record>, f: Record -> Option<real>, g: Record -> Option<real>)
    requires forall i :: 0 <= i < |records| ==> f(records[i]) == g(records[i])
    ensures Total(records, f) == Total(records, g)
  {
    if records != [] {
      TotalSame(records[1..], f, g);
    }
  }

  lemma {:induction false} TotalSelected(records: seq<Record>, p: Test, f: Record -> Option<real>)
    ensures Total(Select(records, p), f) == Total(records, r => if p(r) then f(r) else None)
  {
    if records != [] {
      TotalSelected(records[1..], p, f);
      if p(records[0]) {
        assert Select(records, p)[1..] == Select(records[1..], p);
      }
    }
  }

  lemma MeanOfArm(records: seq<Record>, group: Test, kind: Test, f: Record -> Option<real>)
    requires Select(records, Bound) == records
    ensures MeanAvailable(Arm(records, group, kind), f)
            == if Measured(records, group, kind, f) == 0 then None else Some(KindMean(records, group, kind, f))
  {
    CountArm(records, group, kind, r => f(r).Some?);
    CountSame(records, r => group(r) && kind(r) && (r => f(r).Some?)(r), r => group(r) && kind(r) && f(r).Some?);
    TotalSelected(Select(records, group), kind, f);
    TotalSelected(records, group, r => if kind(r) then f(r) else None);
    TotalSame(records, r => if group(r) then (r => if kind(r) then f(r) else None)(r) else None,
              r => if group(r) && kind(r) then f(r) else None);
  }

  lemma RatioInBudget(a: real, b: real)
    requires b > 0.0
    ensures a / b <= SHORT_OVERHEAD_BUDGET <==> 5.0 * a <= 6.0 * b
  {
    var q := a / b;
    assert q * b == a;
    if q <= 1.20 {
      ScaledAtMost(q, 1.20, b);
    } else {
      ScaledAtMost(1.20, q, b);
      assert q * b > 1.20 * b by {
        Positive(q - 1.20, b);
        assert (q - 1.20) * b == q * b - 1.20 * b;
      }
    }
  }

  lemma ScaledAtMost(x: real, y: real, b: real)
    requires x <= y && b > 0.0
    ensures x * b <= y * b
  {
  }

  lemma ShortGateMeans(records: seq<Record>)
    requires Select(records, Bound) == records
    ensures ShortStatus(Arm(records, Control, IsShort), Arm(records, Ledger, IsShort)) == Pass
            <==> InBudget(records, Elapsed) && InBudget(records, Tokens)
  {
    RatioMeans(records, Elapsed);
    RatioMeans(records, Tokens);
  }

  lemma RatioMeans(records: seq<Record>, f: Record -> Option<real>)
    requires Select(records, Bound) == records
    ensures var ratio := Ratio(MeanAvailable(Arm(records, Ledger, IsShort), f), MeanAvailable(Arm(records, Control, IsShort), f));
            InBudget(records, f) <==> ratio.Some? && ratio.value <= SHORT_OVERHEAD_BUDGET
  {
    MeanOfArm(records, Control, IsShort, f);
    MeanOfArm(records, Ledger, IsShort, f);
    if Measured(records, Control, IsShort, f) > 0 && Measured(records, Ledger, IsShort, f) > 0 && KindMean(records, Control, IsShort, f) > 0.0 {
      RatioInBudget(KindMean(records, Ledger, IsShort, f), KindMean(records, Control, IsShort, f));
    }
  }

  // ---- The whole decision ----

  /** What enabling takes when nothing is filtered out. */
  predicate Passes(records: seq<Record>) {
    && (forall r :: r in records ==> !Unsafe(r))
    && Improves(records, IsLong, Verified)
    && Improves(records, Recovers, Recovered)
    && Known(records, Ledger, Recovers, Restored) > 0 && NoneFails(records, Ledger, Recovers, Restored)
    && InBudget(records, Elapsed) && InBudget(records, Tokens)
    && Count(Select(records, Ledger), Unsupported) < Count(Select(records, Control), Unsupported)
  }

  lemma NothingUnsafeNothingFiltered(records: seq<Record>)
    requires forall r :: r in records ==> !Unsafe(r)
    ensures Select(records, Bound) == records
  {
    SelectAll(records, Bound);
  }

  lemma LongGateMeans(records: seq<Record>)
    requires Select(records, Bound) == records
    ensures LongStatus(Arm(records, Control, IsLong), Arm(records, Ledger, IsLong)) == Pass
            <==> Improves(records, IsLong, Verified)
  {
    var control, ledger := Arm(records, Control, IsLong), Arm(records, Ledger, IsLong);
    AllKnown(control, Verified);
    AllKnown(ledger, Verified);
    RateOfArm(records, Control, IsLong, Verified);
    RateOfArm(records, Ledger, IsLong, Verified);
    ImprovesByRates(records, IsLong, Verified);
  }

  lemma {:induction false} AllKnown(records: seq<Record>, f: Record -> Option<bool>)
    requires forall r :: f(r).Some?
    ensures Count(records, r => f(r).Some?) == |records|
  {
    if records != [] {
      AllKnown(records[1..], f);
    }
  }

  lemma ImprovesByRates(records: seq<Record>, kind: Test, f: Record -> Option<bool>)
    requires Select(records, Bound) == records
    ensures var before, after := Rate(Arm(records, Control, kind), f), Rate(Arm(records, Ledger, kind), f);
            Improves(records, kind, f) <==> before.Some? && after.Some? && after.value - before.value >= 0.05
  {
    RateOfArm(records, Control, kind, f);
    RateOfArm(records, Ledger, kind, f);
    var n, m := Known(records, Control, kind, f), Known(records, Ledger, kind, f);
    if n > 0 && m > 0 {
      TwentiethApart(Hits(records, Ledger, kind, f), m, Hits(records, Control, kind, f), n);
    }
  }

  lemma RecoveryGateMeans(records: seq<Record>)
    requires Select(records, Bound) == records
    ensures RecoveryStatus(Arm(records, Control, Recovers), Arm(records, Ledger, Recovers)) == Some(Pass)
            <==> Improves(records, Recovers, Recovered)
                 && Known(records, Ledger, Recovers, Restored) > 0 && NoneFails(records, Ledger, Recovers, Restored)
  {
    RestorationWhole(records);
    ImprovesByRates(records, Recovers, Recovered);
  }

  lemma EnablesIfPasses(records: seq<Record>)
    ensures Enables(records) <==> Passes(records)
  {
    CountZero(records, Unsafe);
    if forall r :: r in records ==> !Unsafe(r) {
      NothingUnsafeNothingFiltered(records);
      LongGateMeans(records);
      ShortGateMeans(records);
      RecoveryGateMeans(records);
    }
  }

  /** One unsafe record of any group forces the answer no. */
  lemma UnsafeForbids(records: seq<Record>, bad: Record)
    requires bad in records && Unsafe(bad)
    ensures !Enables(records)
    ensures Decide(records).Some? ==> Decide(records).value.safety == NotMet
  {
    CountZero(records, Unsafe);
  }

  ghost predicate HasArm(records: seq<Record>, group: Test, kind: Test) {
    exists r :: r in records && group(r) && kind(r)
  }

  lemma ArmFromKnown(records: seq<Record>, group: Test, kind: Test, f: Record -> Option<bool>)
    requires Known(records, group, kind, f) > 0
    ensures HasArm(records, group, kind)
  {
    CountZero(records, r => group(r) && kind(r) && f(r).Some?);
  }

  /** When the default is enabled, all six arms have records, nothing is unsafe, the binding
      filter removed nothing, no ledger restoration is known to have failed, and the ledger
      completed strictly fewer tasks without support than the control, which did so at least
      once. */
  lemma EnablingGuarantees(records: seq<Record>)
    requires Enables(records)
    ensures HasArm(records, Control, IsLong) && HasArm(records, Ledger, IsLong)
    ensures HasArm(records, Control, IsShort) && HasArm(records, Ledger, IsShort)
    ensures HasArm(records, Control, Recovers) && HasArm(records, Ledger, Recovers)
    ensures forall r :: r in records ==> !Unsafe(r)
    ensures Select(records, Bound) == records
    ensures forall r :: r in records && Ledger(r) && Recovers(r) ==> r.stateRestorationOk != Some(false)
    ensures Count(Select(records, Ledger), Unsupported) < Count(Select(records, Control), Unsupported)
    ensures exists r :: r in records && Control(r) && Unsupported(r)
  {
    EnablesIfPasses(records);
    NothingUnsafeNothingFiltered(records);
    ImprovingArms(records, IsLong, Verified);
    ImprovingArms(records, Recovers, Recovered);
    ShortArms(records);
    SomeUnsupported(records);
  }

  lemma ImprovingArms(records: seq<Record>, kind: Test, f: Record -> Option<bool>)
    requires Improves(records, kind, f)
    ensures HasArm(records, Control, kind) && HasArm(records, Ledger, kind)
  {
    ArmFromKnown(records, Control, kind, f);
    ArmFromKnown(records, Ledger, kind, f);
  }

  lemma ArmFromMeasured(records: seq<Record>, group: Test, kind: Test, f: Record -> Option<real>)
    requires Measured(records, group, kind, f) > 0
    ensures HasArm(records, group, kind)
  {
    CountZero(records, r => group(r) && kind(r) && f(r).Some?);
  }

  lemma ShortArms(records: seq<Record>)
    requires InBudget(records, Elapsed)
    ensures HasArm(records, Control, IsShort) && HasArm(records, Ledger, IsShort)
  {
    ArmFromMeasured(records, Control, IsShort, Elapsed);
    ArmFromMeasured(records, Ledger, IsShort, Elapsed);
  }

  lemma SomeUnsupported(records: seq<Record>)
    requires Count(Select(records, Control), Unsupported) > 0
    ensures exists r :: r in records && Control(r) && Unsupported(r)
  {
    CountZero(Select(records, Control), Unsupported);
    SelectedFrom(records, Control);
  }

  // ---- The order of the records does not matter ----

  lemma {:induction false} SelectedOften(records: seq<Record>, p: Test, r: Record)
    ensures multiset(Select(records, p))[r] == if p(r) then multiset(records)[r] else 0
  {
    if records != [] {
      SelectedOften(records[1..], p, r);
      assert records == [records[0]] + records[1..];
    }
  }

  lemma SelectReordered(a: seq<Record>, b: seq<Record>, p: Test)
    requires multiset(a) == multiset(b)
    ensures multiset(Select(a, p)) == multiset(Select(b, p))
  {
    forall r: Record ensures multiset(Select(a, p))[r] == multiset(Select(b, p))[r] {
      SelectedOften(a, p, r);
      SelectedOften(b, p, r);
    }
  }

  lemma {:induction false} CountIsSelected(records: seq<Record>, p: Test)
    ensures Count(records, p) == |Select(records, p)|
  {
    if records != [] {
      CountIsSelected(records[1..], p);
    }
  }

  lemma CountReordered(a: seq<Record>, b: seq<Record>, p: Test)
    requires multiset(a) == multiset(b)
    ensures Count(a, p) == Count(b, p)
  {
    SelectReordered(a, b, p);
    CountIsSelected(a, p);
    CountIsSelected(b, p);
    assert |multiset(Select(a, p))| == |multiset(Select(b, p))|;
  }

  lemma {:induction false} TotalAppend(a: seq<Record>, b: seq<Record>, f: Record -> Option<real>)
    ensures Total(a + b, f) == Total(a, f) + Total(b, f)
  {
    if a == [] {
      assert a + b == b;
    } else {
      assert (a + b)[1..] == a[1..] + b;
      TotalAppend(a[1..], b, f);
    }
  }

  lemma WithoutOne(b: seq<Record>, i: nat)
    requires i < |b|
    ensures multiset(b) == multiset{b[i]} + multiset(b[..i] + b[i + 1..])
  {
    assert b == b[..i] + ([b[i]] + b[i + 1..]);
  }

  lemma CancelOne(r: Record, m: multiset<Record>, n: multiset<Record>)
    requires multiset{r} + m == multiset{r} + n
    ensures m == n
  {
    assert m == (multiset{r} + m) - multiset{r};
    assert n == (multiset{r} + n) - multiset{r};
  }

  lemma {:induction false} TotalReordered(a: seq<Record>, b: seq<Record>, f: Record -> Option<real>)
    requires multiset(a) == multiset(b)
    ensures Total(a, f) == Total(b, f)
    decreases |a|
  {
    if a == [] {
      assert |multiset(b)| == 0;
    } else {
      assert a[0] in multiset(b);
      var i :| 0 <= i < |b| && b[i] == a[0];
      var before, after := b[..i], b[i + 1..];
      assert a[..0] + a[1..] == a[1..];
      WithoutOne(a, 0);
      WithoutOne(b, i);
      CancelOne(a[0], multiset(a[1..]), multiset(before + after));
      TotalReordered(a[1..], before + after, f);
      assert b == before + ([b[i]] + after);
      TotalAppend(before, [b[i]] + after, f);
      TotalAppend(before, after, f);
    }
  }

  lemma ArmReordered(a: seq<Record>, b: seq<Record>, group: Test, kind: Test)
    requires multiset(a) == multiset(b)
    ensures multiset(Arm(a, group, kind)) == multiset(Arm(b, group, kind))
  {
    SelectReordered(a, b, Bound);
    SelectReordered(Select(a, Bound), Select(b, Bound), group);
    SelectReordered(Select(Select(a, Bound), group), Select(Select(b, Bound), group), kind);
  }

  lemma RateReordered(a: seq<Record>, b: seq<Record>, f: Record -> Option<bool>)
    requires multiset(a) == multiset(b)
    ensures Rate(a, f) == Rate(b, f)
  {
    CountReordered(a, b, r => f(r).Some?);
    CountReordered(a, b, r => f(r) == Some(true));
  }

  lemma MeanReordered(a: seq<Record>, b: seq<Record>, f: Record -> Option<real>)
    requires multiset(a) == multiset(b)
    ensures MeanAvailable(a, f) == MeanAvailable(b, f)
  {
    CountReordered(a, b, r => f(r).Some?);
    TotalReordered(a, b, f);
  }

  lemma LongReordered(a: seq<Record>, a': seq<Record>, b: seq<Record>, b': seq<Record>)
    requires multiset(a) == multiset(a') && multiset(b) == multiset(b')
    ensures LongStatus(a, b) == LongStatus(a', b')
  {
    RateReordered(a, a', Verified);
    RateReordered(b, b', Verified);
    assert |multiset(a)| == |multiset(a')| && |multiset(b)| == |multiset(b')|;
  }

  lemma ShortReordered(a: seq<Record>, a': seq<Record>, b: seq<Record>, b': seq<Record>)
    requires multiset(a) == multiset(a') && multiset(b) == multiset(b')
    ensures ShortStatus(a, b) == ShortStatus(a', b')
  {
    MeanReordered(a, a', Elapsed);
    MeanReordered(b, b', Elapsed);
    MeanReordered(a, a', Tokens);
    MeanReordered(b, b', Tokens);
  }

  lemma RecoveryReordered(a: seq<Record>, a': seq<Record>, b: seq<Record>, b': seq<Record>)
    requires multiset(a) == multiset(a') && multiset(b) == multiset(b')
    ensures RecoveryStatus(a, b) == RecoveryStatus(a', b')
  {
    RateReordered(a, a', Recovered);
    RateReordered(b, b', Recovered);
    RateReordered(b, b', Restored);
    assert |multiset(a)| == |multiset(a')| && |multiset(b)| == |multiset(b')|;
  }

  /** The decision, with all its gates, is the same for every order of the records. */
  lemma DecisionReordered(a: seq<Record>, b: seq<Record>)
    requires multiset(a) == multiset(b)
    ensures Decide(a) == Decide(b)
  {
    ArmReordered(a, b, Control, IsLong);
    ArmReordered(a, b, Ledger, IsLong);
    LongReordered(Arm(a, Control, IsLong), Arm(b, Control, IsLong), Arm(a, Ledger, IsLong), Arm(b, Ledger, IsLong));
    ArmReordered(a, b, Control, IsShort);
    ArmReordered(a, b, Ledger, IsShort);
    ShortReordered(Arm(a, Control, IsShort), Arm(b, Control, IsShort), Arm(a, Ledger, IsShort), Arm(b, Ledger, IsShort));
    ArmReordered(a, b, Control, Recovers);
    ArmReordered(a, b, Ledger, Recovers);
    RecoveryReordered(Arm(a, Control, Recovers), Arm(b, Control, Recovers), Arm(a, Ledger, Recovers), Arm(b, Ledger, Recovers));
    SelectReordered(a, b, Bound);
    SelectReordered(Select(a, Bound), Select(b, Bound), Control);
    SelectReordered(Select(a, Bound), Select(b, Bound), Ledger);
    CountReordered(Select(Select(a, Bound), Control), Select(Select(b, Bound), Control), Unsupported);
    CountReordered(Select(Select(a, Bound), Ledger), Select(Select(b, Bound), Ledger), Unsupported);
    CountReordered(a, b, Unsafe);
  }
}
