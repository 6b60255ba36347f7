/** The `WSJF` component: a vertical slider over four score rows, each row a
    horizontal slider over the score list, and the record of the four chosen
    scores with the two values derived from them. */
module WsjfCoordinator {
  import opened SliderHook
  import opened ScoreRow

  /** Rows in render order; Time to Fix is drawn after the Cost of Delay line. */
  const OperationalBenefitRow := 0
  const TimeCriticalityRow := 1
  const RiskReductionRow := 2
  const TimeToFixRow := 3
  const RowCount := 4

  /** The vertical slider: four slots, Down/Up, always active. */
  function VerticalConfig(): Config {
    Config(RowCount, ArrowDown, ArrowUp, true)
  }

  /** Row `i`'s horizontal slider while the vertical slider is at `activeRow`. */
  function RowConfig(i: int, activeRow: int): Config {
    Config(|WSJFScores|, ArrowRight, ArrowLeft, RowActive(activeRow, i))
  }

  /** `isActive={ currentYPosition === i }`. */
  predicate RowActive(activeRow: int, i: int) {
    activeRow == i
  }

  function ActiveRows(activeRow: int): set<int> {
    set i | 0 <= i < RowCount && RowActive(activeRow, i)
  }

  /** Every slider position of the component: the vertical one and one per row. */
  datatype Nav = Nav(row: int, cols: seq<int>)

  predicate NavValid(n: Nav) {
    InRange(VerticalConfig(), n.row) && |n.cols| == RowCount &&
    forall i :: 0 <= i < RowCount ==> InRange(RowConfig(i, n.row), n.cols[i])
  }

  /** The positions right after mounting. */
  const InitialNav := Nav(0, [0, 0, 0, 0])

  /** One keyup event reaches every listener; each slider steps with the props
      of the last render. */
  function Dispatch(n: Nav, k: Key): (r: Nav)
    requires |n.cols| == RowCount
    ensures |r.cols| == RowCount
    ensures NavValid(n) ==> NavValid(r)
  {
    Nav(Step(VerticalConfig(), n.row, k),
        [Step(RowConfig(0, n.row), n.cols[0], k),
         Step(RowConfig(1, n.row), n.cols[1], k),
         Step(RowConfig(2, n.row), n.cols[2], k),
         Step(RowConfig(3, n.row), n.cols[3], k)])
  }

  /** The four chosen scores and the two values derived from them. */
  datatype WsjfRecord = WsjfRecord(operationalBenefit: int, timeCriticality: int, riskReduction: int,
                                   timeToFix: int, costOfDelay: int, finalScore: real)

  function CostOfDelay(operationalBenefit: int, timeCriticality: int, riskReduction: int): int {
    operationalBenefit + timeCriticality + riskReduction
  }

  /** Exact division; the source divides JavaScript numbers. */
  function FinalScore(costOfDelay: int, timeToFix: int): real
    requires timeToFix != 0
  {
    costOfDelay as real / timeToFix as real
  }

  /** The record once both derivation effects have run over the four chosen
      values. */
  function Settled(ob: int, tc: int, rr: int, ttf: int): WsjfRecord
    requires ttf >= 1
  {
    var cod := CostOfDelay(ob, tc, rr);
    WsjfRecord(ob, tc, rr, ttf, cod, FinalScore(cod, ttf))
  }

  /** An independent statement of what the derived fields are: the cost of
      delay is the additive sum, and the final score is the number that,
      multiplied by the (positive) time to fix, gives back the cost of delay. */
  predicate Derived(w: WsjfRecord) {
    w.timeToFix >= 1 &&
    w.costOfDelay == w.operationalBenefit + w.timeCriticality + w.riskReduction &&
    w.finalScore * w.timeToFix as real == w.costOfDelay as real
  }

  /** The four chosen fields are members of the `WSJFScore` union. */
  predicate ScoresChosen(w: WsjfRecord) {
    IsScore(w.operationalBenefit) && IsScore(w.timeCriticality) &&
    IsScore(w.riskReduction) && IsScore(w.timeToFix)
  }

  /** The record that rows at horizontal positions `cols` have reported. */
  function ScoresAt(cols: seq<int>): WsjfRecord
    requires |cols| == RowCount && forall i :: 0 <= i < RowCount ==> 0 <= cols[i] < |WSJFScores|
  {
    ScoreBounds(ReportedValue(WSJFScores, cols[3]).value);
    Settled(ReportedValue(WSJFScores, cols[0]).value, ReportedValue(WSJFScores, cols[1]).value,
            ReportedValue(WSJFScores, cols[2]).value, ReportedValue(WSJFScores, cols[3]).value)
  }

  /** The record of the component whose sliders are at `n`. */
  function RecordOf(n: Nav): WsjfRecord
    requires NavValid(n)
  {
    ScoresAt(n.cols)
  }

  /** Dividing by a positive number is undone by multiplying by it. */
  lemma QuotientInverse(c: real, f: real, t: real)
    requires t > 0.0
    ensures f * t == c <==> f == c / t
  {
    if f * t == c {
      assert f == f * t / t;
    }
  }

  /** Dividing a non-negative number by a divisor between 1 and 21 lands
      between a twenty-first of it and itself. */
  lemma QuotientBounds(c: real, t: real)
    requires 1.0 <= t <= 21.0 && c >= 0.0
    ensures c / 21.0 <= c / t <= c
  {
    var q := c / t;
    assert q * t == c;
    assert q >= 0.0;
    assert q * 1.0 <= q * t;
    assert q * t <= q * 21.0;
  }

  /** The derived fields of a record are right exactly when the record is
      the settled record of its four chosen values. */
  lemma DerivedIffSettled(w: WsjfRecord)
    ensures Derived(w) <==>
      w.timeToFix >= 1 && w == Settled(w.operationalBenefit, w.timeCriticality, w.riskReduction, w.timeToFix)
  {
    if w.timeToFix >= 1 {
      QuotientInverse(w.costOfDelay as real, w.finalScore, w.timeToFix as real);
    }
  }

  /** With every chosen value a score, the cost of delay lies between 3 and
      63, and the final score between a twenty-first of it and itself. */
  lemma DerivedBounds(w: WsjfRecord)
    requires ScoresChosen(w) && Derived(w)
    ensures 3 <= w.costOfDelay <= 63
    ensures w.costOfDelay as real / 21.0 <= w.finalScore <= w.costOfDelay as real
  {
    ScoreBounds(w.operationalBenefit);
    ScoreBounds(w.timeCriticality);
    ScoreBounds(w.riskReduction);
    ScoreBounds(w.timeToFix);
    DerivedIffSettled(w);
    QuotientBounds(w.costOfDelay as real, w.timeToFix as real);
  }

  /** Every reachable record holds four scores, and its derived fields are
      the sum and the quotient of them. */
  lemma RecordConsistent(n: Nav)
    requires NavValid(n)
    ensures ScoresChosen(RecordOf(n))
    ensures Derived(RecordOf(n))
  {
    DerivedIffSettled(RecordOf(n));
  }

  /** The default state: every field 1, cost of delay 3, final score 3. */
  lemma InitialRecord()
    ensures NavValid(InitialNav)
    ensures RecordOf(InitialNav) == WsjfRecord(1, 1, 1, 1, 3, 3.0)
  {
  }

  /** Scores 8, 5, 3 with time to fix 2 give cost of delay 16 and final score 8. */
  lemma ExampleRecord()
    ensures Settled(8, 5, 3, 2).costOfDelay == 16
    ensures Settled(8, 5, 3, 2).finalScore == 8.0
  {
  }

  /** Exactly one row is active at any time: the one under the vertical slider. */
  lemma ExactlyOneRowActive(n: Nav)
    requires NavValid(n)
    ensures ActiveRows(n.row) == {n.row}
    ensures |ActiveRows(n.row)| == 1
  {
    assert n.row in ActiveRows(n.row);
    assert ActiveRows(n.row) == {n.row};
  }

  /** The same fact about the component's `Slider` objects: in a valid
      state, row `i`'s slider is active exactly when the vertical slider is
      at `i`. */
  lemma ActiveRowIsSelected(w: WSJF)
    requires w.Valid()
    ensures forall i :: 0 <= i < RowCount ==> (w.rows[i].isActive <==> i == w.vertical.position)
    ensures ActiveRows(w.vertical.position) == {w.vertical.position}
  {
    ExactlyOneRowActive(w.Positions());
  }

  /** No key moves two sliders: a vertical step leaves every row where it was,
      and a row that moves is the active one while the vertical slider stays. */
  lemma OneSliderMovesPerEvent(n: Nav, k: Key)
    requires NavValid(n)
    ensures Dispatch(n, k).row != n.row ==> Dispatch(n, k).cols == n.cols
    ensures forall i :: 0 <= i < RowCount && Dispatch(n, k).cols[i] != n.cols[i] ==>
              i == n.row && Dispatch(n, k).row == n.row
  {
    var r := Dispatch(n, k);
    if r.row != n.row {
      assert k == ArrowDown || k == ArrowUp;
      assert r.cols == n.cols;
    }
  }

  /** Each event changes at most one of the four chosen scores, so at most one
      row reports a new value. */
  lemma OneScorePerEvent(n: Nav, k: Key)
    requires NavValid(n)
    ensures var w, w' := RecordOf(n), RecordOf(Dispatch(n, k));
            (if w'.operationalBenefit != w.operationalBenefit then 1 else 0) +
            (if w'.timeCriticality != w.timeCriticality then 1 else 0) +
            (if w'.riskReduction != w.riskReduction then 1 else 0) +
            (if w'.timeToFix != w.timeToFix then 1 else 0) <= 1
  {
    OneSliderMovesPerEvent(n, k);
  }

  /** Down from row `i < 3` activates row `i + 1` and deactivates row `i`; Up
      from row `i > 0` activates row `i - 1`. No score changes. */
  lemma VerticalNavigation(n: Nav)
    requires NavValid(n)
    ensures n.row < RowCount - 1 ==>
              RowActive(Dispatch(n, ArrowDown).row, n.row + 1) && !RowActive(Dispatch(n, ArrowDown).row, n.row)
    ensures n.row > 0 ==>
              RowActive(Dispatch(n, ArrowUp).row, n.row - 1) && !RowActive(Dispatch(n, ArrowUp).row, n.row)
    ensures Dispatch(n, ArrowDown).cols == n.cols && Dispatch(n, ArrowUp).cols == n.cols
  {
  }

  /** The component's state: the five sliders it and its rows hold, and the
      six record fields. */
  class WSJF {
    const vertical: Slider
    /** The horizontal sliders of the rows Operational Benefit, Time
        Criticality, Risk Reduction and Time to Fix. */
    const rows: seq<Slider>
    var operationalBenefit: int
    var timeCriticality: int
    var riskReduction: int
    var timeToFix: int
    var costOfDelay: int
    var finalScore: real

    function Positions(): Nav
      reads vertical, rows
      requires |rows| == RowCount
    {
      Nav(vertical.position, [rows[0].position, rows[1].position, rows[2].position, rows[3].position])
    }

    function Fields(): WsjfRecord
      reads this
    {
      WsjfRecord(operationalBenefit, timeCriticality, riskReduction, timeToFix, costOfDelay, finalScore)
    }

    /** Five distinct sliders, configured as the component and its rows call
        the hook. */
    ghost predicate Wired()
      reads vertical, rows
    {
      |rows| == RowCount && vertical !in rows &&
      (forall i, j :: 0 <= i < j < RowCount ==> rows[i] != rows[j]) &&
      vertical.Props() == VerticalConfig() &&
      forall i :: 0 <= i < RowCount ==>
        rows[i].numItems == |WSJFScores| && rows[i].nextKey == ArrowRight && rows[i].prevKey == ArrowLeft
    }

    /** Wired, and each row's `isActive` prop is that of the last render. */
    ghost predicate Rendered()
      reads vertical, rows
    {
      Wired() && forall i :: 0 <= i < RowCount ==> rows[i].Props() == RowConfig(i, vertical.position)
    }

    /** Rendered, every slider in range, and the record the one the rows
        have reported. */
    ghost predicate Valid()
      reads this, vertical, rows
    {
      Rendered() && NavValid(Positions()) && Fields() == RecordOf(Positions())
    }

    /** Mounting: all sliders at slot 0, row 0 active, every score 1. */
    constructor()
      ensures Valid()
      ensures Positions() == InitialNav
      ensures Fields() == WsjfRecord(1, 1, 1, 1, 3, 3.0)
      ensures fresh(vertical) && fresh(rows[0]) && fresh(rows[1]) && fresh(rows[2]) && fresh(rows[3])
    {
      vertical := new Slider(RowCount, ArrowDown, ArrowUp);
      var ob := new Slider(|WSJFScores|, ArrowRight, ArrowLeft, 0, true);
      var tc := new Slider(|WSJFScores|, ArrowRight, ArrowLeft, 0, false);
      var rr := new Slider(|WSJFScores|, ArrowRight, ArrowLeft, 0, false);
      var ttf := new Slider(|WSJFScores|, ArrowRight, ArrowLeft, 0, false);
      rows := [ob, tc, rr, ttf];
      operationalBenefit, timeCriticality, riskReduction, timeToFix := 1, 1, 1, 1;
      costOfDelay := CostOfDelay(1, 1, 1);
      finalScore := FinalScore(CostOfDelay(1, 1, 1), 1);
      new;
      assert Positions() == InitialNav;
      InitialRecord();
    }

    /** The two derivation effects, in order: cost of delay first, then the
        final score from the new cost of delay. */
    method Recompute()
      requires ScoresChosen(Fields())
      modifies this`costOfDelay, this`finalScore
      ensures ScoresChosen(Fields())
      ensures Fields() == Settled(operationalBenefit, timeCriticality, riskReduction, timeToFix)
    {
      costOfDelay := operationalBenefit + timeCriticality + riskReduction;
      finalScore := costOfDelay as real / timeToFix as real;
    }

    /** `setOperationalBenefit`, then the effects it triggers. */
    method SetOperationalBenefit(v: Score)
      requires ScoresChosen(Fields())
      modifies this`operationalBenefit, this`costOfDelay, this`finalScore
      ensures operationalBenefit == v && ScoresChosen(Fields())
      ensures Fields() == Settled(operationalBenefit, timeCriticality, riskReduction, timeToFix)
    {
      operationalBenefit := v;
      Recompute();
    }

    /** `setTimeCriticality`, then the effects it triggers. */
    method SetTimeCriticality(v: Score)
      requires ScoresChosen(Fields())
      modifies this`timeCriticality, this`costOfDelay, this`finalScore
      ensures timeCriticality == v && ScoresChosen(Fields())
      ensures Fields() == Settled(operationalBenefit, timeCriticality, riskReduction, timeToFix)
    {
      timeCriticality := v;
      Recompute();
    }

    /** `setRiskReduction`, then the effects it triggers. */
    method SetRiskReduction(v: Score)
      requires ScoresChosen(Fields())
      modifies this`riskReduction, this`costOfDelay, this`finalScore
      ensures riskReduction == v && ScoresChosen(Fields())
      ensures Fields() == Settled(operationalBenefit, timeCriticality, riskReduction, timeToFix)
    {
      riskReduction := v;
      Recompute();
    }

    /** `setTimeToFix`, then the one effect it triggers: the final score. The
        cost of delay does not depend on the time to fix and is left alone. */
    method SetTimeToFix(v: Score)
      requires ScoresChosen(Fields())
      requires costOfDelay == CostOfDelay(operationalBenefit, timeCriticality, riskReduction)
      modifies this`timeToFix, this`finalScore
      ensures timeToFix == v && ScoresChosen(Fields())
      ensures Fields() == Settled(operationalBenefit, timeCriticality, riskReduction, timeToFix)
    {
      timeToFix := v;
      ScoreBounds(v);
      finalScore := costOfDelay as real / timeToFix as real;
    }

    /** Every registered keyup listener handles the event, each with the
        props of the last render. */
    method Deliver(k: Key)
      requires Rendered()
      modifies vertical, rows
      ensures Wired()
      ensures forall i :: 0 <= i < RowCount ==> rows[i].isActive == old(rows[i].isActive)
      ensures Positions() == Dispatch(old(Positions()), k)
    {
      vertical.OnKeyUp(k);
      rows[0].OnKeyUp(k);
      rows[1].OnKeyUp(k);
      rows[2].OnKeyUp(k);
      rows[3].OnKeyUp(k);
    }

    /** The re-render: row `i` gets `isActive={ currentYPosition === i }`. */
    method Render()
      requires Wired()
      modifies rows
      ensures Rendered()
      ensures Positions() == old(Positions())
    {
      rows[0].SetActive(vertical.position == 0);
      rows[1].SetActive(vertical.position == 1);
      rows[2].SetActive(vertical.position == 2);
      rows[3].SetActive(vertical.position == 3);
    }

    /** The effect of the Operational Benefit row: when its position moved
        from `was` to `now`, it reports the option at `now`. */
    method ReportOperationalBenefit(was: int, now: int, ghost cols: seq<int>)
      requires 0 <= was < |WSJFScores| && 0 <= now < |WSJFScores|
      requires |cols| == RowCount && forall i :: 0 <= i < RowCount ==> 0 <= cols[i] < |WSJFScores|
      requires Fields() == ScoresAt(cols[0 := was])
      modifies this`operationalBenefit, this`costOfDelay, this`finalScore
      ensures Fields() == ScoresAt(cols[0 := now])
    {
      if now != was {
        SetOperationalBenefit(ReportedValue(WSJFScores, now).value);
      }
    }

    /** The effect of the Time Criticality row. */
    method ReportTimeCriticality(was: int, now: int, ghost cols: seq<int>)
      requires 0 <= was < |WSJFScores| && 0 <= now < |WSJFScores|
      requires |cols| == RowCount && forall i :: 0 <= i < RowCount ==> 0 <= cols[i] < |WSJFScores|
      requires Fields() == ScoresAt(cols[1 := was])
      modifies this`timeCriticality, this`costOfDelay, this`finalScore
      ensures Fields() == ScoresAt(cols[1 := now])
    {
      if now != was {
        SetTimeCriticality(ReportedValue(WSJFScores, now).value);
      }
    }

    /** The effect of the Risk Reduction row. */
    method ReportRiskReduction(was: int, now: int, ghost cols: seq<int>)
      requires 0 <= was < |WSJFScores| && 0 <= now < |WSJFScores|
      requires |cols| == RowCount && forall i :: 0 <= i < RowCount ==> 0 <= cols[i] < |WSJFScores|
      requires Fields() == ScoresAt(cols[2 := was])
      modifies this`riskReduction, this`costOfDelay, this`finalScore
      ensures Fields() == ScoresAt(cols[2 := now])
    {
      if now != was {
        SetRiskReduction(ReportedValue(WSJFScores, now).value);
      }
    }

    /** The effect of the Time to Fix row. */
    method ReportTimeToFix(was: int, now: int, ghost cols: seq<int>)
      requires 0 <= was < |WSJFScores| && 0 <= now < |WSJFScores|
      requires |cols| == RowCount && forall i :: 0 <= i < RowCount ==> 0 <= cols[i] < |WSJFScores|
      requires Fields() == ScoresAt(cols[3 := was])
      modifies this`timeToFix, this`finalScore
      ensures Fields() == ScoresAt(cols[3 := now])
    {
      if now != was {
        SetTimeToFix(ReportedValue(WSJFScores, now).value);
      }
    }

    /** The effects of the first two rows, in render order. */
    method ReportFront(was: seq<int>, now: seq<int>)
      requires |was| == RowCount && forall i :: 0 <= i < RowCount ==> 0 <= was[i] < |WSJFScores|
      requires |now| == RowCount && forall i :: 0 <= i < RowCount ==> 0 <= now[i] < |WSJFScores|
      requires Fields() == ScoresAt(was)
      modifies this`operationalBenefit, this`timeCriticality, this`costOfDelay, this`finalScore
      ensures Fields() == ScoresAt([now[0], now[1], was[2], was[3]])
    {
      var c1 := [now[0], was[1], was[2], was[3]];
      assert was == c1[0 := was[0]];
      ReportOperationalBenefit(was[0], now[0], c1);
      var c2 := [now[0], now[1], was[2], was[3]];
      assert c1[0 := now[0]] == c2[1 := was[1]];
      ReportTimeCriticality(was[1], now[1], c2);
      assert c2[1 := now[1]] == c2;
    }

    /** The effects of the last two rows, in render order. */
    method ReportBack(was: seq<int>, now: seq<int>)
      requires |was| == RowCount && forall i :: 0 <= i < RowCount ==> 0 <= was[i] < |WSJFScores|
      requires |now| == RowCount && forall i :: 0 <= i < RowCount ==> 0 <= now[i] < |WSJFScores|
      requires Fields() == ScoresAt([now[0], now[1], was[2], was[3]])
      modifies this`riskReduction, this`timeToFix, this`costOfDelay, this`finalScore
      ensures Fields() == ScoresAt(now)
    {
      var c3 := [now[0], now[1], now[2], was[3]];
      assert [now[0], now[1], was[2], was[3]] == c3[2 := was[2]];
      ReportRiskReduction(was[2], now[2], c3);
      assert c3[2 := now[2]] == now[3 := was[3]];
      ReportTimeToFix(was[3], now[3], now);
      assert now[3 := now[3]] == now;
    }

    /** The rows' effects, in render order: a row whose position differs
        from `was` reports `options[currentXPosition]` to its setter. */
    method Report(was: seq<int>)
      requires Rendered() && NavValid(Positions())
      requires |was| == RowCount && forall i :: 0 <= i < RowCount ==> 0 <= was[i] < |WSJFScores|
      requires Fields() == ScoresAt(was)
      modifies this`operationalBenefit, this`timeCriticality, this`riskReduction, this`timeToFix
      modifies this`costOfDelay, this`finalScore
      ensures Valid()
    {
      var now := Positions().cols;
      ReportFront(was, now);
      ReportBack(was, now);
    }

    /** One keyup event: every listener handles it, the component re-renders
        with the new `isActive` props, and the rows report their changes. */
    method OnKeyUp(k: Key)
      requires Valid()
      modifies this, vertical, rows
      ensures Valid()
      ensures Positions() == Dispatch(old(Positions()), k)
      ensures Fields() == RecordOf(Positions())
    {
      var was := [rows[0].position, rows[1].position, rows[2].position, rows[3].position];
      Deliver(k);
      Render();
      Report(was);
    }
  }

  /** Mounting and a first key event compose: after Right, Operational
      Benefit is 2, the cost of delay 4 and the final score 4. */
  method MountAndPress() returns (w: WSJF)
    ensures w.Valid()
    ensures fresh(w.vertical) && fresh(w.rows[0]) && fresh(w.rows[1]) && fresh(w.rows[2]) && fresh(w.rows[3])
    ensures w.Positions() == Nav(OperationalBenefitRow, [1, 0, 0, 0])
    ensures w.Fields() == WsjfRecord(2, 1, 1, 1, 4, 4.0)
  {
    w := new WSJF();
    w.OnKeyUp(ArrowRight);
  }

  /** A session continues on the same component: Down then makes the Time
      Criticality row active and leaves the record as it was. */
  method Session() returns (w: WSJF)
    ensures w.Valid()
    ensures w.Positions() == Nav(TimeCriticalityRow, [1, 0, 0, 0])
    ensures w.Fields() == WsjfRecord(2, 1, 1, 1, 4, 4.0)
    ensures w.rows[TimeCriticalityRow].isActive && !w.rows[OperationalBenefitRow].isActive
  {
    w := MountAndPress();
    w.OnKeyUp(ArrowDown);
    ActiveRowIsSelected(w);
  }

  /** A longer session, at the level of positions: Right, three Downs, Right
      and a saturating Down give Operational Benefit 2 and time to fix 2,
      so the cost of delay 4 and the final score 2. */
  lemma LongSession()
    ensures var n := Dispatch(Dispatch(Dispatch(Dispatch(Dispatch(Dispatch(
              InitialNav, ArrowRight), ArrowDown), ArrowDown), ArrowDown), ArrowRight), ArrowDown);
      n == Nav(TimeToFixRow, [1, 0, 0, 1]) && RecordOf(n) == WsjfRecord(2, 1, 1, 2, 4, 2.0)
  {
  }
}
