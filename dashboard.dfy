/** The statistics behind the two ring-chart dashboards: `LeetcodeDashboard`
    (dashboard/LeetcodeDashboard.kt) and `AnimatedLeetcodeDashboard`
    (LcTrackerApp.kt). Both count over the problem list with Kotlin's
    `count { ... }` and turn per-tier solved counts into sweep angles. Angles
    are exact reals here; the source computes them in `Float`. */
module Dashboard {
  import opened Problems

  // ---------------------------------------------------------------------
  // Counting (`problems.count { ... }`)
  // ---------------------------------------------------------------------

  /** `count { it.isSolved }` */
  function SolvedCount(ps: seq<Problem>): (n: nat)
    ensures n <= |ps|
  {
    if ps == [] then 0
    else (if ps[0].isSolved then 1 else 0) + SolvedCount(ps[1..])
  }

  /** `count { !it.isSolved }`: every record is either solved or attempting. */
  function AttemptingCount(ps: seq<Problem>): (n: nat)
    ensures n + SolvedCount(ps) == |ps|
  {
    if ps == [] then 0
    else (if !ps[0].isSolved then 1 else 0) + AttemptingCount(ps[1..])
  }

  /** `count { it.difficulty == d }` */
  function TierTotal(ps: seq<Problem>, d: Difficulty): (n: nat)
    ensures n <= |ps|
  {
    if ps == [] then 0
    else (if ps[0].difficulty == d then 1 else 0) + TierTotal(ps[1..], d)
  }

  /** `count { it.difficulty == d && it.isSolved }`: never more than the
      tier holds, and never more than are solved overall. */
  function TierSolved(ps: seq<Problem>, d: Difficulty): (n: nat)
    ensures n <= TierTotal(ps, d)
    ensures n <= SolvedCount(ps)
  {
    if ps == [] then 0
    else (if ps[0].difficulty == d && ps[0].isSolved then 1 else 0) + TierSolved(ps[1..], d)
  }

  /** The three tiers split the list: their totals add up to its size. */
  lemma {:induction false} TierTotalsPartition(ps: seq<Problem>)
    ensures TierTotal(ps, Easy) + TierTotal(ps, Medium) + TierTotal(ps, Hard) == |ps|
  {
    if ps != [] {
      TierTotalsPartition(ps[1..]);
    }
  }

  /** The tiers split the solved records too. */
  lemma {:induction false} TierSolvedPartition(ps: seq<Problem>)
    ensures TierSolved(ps, Easy) + TierSolved(ps, Medium) + TierSolved(ps, Hard) == SolvedCount(ps)
  {
    if ps != [] {
      TierSolvedPartition(ps[1..]);
    }
  }

  // ---------------------------------------------------------------------
  // The aggregate of LeetcodeDashboard.kt, lines 20-30
  // ---------------------------------------------------------------------

  /** `size.coerceAtLeast(1)`: the divisor for the angles. */
  function Clamped(size: nat): (total: nat)
    ensures total >= 1 && total >= size
    ensures size == 0 ==> total == 1
    ensures size >= 1 ==> total == size
  {
    if size < 1 then 1 else size
  }

  datatype Stats = Stats(
    total: nat,        // the clamped divisor
    solved: nat,
    attempting: nat,
    easy: nat, totalEasy: nat,
    medium: nat, totalMedium: nat,
    hard: nat, totalHard: nat)

  /** Everything `LeetcodeDashboard` derives from the list before drawing. */
  function DashboardStats(ps: seq<Problem>): (st: Stats)
    ensures st.total == if ps == [] then 1 else |ps|
    ensures st.solved + st.attempting == |ps|
    ensures st.totalEasy + st.totalMedium + st.totalHard == |ps|
    ensures st.easy + st.medium + st.hard == st.solved
    ensures st.easy <= st.totalEasy && st.medium <= st.totalMedium && st.hard <= st.totalHard
  {
    TierTotalsPartition(ps);
    TierSolvedPartition(ps);
    Stats(Clamped(|ps|), SolvedCount(ps), AttemptingCount(ps),
          TierSolved(ps, Easy), TierTotal(ps, Easy),
          TierSolved(ps, Medium), TierTotal(ps, Medium),
          TierSolved(ps, Hard), TierTotal(ps, Hard))
  }

  // ---------------------------------------------------------------------
  // Sweep angles and arcs (LeetcodeDashboard.kt, lines 56-70)
  // ---------------------------------------------------------------------

  /** `tierSolved.toFloat() / total * 360f`, exactly: the share of a full
      turn that the tier's solved records take of the (clamped) list. */
  function SweepAngle(tierSolved: nat, total: nat): (angle: real)
    requires total >= 1
    ensures angle * total as real == tierSolved as real * 360.0
    ensures 0.0 <= angle
    ensures tierSolved <= total ==> angle <= 360.0
  {
    var angle := tierSolved as real / total as real * 360.0;
    assert angle * total as real == tierSolved as real * 360.0;
    if tierSolved <= total then
      assert tierSolved as real * 360.0 <= total as real * 360.0;
      angle
    else
      angle
  }

  /** `sweepAngles`, in tier order EASY, MEDIUM, HARD: each is its tier's
      solved share of the divisor, and when the tiers' solved counts fit in
      the divisor each lies in [0, 360] and together they take at most one
      turn, exactly the solved share. */
  function SweepAngles(st: Stats): (sw: seq<real>)
    requires st.total >= 1
    ensures |sw| == 3
    ensures sw[0] * st.total as real == st.easy as real * 360.0
    ensures sw[1] * st.total as real == st.medium as real * 360.0
    ensures sw[2] * st.total as real == st.hard as real * 360.0
    ensures Sum(sw) == SweepAngle(st.easy + st.medium + st.hard, st.total)
    ensures st.easy + st.medium + st.hard <= st.total ==>
              (forall i :: 0 <= i < 3 ==> 0.0 <= sw[i] <= 360.0) && Sum(sw) <= 360.0
  {
    var sw := [SweepAngle(st.easy, st.total), SweepAngle(st.medium, st.total), SweepAngle(st.hard, st.total)];
    SumOfThree(sw);
    SweepsAdd(st.easy, st.medium, st.hard, st.total);
    sw
  }

  function Sum(xs: seq<real>): real
  {
    if xs == [] then 0.0 else xs[0] + Sum(xs[1..])
  }

  lemma SumOfThree(xs: seq<real>)
    requires |xs| == 3
    ensures Sum(xs) == xs[0] + xs[1] + xs[2]
  {
    var t1 := xs[1..];
    var t2 := t1[1..];
    assert t2[1..] == [];
    assert Sum(t2) == xs[2];
    assert Sum(t1) == xs[1] + Sum(t2);
  }

  /** Two sweeps over the same divisor add up to the sweep of their sum. */
  lemma SweepLinear(a: nat, b: nat, total: nat)
    requires total >= 1
    ensures SweepAngle(a, total) + SweepAngle(b, total) == SweepAngle(a + b, total)
  {
    var t := total as real;
    var d := SweepAngle(a, total) + SweepAngle(b, total) - SweepAngle(a + b, total);
    assert d * t == 0.0;
  }

  /** Three sweeps over the same divisor add up to the sweep of their sum;
      when that sum is within the divisor they take at most one turn. */
  lemma SweepsAdd(a: nat, b: nat, c: nat, total: nat)
    requires total >= 1
    ensures SweepAngle(a, total) + SweepAngle(b, total) + SweepAngle(c, total) == SweepAngle(a + b + c, total)
    ensures a + b + c <= total ==> SweepAngle(a, total) + SweepAngle(b, total) + SweepAngle(c, total) <= 360.0
  {
    SweepLinear(a, b, total);
    SweepLinear(a + b, c, total);
  }

  /** On the dashboard's own statistics the sweeps always fit in one turn and
      together are the solved share of the list. */
  lemma SweepsBounded(ps: seq<Problem>)
    ensures forall i :: 0 <= i < 3 ==> 0.0 <= SweepAngles(DashboardStats(ps))[i] <= 360.0
    ensures Sum(SweepAngles(DashboardStats(ps))) == SweepAngle(SolvedCount(ps), Clamped(|ps|))
    ensures Sum(SweepAngles(DashboardStats(ps))) <= 360.0
  {
    var st := DashboardStats(ps);
    assert st.solved == SolvedCount(ps) && st.total == Clamped(|ps|);
    SweepsOfFittingStats(st);
  }

  lemma SweepsOfFittingStats(st: Stats)
    requires st.total >= 1 && st.easy + st.medium + st.hard == st.solved <= st.total
    ensures forall i :: 0 <= i < 3 ==> 0.0 <= SweepAngles(st)[i] <= 360.0
    ensures Sum(SweepAngles(st)) == SweepAngle(st.solved, st.total) <= 360.0
  {
  }

  /** One arc of the ring: where it starts and how far it sweeps, in degrees. */
  datatype Arc = Arc(start: real, sweep: real)

  /** Where both dashboards start drawing: twelve o'clock. */
  const RingOrigin: real := -90.0

  /** Arcs laid end to end from `origin`, one per sweep, each starting where
      the previous one ends. */
  function LaidEndToEnd(origin: real, sweeps: seq<real>): (arcs: seq<Arc>)
    decreases |sweeps|
    ensures |arcs| == |sweeps|
    ensures forall i :: 0 <= i < |arcs| ==> arcs[i].sweep == sweeps[i]
    ensures |arcs| > 0 ==> arcs[0].start == origin
  {
    if sweeps == [] then []
    else [Arc(origin, sweeps[0])] + LaidEndToEnd(origin + sweeps[0], sweeps[1..])
  }

  /** Each laid arc starts exactly where the previous one ends. */
  lemma {:induction false} ArcsEndToEnd(origin: real, sweeps: seq<real>, i: nat)
    requires i + 1 < |sweeps|
    decreases |sweeps|
    ensures LaidEndToEnd(origin, sweeps)[i + 1].start
         == LaidEndToEnd(origin, sweeps)[i].start + LaidEndToEnd(origin, sweeps)[i].sweep
  {
    var arcs := LaidEndToEnd(origin, sweeps);
    var tail := LaidEndToEnd(origin + sweeps[0], sweeps[1..]);
    assert arcs[1..] == tail;
    if i > 0 {
      ArcsEndToEnd(origin + sweeps[0], sweeps[1..], i - 1);
      assert arcs[i] == tail[i - 1] && arcs[i + 1] == tail[i];
    } else {
      assert arcs[1] == tail[0];
    }
  }

  /** Every arc starts no earlier than `origin` and ends no later than
      `origin + budget`. */
  predicate WithinBudget(arcs: seq<Arc>, origin: real, budget: real)
  {
    forall i :: 0 <= i < |arcs| ==> origin <= arcs[i].start && arcs[i].start + arcs[i].sweep <= origin + budget
  }

  /** Every arc ends before any later arc starts. */
  predicate NonOverlapping(arcs: seq<Arc>)
  {
    forall i, j :: 0 <= i < j < |arcs| ==> arcs[i].start + arcs[i].sweep <= arcs[j].start
  }

  /** With non-negative sweeps that add up to at most `budget`, the arcs stay
      between the origin and `origin + budget`, and none overlaps a later one. */
  lemma {:induction false} ArcsWithinBudget(origin: real, sweeps: seq<real>, budget: real)
    requires forall i :: 0 <= i < |sweeps| ==> 0.0 <= sweeps[i]
    requires Sum(sweeps) <= budget
    decreases |sweeps|
    ensures WithinBudget(LaidEndToEnd(origin, sweeps), origin, budget)
    ensures NonOverlapping(LaidEndToEnd(origin, sweeps))
  {
    if sweeps != [] {
      var rest := sweeps[1..];
      assert forall i :: 0 <= i < |rest| ==> 0.0 <= rest[i] by {
        forall i | 0 <= i < |rest| ensures 0.0 <= rest[i] { assert rest[i] == sweeps[i + 1]; }
      }
      SumNonNegative(rest);
      assert Sum(sweeps) == sweeps[0] + Sum(rest);
      ArcsWithinBudget(origin + sweeps[0], rest, budget - sweeps[0]);
      ConsWithinBudget(origin, sweeps, budget);
      ConsNonOverlapping(origin, sweeps, budget);
    }
  }

  /** Putting a first arc of non-negative sweep in front of arcs that fit in
      the rest of the budget gives arcs that fit in the whole budget. */
  lemma ConsWithinBudget(origin: real, sweeps: seq<real>, budget: real)
    requires sweeps != [] && 0.0 <= sweeps[0] <= budget
    requires WithinBudget(LaidEndToEnd(origin + sweeps[0], sweeps[1..]), origin + sweeps[0], budget - sweeps[0])
    ensures WithinBudget(LaidEndToEnd(origin, sweeps), origin, budget)
  {
    var arcs := LaidEndToEnd(origin, sweeps);
    var tail := LaidEndToEnd(origin + sweeps[0], sweeps[1..]);
    assert arcs[1..] == tail;
    forall i | 0 <= i < |arcs|
      ensures origin <= arcs[i].start && arcs[i].start + arcs[i].sweep <= origin + budget
    {
      if i > 0 {
        assert arcs[i] == tail[i - 1];
      } else {
        assert arcs[0] == Arc(origin, sweeps[0]);
      }
    }
  }

  /** The first arc ends where the rest begin, so it overlaps none of them. */
  lemma ConsNonOverlapping(origin: real, sweeps: seq<real>, budget: real)
    requires sweeps != []
    requires WithinBudget(LaidEndToEnd(origin + sweeps[0], sweeps[1..]), origin + sweeps[0], budget - sweeps[0])
    requires NonOverlapping(LaidEndToEnd(origin + sweeps[0], sweeps[1..]))
    ensures NonOverlapping(LaidEndToEnd(origin, sweeps))
  {
    var arcs := LaidEndToEnd(origin, sweeps);
    var tail := LaidEndToEnd(origin + sweeps[0], sweeps[1..]);
    assert arcs[1..] == tail;
    forall i, j | 0 <= i < j < |arcs|
      ensures arcs[i].start + arcs[i].sweep <= arcs[j].start
    {
      assert arcs[j] == tail[j - 1];
      if i > 0 { assert arcs[i] == tail[i - 1]; }
    }
  }

  lemma {:induction false} SumNonNegative(xs: seq<real>)
    requires forall i :: 0 <= i < |xs| ==> 0.0 <= xs[i]
    ensures 0.0 <= Sum(xs)
  {
    if xs != [] {
      assert forall i :: 0 <= i < |xs[1..]| ==> 0.0 <= xs[1..][i] by {
        forall i | 0 <= i < |xs[1..]| ensures 0.0 <= xs[1..][i] { assert xs[1..][i] == xs[i + 1]; }
      }
      SumNonNegative(xs[1..]);
    }
  }

  /** `startAngles = listOf(0f, sweepAngles[0], sweepAngles[0] + sweepAngles[1])`. */
  function StartAngles(sw: seq<real>): (starts: seq<real>)
    requires |sw| == 3
    ensures |starts| == 3
    ensures forall i :: 0 <= i < 3 ==> starts[i] + RingOrigin == LaidEndToEnd(RingOrigin, sw)[i].start
  {
    ArcsEndToEnd(RingOrigin, sw, 0);
    ArcsEndToEnd(RingOrigin, sw, 1);
    [0.0, sw[0], sw[0] + sw[1]]
  }

  /** The arcs `LeetcodeDashboard` draws: arc i starts at `startAngles[i] - 90f`
      and sweeps `sweepAngles[i]`. They are the tier sweeps laid end to end
      from twelve o'clock and fit in one turn. */
  function DashboardArcs(ps: seq<Problem>): (arcs: seq<Arc>)
    ensures arcs == LaidEndToEnd(RingOrigin, SweepAngles(DashboardStats(ps)))
    ensures WithinBudget(arcs, RingOrigin, 360.0) && NonOverlapping(arcs)
  {
    var sw := SweepAngles(DashboardStats(ps));
    var starts := StartAngles(sw);
    var arcs := seq(3, i requires 0 <= i < 3 => Arc(starts[i] + RingOrigin, sw[i]));
    SweepsBounded(ps);
    ArcsWithinBudget(RingOrigin, sw, 360.0);
    var chain := LaidEndToEnd(RingOrigin, sw);
    assert arcs == chain by {
      assert arcs[0] == chain[0];
      assert arcs[1] == chain[1];
      assert arcs[2] == chain[2];
    }
    arcs
  }

  /** What `LeetcodeDashboard` prints in the ring: "$solved", "/$total Solved"
      and "$attempting Attempting". */
  datatype Readout = Readout(solved: nat, denominator: nat, attempting: nat)

  /** The ring's text in `LeetcodeDashboard`: the denominator is the clamped
      total, so an empty list reads "0" over "/1". */
  function DashboardReadout(ps: seq<Problem>): (r: Readout)
    ensures r.denominator >= 1
    ensures r.solved + r.attempting == |ps|
    ensures r.denominator == if ps == [] then 1 else |ps|
  {
    var st := DashboardStats(ps);
    Readout(st.solved, st.total, st.attempting)
  }

  /** The per-tier chips, `easy to totalEasy` and so on. */
  function TierPairs(ps: seq<Problem>): (pairs: seq<(nat, nat)>)
    ensures |pairs| == 3
    ensures forall i :: 0 <= i < 3 ==> pairs[i].0 <= pairs[i].1
    ensures pairs[0].1 + pairs[1].1 + pairs[2].1 == |ps|
    ensures pairs[0].0 + pairs[1].0 + pairs[2].0 == SolvedCount(ps)
  {
    var st := DashboardStats(ps);
    [(st.easy, st.totalEasy), (st.medium, st.totalMedium), (st.hard, st.totalHard)]
  }

  /** An empty list is drawn without dividing by zero: every count is 0, the
      divisor is 1 and every sweep is 0. */
  lemma EmptyDashboard()
    ensures DashboardStats([]) == Stats(1, 0, 0, 0, 0, 0, 0, 0, 0)
    ensures SweepAngles(DashboardStats([])) == [0.0, 0.0, 0.0]
    ensures DashboardReadout([]) == Readout(0, 1, 0)
  {
  }

  // ---------------------------------------------------------------------
  // AnimatedLeetcodeDashboard (LcTrackerApp.kt, lines 213-277)
  // ---------------------------------------------------------------------

  /** The target angles handed to `animateFloatAsState`:
      `(tierSolved / total.toFloat()) * 360f`, the same shares as the
      static dashboard's sweeps. */
  function AnimatedTargets(ps: seq<Problem>): (angles: seq<real>)
    ensures angles == SweepAngles(DashboardStats(ps))
  {
    var total := Clamped(|ps|);
    [ SweepAngle(TierSolved(ps, Easy), total),
      SweepAngle(TierSolved(ps, Medium), total),
      SweepAngle(TierSolved(ps, Hard), total) ]
  }

  /** The drawing block: `var startAngle = -90f`, one `drawArc` per tier and
      `startAngle += angle` after each of the first two. The arcs it draws
      are the given angles laid end to end from twelve o'clock. */
  method AnimatedArcs(easyAngle: real, mediumAngle: real, hardAngle: real) returns (arcs: seq<Arc>)
    ensures arcs == LaidEndToEnd(RingOrigin, [easyAngle, mediumAngle, hardAngle])
  {
    var startAngle := -90.0;
    arcs := [Arc(startAngle, easyAngle)];
    startAngle := startAngle + easyAngle;
    arcs := arcs + [Arc(startAngle, mediumAngle)];
    startAngle := startAngle + mediumAngle;
    arcs := arcs + [Arc(startAngle, hardAngle)];
    var chain := LaidEndToEnd(RingOrigin, [easyAngle, mediumAngle, hardAngle]);
    ArcsEndToEnd(RingOrigin, [easyAngle, mediumAngle, hardAngle], 0);
    ArcsEndToEnd(RingOrigin, [easyAngle, mediumAngle, hardAngle], 1);
    assert arcs[0] == chain[0] && arcs[1] == chain[1] && arcs[2] == chain[2];
  }

  /** The ring's text in the animated dashboard: "$solved/${problems.size}"
      and "$attempting Attempting" - the denominator is the unclamped size. */
  function AnimatedReadout(ps: seq<Problem>): (r: Readout)
    ensures r.solved + r.attempting == |ps|
    ensures r.denominator == |ps|
  {
    Readout(SolvedCount(ps), |ps|, AttemptingCount(ps))
  }

  /** Once the animation has settled on its targets, both dashboards draw the
      same arcs; their ring numbers (solved, denominator, attempting) agree
      exactly when the list is not empty (the only case in which the app
      shows the animated one). The two print those numbers in different
      layouts, which is not modelled. */
  lemma DashboardsAgree(ps: seq<Problem>)
    ensures LaidEndToEnd(RingOrigin, AnimatedTargets(ps)) == DashboardArcs(ps)
    ensures (AnimatedReadout(ps) == DashboardReadout(ps)) <==> ps != []
  {
  }
}
