/** The classification rules of StatData.processTestResults (itemal.py:1265-1344) and of
    the doLine570 .. doLine690 chain it calls (itemal.py:1195-1263). Every ratio the
    program forms in floating point (ICOUNT / N, JTOT / N, KSUM / JTOT, ISUM / N) is an
    exact `real` here. The normal-ordinate, biserial, point-biserial and T formulas are
    not modelled: the biserial coefficient they compute is an input. */
module Classify {
  import opened Wrappers

  function Abs(x: real): real {
    if x < 0.0 then -x else x
  }

  function Max(a: real, b: real): real {
    if a < b then b else a
  }

  /** The relative tolerance of isclose (itemal.py:50-51, the same default as
      math.isclose); the absolute tolerance is 0. */
  const RelTol: real := 0.000000001

  predicate IsClose(a: real, b: real) {
    Abs(a - b) <= Max(RelTol * Max(Abs(a), Abs(b)), 0.0)
  }

  /** With abs_tol = 0, being close to 0 means being 0. */
  lemma IsCloseZero(x: real)
    ensures IsClose(x, 0.0) <==> x == 0.0
  {
    if x != 0.0 {
      assert Max(Abs(x), 0.0) == Abs(x);
      assert RelTol * Abs(x) < Abs(x);
    }
  }

  /** A float ratio count / N, here exact. */
  function Ratio(count: int, n: int): real
    requires n != 0
  {
    count as real / n as real
  }

  /** Multiplying both sides by a positive k keeps an inequality. */
  lemma ScaleLe(a: real, b: real, k: real)
    requires k > 0.0
    ensures a <= b <==> a * k <= b * k
  {
    assert b * k - a * k == (b - a) * k;
    if a > b {
      assert (a - b) * k > 0.0;
    }
  }

  /** A proportion count / n of a class lies in [0, 1], and n times its distance to 1
      is the number of students who did not count. */
  lemma RatioInUnit(count: int, n: int)
    requires 0 <= count <= n && 1 <= n
    ensures 0.0 <= Ratio(count, n) <= 1.0
    ensures (1.0 - Ratio(count, n)) * (n as real) == (n - count) as real
  {
    var nr := n as real;
    var d := Ratio(count, n);
    assert d * nr == count as real;
    ScaleLe(d, 1.0, nr);
    ScaleLe(0.0, d, nr);
  }

  /** A proportion correct is close to 1 exactly when every student answered correctly,
      for any class of fewer than 999999999 students. */
  lemma IsCloseOne(count: int, n: int)
    requires 0 <= count <= n < 999999999 && 1 <= n
    ensures IsClose(Ratio(count, n), 1.0) <==> count == n
  {
    var d := Ratio(count, n);
    RatioInUnit(count, n);
    assert Max(RelTol * Max(Abs(d), Abs(1.0)), 0.0) == RelTol;
    if count < n {
      // scaled by n, the gap 1 - d is at least one student, and the tolerance is not
      ScaleLe(1.0 - d, RelTol, n as real);
      assert RelTol * (n as real) < 1.0;
    } else {
      assert d == 1.0;
    }
  }

  // ----- Difficulty: the distribution by passing status -----

  /** The five rows of the distribution of items by the percentage of students passing
      them (itemal.py:1035-1039), counted in IDO, IDTW, IDTH, IDFO and IDFI. */
  datatype Passing = Pass0To19 | Pass20To39 | Pass40To59 | Pass60To79 | Pass80To100

  /** The row of an item whose proportion correct is d (itemal.py:1273-1288), or None
      when d exceeds 1 and a message is logged instead. A negative d, which no count
      produces, falls in the first row. */
  function PassingBand(d: real): (r: Option<Passing>)
    ensures r.None? <==> d > 1.0
  {
    if d <= 0.19 then Some(Pass0To19)
    else if d <= 0.39 then Some(Pass20To39)
    else if d <= 0.59 then Some(Pass40To59)
    else if d <= 0.79 then Some(Pass60To79)
    else if d <= 1.0 then Some(Pass80To100)
    else None
  }

  function PassingRank(b: Passing): nat {
    match b
    case Pass0To19 => 0
    case Pass20To39 => 1
    case Pass40To59 => 2
    case Pass60To79 => 3
    case Pass80To100 => 4
  }

  /** The report row holding an integer percentage 0..100. */
  function PercentRow(p: int): Passing {
    if p <= 19 then Pass0To19
    else if p <= 39 then Pass20To39
    else if p <= 59 then Pass40To59
    else if p <= 79 then Pass60To79
    else Pass80To100
  }

  function Ceil(x: real): int {
    -((-x).Floor)
  }

  lemma CeilAtMost(x: real, m: int)
    ensures Ceil(x) <= m <==> x <= m as real
  {
    assert (-x).Floor as real <= -x < (-x).Floor as real + 1.0;
  }

  /** An item lands in the report row that holds its percentage of students passing,
      rounded up to a whole percent: the thresholds 0.19, 0.39, ... are the rows' upper
      bounds 19 %, 39 %, ... */
  lemma PassingBandPercent(d: real)
    requires 0.0 <= d <= 1.0
    ensures PassingBand(d) == Some(PercentRow(Ceil(100.0 * d)))
  {
    CeilAtMost(100.0 * d, 19);
    CeilAtMost(100.0 * d, 39);
    CeilAtMost(100.0 * d, 59);
    CeilAtMost(100.0 * d, 79);
  }

  /** A harder item never lands in a higher row than an easier one. */
  lemma PassingBandMonotone(d1: real, d2: real)
    requires d1 <= d2 <= 1.0
    ensures PassingBand(d1).Some? && PassingBand(d2).Some?
    ensures PassingRank(PassingBand(d1).value) <= PassingRank(PassingBand(d2).value)
  {
  }

  /** The proportions correct of a test's items, DIFI = ICOUNT / N (itemal.py:1273-1274). */
  function Difficulties(icount: seq<int>, n: int): (r: seq<real>)
    requires n != 0
    ensures |r| == |icount|
  {
    seq(|icount|, i requires 0 <= i < |icount| => Ratio(icount[i], n))
  }

  /** The message logged for an item whose proportion correct exceeds 1. */
  datatype Message = DifficultyOutOfRange(item: nat)

  /** How many of the items in ds land in row b. */
  function CountIn(ds: seq<real>, b: Passing): (r: nat)
    ensures r <= |ds|
  {
    if ds == [] then 0
    else CountIn(ds[..|ds| - 1], b) + (if PassingBand(ds[|ds| - 1]) == Some(b) then 1 else 0)
  }

  /** The messages for the items of ds that land in no row, items numbered from 1. */
  function OutOfRange(ds: seq<real>): seq<Message> {
    if ds == [] then []
    else OutOfRange(ds[..|ds| - 1]) + (if PassingBand(ds[|ds| - 1]).None? then [DifficultyOutOfRange(|ds|)] else [])
  }

  function RowTotal(ds: seq<real>): nat {
    CountIn(ds, Pass0To19) + CountIn(ds, Pass20To39) + CountIn(ds, Pass40To59)
      + CountIn(ds, Pass60To79) + CountIn(ds, Pass80To100)
  }

  /** Every item is counted in exactly one row or has exactly one message. */
  lemma {:induction false} EveryItemOnce(ds: seq<real>)
    ensures RowTotal(ds) + |OutOfRange(ds)| == |ds|
  {
    if ds != [] {
      EveryItemOnce(ds[..|ds| - 1]);
    }
  }

  /** No message is logged for a count between 0 and N, so every item is counted. */
  lemma CountsInRange(icount: seq<int>, n: int)
    requires n >= 1 && forall i :: 0 <= i < |icount| ==> 0 <= icount[i] <= n
    ensures OutOfRange(Difficulties(icount, n)) == []
    ensures RowTotal(Difficulties(icount, n)) == |icount|
  {
    NoneOutOfRange(icount, n);
    EveryItemOnce(Difficulties(icount, n));
  }

  lemma {:induction false} NoneOutOfRange(icount: seq<int>, n: int)
    requires n >= 1 && forall i :: 0 <= i < |icount| ==> 0 <= icount[i] <= n
    ensures OutOfRange(Difficulties(icount, n)) == []
  {
    if icount != [] {
      var m := |icount| - 1;
      var ds := Difficulties(icount, n);
      NoneOutOfRange(icount[..m], n);
      assert ds[..m] == Difficulties(icount[..m], n);
      RatioAtMostOne(icount[m], n);
      assert ds[m] == Ratio(icount[m], n);
    }
  }

  /** A count between 0 and N is a proportion of at most 1. */
  lemma RatioAtMostOne(c: int, n: int)
    requires n >= 1 && 0 <= c <= n
    ensures Ratio(c, n) <= 1.0
  {
    assert Ratio(c, n) * (n as real) == c as real;
  }

  // ----- The difficulty index IDI -----

  /** The difficulty index of an item with proportion correct d when only the test
      summary is printed (itemal.py:1290-1301): 5 for the window (0.40, 0.61], then 4, 3
      and 2 for wider windows around it, 1 outside them all. */
  function IndexBand(d: real): (r: int)
    ensures 1 <= r <= 5
  {
    if 0.40 < d <= 0.61 then 5
    else if 0.30 < d <= 0.71 then 4
    else if 0.20 < d <= 0.81 then 3
    else if 0.10 < d <= 0.91 then 2
    else 1
  }

  /** The window for index b: (Lo(b), Hi(b)]; the windows are nested. */
  function Lo(b: int): real {
    if b >= 5 then 0.40 else if b == 4 then 0.30 else if b == 3 then 0.20 else 0.10
  }

  function Hi(b: int): real {
    if b >= 5 then 0.61 else if b == 4 then 0.71 else if b == 3 then 0.81 else 0.91
  }

  /** The first-match chain computes the largest b whose window holds d: the index is
      at least b (2 <= b <= 5) exactly when d lies in window b. */
  lemma IndexBandWindows(d: real, b: int)
    requires 2 <= b <= 5
    ensures IndexBand(d) >= b <==> Lo(b) < d <= Hi(b)
  {
  }

  /** The IDI entries the loop at itemal.py:1290-1301 writes. */
  function IndexBands(ds: seq<real>): (r: seq<int>)
    ensures |r| == |ds|
  {
    seq(|ds|, i requires 0 <= i < |ds| => IndexBand(ds[i]))
  }

  // ----- Distractor flags IDIST -----

  /** CHEK (itemal.py:1110): the smallest proportion of students an option must attract,
      by number of choices. */
  const Chek: seq<real> := [0.2, 0.2, 0.1, 0.07, 0.05, 0.04, 0.04, 0.04, 0.04]

  /** The number of options 1..JCHO that the loops over `range(1, JCHO + 1)` visit, with
      JCHO = ICHO + 1 (itemal.py:1187): none for a negative ICHO. */
  function OptionCount(icho: int): (r: nat)
    ensures r == 0 <==> icho < 0
  {
    if icho < 0 then 0 else icho + 1
  }

  /** The CHEK threshold the first pass compares with. For a negative ICHO there are no
      options, so the first pass never reads CHEK, and 0.0 stands in for it. */
  function ChekOf(icho: int): real
    requires icho <= 8
  {
    if icho < 0 then 0.0 else Chek[icho]
  }

  /** The proportion of students choosing an option, PROP = JTOT / N (itemal.py:1272). */
  function PropRow(tot: seq<int>, n: int): (r: seq<real>)
    requires n != 0
    ensures |r| == |tot|
  {
    seq(|tot|, j requires 0 <= j < |tot| => Ratio(tot[j], n))
  }

  /** The mean score of the students choosing an option, CMEAN = KSUM / JTOT, 0 when no
      one chose it (itemal.py:1271). */
  function CMeanRow(ksum: seq<int>, tot: seq<int>): (r: seq<real>)
    requires |ksum| == |tot|
    ensures |r| == |tot|
  {
    seq(|tot|, j requires 0 <= j < |tot| => if tot[j] <= 0 then 0.0 else Ratio(ksum[j], tot[j]))
  }

  /** Column j (1-based) of a PROP or CMEAN row, read as the fill value 0.0 past the
      ICHO + 1 options. That is what the storage holds there in a file's first
      section; a later section with fewer options would read what an earlier one
      wrote, which this model does not carry over. */
  function Column(row: seq<real>, j: int): real {
    if 1 <= j <= |row| then row[j - 1] else 0.0
  }

  /** Option j (1-based) of an item whose key is option k is questionable when it draws
      too few students (the key: fewer than 20 % or more than 80 %), when its students
      score higher on average than the key's, or when the key's students score below the
      test mean. */
  predicate Questionable(prop: seq<real>, cmean: seq<real>, j: int, k: int, chek: real, fmean: real)
    requires 1 <= j <= |prop| && |cmean| == |prop|
  {
    || (if j == k then prop[k - 1] < 0.2 || prop[k - 1] > 0.8 else prop[j - 1] < chek)
    || cmean[j - 1] > Column(cmean, k)
    || Column(cmean, k) < fmean
  }

  /** The IDIST code of a flag: 2 for questionable, 1 otherwise. */
  function FlagCode(questionable: bool): int {
    if questionable then 2 else 1
  }

  /** The key's own test, against the 20 %-80 % window. */
  predicate OutsideWindow(p: real) {
    p < 0.2 || p > 0.8
  }

  /** The number of columns of an IDIST row: the options, and the key's column when
      the key lies past them. */
  function RowWidth(options: nat, k: int): nat {
    if k <= options then options else k
  }

  /** The IDIST row of an item: the options' flags, then, when the key lies past the
      options, the fill value 0 up to the key's column, whose flag is read off the
      fill value of PROP. */
  function FlagRow(prop: seq<real>, cmean: seq<real>, k: int, chek: real, fmean: real): (r: seq<int>)
    requires 1 <= k && |cmean| == |prop|
    ensures |r| == RowWidth(|prop|, k)
  {
    seq(RowWidth(|prop|, k), j requires 0 <= j < RowWidth(|prop|, k) =>
      if j < |prop| then FlagCode(Questionable(prop, cmean, j + 1, k, chek, fmean))
      else if j == k - 1 then FlagCode(OutsideWindow(Column(prop, k)))
      else 0)
  }

  /** A key past the options (a key answer above ICHO) reads PROP and CMEAN as 0.0: its
      own column is flagged, and so is every option whose students scored above 0, or
      every option at all when the test mean is positive. */
  lemma KeyPastOptions(prop: seq<real>, cmean: seq<real>, k: int, chek: real, fmean: real)
    requires |prop| < k && |cmean| == |prop|
    ensures FlagRow(prop, cmean, k, chek, fmean)[k - 1] == 2
    ensures forall j :: 0 <= j < |prop| && (cmean[j] > 0.0 || fmean > 0.0) ==> FlagRow(prop, cmean, k, chek, fmean)[j] == 2
    ensures forall j :: |prop| <= j < k - 1 ==> FlagRow(prop, cmean, k, chek, fmean)[j] == 0
  {
    var r := FlagRow(prop, cmean, k, chek, fmean);
    assert Column(prop, k) == 0.0 && Column(cmean, k) == 0.0;
    assert r[k - 1] == FlagCode(OutsideWindow(0.0));
  }

  /** With no options at all (a negative ICHO), only the key's column is written, and it
      is flagged; the threshold CHEK plays no part. */
  lemma NoOptionsFlagKeyOnly(k: int, chek: real, fmean: real)
    requires 1 <= k
    ensures FlagRow([], [], k, chek, fmean) == seq(k - 1, _ => 0) + [2]
    ensures forall other: real :: FlagRow([], [], k, other, fmean) == FlagRow([], [], k, chek, fmean)
  {
    KeyPastOptions([], [], k, chek, fmean);
    assert FlagRow([], [], k, chek, fmean) == seq(k - 1, _ => 0) + [2];
  }

  /** The three passes of itemal.py:1311-1318 over one item's options: every option
      against CHEK, then the key against the 20 %-80 % window, then every option not yet
      flagged against the key's mean score and the test mean. */
  method FlagItem(prop: seq<real>, cmean: seq<real>, k: int, chek: real, fmean: real) returns (row: seq<int>)
    requires 1 <= k && |cmean| == |prop|
    ensures row == FlagRow(prop, cmean, k, chek, fmean)
  {
    row := [];
    var j := 0;
    while j < |prop|
      invariant 0 <= j <= |prop| && |row| == j
      invariant forall t :: 0 <= t < j ==> row[t] == FlagCode(prop[t] < chek)
    {
      row := row + [FlagCode(prop[j] < chek)];
      j := j + 1;
    }
    if |prop| < k {
      row := row + seq(k - |prop|, _ => 0);
    }
    row := row[k - 1 := FlagCode(OutsideWindow(Column(prop, k)))];
    j := 0;
    while j < |prop|
      invariant 0 <= j <= |prop| && |row| == RowWidth(|prop|, k)
      invariant forall t :: 0 <= t < j ==> row[t] == FlagRow(prop, cmean, k, chek, fmean)[t]
      invariant forall t :: j <= t < |prop| && t != k - 1 ==> row[t] == FlagCode(prop[t] < chek)
      invariant k - 1 >= j ==> row[k - 1] == FlagCode(OutsideWindow(Column(prop, k)))
      invariant forall t :: |prop| <= t < |row| ==> row[t] == FlagRow(prop, cmean, k, chek, fmean)[t]
    {
      if row[j] != 2 {
        if cmean[j] > Column(cmean, k) || Column(cmean, k) < fmean {
          row := row[j := 2];
        }
      }
      j := j + 1;
    }
  }

  // ----- The correlation buckets -----

  /** The six rows of the distribution of items by biserial correlation
      (itemal.py:1042-1048), counted in IDVP, IDP, IDG, IDVG, IDVVG and IDEX. */
  datatype Discrimination = VeryPoor | Poor | Fair | Good | VeryGood | Excellent

  /** The row of a biserial coefficient (doLine630 and doLine640, itemal.py:1225-1258). */
  function ScoreBand(bis: real): Discrimination {
    if bis <= 0.11 then VeryPoor
    else if bis <= 0.31 then Poor
    else if bis <= 0.51 then Fair
    else if bis <= 0.71 then Good
    else if bis <= 0.91 then VeryGood
    else Excellent
  }

  function ScoreRank(b: Discrimination): nat {
    match b
    case VeryPoor => 0
    case Poor => 1
    case Fair => 2
    case Good => 3
    case VeryGood => 4
    case Excellent => 5
  }

  /** The IBI code each row records: the two highest rows share 5. */
  function ScoreCode(b: Discrimination): (r: int)
    ensures 1 <= r <= 5
  {
    if b == Excellent then 5 else ScoreRank(b) + 1
  }

  /** A higher correlation never lands in a lower row, nor gets a lower IBI. */
  lemma ScoreBandMonotone(b1: real, b2: real)
    requires b1 <= b2
    ensures ScoreRank(ScoreBand(b1)) <= ScoreRank(ScoreBand(b2))
    ensures ScoreCode(ScoreBand(b1)) <= ScoreCode(ScoreBand(b2))
  {
  }

  /** What the final loop (itemal.py:1320-1344) does with one item: items whose
      proportion correct is negative, 0 or 1 stop at doLine570 with BIS = 0 (Skipped);
      the others pass doLine620 once and are rated by their biserial, which is 0 when
      the score distribution has no spread (isclose(SDEV, 0), doLine632). */
  datatype Correlation = Skipped | Rated(difi: real, bis: real)

  predicate Correlated(d: real) {
    !(d < 0.0) && !IsClose(d, 0.0) && !IsClose(d, 1.0)
  }

  function Correlate(d: real, flat: bool, computed: real): (r: Correlation)
    ensures r.Rated? <==> Correlated(d)
    ensures r.Rated? ==> r.difi == d
    ensures r.Rated? && flat ==> r.bis == 0.0 && ScoreBand(r.bis) == VeryPoor
  {
    if Correlated(d) then
      Rated(d, if flat then 0.0 else computed)
    else Skipped
  }

  /** An item is rated exactly when some but not all students answered it correctly. */
  lemma CorrelatedCounts(count: int, n: int)
    requires 0 <= count <= n < 999999999 && n >= 1
    ensures Correlated(Ratio(count, n)) <==> 0 < count < n
  {
    IsCloseZero(Ratio(count, n));
    IsCloseOne(count, n);
    assert Ratio(count, n) * (n as real) == count as real;
  }

  function Correlations(ds: seq<real>, flat: bool, computed: seq<real>): (r: seq<Correlation>)
    requires |computed| == |ds|
    ensures |r| == |ds|
  {
    seq(|ds|, i requires 0 <= i < |ds| => Correlate(ds[i], flat, computed[i]))
  }

  /** The BIS entry of an item: 0 unless it is rated. */
  function BisOf(c: Correlation): real {
    if c.Rated? then c.bis else 0.0
  }

  function BisRow(cs: seq<Correlation>): (r: seq<real>)
    ensures |r| == |cs|
  {
    seq(|cs|, t requires 0 <= t < |cs| => BisOf(cs[t]))
  }

  /** The IBI entry of an item: 0 (never written) unless it is rated. */
  function IbiOf(c: Correlation): int {
    if c.Rated? then ScoreCode(ScoreBand(c.bis)) else 0
  }

  function IbiRow(cs: seq<Correlation>): (r: seq<int>)
    ensures |r| == |cs|
  {
    seq(|cs|, t requires 0 <= t < |cs| => IbiOf(cs[t]))
  }

  lemma RowsStep(cs: seq<Correlation>, i: nat)
    requires i < |cs|
    ensures BisRow(cs[..i + 1]) == BisRow(cs[..i]) + [BisOf(cs[i])]
    ensures IbiRow(cs[..i + 1]) == IbiRow(cs[..i]) + [IbiOf(cs[i])]
  {
  }

  /** What rated items add to IDVP, IDP, IDG, IDVG, IDVVG and IDEX and to the sums SDI,
      SBIS and VAR (doLine620 and doLine690, itemal.py:1216 and 1260-1263). */
  datatype Ratings = Ratings(vp: int, p: int, g: int, vg: int, vvg: int, ex: int, sdi: real, sbis: real, variance: real)

  const NoRatings := Ratings(0, 0, 0, 0, 0, 0, 0.0, 0.0, 0.0)

  function Plus(a: Ratings, b: Ratings): Ratings {
    Ratings(a.vp + b.vp, a.p + b.p, a.g + b.g, a.vg + b.vg, a.vvg + b.vvg, a.ex + b.ex,
            a.sdi + b.sdi, a.sbis + b.sbis, a.variance + b.variance)
  }

  function One(c: Correlation, b: Discrimination): int {
    if c.Rated? && ScoreBand(c.bis) == b then 1 else 0
  }

  /** The contribution of one item: one row counter, its difficulty to SDI, its
      biserial to SBIS and DIFI * (1 - DIFI) to VAR, or nothing when it is skipped. */
  function RatingOf(c: Correlation): Ratings {
    if c.Skipped? then NoRatings
    else Ratings(One(c, VeryPoor), One(c, Poor), One(c, Fair), One(c, Good), One(c, VeryGood), One(c, Excellent),
                 c.difi, c.bis, c.difi * (1.0 - c.difi))
  }

  /** What the first i items of cs contribute, item by item. */
  function RatingsUpTo(cs: seq<Correlation>, i: nat): Ratings
    requires i <= |cs|
  {
    if i == 0 then NoRatings else Plus(RatingsUpTo(cs, i - 1), RatingOf(cs[i - 1]))
  }

  /** What all the items of cs contribute. */
  function RatingsOf(cs: seq<Correlation>): Ratings {
    RatingsUpTo(cs, |cs|)
  }

  /** After the first i items of cs: the rows bis and ibi hold their entries and the
      counters and sums `now` have grown from `base` by what they contribute. Uses
      write it as `RatedState(..) == true`, which keeps it folded in their proofs. */
  ghost predicate RatedState(cs: seq<Correlation>, i: nat, base: Ratings, bis: seq<real>, ibi: seq<int>, now: Ratings) {
    && i <= |cs|
    && bis == BisRow(cs[..i]) && ibi == IbiRow(cs[..i])
    && now == Plus(base, RatingsUpTo(cs, i))
  }

  lemma PlusAssociative(a: Ratings, b: Ratings, c: Ratings)
    ensures Plus(Plus(a, b), c) == Plus(a, Plus(b, c))
  {
  }

  /** The total of the six row counters. */
  function RowsTotal(r: Ratings): int {
    r.vp + r.p + r.g + r.vg + r.vvg + r.ex
  }

  function RatedCount(cs: seq<Correlation>): nat {
    if cs == [] then 0 else RatedCount(cs[..|cs| - 1]) + (if cs[|cs| - 1].Rated? then 1 else 0)
  }

  /** Every rated item is counted in exactly one of the six rows, and skipped items in
      none. */
  lemma EveryRatedOnce(cs: seq<Correlation>)
    ensures RowsTotal(RatingsOf(cs)) == RatedCount(cs)
  {
    EveryRatedUpTo(cs, |cs|);
    assert cs[..|cs|] == cs;
  }

  /** The same for the first i items. */
  lemma EveryRatedUpTo(cs: seq<Correlation>, i: nat)
    requires i <= |cs|
    ensures RowsTotal(RatingsUpTo(cs, i)) == RatedCount(cs[..i])
  {
    RowsUpTo(cs, i);
    RatedPrefix(cs, i);
  }

  /** The number of rated items among the first i of cs. */
  function RatedUpTo(cs: seq<Correlation>, i: nat): nat
    requires i <= |cs|
  {
    if i == 0 then 0 else RatedUpTo(cs, i - 1) + (if cs[i - 1].Rated? then 1 else 0)
  }

  /** The rows of the first i items add up to the number of them that are rated. */
  lemma RowsUpTo(cs: seq<Correlation>, i: nat)
    requires i <= |cs|
    ensures RowsTotal(RatingsUpTo(cs, i)) == RatedUpTo(cs, i)
  {
  }

  /** Counting the rated items by index or over the prefix agrees. */
  lemma {:induction false} RatedPrefix(cs: seq<Correlation>, i: nat)
    requires i <= |cs|
    ensures RatedUpTo(cs, i) == RatedCount(cs[..i])
  {
    if i > 0 {
      RatedPrefix(cs, i - 1);
      assert cs[..i][..i - 1] == cs[..i - 1];
    }
  }

  /** The items some but not all students answered correctly, numbered from 0. */
  function Discriminating(icount: seq<int>, n: int): set<int> {
    set i | 0 <= i < |icount| && 0 < icount[i] < n
  }

  /** The rated items are exactly those some but not all students answered correctly. */
  lemma RatedItems(icount: seq<int>, n: int, flat: bool, computed: seq<real>)
    requires 1 <= n < 999999999 && |computed| == |icount|
    requires forall i :: 0 <= i < |icount| ==> 0 <= icount[i] <= n
    ensures RowsTotal(RatingsOf(Correlations(Difficulties(icount, n), flat, computed))) == |Discriminating(icount, n)|
  {
    EveryRatedOnce(Correlations(Difficulties(icount, n), flat, computed));
    RatedCountIs(icount, n, flat, computed);
  }

  lemma {:induction false} RatedCountIs(icount: seq<int>, n: int, flat: bool, computed: seq<real>)
    requires 1 <= n < 999999999 && |computed| == |icount|
    requires forall i :: 0 <= i < |icount| ==> 0 <= icount[i] <= n
    ensures RatedCount(Correlations(Difficulties(icount, n), flat, computed)) == |Discriminating(icount, n)|
  {
    var cs := Correlations(Difficulties(icount, n), flat, computed);
    if icount == [] {
      assert Discriminating(icount, n) == {};
    } else {
      var m := |icount| - 1;
      RatedCountIs(icount[..m], n, flat, computed[..m]);
      assert cs[..m] == Correlations(Difficulties(icount[..m], n), flat, computed[..m]);
      CorrelatedCounts(icount[m], n);
      if 0 < icount[m] < n {
        assert Discriminating(icount, n) == Discriminating(icount[..m], n) + {m};
      } else {
        assert Discriminating(icount, n) == Discriminating(icount[..m], n);
      }
    }
  }

  /** The classification fields of StatData. The counters and the sums SDI, SBIS and VAR
      are set to 0 once (itemal.py:1112-1129) and grow across every test of a run; IDI,
      IBI and IDIST are fresh for every test (itemal.py:1176-1180), so they are kept
      here as the current test's entries, item 1 at position 0, with 0 where the
      program never writes. */
  class StatData {
    var IDO: int
    var IDTW: int
    var IDTH: int
    var IDFO: int
    var IDFI: int
    var messages: seq<Message>
    var IDI: seq<int>
    var IDIST: seq<seq<int>>
    var BIS: seq<real>
    var IBI: seq<int>
    var IDVP: int
    var IDP: int
    var IDG: int
    var IDVG: int
    var IDVVG: int
    var IDEX: int
    var SDI: real
    var SBIS: real
    var VAR: real

    constructor ()
      ensures IDO == IDTW == IDTH == IDFO == IDFI == 0
      ensures IDVP == IDP == IDG == IDVG == IDVVG == IDEX == 0
      ensures SDI == SBIS == VAR == 0.0
      ensures messages == [] && IDI == [] && IDIST == [] && BIS == [] && IBI == []
    {
      IDO, IDTW, IDTH, IDFO, IDFI := 0, 0, 0, 0, 0;
      IDVP, IDP, IDG, IDVG, IDVVG, IDEX := 0, 0, 0, 0, 0, 0;
      SDI, SBIS, VAR := 0.0, 0.0, 0.0;
      messages, IDI, IDIST, BIS, IBI := [], [], [], [], [];
    }

    /** One item of the difficulty loop (itemal.py:1273-1288): exactly one counter goes
        up, or one message is logged. */
    method CountDifficulty(item: nat, d: real)
      modifies this`IDO, this`IDTW, this`IDTH, this`IDFO, this`IDFI, this`messages
      ensures IDO == old(IDO) + (if PassingBand(d) == Some(Pass0To19) then 1 else 0)
      ensures IDTW == old(IDTW) + (if PassingBand(d) == Some(Pass20To39) then 1 else 0)
      ensures IDTH == old(IDTH) + (if PassingBand(d) == Some(Pass40To59) then 1 else 0)
      ensures IDFO == old(IDFO) + (if PassingBand(d) == Some(Pass60To79) then 1 else 0)
      ensures IDFI == old(IDFI) + (if PassingBand(d) == Some(Pass80To100) then 1 else 0)
      ensures messages == old(messages) + (if PassingBand(d).None? then [DifficultyOutOfRange(item)] else [])
    {
      if d <= 0.19 {
        IDO := IDO + 1;
      } else if d <= 0.39 {
        IDTW := IDTW + 1;
      } else if d <= 0.59 {
        IDTH := IDTH + 1;
      } else if d <= 0.79 {
        IDFO := IDFO + 1;
      } else if d <= 1.0 {
        IDFI := IDFI + 1;
      } else {
        messages := messages + [DifficultyOutOfRange(item)];
      }
    }

    /** The difficulty part of the first loop of processTestResults
        (itemal.py:1266-1288). */
    method CountDifficulties(icount: seq<int>, n: int)
      requires n != 0
      modifies this`IDO, this`IDTW, this`IDTH, this`IDFO, this`IDFI, this`messages
      ensures IDO == old(IDO) + CountIn(Difficulties(icount, n), Pass0To19)
      ensures IDTW == old(IDTW) + CountIn(Difficulties(icount, n), Pass20To39)
      ensures IDTH == old(IDTH) + CountIn(Difficulties(icount, n), Pass40To59)
      ensures IDFO == old(IDFO) + CountIn(Difficulties(icount, n), Pass60To79)
      ensures IDFI == old(IDFI) + CountIn(Difficulties(icount, n), Pass80To100)
      ensures messages == old(messages) + OutOfRange(Difficulties(icount, n))
    {
      ghost var ds := Difficulties(icount, n);
      var i := 0;
      while i < |icount|
        invariant 0 <= i <= |icount|
        invariant IDO == old(IDO) + CountIn(ds[..i], Pass0To19)
        invariant IDTW == old(IDTW) + CountIn(ds[..i], Pass20To39)
        invariant IDTH == old(IDTH) + CountIn(ds[..i], Pass40To59)
        invariant IDFO == old(IDFO) + CountIn(ds[..i], Pass60To79)
        invariant IDFI == old(IDFI) + CountIn(ds[..i], Pass80To100)
        invariant messages == old(messages) + OutOfRange(ds[..i])
      {
        assert ds[..i + 1][..i] == ds[..i];
        CountDifficulty(i + 1, Ratio(icount[i], n));
        i := i + 1;
      }
      assert ds[..i] == ds;
    }

    /** The IDI loop (itemal.py:1290-1301), run only when KODE < 1; otherwise IDI keeps
        the fill value 0 of its fresh storage. */
    method BandItems(icount: seq<int>, n: int, kode: int)
      requires n != 0
      modifies this`IDI
      ensures IDI == if kode < 1 then IndexBands(Difficulties(icount, n)) else seq(|icount|, _ => 0)
    {
      IDI := seq(|icount|, _ => 0);
      if kode < 1 {
        var i := 0;
        while i < |icount|
          invariant 0 <= i <= |icount| == |IDI|
          invariant forall t :: 0 <= t < i ==> IDI[t] == IndexBand(Ratio(icount[t], n))
        {
          IDI := IDI[i := IndexBand(Ratio(icount[i], n))];
          i := i + 1;
        }
      }
    }

    /** The IDIST loop (itemal.py:1310-1318): row i holds the flags of options
        1..ICHO+1 of item i + 1, whose key is option KORAN + 1. A negative ICHO leaves
        the option loops empty and only the key's column is written. */
    method FlagDistractors(jtot: seq<seq<int>>, ksum: seq<seq<int>>, key: seq<int>, n: int, isum: int, icho: int)
      requires n != 0 && icho <= 8
      requires |jtot| == |ksum| == |key|
      requires forall i :: 0 <= i < |key| ==> |jtot[i]| == |ksum[i]| == OptionCount(icho) && 0 <= key[i]
      modifies this`IDIST
      ensures |IDIST| == |key|
      ensures forall i :: 0 <= i < |key| ==>
        IDIST[i] == FlagRow(PropRow(jtot[i], n), CMeanRow(ksum[i], jtot[i]), key[i] + 1, ChekOf(icho), Ratio(isum, n))
    {
      var fmean := Ratio(isum, n);
      IDIST := [];
      var i := 0;
      while i < |key|
        invariant 0 <= i <= |key| && |IDIST| == i
        invariant forall t :: 0 <= t < i ==>
          IDIST[t] == FlagRow(PropRow(jtot[t], n), CMeanRow(ksum[t], jtot[t]), key[t] + 1, ChekOf(icho), fmean)
      {
        var row := FlagItem(PropRow(jtot[i], n), CMeanRow(ksum[i], jtot[i]), key[i] + 1, ChekOf(icho), fmean);
        IDIST := IDIST + [row];
        i := i + 1;
      }
    }

    /** The correlation counters and sums, read together. */
    ghost function Totals(): Ratings
      reads this`IDVP, this`IDP, this`IDG, this`IDVG, this`IDVVG, this`IDEX, this`SDI, this`SBIS, this`VAR
    {
      Ratings(IDVP, IDP, IDG, IDVG, IDVVG, IDEX, SDI, SBIS, VAR)
    }

    /** One item of the final loop (itemal.py:1320-1344 with doLine620 .. doLine690). */
    method RateItem(c: Correlation)
      modifies this`IDVP, this`IDP, this`IDG, this`IDVG, this`IDVVG, this`IDEX, this`SDI, this`SBIS, this`VAR
      ensures Totals() == Plus(old(Totals()), RatingOf(c))
    {
      if c.Rated? {
        VAR := VAR + c.difi * (1.0 - c.difi);
        if c.bis > 0.11 {
          if c.bis <= 0.31 {
            IDP := IDP + 1;
          } else if c.bis <= 0.51 {
            IDG := IDG + 1;
          } else if c.bis <= 0.71 {
            IDVG := IDVG + 1;
          } else if c.bis <= 0.91 {
            IDVVG := IDVVG + 1;
          } else {
            IDEX := IDEX + 1;
          }
        } else {
          IDVP := IDVP + 1;
        }
        SDI := SDI + c.difi;
        SBIS := SBIS + c.bis;
      }
    }

    /** One step of the final loop: item i + 1, whose correlation is c. */
    method RateNext(c: Correlation, ghost cs: seq<Correlation>, ghost i: nat, ghost base: Ratings)
      requires i < |cs| && c == cs[i] && RatedState(cs, i, base, BIS, IBI, Totals()) == true
      modifies this`BIS, this`IBI, this`IDVP, this`IDP, this`IDG, this`IDVG, this`IDVVG, this`IDEX, this`SDI, this`SBIS, this`VAR
      ensures RatedState(cs, i + 1, base, BIS, IBI, Totals()) == true
    {
      RowsStep(cs, i);
      PlusAssociative(base, RatingsUpTo(cs, i), RatingOf(c));
      RateItem(c);
      assert Totals() == Plus(base, RatingsUpTo(cs, i + 1));
      BIS, IBI := BIS + [BisOf(c)], IBI + [IbiOf(c)];
      assert BIS == BisRow(cs[..i + 1]);
      assert IBI == IbiRow(cs[..i + 1]);
      assert Totals() == Plus(base, RatingsUpTo(cs, i + 1));
    }

    /** Item i + 1 of the final loop: its correlation is computed from its count of
        correct answers and rated. */
    method RateCount(icount: seq<int>, n: int, flat: bool, computed: seq<real>, i: nat,
                     ghost cs: seq<Correlation>, ghost base: Ratings)
      requires n != 0 && |computed| == |icount| && i < |icount|
      requires cs == Correlations(Difficulties(icount, n), flat, computed)
      requires RatedState(cs, i, base, BIS, IBI, Totals()) == true
      modifies this`BIS, this`IBI, this`IDVP, this`IDP, this`IDG, this`IDVG, this`IDVVG, this`IDEX, this`SDI, this`SBIS, this`VAR
      ensures RatedState(cs, i + 1, base, BIS, IBI, Totals()) == true
    {
      var c := Correlate(Ratio(icount[i], n), flat, computed[i]);
      CorrelationOfItem(icount, n, flat, computed, i);
      RateNext(c, cs, i, base);
    }

    /** The final loop of processTestResults (itemal.py:1320-1344). `flat` says that
        the score distribution has no spread (isclose(SDEV, 0)); `computed` holds, per
        item, the biserial coefficient the formula of doLine620 yields. */
    method RateItems(icount: seq<int>, n: int, flat: bool, computed: seq<real>)
      requires n != 0 && |computed| == |icount|
      requires forall i :: 0 <= i < |icount| ==> 0 <= icount[i] <= n
      modifies this`BIS, this`IBI, this`IDVP, this`IDP, this`IDG, this`IDVG, this`IDVVG, this`IDEX, this`SDI, this`SBIS, this`VAR
      ensures BIS == BisRow(Correlations(Difficulties(icount, n), flat, computed))
      ensures IBI == IbiRow(Correlations(Difficulties(icount, n), flat, computed))
      ensures Totals() == Plus(old(Totals()), RatingsOf(Correlations(Difficulties(icount, n), flat, computed)))
    {
      ghost var cs := Correlations(Difficulties(icount, n), flat, computed);
      ghost var base := Totals();
      assert |cs| == |icount|;
      BIS, IBI := [], [];
      var i := 0;
      while i < |icount|
        invariant 0 <= i <= |icount|
        // `== true` keeps RatedState folded here; unfolded, its real-valued sums make
        // this loop far slower to verify
        invariant RatedState(cs, i, base, BIS, IBI, Totals()) == true
      {
        RateCount(icount, n, flat, computed, i, cs, base);
        i := i + 1;
      }
      assert i == |cs|;
      RatedAll(cs, base);
    }

    /** The correlation the final loop computes for item i is the i-th of the list. */
    static lemma CorrelationOfItem(icount: seq<int>, n: int, flat: bool, computed: seq<real>, i: nat)
      requires n != 0 && |computed| == |icount| && i < |icount|
      ensures Correlate(Ratio(icount[i], n), flat, computed[i]) == Correlations(Difficulties(icount, n), flat, computed)[i]
    {
    }

    /** The final loop's state once every item is rated. */
    lemma RatedAll(cs: seq<Correlation>, base: Ratings)
      requires RatedState(cs, |cs|, base, BIS, IBI, Totals()) == true
      ensures BIS == BisRow(cs) && IBI == IbiRow(cs)
      ensures Totals() == Plus(base, RatingsOf(cs))
    {
      assert cs[..|cs|] == cs;
    }
  }
}
