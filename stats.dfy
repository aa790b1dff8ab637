/**
 * The admin dashboard's statistics (`getDashboardStats` in AdminPage.jsx):
 * a pure derivation from the last jury and team snapshots.
 */
module Stats {
  import opened Records

  datatype DashboardStats = DashboardStats(
    totalJuries: nat,
    totalTeams: nat,
    submitted: nat,
    paused: nat,
    pending: int,       // derived by subtraction, so typed as the source computes it
    completionRate: int)

  /** The filter for the "Submitted" count. */
  predicate CountsAsSubmitted(j: Jury) {
    j.hasSubmitted
  }

  /** The filter for the "Paused" count: a submission outranks a pause. */
  predicate CountsAsPaused(j: Jury)
    ensures CountsAsPaused(j) ==> !CountsAsSubmitted(j)
  {
    j.paused && !j.hasSubmitted
  }

  /** Independent reference for "pending": a jury with neither flag set. */
  predicate IsPending(j: Jury) {
    !j.hasSubmitted && !j.paused
  }

  /**
   * `Math.round(part / whole * 100)` on exact rationals: the integer nearest to
   * 100 * part / whole, halves rounded up.
   */
  function RoundedPercent(part: nat, whole: nat): (r: int)
    requires whole > 0
    ensures 2 * whole * r - whole <= 200 * part < 2 * whole * r + whole
    ensures part <= whole ==> 0 <= r <= 100
    ensures part == 0 ==> r == 0
    ensures part == whole ==> r == 100
  {
    var r := (200 * part + whole) / (2 * whole);
    RoundedPercentBand(part, whole, r);
    r
  }

  lemma RoundedPercentBand(part: nat, whole: nat, r: int)
    requires whole > 0 && r == (200 * part + whole) / (2 * whole)
    ensures 2 * whole * r - whole <= 200 * part < 2 * whole * r + whole
    ensures part <= whole ==> 0 <= r <= 100
    ensures part == 0 ==> r == 0
    ensures part == whole ==> r == 100
  {
    var m := (200 * part + whole) % (2 * whole);
    assert 200 * part + whole == 2 * whole * r + m && 0 <= m < 2 * whole;
    if part <= whole {
      RoundedPercentRange(part, whole, r, m);
    }
    if part == whole {
      DivUnique(201 * whole, 2 * whole, 100, whole);
    }
    if part == 0 {
      DivUnique(whole, 2 * whole, 0, whole);
    }
  }

  lemma RoundedPercentRange(part: nat, whole: nat, r: int, m: int)
    requires whole > 0 && part <= whole
    requires 200 * part + whole == 2 * whole * r + m && 0 <= m < 2 * whole
    ensures 0 <= r <= 100
  {
    if r < 0 {
      MulAtLeast(2 * whole, -r);
    } else if r > 100 {
      MulAtLeast(2 * whole, r - 100);
    }
  }

  lemma DivUnique(a: int, b: int, q: int, m: int)
    requires b > 0 && a == b * q + m && 0 <= m < b
    ensures a / b == q
  {
    var q', m' := a / b, a % b;
    assert a == b * q' + m' && 0 <= m' < b;
    assert b * (q - q') == m' - m;
    if q > q' {
      MulAtLeast(b, q - q');
    } else if q < q' {
      MulAtLeast(b, q' - q);
    }
  }

  lemma {:induction false} MulAtLeast(b: int, k: int)
    requires b > 0 && k >= 1
    ensures b * k >= b
  {
    if k > 1 {
      MulAtLeast(b, k - 1);
      assert b * k == b * (k - 1) + b;
    }
  }

  /** The dashboard record for the given jury and team lists. */
  function GetDashboardStats(juries: seq<Jury>, teams: seq<Team>): (s: DashboardStats)
    ensures s.totalJuries == |juries| && s.totalTeams == |teams|
    ensures s.submitted + s.paused + s.pending == s.totalJuries
    ensures s.pending == |Filter(juries, IsPending)|
    ensures 0 <= s.completionRate <= 100
    ensures |juries| == 0 ==> s == DashboardStats(0, |teams|, 0, 0, 0, 0)
    ensures |juries| > 0 ==>
      2 * |juries| * s.completionRate - |juries| <= 200 * s.submitted < 2 * |juries| * s.completionRate + |juries|
  {
    var submitted := |Filter(juries, CountsAsSubmitted)|;
    var paused := |Filter(juries, CountsAsPaused)|;
    var pending := |juries| - submitted - paused;
    BucketsPartition(juries);
    DashboardStats(
      |juries|,
      |teams|,
      submitted,
      paused,
      pending,
      if |juries| > 0 then RoundedPercent(submitted, |juries|) else 0)
  }

  /** Every jury lies in exactly one of the submitted, paused and pending buckets. */
  lemma {:induction false} BucketsPartition(juries: seq<Jury>)
    ensures |Filter(juries, CountsAsSubmitted)| + |Filter(juries, CountsAsPaused)| + |Filter(juries, IsPending)| == |juries|
  {
    if juries != [] {
      BucketsPartition(juries[1..]);
    }
  }

  /**
   * Appending one jury adds one to exactly the bucket its flags select:
   * "submitted" when it has submitted, "paused" when it is paused and has not
   * submitted. With the empty case this pins both counts for every list.
   */
  lemma AppendJury(juries: seq<Jury>, teams: seq<Team>, j: Jury)
    ensures GetDashboardStats(juries + [j], teams).submitted ==
      GetDashboardStats(juries, teams).submitted + (if j.hasSubmitted then 1 else 0)
    ensures GetDashboardStats(juries + [j], teams).paused ==
      GetDashboardStats(juries, teams).paused + (if j.paused && !j.hasSubmitted then 1 else 0)
    ensures GetDashboardStats(juries + [j], teams).pending ==
      GetDashboardStats(juries, teams).pending + (if !j.paused && !j.hasSubmitted then 1 else 0)
  {
    FilterAppend(juries, [j], CountsAsSubmitted);
    FilterAppend(juries, [j], CountsAsPaused);
  }

  /**
   * A jury that has submitted adds one to "submitted" and nothing to "paused",
   * even when its `paused` flag is also set.
   */
  lemma SubmissionOutranksPause(juries: seq<Jury>, teams: seq<Team>, j: Jury)
    requires j.hasSubmitted
    ensures GetDashboardStats(juries + [j], teams).submitted == GetDashboardStats(juries, teams).submitted + 1
    ensures GetDashboardStats(juries + [j], teams).paused == GetDashboardStats(juries, teams).paused
    ensures GetDashboardStats(juries + [j], teams).pending == GetDashboardStats(juries, teams).pending
  {
    AppendJury(juries, teams, j);
  }

  /** "Submitted" equals the total exactly when every jury has submitted. */
  lemma AllSubmittedIff(juries: seq<Jury>, teams: seq<Team>)
    ensures GetDashboardStats(juries, teams).submitted == |juries| <==>
      forall k :: 0 <= k < |juries| ==> juries[k].hasSubmitted
  {
    FilterKeepsAll(juries, CountsAsSubmitted);
  }

  /** "Submitted" is zero exactly when no jury has submitted. */
  lemma NoneSubmittedIff(juries: seq<Jury>, teams: seq<Team>)
    ensures GetDashboardStats(juries, teams).submitted == 0 <==>
      forall k :: 0 <= k < |juries| ==> !juries[k].hasSubmitted
  {
    FilterKeepsNone(juries, CountsAsSubmitted);
  }

  /** When every jury has submitted the rate is 100% (and 0% for an empty list). */
  lemma RateWhenAllSubmitted(juries: seq<Jury>, teams: seq<Team>)
    requires forall k :: 0 <= k < |juries| ==> juries[k].hasSubmitted
    ensures GetDashboardStats(juries, teams).completionRate == if |juries| > 0 then 100 else 0
  {
    AllSubmittedIff(juries, teams);
  }

  /** When no jury has submitted the rate is 0%. */
  lemma RateWhenNoneSubmitted(juries: seq<Jury>, teams: seq<Team>)
    requires forall k :: 0 <= k < |juries| ==> !juries[k].hasSubmitted
    ensures GetDashboardStats(juries, teams).completionRate == 0
  {
    NoneSubmittedIff(juries, teams);
  }

  /**
   * The worked example: juries flagged (submitted), (submitted, paused or not),
   * (paused) and (neither) give two submitted, one paused, one pending, 50%.
   */
  lemma FourJuryExample(a: Jury, b: Jury, c: Jury, d: Jury, teams: seq<Team>)
    requires a.hasSubmitted && !a.paused && b.hasSubmitted
    requires !c.hasSubmitted && c.paused && !d.hasSubmitted && !d.paused
    ensures GetDashboardStats([a, b, c, d], teams) == DashboardStats(4, |teams|, 2, 1, 1, 50)
  {
    FourJuryCounts(a, b, c, d, teams);
  }

  lemma FourJuryCounts(a: Jury, b: Jury, c: Jury, d: Jury, teams: seq<Team>)
    requires a.hasSubmitted && !a.paused && b.hasSubmitted
    requires !c.hasSubmitted && c.paused && !d.hasSubmitted && !d.paused
    ensures GetDashboardStats([a, b, c, d], teams).submitted == 2
    ensures GetDashboardStats([a, b, c, d], teams).paused == 1
  {
    AppendJury([], teams, a);
    assert [] + [a] == [a];
    AppendJury([a], teams, b);
    AppendJury([a, b], teams, c);
    assert [a, b] + [c] == [a, b, c];
    AppendJury([a, b, c], teams, d);
    assert [a, b, c] + [d] == [a, b, c, d];
  }
}
