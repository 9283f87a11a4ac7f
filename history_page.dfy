// The trip history page (frontend/app/history/page.tsx): the search filter
// over the fetched trips, the summary figures, the score colour and the
// alert badge. Fetching the trips is not part of this model; the list is a
// parameter.

module HistoryPage {
  import opened Types
  import opened Decimal

  /** A trip as the history endpoint returns it. Locations are optional:
      the filter reads them with `?.`. */
  datatype HistoryTrip = HistoryTrip(
    id: string,
    startLocation: Option<string>,
    endLocation: Option<string>,
    distance: real,
    duration: real,
    safetyScore: real,
    alerts: nat,
    startedAt: string)

  // ---------------------------------------------------------------------
  // Case-insensitive search

  /** Lower-casing of the ASCII letters. */
  function LowerChar(c: char): (r: char)
    ensures 'A' <= c <= 'Z' ==> r as int == c as int + 32
    ensures !('A' <= c <= 'Z') ==> r == c
  {
    if 'A' <= c <= 'Z' then (c as int + 32) as char else c
  }

  function Lower(s: string): (r: string)
    ensures |r| == |s|
    ensures forall i :: 0 <= i < |s| ==> r[i] == LowerChar(s[i])
  {
    seq(|s|, i requires 0 <= i < |s| => LowerChar(s[i]))
  }

  lemma LowerIdempotent(s: string)
    ensures Lower(Lower(s)) == Lower(s)
  {
    var once := Lower(s);
    forall i | 0 <= i < |s| ensures Lower(once)[i] == once[i] {
      assert once[i] == LowerChar(s[i]);
    }
  }

  /** `q` occurs in `s` at position i. */
  predicate OccursAt(s: string, q: string, i: int) {
    0 <= i && i + |q| <= |s| && s[i..i + |q|] == q
  }

  /** An occurrence is either at the front or an occurrence in the tail,
      shifted by one. */
  lemma OccursShift(s: string, q: string)
    requires |s| >= 1
    ensures (exists i :: OccursAt(s, q, i)) <==> OccursAt(s, q, 0) || exists j :: OccursAt(s[1..], q, j)
  {
    if i :| OccursAt(s, q, i) && i >= 1 {
      assert s[1..][i - 1..i - 1 + |q|] == s[i..i + |q|];
      assert OccursAt(s[1..], q, i - 1);
    }
    if j :| OccursAt(s[1..], q, j) {
      assert s[j + 1..j + 1 + |q|] == s[1..][j..j + |q|];
      assert OccursAt(s, q, j + 1);
    }
  }

  /** String.prototype.includes, scanning from the left. */
  function Includes(s: string, q: string): (r: bool)
    ensures r <==> exists i :: OccursAt(s, q, i)
    decreases |s|
  {
    if |q| > |s| then false
    else if s[..|q|] == q then (assert OccursAt(s, q, 0); true)
    else
      assert s[0..0 + |q|] == s[..|q|];
      OccursShift(s, q);
      Includes(s[1..], q)
  }

  function LocationMatches(loc: Option<string>, query: string): bool {
    loc.Some? && Includes(Lower(loc.value), Lower(query))
  }

  predicate Matches(t: HistoryTrip, query: string) {
    LocationMatches(t.startLocation, query) || LocationMatches(t.endLocation, query)
  }

  /** filteredTrips */
  function FilterTrips(trips: seq<HistoryTrip>, query: string): (r: seq<HistoryTrip>)
    ensures forall t :: t in r <==> t in trips && Matches(t, query)
    ensures forall t :: multiset(r)[t] == if Matches(t, query) then multiset(trips)[t] else 0
    ensures Subsequence(r, trips)
    decreases |trips|
  {
    if trips == [] then []
    else
      assert trips == [trips[0]] + trips[1..];
      var rest := FilterTrips(trips[1..], query);
      if Matches(trips[0], query) then [trips[0]] + rest else rest
  }

  /** The search ignores the case of the query. */
  lemma QueryCaseIgnored(t: HistoryTrip, query: string)
    ensures Matches(t, Lower(query)) == Matches(t, query)
  {
    LowerIdempotent(query);
  }

  /** An empty search keeps exactly the trips with some location. */
  lemma EmptyQueryKeepsLocated(trips: seq<HistoryTrip>)
    ensures forall t :: t in FilterTrips(trips, "") <==>
      t in trips && (t.startLocation.Some? || t.endLocation.Some?)
  {
    forall t | t in trips && (t.startLocation.Some? || t.endLocation.Some?)
      ensures Matches(t, "")
    {
      var loc := if t.startLocation.Some? then t.startLocation.value else t.endLocation.value;
      assert OccursAt(Lower(loc), Lower(""), 0);
    }
  }

  // ---------------------------------------------------------------------
  // Summary figures

  function TotalDistance(trips: seq<HistoryTrip>): real
    decreases |trips|
  {
    if trips == [] then 0.0 else TotalDistance(trips[..|trips| - 1]) + trips[|trips| - 1].distance
  }

  function TotalAlerts(trips: seq<HistoryTrip>): nat
    decreases |trips|
  {
    if trips == [] then 0 else TotalAlerts(trips[..|trips| - 1]) + trips[|trips| - 1].alerts
  }

  function TotalSafety(trips: seq<HistoryTrip>): real
    decreases |trips|
  {
    if trips == [] then 0.0 else TotalSafety(trips[..|trips| - 1]) + trips[|trips| - 1].safetyScore
  }

  /** The totals add up over any split of the list. */
  lemma {:induction false} TotalsAppend(a: seq<HistoryTrip>, b: seq<HistoryTrip>)
    ensures TotalAlerts(a + b) == TotalAlerts(a) + TotalAlerts(b)
    ensures TotalDistance(a + b) == TotalDistance(a) + TotalDistance(b)
    decreases |b|
  {
    if b == [] {
      assert a + b == a;
    } else {
      var init := b[..|b| - 1];
      assert (a + b)[..|a + b| - 1] == a + init;
      TotalsAppend(a, init);
    }
  }

  /** Math.round: halves round up. */
  function Round(x: real): (r: int)
    ensures r as real <= x + 0.5 < r as real + 1.0
  {
    (x + 0.5).Floor
  }

  /** The "Avg Safety" figure: 0 with no trips, else the rounded mean. */
  function AverageSafety(trips: seq<HistoryTrip>): int {
    if |trips| == 0 then 0 else Round(TotalSafety(trips) / (|trips| as real))
  }

  predicate ScoresInRange(trips: seq<HistoryTrip>) {
    forall i :: 0 <= i < |trips| ==> 0.0 <= trips[i].safetyScore <= 100.0
  }

  lemma {:induction false} TotalSafetyBounds(trips: seq<HistoryTrip>)
    requires ScoresInRange(trips)
    ensures 0.0 <= TotalSafety(trips) <= 100.0 * (|trips| as real)
    decreases |trips|
  {
    if trips != [] {
      TotalSafetyBounds(trips[..|trips| - 1]);
    }
  }

  /** With every score within 0..100, so is the average. */
  lemma AverageSafetyBounds(trips: seq<HistoryTrip>)
    requires ScoresInRange(trips)
    ensures 0 <= AverageSafety(trips) <= 100
  {
    if |trips| > 0 {
      TotalSafetyBounds(trips);
      var n := |trips| as real;
      var mean := TotalSafety(trips) / n;
      assert 0.0 <= mean <= 100.0 by {
        assert TotalSafety(trips) <= 100.0 * n;
      }
    }
  }

  /** The average of identical scores is that score, rounded. */
  lemma {:induction false} AverageOfEqualScores(trips: seq<HistoryTrip>, s: real)
    requires |trips| > 0
    requires forall i :: 0 <= i < |trips| ==> trips[i].safetyScore == s
    ensures AverageSafety(trips) == Round(s)
  {
    TotalSafetyConstant(trips, s);
    var n := |trips| as real;
    assert (n * s) / n == s;
    assert TotalSafety(trips) / n == s;
    assert AverageSafety(trips) == Round(TotalSafety(trips) / n);
  }

  lemma {:induction false} TotalSafetyConstant(trips: seq<HistoryTrip>, s: real)
    requires forall i :: 0 <= i < |trips| ==> trips[i].safetyScore == s
    ensures TotalSafety(trips) == (|trips| as real) * s
    decreases |trips|
  {
    if trips != [] {
      TotalSafetyConstant(trips[..|trips| - 1], s);
    }
  }

  // ---------------------------------------------------------------------
  // Per-trip display

  datatype ScoreColour = SafeColour | WarningColour | DangerColour

  function ColourFor(score: real): (c: ScoreColour)
    ensures c == SafeColour <==> score >= 90.0
    ensures c == WarningColour <==> 70.0 <= score < 90.0
    ensures c == DangerColour <==> score < 70.0
  {
    if score >= 90.0 then SafeColour else if score >= 70.0 then WarningColour else DangerColour
  }

  /** `${alerts} alert` plus "s" when there are several; no badge at 0. */
  function AlertBadge(alerts: nat): (r: Option<string>)
    ensures r.Some? <==> alerts > 0
    ensures r.Some? ==> |r.value| > 0 && (r.value[|r.value| - 1] == 's' <==> alerts > 1)
    ensures r.Some? ==> NatToString(alerts) + " alert" <= r.value
  {
    if alerts == 0 then None
    else Some(NatToString(alerts) + " alert" + (if alerts > 1 then "s" else ""))
  }
}
