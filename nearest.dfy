/** The Nearest-Event Selector's choice, over the candidates' distances in
    source order (platformio/src/api_response.cpp, lines 303-335): a single
    pass keeps a running minimum, starting at FLT_MAX, and a candidate wins
    when its distance is strictly below it. */
module NearestEvent {
  import opened Wrappers

  /** `__FLT_MAX__`, the largest finite `float`. */
  const FLT_MAX: real := 340282346638528859811704183484516925440.0

  /** Candidate `k` is the earliest one at the least distance, and that
      distance is below FLT_MAX. */
  ghost predicate IsNearest(ds: seq<real>, k: nat)
  {
    && k < |ds|
    && ds[k] < FLT_MAX
    && (forall j :: 0 <= j < k ==> ds[k] < ds[j])
    && (forall j :: k < j < |ds| ==> ds[k] <= ds[j])
  }

  /** The running minimum once `best` is the winner so far. */
  function RunningMin(ds: seq<real>, best: Option<nat>): real
    requires best.Some? ==> best.value < |ds|
  {
    if best.Some? then ds[best.value] else FLT_MAX
  }

  /** The candidate the pass over `ds` leaves in the record: the last one
      that beat the running minimum, which is the earliest of the least
      distance; none when no distance is below FLT_MAX. */
  function Nearest(ds: seq<real>): (k: Option<nat>)
    ensures k.Some? ==> IsNearest(ds, k.value)
    ensures k.None? ==> forall j :: 0 <= j < |ds| ==> FLT_MAX <= ds[j]
    decreases |ds|
  {
    if ds == [] then None
    else
      var init := ds[..|ds| - 1];
      var prior := Nearest(init);
      if ds[|ds| - 1] < RunningMin(init, prior) then Some(|ds| - 1) else prior
  }

  /** The pass picks exactly the earliest least candidate: `Nearest` and
      `IsNearest` agree in both directions. */
  lemma NearestIsTheEarliestMinimum(ds: seq<real>, k: nat)
    ensures Nearest(ds) == Some(k) <==> IsNearest(ds, k)
  {
    if IsNearest(ds, k) {
      match Nearest(ds)
      case None =>
      case Some(k') =>
        assert IsNearest(ds, k');
    }
  }

  /** One step of the pass: candidate i wins exactly when it beats the
      running minimum of the candidates before it. */
  lemma {:induction false} NearestStep(ds: seq<real>, i: nat)
    requires i < |ds|
    ensures Nearest(ds[..i + 1]) == if ds[i] < RunningMin(ds[..i], Nearest(ds[..i])) then Some(i) else Nearest(ds[..i])
    ensures Nearest(ds[..i]).Some? ==> Nearest(ds[..i]).value < i && ds[..i][Nearest(ds[..i]).value] == ds[Nearest(ds[..i]).value]
  {
    assert ds[..i + 1][..i] == ds[..i];
  }

  /** Ties go to the candidate seen first. */
  lemma {:induction false} TieGoesToTheFirst(ds: seq<real>, a: nat, b: nat)
    requires a < b < |ds| && ds[a] == ds[b]
    ensures Nearest(ds) != Some(b)
  {
    NearestIsTheEarliestMinimum(ds, b);
  }

  /** A candidate below FLT_MAX always produces a winner, and the winner is
      never farther than any candidate. */
  lemma {:induction false} SomeCandidateWins(ds: seq<real>, j: nat)
    requires j < |ds| && ds[j] < FLT_MAX
    ensures Nearest(ds).Some?
    ensures ds[Nearest(ds).value] <= ds[j]
  {
    var k := Nearest(ds);
    if k.Some? && k.value != j {
      assert IsNearest(ds, k.value);
    }
  }

  /** Two candidates at distances 1 and 5: the first one wins. */
  lemma {:induction false} TwoCandidates(d1: real, d5: real)
    requires d1 < d5 < FLT_MAX
    ensures Nearest([d1, d5]) == Some(0)
  {
    NearestIsTheEarliestMinimum([d1, d5], 0);
  }
}
