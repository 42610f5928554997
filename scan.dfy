/** The "closest object under a cap" scan that both the player search and the
    door search run: a running minimum that starts at the cap and is replaced
    only by a strictly smaller distance, so the first of equally close
    candidates wins. */
module Scan {
  import opened Common

  /** Index `k` is the first among the candidates at minimal distance, and that
      distance is strictly below the cap. */
  predicate IsFirstClosest(d: seq<real>, cap: real, k: nat)
  {
    k < |d| && d[k] < cap
    && (forall j :: 0 <= j < |d| ==> d[k] <= d[j])
    && (forall j :: 0 <= j < k ==> d[k] < d[j])
  }

  /** No candidate is strictly below the cap. */
  predicate NoneUnder(d: seq<real>, cap: real)
  {
    forall j :: 0 <= j < |d| ==> d[j] >= cap
  }

  /** The distance the running minimum holds after choosing `r`. */
  function Best(d: seq<real>, cap: real, r: Option<nat>): real
  {
    if r.Some? && r.value < |d| then d[r.value] else cap
  }

  /** The candidate the scan picks, stated one candidate at a time. */
  function Closest(d: seq<real>, cap: real): (r: Option<nat>)
    ensures r.Some? ==> r.value < |d|
  {
    if d == [] then None
    else
      var r := Closest(d[..|d| - 1], cap);
      if d[|d| - 1] < Best(d[..|d| - 1], cap, r) then Some(|d| - 1) else r
  }

  /** The scan finds nothing exactly when every candidate is at or beyond the
      cap, and otherwise finds the first candidate at minimal distance. */
  lemma {:induction false} ClosestSpec(d: seq<real>, cap: real)
    ensures Closest(d, cap) == None <==> NoneUnder(d, cap)
    ensures Closest(d, cap).Some? ==> IsFirstClosest(d, cap, Closest(d, cap).value)
  {
    if d != [] {
      var p := d[..|d| - 1];
      ClosestSpec(p, cap);
      var r := Closest(p, cap);
      assert forall j :: 0 <= j < |p| ==> p[j] == d[j];
      if r.Some? {
        assert IsFirstClosest(p, cap, r.value);
      }
    }
  }

  /** The scan loop itself: one pass over the candidates keeping the running
      minimum, as the player and door searches do. */
  method ScanClosest(d: seq<real>, cap: real) returns (found: Option<nat>)
    ensures found == Closest(d, cap)
    ensures found == None <==> NoneUnder(d, cap)
    ensures found.Some? ==> IsFirstClosest(d, cap, found.value)
  {
    var best := cap;
    found := None;
    var i := 0;
    while i < |d|
      invariant 0 <= i <= |d|
      invariant found == Closest(d[..i], cap)
      invariant best == Best(d[..i], cap, found)
    {
      assert d[..i + 1][..i] == d[..i];
      var dist := d[i];
      if dist < best {
        best := dist;
        found := Some(i);
      }
      i := i + 1;
    }
    assert d[..i] == d;
    ClosestSpec(d, cap);
  }
}
