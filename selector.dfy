/**
 * The weighted outcome selector (`getStatus` in index.js).
 *
 * The configured outcomes are the documents of the Status collection, each a
 * label and a weight. The selector draws a number in [0, total) and walks the
 * list, subtracting each weight from what is left of the draw, until an entry's
 * weight exceeds the remainder. Weights and the draw are exact reals here; the
 * random factor is a parameter instead of `Math.random()`.
 */
module Selector {
  import opened Wrappers

  /** One document of the Status collection. */
  datatype Status = Status(value: string, weight: real)

  /** What `Math.random()` returns: a number in [0, 1). */
  type RandomFactor = u: real | 0.0 <= u < 1.0

  /**
   * Sum of the weights, accumulated left to right as `reduce` does: never
   * negative when no weight is, and zero when every weight is.
   */
  function Total(ws: seq<Status>): (t: real)
    ensures NonNegative(ws) ==> t >= 0.0
    ensures AllZero(ws) ==> t == 0.0
  {
    if ws == [] then 0.0 else Total(ws[..|ws| - 1]) + ws[|ws| - 1].weight
  }

  /** The total of a list is the total of any prefix plus the total of the rest. */
  lemma {:induction false} TotalSplit(ws: seq<Status>, i: nat)
    requires i <= |ws|
    ensures Total(ws) == Total(ws[..i]) + Total(ws[i..])
    decreases |ws|
  {
    if i == |ws| {
      assert ws[..i] == ws && ws[i..] == [];
    } else {
      var front := ws[..|ws| - 1];
      TotalSplit(front, i);
      assert front[..i] == ws[..i];
      assert ws[i..][..|ws[i..]| - 1] == front[i..];
    }
  }

  /** Cumulative weight of the entries 0..i, both ends included. */
  ghost function Upto(ws: seq<Status>, i: nat): real
    requires i < |ws|
  {
    Total(ws[..i + 1])
  }

  ghost predicate NonNegative(ws: seq<Status>)
  {
    forall i :: 0 <= i < |ws| ==> ws[i].weight >= 0.0
  }

  ghost predicate AllZero(ws: seq<Status>)
  {
    forall i :: 0 <= i < |ws| ==> ws[i].weight == 0.0
  }

  /** The draw `Math.random() * totalWeight`, for a random factor `u`. */
  function Draw(ws: seq<Status>, u: RandomFactor): (r: real)
    ensures Total(ws) > 0.0 ==> 0.0 <= r < Total(ws)
    ensures Total(ws) == 0.0 ==> r == 0.0
  {
    var t := Total(ws);
    assert t > 0.0 ==> (1.0 - u) * t > 0.0;
    u * t
  }

  /** Entry `i` is the first one whose cumulative weight exceeds the draw `r`. */
  ghost predicate IsFirstCrossing(ws: seq<Status>, r: real, i: int)
  {
    && 0 <= i < |ws|
    && r < Upto(ws, i)
    && forall j :: 0 <= j < i ==> Upto(ws, j) <= r
  }

  /**
   * The label the selector is meant to pick for the draw `r`: the one at the
   * first index whose cumulative weight exceeds `r`, or none when no prefix does.
   */
  ghost function Selected(ws: seq<Status>, r: real): (s: Option<string>)
    ensures s.Some? ==> exists i :: 0 <= i < |ws| && ws[i].value == s.value
  {
    if exists i :: IsFirstCrossing(ws, r, i) then
      var i :| IsFirstCrossing(ws, r, i);
      Some(ws[i].value)
    else
      None
  }

  lemma TotalStep(ws: seq<Status>, i: nat)
    requires i < |ws|
    ensures Upto(ws, i) == Total(ws[..i]) + ws[i].weight
  {
    assert ws[..i + 1][..i] == ws[..i];
  }

  /** There is at most one first crossing, so `Selected` names its label. */
  lemma SelectedAt(ws: seq<Status>, r: real, i: int)
    requires IsFirstCrossing(ws, r, i)
    ensures Selected(ws, r) == Some(ws[i].value)
  {
  }

  /** Any crossing implies a first one. */
  lemma {:induction false} FirstCrossingExists(ws: seq<Status>, r: real, k: nat)
    requires k < |ws| && r < Upto(ws, k)
    ensures exists i :: IsFirstCrossing(ws, r, i)
    decreases k
  {
    if forall j :: 0 <= j < k ==> Upto(ws, j) <= r {
      assert IsFirstCrossing(ws, r, k);
    } else {
      var j :| 0 <= j < k && r < Upto(ws, j);
      FirstCrossingExists(ws, r, j);
    }
  }

  /** The selector yields nothing exactly when no prefix's weight exceeds the draw. */
  lemma SelectedNoneIff(ws: seq<Status>, r: real)
    ensures Selected(ws, r).None? <==> forall i :: 0 <= i < |ws| ==> Upto(ws, i) <= r
  {
    if exists i :: 0 <= i < |ws| && r < Upto(ws, i) {
      var i :| 0 <= i < |ws| && r < Upto(ws, i);
      FirstCrossingExists(ws, r, i);
    }
  }

  /**
   * Passing entry `i` without choosing it leaves a remaining draw that is not
   * negative and is below the total weight of the entries after `i`.
   */
  lemma RemainderStep(ws: seq<Status>, r: real, i: nat)
    requires i < |ws| && 0.0 <= r < Total(ws)
    requires Total(ws[..i]) + ws[i].weight <= r
    ensures 0.0 <= r - Total(ws[..i + 1]) < Total(ws[i + 1..])
  {
    TotalStep(ws, i);
    TotalSplit(ws, i + 1);
  }

  /**
   * `getStatus` without the database read: `u` is the value `Math.random()`
   * returned. The loop keeps `random` equal to the draw minus the weights passed.
   */
  method GetStatus(statuses: seq<Status>, u: RandomFactor) returns (outcome: Option<string>)
    ensures outcome == Selected(statuses, Draw(statuses, u))
  {
    var totalWeight := Total(statuses);
    var random := u * totalWeight;
    ghost var r := Draw(statuses, u);
    assert statuses[0..] == statuses;
    for i := 0 to |statuses|
      invariant random == r - Total(statuses[..i])
      invariant forall j :: 0 <= j < i ==> Upto(statuses, j) <= r
      invariant 0.0 <= r < totalWeight ==> 0.0 <= random < Total(statuses[i..])
    {
      TotalStep(statuses, i);
      if random < statuses[i].weight {
        SelectedAt(statuses, r, i);
        return Some(statuses[i].value);
      }
      if 0.0 <= r < totalWeight {
        RemainderStep(statuses, r, i);
      }
      random := random - statuses[i].weight;
    }
    SelectedNoneIff(statuses, r);
    return None;
  }

  /** With a positive total the walk always ends on a label: it never falls through. */
  lemma PositiveTotalSelects(ws: seq<Status>, u: RandomFactor)
    requires Total(ws) > 0.0
    ensures Selected(ws, Draw(ws, u)).Some?
  {
    assert ws != [];
    assert ws[..|ws|] == ws;
    FirstCrossingExists(ws, Draw(ws, u), |ws| - 1);
  }

  /** Non-negative weights of which at least one is not zero have a positive total. */
  lemma {:induction false} SomeWeightPositiveTotal(ws: seq<Status>)
    requires NonNegative(ws) && !AllZero(ws)
    ensures Total(ws) > 0.0
    decreases |ws|
  {
    var front := ws[..|ws| - 1];
    assert NonNegative(front) by {
      forall i | 0 <= i < |front| ensures front[i].weight >= 0.0 {
        assert front[i] == ws[i];
      }
    }
    if ws[|ws| - 1].weight == 0.0 {
      assert !AllZero(front) by {
        var j :| 0 <= j < |ws| && ws[j].weight != 0.0;
        assert j < |front| && front[j] == ws[j];
      }
      SomeWeightPositiveTotal(front);
    }
  }

  /**
   * With non-negative weights the walk falls through to `undefined` for a
   * random factor exactly when the list is empty or all its weights are zero.
   */
  lemma NoLabelIff(ws: seq<Status>, u: RandomFactor)
    requires NonNegative(ws)
    ensures Selected(ws, Draw(ws, u)) == None <==> AllZero(ws)
  {
    if AllZero(ws) {
      NoWeightNoLabel(ws, u);
    } else {
      SomeWeightPositiveTotal(ws);
      PositiveTotalSelects(ws, u);
    }
  }

  /**
   * With non-negative weights the remaining draw never goes negative, so an
   * entry of weight zero is never the one chosen.
   */
  lemma ZeroWeightNeverChosen(ws: seq<Status>, u: RandomFactor, i: int)
    requires NonNegative(ws)
    requires IsFirstCrossing(ws, Draw(ws, u), i)
    ensures ws[i].weight > 0.0
  {
    TotalStep(ws, i);
    if i > 0 {
      assert Upto(ws, i - 1) == Total(ws[..i]);
    }
  }

  /** An empty list, or one whose weights are all zero, yields no label. */
  lemma NoWeightNoLabel(ws: seq<Status>, u: RandomFactor)
    requires AllZero(ws)
    ensures Selected(ws, Draw(ws, u)) == None
  {
    forall i | 0 <= i < |ws|
      ensures Upto(ws, i) <= Draw(ws, u)
    {
      assert forall j :: 0 <= j < i + 1 ==> ws[j] == ws[..i + 1][j];
    }
    SelectedNoneIff(ws, Draw(ws, u));
  }

  /**
   * Weights are not checked: a successful read of one label with a negative
   * weight still falls through to `undefined`.
   */
  lemma NegativeWeightFallsThrough()
    ensures var ws := [Status("ANSWERED", -1.0)];
            Draw(ws, 0.5) == -0.5 && Selected(ws, Draw(ws, 0.5)) == None
  {
    var ws := [Status("ANSWERED", -1.0)];
    assert ws[..1] == ws && ws[..0] == [];
    SelectedNoneIff(ws, Draw(ws, 0.5));
  }

  /** 70/20/10 over ANSWERED/NOANSWER/CONGESTION with the random factor 0.5 picks ANSWERED. */
  lemma HalfDrawPicksAnswered()
    ensures var ws := [Status("ANSWERED", 70.0), Status("NOANSWER", 20.0), Status("CONGESTION", 10.0)];
            Draw(ws, 0.5) == 50.0 && Selected(ws, Draw(ws, 0.5)) == Some("ANSWERED")
  {
    var ws := [Status("ANSWERED", 70.0), Status("NOANSWER", 20.0), Status("CONGESTION", 10.0)];
    assert ws[..1][..0] == [] && ws[..2][..1] == ws[..1] && ws[..3][..2] == ws[..2] && ws[..3] == ws;
    assert Total(ws[..1]) == 70.0;
    assert Total(ws[..2]) == 90.0;
    assert Total(ws) == 100.0;
    TotalStep(ws, 0);
    SelectedAt(ws, 50.0, 0);
  }
}
