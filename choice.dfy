/** Option values and the model of `random.choice`.

    The responder draws every random reply with `random.choice` over a
    non-empty list. Here the random source is an explicit `pick` supplied by
    the caller: `Choose(xs, pick)` is the element at `pick % |xs|`. Every
    element is the result of some pick, so a property proved for all picks
    holds for whatever the random source returns. */
module Choice {

  datatype Option<+T> = None | Some(value: T)

  /** `random.choice(xs)` driven by the external pick `pick`. */
  function Choose<T>(xs: seq<T>, pick: nat): (x: T)
    requires |xs| > 0
    ensures x in xs
    ensures pick < |xs| ==> x == xs[pick]
  {
    xs[pick % |xs|]
  }

  /** No element of the list is out of reach of the random source. */
  lemma ChooseCovers<T>(xs: seq<T>, x: T)
    requires x in xs
    ensures exists pick: nat :: Choose(xs, pick) == x
  {
    var i :| 0 <= i < |xs| && xs[i] == x;
    assert Choose(xs, i) == x;
  }
}
