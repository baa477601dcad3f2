/** The positional train/test split of `run_model`: `df[:-horizon]` and
    `df[-horizon:]`, with Python's rules for slice bounds, so every integer
    horizon has a defined outcome. */
module Split {

  /** Python's normalisation of a slice bound `i` on a sequence of length
      `n`: a negative bound counts from the end, and the result is clamped
      into `[0, n]`. */
  function SliceIndex(n: nat, i: int): (k: nat)
    ensures k <= n
    ensures 0 <= i <= n ==> k == i
    ensures i > n ==> k == n
    ensures i < 0 && 0 <= n + i ==> k == n + i
    ensures n + i < 0 ==> k == 0
  {
    if i < 0 then
      (if n + i < 0 then 0 else n + i)
    else
      (if i < n then i else n)
  }

  /** The position where the training prefix ends and the test suffix
      begins: both slices use the bound `-horizon`. */
  function CutPoint(n: nat, horizon: int): (k: nat)
    ensures k <= n
  {
    SliceIndex(n, -horizon)
  }

  /** `s[:-horizon]`: the observations before the cut point, in order. */
  function Train<T>(s: seq<T>, horizon: int): (t: seq<T>)
    ensures |t| == CutPoint(|s|, horizon)
    ensures forall i :: 0 <= i < |t| ==> t[i] == s[i]
  {
    s[..CutPoint(|s|, horizon)]
  }

  /** `s[-horizon:]`: the observations from the cut point on, in order. */
  function Test<T>(s: seq<T>, horizon: int): (t: seq<T>)
    ensures |t| == |s| - CutPoint(|s|, horizon)
    ensures forall i :: 0 <= i < |t| ==> t[i] == s[CutPoint(|s|, horizon) + i]
  {
    s[CutPoint(|s|, horizon)..]
  }

  /** The split loses and reorders nothing, whatever the horizon. */
  lemma SplitReconstructs<T>(s: seq<T>, horizon: int)
    ensures Train(s, horizon) + Test(s, horizon) == s
  {
  }

  /** A horizon in `(0, |s|]` holds out exactly `horizon` trailing
      observations, and they are the last ones. */
  lemma SplitSizes<T>(s: seq<T>, horizon: int)
    requires 0 < horizon <= |s|
    ensures |Test(s, horizon)| == horizon
    ensures |Train(s, horizon)| == |s| - horizon
    ensures forall i :: 0 <= i < horizon ==> Test(s, horizon)[i] == s[|s| - horizon + i]
  {
  }

  /** The training prefix is empty exactly when the series is empty, the
      horizon is zero (`df[:-0]` is `df[:0]`), or the horizon reaches the
      whole series; in those cases the test suffix is the whole series. */
  lemma EmptyTrain<T>(s: seq<T>, horizon: int)
    ensures |Train(s, horizon)| == 0 <==> (|s| == 0 || horizon == 0 || horizon >= |s|)
    ensures |Train(s, horizon)| == 0 ==> Test(s, horizon) == s
  {
  }

  /** The test suffix is empty exactly when the series is empty or a
      negative horizon cuts at or beyond its end. */
  lemma EmptyTest<T>(s: seq<T>, horizon: int)
    ensures |Test(s, horizon)| == 0 <==> (|s| == 0 || horizon + |s| <= 0)
  {
  }
}
