/** The wrap-around index steps shared by the image carousel of the car page
    (src/car/View.jsx) and the hero slider of the landing page
    (src/car/index.jsx): `(i + 1) % n` and `(i - 1 + n) % n`, with
    JavaScript's remainder. */
module Wrap {
  import opened Js

  function NextIndex(i: int, n: int): (r: int)
    requires n > 0
    ensures 0 <= i < n ==> 0 <= r < n && r == (if i == n - 1 then 0 else i + 1)
  {
    JsRem(i + 1, n)
  }

  function PrevIndex(i: int, n: int): (r: int)
    requires n > 0
    ensures 0 <= i < n ==> 0 <= r < n && r == (if i == 0 then n - 1 else i - 1)
  {
    JsRem(i - 1 + n, n)
  }

  /** On an index in range, a step back undoes a step forward and a step
      forward undoes a step back. */
  lemma {:induction false} StepsAreInverse(i: int, n: int)
    requires n > 0 && 0 <= i < n
    ensures PrevIndex(NextIndex(i, n), n) == i
    ensures NextIndex(PrevIndex(i, n), n) == i
  {
  }
}
