/** The part of a circular buffer in use, as a sequence. */
module Ring {
  /** The index `k` places after `h`. */
  function Slot(h: nat, k: nat, cap: nat): (i: nat)
    requires h < cap && k <= cap
    ensures i < cap && i == (h + k) % cap
  {
    if h + k < cap then h + k
    else
      assert (h + k) % cap == h + k - cap by { ModOnce(h + k, cap); }
      h + k - cap
  }

  lemma ModOnce(x: nat, cap: nat)
    requires 0 < cap <= x < 2 * cap
    ensures x % cap == x - cap
  {
  }

  lemma SlotAdd(h: nat, a: nat, b: nat, cap: nat)
    requires h < cap && a + b <= cap
    ensures Slot(Slot(h, a, cap), b, cap) == Slot(h, a + b, cap)
  {
  }

  ghost function Window<T>(buf: seq<T>, h: nat, n: nat): (w: seq<T>)
    requires h < |buf| && n <= |buf|
    ensures |w| == n
  {
    seq(n, i requires 0 <= i < n => buf[Slot(h, i, |buf|)])
  }

  lemma WindowPush<T>(buf: seq<T>, h: nat, n: nat, x: T)
    requires h < |buf| && n < |buf|
    ensures Window(buf[Slot(h, n, |buf|) := x], h, n + 1) == Window(buf, h, n) + [x]
  {
  }

  lemma WindowPop<T>(buf: seq<T>, h: nat, n: nat)
    requires h < |buf| && 0 < n <= |buf|
    ensures Window(buf, h, n) == [buf[h]] + Window(buf, Slot(h, 1, |buf|), n - 1)
  {
  }
}
