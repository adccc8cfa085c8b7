/** A buffer that a loop fills slot by slot, in increasing order: the state
    after the first `n` slots have been given their final values. The index
    buffer and the slope maps are filled this way; slots the loops skip keep
    the value they were cleared to. */
module Buffers {

  /** The first `n` slots as in `full`, every later slot still `blank`. */
  function WrittenUpTo<T>(full: seq<T>, n: nat, blank: T): (r: seq<T>)
    ensures |r| == |full|
    ensures forall s :: 0 <= s < |r| && s < n ==> r[s] == full[s]
    ensures forall s :: n <= s < |r| ==> r[s] == blank
  {
    seq(|full|, s requires 0 <= s < |full| => if s < n then full[s] else blank)
  }

  /** A cleared buffer is the state before any slot is written. */
  lemma NothingWritten<T>(full: seq<T>, blank: T)
    ensures WrittenUpTo(full, 0, blank) == seq(|full|, _ => blank)
  {
  }

  /** Writing the final value into the next slot moves the boundary by one. */
  lemma WriteNext<T>(full: seq<T>, n: nat, blank: T, v: T)
    requires n < |full| && v == full[n]
    ensures WrittenUpTo(full, n, blank)[n := v] == WrittenUpTo(full, n + 1, blank)
  {
  }

  /** Slots whose final value is `blank` need no write: the boundary moves over them. */
  lemma SkipBlank<T>(full: seq<T>, n1: nat, n2: nat, blank: T)
    requires n1 <= n2
    requires forall s | n1 <= s < n2 && s < |full| :: full[s] == blank
    ensures WrittenUpTo(full, n1, blank) == WrittenUpTo(full, n2, blank)
  {
  }

  /** Once the boundary is past the last slot, the buffer is complete. */
  lemma AllWritten<T>(full: seq<T>, n: nat, blank: T)
    requires |full| <= n
    ensures WrittenUpTo(full, n, blank) == full
  {
  }

  /** Writing the final values `a`, `b`, `c` of the next three slots (one
      RGB pixel) moves the boundary by three. */
  lemma WriteThree<T>(full: seq<T>, n: nat, blank: T, a: T, b: T, c: T)
    requires n + 3 <= |full| && full[n] == a && full[n + 1] == b && full[n + 2] == c
    ensures WrittenUpTo(full, n, blank)[n := a][n + 1 := b][n + 2 := c] == WrittenUpTo(full, n + 3, blank)
  {
  }

  /** The first `n` slots as in `full`, every later slot as in `base`: a
      buffer whose old contents the loop overwrites in order. */
  function Overlaid<T>(full: seq<T>, n: nat, base: seq<T>): (r: seq<T>)
    requires |base| == |full|
    ensures |r| == |full|
    ensures forall s :: 0 <= s < |r| && s < n ==> r[s] == full[s]
    ensures forall s :: n <= s < |r| ==> r[s] == base[s]
  {
    seq(|full|, s requires 0 <= s < |full| => if s < n then full[s] else base[s])
  }

  /** Nothing is overwritten yet. */
  lemma NothingOverlaid<T>(full: seq<T>, base: seq<T>)
    requires |base| == |full|
    ensures Overlaid(full, 0, base) == base
  {
  }

  /** Overwriting the next slot with its final value moves the boundary by one. */
  lemma OverlayNext<T>(full: seq<T>, n: nat, base: seq<T>, v: T)
    requires |base| == |full| && n < |full| && v == full[n]
    ensures Overlaid(full, n, base)[n := v] == Overlaid(full, n + 1, base)
  {
  }

  /** Once every slot is overwritten, the old contents are gone. */
  lemma AllOverlaid<T>(full: seq<T>, n: nat, base: seq<T>)
    requires |base| == |full| <= n
    ensures Overlaid(full, n, base) == full
  {
  }
}
