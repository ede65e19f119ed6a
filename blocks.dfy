/** Logs made of blocks laid end to end, one block per round of a loop,
    where each block may depend on the position at which it starts (the
    handle of the object its first call creates). The per-frame descriptor
    sets of a material are laid out this way. */
module Blocks {

  /** `count` blocks in order: the block of each round is `block(p)` for the
      position `p`, counted from `base`, at which it starts. */
  function Concat<T>(block: nat -> seq<T>, base: nat, count: nat): seq<T> {
    if count == 0 then []
    else
      var prev := Concat(block, base, count - 1);
      prev + block(base + |prev|)
  }

  /** The position at which each of the first `count` blocks starts. */
  function Starts<T>(block: nat -> seq<T>, base: nat, count: nat): (r: seq<nat>)
    ensures |r| == count
  {
    if count == 0 then []
    else Starts(block, base, count - 1) + [base + |Concat(block, base, count - 1)|]
  }

  /** Later rounds only append: the first `f` blocks open the first `count`. */
  lemma {:induction false} ConcatGrows<T>(block: nat -> seq<T>, base: nat, f: nat, count: nat)
    requires f <= count
    ensures |Concat(block, base, f)| <= |Concat(block, base, count)|
    ensures Concat(block, base, count)[..|Concat(block, base, f)|] == Concat(block, base, f)
    decreases count
  {
    if f < count {
      var prev := Concat(block, base, count - 1);
      var small := Concat(block, base, f);
      ConcatGrows(block, base, f, count - 1);
      assert Concat(block, base, count) == prev + block(base + |prev|);
      assert (prev + block(base + |prev|))[..|small|] == prev[..|small|];
    }
  }

  /** Block `f` sits, whole, right after the blocks before it. */
  lemma BlockAt<T>(block: nat -> seq<T>, base: nat, count: nat, f: nat)
    requires f < count
    ensures var at := |Concat(block, base, f)|;
            var b := block(base + at);
            && at + |b| <= |Concat(block, base, count)|
            && forall n :: 0 <= n < |b| ==> Concat(block, base, count)[at + n] == b[n]
  {
    var prev := Concat(block, base, f);
    var at := |prev|;
    var b := block(base + at);
    var next := Concat(block, base, f + 1);
    var full := Concat(block, base, count);
    assert next == prev + b;
    ConcatGrows(block, base, f + 1, count);
    assert full[..|next|] == next;
    forall n | 0 <= n < |b| ensures full[at + n] == b[n] {
      calc {
        full[at + n];
        full[..|next|][at + n];
        next[at + n];
        b[n];
      }
    }
  }

  /** Block `f` starts right after the blocks before it. */
  lemma {:induction false} StartsAt<T>(block: nat -> seq<T>, base: nat, count: nat, f: nat)
    requires f < count
    ensures Starts(block, base, count)[f] == base + |Concat(block, base, f)|
    decreases count
  {
    if f < count - 1 {
      StartsAt(block, base, count - 1, f);
    }
  }

  /** When every block has `m` elements, `count` blocks have `count * m`. */
  lemma {:induction false} UniformLength<T>(block: nat -> seq<T>, base: nat, count: nat, m: nat)
    requires forall p: nat :: |block(p)| == m
    ensures |Concat(block, base, count)| == count * m
  {
    if count > 0 {
      UniformLength(block, base, count - 1, m);
      assert (count - 1) * m + m == count * m;
    }
  }

  /** One more round appends its block, started at the current end. */
  lemma ConcatStep<T>(block: nat -> seq<T>, base: nat, f: nat, start: seq<T>, before: seq<T>)
    requires |start| == base && before == start + Concat(block, base, f)
    ensures |before| == base + |Concat(block, base, f)|
    ensures start + Concat(block, base, f + 1) == before + block(|before|)
    ensures Starts(block, base, f + 1) == Starts(block, base, f) + [|before|]
  {
    var prev := Concat(block, base, f);
    var b := block(base + |prev|);
    assert Concat(block, base, f + 1) == prev + b;
    assert start + (prev + b) == start + prev + b;
  }
}
