/** The allocator capability set (allocate, deallocate, allocate-zeroed,
    reallocate) as the retrying decorator sees it. Addresses are naturals, with
    0 as the null pointer that signals failure; a layout is an uninterpreted
    (size, alignment) pair; and the wrapped allocator is a scripted oracle that
    answers each pointer-returning call with the next entry of its script. */
module Allocator {

  /** An address handed out by an allocator; `Null` is the failure marker. */
  type Ptr = nat

  const Null: Ptr := 0

  /** A request descriptor. The decorator never inspects it, only passes it on. */
  datatype Layout = Layout(size: nat, align: nat)

  /** One request received by an allocator, with all of its arguments. */
  datatype Call =
    | AllocCall(layout: Layout)
    | DeallocCall(ptr: Ptr, layout: Layout)
    | AllocZeroedCall(layout: Layout)
    | ReallocCall(ptr: Ptr, layout: Layout, newSize: nat)

  /** The `i`-th answer of a script; past its end the oracle reports failure. */
  function At(s: seq<Ptr>, i: nat): Ptr {
    if i < |s| then s[i] else Null
  }

  /** The script that remains once `n` answers have been consumed. */
  function Drop(s: seq<Ptr>, n: nat): (r: seq<Ptr>)
    ensures |r| <= |s|
    ensures forall i: nat :: At(r, i) == At(s, n + i)
  {
    if n <= |s| then s[n..] else []
  }

  lemma DropDrop(s: seq<Ptr>, m: nat, n: nat)
    ensures Drop(Drop(s, m), n) == Drop(s, m + n)
  {
    if m + n <= |s| {
      assert s[m..][n..] == s[m + n..];
    }
  }

  /** `n` back-to-back copies of `block`. */
  function Copies<T>(block: seq<T>, n: nat): (r: seq<T>)
    ensures |r| == n * |block|
  {
    if n == 0 then [] else block + Copies(block, n - 1)
  }

  lemma {:induction false} CopiesSnoc<T>(block: seq<T>, n: nat)
    ensures Copies(block, n) + block == Copies(block, n + 1)
  {
    if n == 0 {
      assert Copies(block, 0) == [];
      assert Copies(block, 1) == block + [];
    } else {
      CopiesSnoc(block, n - 1);
      calc {
        Copies(block, n) + block;
        (block + Copies(block, n - 1)) + block;
        block + (Copies(block, n - 1) + block);
        block + Copies(block, n);
      }
    }
  }

  /** Every element of `n` copies of a one-element block is that element. */
  lemma {:induction false} CopiesOfOne<T>(x: T, n: nat)
    ensures |Copies([x], n)| == n
    ensures forall i :: 0 <= i < n ==> Copies([x], n)[i] == x
  {
    if n > 0 {
      CopiesOfOne(x, n - 1);
      assert Copies([x], n) == [x] + Copies([x], n - 1);
    }
  }

  /** A log extended by `n` copies of one call holds only that call past its old end. */
  lemma AppendedCopiesOfOne<T>(prefix: seq<T>, x: T, n: nat)
    ensures var s := prefix + Copies([x], n);
      forall i :: |prefix| <= i < |s| ==> s[i] == x
  {
    CopiesOfOne(x, n);
  }

  /** Each element occurs in `n` copies of a block `n` times as often as in the block. */
  lemma {:induction false} CopiesOccurrences<T>(block: seq<T>, n: nat, x: T)
    ensures multiset(Copies(block, n))[x] == n * multiset(block)[x]
  {
    if n > 0 {
      CopiesOccurrences(block, n - 1, x);
      var k := multiset(block)[x];
      assert multiset(Copies(block, n)) == multiset(block) + multiset(Copies(block, n - 1));
      assert multiset(Copies(block, n))[x] == k + (n - 1) * k;
      assert k + (n - 1) * k == n * k by {
        assert (n - 1) * k == n * k - k;
      }
    }
  }

  /** The wrapped allocator: a scripted oracle that answers the pointer-returning
      requests with the entries of `script`, in order, and records in `log`
      every request it receives. */
  class ScriptedAlloc {
    var script: seq<Ptr>
    ghost var log: seq<Call>

    constructor (responses: seq<Ptr>)
      ensures script == responses && log == []
    {
      script := responses;
      log := [];
    }

    method Alloc(layout: Layout) returns (p: Ptr)
      modifies this
      ensures p == At(old(script), 0) && script == Drop(old(script), 1)
      ensures log == old(log) + [AllocCall(layout)]
    {
      p := At(script, 0);
      script := Drop(script, 1);
      log := log + [AllocCall(layout)];
    }

    method Dealloc(ptr: Ptr, layout: Layout)
      modifies this
      ensures script == old(script)
      ensures log == old(log) + [DeallocCall(ptr, layout)]
    {
      log := log + [DeallocCall(ptr, layout)];
    }

    method AllocZeroed(layout: Layout) returns (p: Ptr)
      modifies this
      ensures p == At(old(script), 0) && script == Drop(old(script), 1)
      ensures log == old(log) + [AllocZeroedCall(layout)]
    {
      p := At(script, 0);
      script := Drop(script, 1);
      log := log + [AllocZeroedCall(layout)];
    }

    method Realloc(ptr: Ptr, layout: Layout, newSize: nat) returns (p: Ptr)
      modifies this
      ensures p == At(old(script), 0) && script == Drop(old(script), 1)
      ensures log == old(log) + [ReallocCall(ptr, layout, newSize)]
    {
      p := At(script, 0);
      script := Drop(script, 1);
      log := log + [ReallocCall(ptr, layout, newSize)];
    }
  }
}
