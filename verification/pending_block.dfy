/** The emitted `pending_block`: apply every extrinsic through the executive,
    drop each outcome, finalise the Ethereum pallet at the next block number,
    and read the resulting block and transaction statuses. The chain state and
    the runtime functions acting on it are abstract. */
module PendingBlock {
  import opened Wrappers

  /** The runtime functions `pending_block` calls: `apply_extrinsic` (new
      state and an outcome), `System::block_number`, the Ethereum pallet's
      `on_finalize`, and the two storage reads. */
  datatype Chain<!S, !X, R, B, T> = Chain(
    apply: (S, X) -> (S, R),
    blockNumber: S -> nat,
    finalize: (S, nat) -> S,
    currentBlock: S -> Option<B>,
    statuses: S -> Option<seq<T>>)

  /** A state-changing call made during the preview. */
  datatype Event<X> = Applied(extrinsic: X) | Finalized(number: nat)

  /** The state after applying the extrinsics in order, each outcome dropped. */
  function ApplyAll<S, X, R>(s: S, xts: seq<X>, apply: (S, X) -> (S, R)): S {
    if xts == [] then s
    else apply(ApplyAll(s, xts[..|xts| - 1], apply), xts[|xts| - 1]).0
  }

  /** Applying a concatenation applies the first part, then the second. */
  lemma {:induction false} ApplyAllConcat<S, X, R>(s: S, a: seq<X>, b: seq<X>, apply: (S, X) -> (S, R))
    ensures ApplyAll(s, a + b, apply) == ApplyAll(ApplyAll(s, a, apply), b, apply)
    decreases |b|
  {
    if b == [] {
      assert a + b == a;
    } else {
      assert (a + b)[..|a + b| - 1] == a + b[..|b| - 1];
      ApplyAllConcat(s, a, b[..|b| - 1], apply);
    }
  }

  /** The outcomes are never looked at: two `apply` functions that change the
      state alike, whatever they report, reach the same state. */
  lemma {:induction false} OutcomesIgnored<S, X, R>(s: S, xts: seq<X>, f: (S, X) -> (S, R), g: (S, X) -> (S, R))
    requires forall s', x :: f(s', x).0 == g(s', x).0
    ensures ApplyAll(s, xts, f) == ApplyAll(s, xts, g)
  {
    if xts != [] {
      OutcomesIgnored(s, xts[..|xts| - 1], f, g);
    }
  }

  method PendingBlock<S, X, R, B, T>(chain: Chain<S, X, R, B, T>, s0: S, xts: seq<X>)
    returns (block: Option<B>, statuses: Option<seq<T>>, log: seq<Event<X>>)
    // the log is the method's own trace of the calls it makes; that each
    // extrinsic is applied once, in order, whatever its outcome, is the
    // `ApplyAll` clause below, as the fold applies every element exactly once
    ensures |log| == |xts| + 1
    ensures forall i :: 0 <= i < |xts| ==> log[i] == Applied(xts[i])
    // then one finalisation, at the number read after applying, plus one
    ensures log[|xts|] == Finalized(chain.blockNumber(ApplyAll(s0, xts, chain.apply)) + 1)
    // and the two reads see the finalised state
    ensures var applied := ApplyAll(s0, xts, chain.apply);
      var done := chain.finalize(applied, chain.blockNumber(applied) + 1);
      block == chain.currentBlock(done) && statuses == chain.statuses(done)
  {
    var s := s0;
    log := [];
    var i := 0;
    while i < |xts|
      invariant 0 <= i <= |xts|
      invariant s == ApplyAll(s0, xts[..i], chain.apply)
      invariant |log| == i && forall k :: 0 <= k < i ==> log[k] == Applied(xts[k])
    {
      assert xts[..i + 1][..i] == xts[..i];
      var (next, _) := chain.apply(s, xts[i]);
      s := next;
      log := log + [Applied(xts[i])];
      i := i + 1;
    }
    assert xts[..i] == xts;
    var number := chain.blockNumber(s) + 1;
    s := chain.finalize(s, number);
    log := log + [Finalized(number)];
    block := chain.currentBlock(s);
    statuses := chain.statuses(s);
  }
}
