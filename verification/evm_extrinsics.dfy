/** The extrinsic handling `evm_apis` emits: `extrinsic_filter`, which keeps the
    Ethereum transactions of a block's extrinsics, and `convert_transaction`,
    which wraps a transaction into an unsigned extrinsic. The transaction type
    is left abstract. */
module EvmExtrinsics {
  import opened Wrappers

  /** A call of the Ethereum pallet; `transact` carries a transaction. */
  datatype EthereumCall<Tx> = Transact(transaction: Tx) | OtherEthereumCall(name: string)

  /** The runtime's call enum (`#runtime_call`): the Ethereum pallet's variant,
      or a call into any other pallet. */
  datatype RuntimeCall<Tx> = Ethereum(ethereumCall: EthereumCall<Tx>) | OtherPallet(pallet: string, name: string)

  /** An extrinsic: its signature (none when unsigned) and the call it dispatches. */
  datatype Extrinsic<Tx> = Extrinsic(signature: Option<string>, call: RuntimeCall<Tx>)

  predicate Carries<Tx(==)>(xt: Extrinsic<Tx>, t: Tx) {
    xt.call == Ethereum(Transact(t))
  }

  /** The closure given to `filter_map`: the transaction of an
      `Ethereum(transact { .. })` call, nothing for any other call. */
  function EthereumTransaction<Tx(==)>(xt: Extrinsic<Tx>): (r: Option<Tx>)
    ensures r.Some? ==> Carries(xt, r.value)
    ensures r.None? ==> !(xt.call.Ethereum? && xt.call.ethereumCall.Transact?)
  {
    match xt.call
    case Ethereum(Transact(t)) => Some(t)
    case _ => None
  }

  function ExtrinsicFilter<Tx(==)>(xts: seq<Extrinsic<Tx>>): (r: seq<Tx>)
    ensures |r| <= |xts|
  {
    if xts == [] then []
    else
      var rest := ExtrinsicFilter(xts[1..]);
      match EthereumTransaction(xts[0])
      case Some(t) => [t] + rest
      case None => rest
  }

  /** `idx` lists, in increasing order, positions of `xts` whose transactions
      are `r`, and every position holding an Ethereum transaction is listed. */
  ghost predicate Selects<Tx>(xts: seq<Extrinsic<Tx>>, r: seq<Tx>, idx: seq<nat>) {
    && |idx| == |r|
    && (forall k :: 0 <= k < |idx| ==> idx[k] < |xts| && Carries(xts[idx[k]], r[k]))
    && (forall k, l :: 0 <= k < l < |idx| ==> idx[k] < idx[l])
    && (forall i :: 0 <= i < |xts| && EthereumTransaction(xts[i]).Some? ==> i in idx)
  }

  /** The filter keeps exactly the matching extrinsics, in input order. */
  lemma {:induction false} FilterSelectsInOrder<Tx>(xts: seq<Extrinsic<Tx>>) returns (idx: seq<nat>)
    ensures Selects(xts, ExtrinsicFilter(xts), idx)
  {
    if xts == [] {
      return [];
    }
    var tail := FilterSelectsInOrder(xts[1..]);
    var shifted := ShiftSelection(xts, tail);
    if EthereumTransaction(xts[0]).Some? {
      idx := [0] + shifted;
      SelectFirst(xts, shifted);
    } else {
      idx := shifted;
      assert ExtrinsicFilter(xts) == ExtrinsicFilter(xts[1..]);
    }
  }

  /** When the first extrinsic carries a transaction, position 0 followed by a
      shifted selection of the tail selects the whole filter output. */
  lemma SelectFirst<Tx>(xts: seq<Extrinsic<Tx>>, shifted: seq<nat>)
    requires xts != [] && EthereumTransaction(xts[0]).Some?
    requires |shifted| == |ExtrinsicFilter(xts[1..])|
    requires forall k :: 0 <= k < |shifted| ==>
      0 < shifted[k] < |xts| && Carries(xts[shifted[k]], ExtrinsicFilter(xts[1..])[k])
    requires forall k, l :: 0 <= k < l < |shifted| ==> shifted[k] < shifted[l]
    requires forall i :: 1 <= i < |xts| && EthereumTransaction(xts[i]).Some? ==> i in shifted
    ensures Selects(xts, ExtrinsicFilter(xts), [0] + shifted)
  {
    var r, rest, idx := ExtrinsicFilter(xts), ExtrinsicFilter(xts[1..]), [0] + shifted;
    assert r == [EthereumTransaction(xts[0]).value] + rest;
    forall k | 1 <= k < |idx| ensures idx[k] < |xts| && Carries(xts[idx[k]], r[k]) {
      assert idx[k] == shifted[k - 1] && r[k] == rest[k - 1];
    }
  }

  /** A selection for the tail, moved one position up, selects the same
      transactions from the whole list, and leaves out only position 0. */
  lemma ShiftSelection<Tx>(xts: seq<Extrinsic<Tx>>, tail: seq<nat>) returns (shifted: seq<nat>)
    requires xts != []
    requires Selects(xts[1..], ExtrinsicFilter(xts[1..]), tail)
    ensures |shifted| == |tail|
    ensures forall k :: 0 <= k < |shifted| ==>
      0 < shifted[k] < |xts| && Carries(xts[shifted[k]], ExtrinsicFilter(xts[1..])[k])
    ensures forall k, l :: 0 <= k < l < |shifted| ==> shifted[k] < shifted[l]
    ensures forall i :: 1 <= i < |xts| && EthereumTransaction(xts[i]).Some? ==> i in shifted
  {
    shifted := seq(|tail|, k requires 0 <= k < |tail| => tail[k] + 1);
    forall k | 0 <= k < |tail| ensures Carries(xts[shifted[k]], ExtrinsicFilter(xts[1..])[k]) {
      assert xts[1..][tail[k]] == xts[shifted[k]];
    }
    forall i | 1 <= i < |xts| && EthereumTransaction(xts[i]).Some? ensures i in shifted {
      assert xts[1..][i - 1] == xts[i];
      var k :| 0 <= k < |tail| && tail[k] == i - 1;
      assert shifted[k] == i;
    }
  }

  /** Filtering a concatenation filters the parts and concatenates. */
  lemma {:induction false} FilterConcat<Tx>(a: seq<Extrinsic<Tx>>, b: seq<Extrinsic<Tx>>)
    ensures ExtrinsicFilter(a + b) == ExtrinsicFilter(a) + ExtrinsicFilter(b)
  {
    if a == [] {
      assert a + b == b;
    } else {
      assert (a + b)[1..] == a[1..] + b;
      FilterConcat(a[1..], b);
    }
  }

  /** `convert_transaction`: an unsigned extrinsic calling `transact`. */
  function ConvertTransaction<Tx(==)>(t: Tx): (xt: Extrinsic<Tx>)
    ensures xt.signature.None?
    ensures EthereumTransaction(xt) == Some(t)
  {
    Extrinsic(None, Ethereum(Transact(t)))
  }

  /** Converting transactions and filtering the extrinsics gives the
      transactions back. */
  lemma {:induction false} FilterConvertRoundTrip<Tx>(ts: seq<Tx>)
    ensures ExtrinsicFilter(seq(|ts|, i requires 0 <= i < |ts| => ConvertTransaction(ts[i]))) == ts
  {
    var xts := seq(|ts|, i requires 0 <= i < |ts| => ConvertTransaction(ts[i]));
    if ts != [] {
      var tail := seq(|ts| - 1, i requires 0 <= i < |ts| - 1 => ConvertTransaction(ts[1..][i]));
      assert xts[1..] == tail;
      FilterConvertRoundTrip(ts[1..]);
      assert ts == [ts[0]] + ts[1..];
    }
  }
}
