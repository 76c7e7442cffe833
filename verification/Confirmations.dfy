/// What it takes to confirm a transaction (backend/factory/src/evm.rs): the answer of the node, by
/// itself, and the refunds that follow from it.
module Confirmations {
  import opened Deposits
  import opened Limits
  import opened Options
  import opened RefundDraft
  import opened Refund

  /// The node reports a successful receipt, in the block that is canonical at its height, under at
  /// least `depth` blocks counting its own; a count that leaves 64 bits is refused.
  predicate Deep(a: Answer, depth: nat) {
    a.Confirmation? && a.receipt.Some? && a.receipt.value.status
    && SameUpToCase(a.canonical, a.receipt.value.hash)
    && a.receipt.value.block <= a.latest && depth <= a.latest - a.receipt.value.block + 1 <= U64_MAX
  }

  /// The record with the receipt that was answered.
  function Seen(record: Record, a: Answer): Record
    requires a.Confirmation? && a.receipt.Some?
  {
    record.(receiptBlockNumber := Some(a.receipt.value.block), receiptBlockHash := Some(a.receipt.value.hash),
            receiptStatus := Some(a.receipt.value.status))
  }

  lemma DeepHasReceipt(a: Answer, depth: nat)
    requires Deep(a, depth)
    ensures a.Confirmation? && a.receipt.Some?
  {
  }

  /// Exactly the deep answers confirm; an answer without a receipt, or with one that is only too
  /// shallow, is no error.
  lemma ConfirmsExactly(record: Record, depth: nat, a: Answer)
    requires a.Confirmation?
    ensures ConfirmDepth(record, depth, a).1 == Some(true) <==> Deep(a, depth)
    ensures ConfirmDepth(record, depth, a).1 == Some(false) <==> !Deep(a, depth) && (a.receipt.Some? ==> Deep(a, 0))
    ensures a.receipt.Some? ==> ConfirmDepth(record, depth, a).0 == Seen(record, a)
  {
    if a.receipt.Some? {
      SameHashExactly(a.canonical, a.receipt.value.hash);
    }
  }
}
