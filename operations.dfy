/**
 * Cashout operations: the payout records the processor drives through its
 * status machine, the store queries that select them, and the invariant
 * that ties the reference ids to the status.
 */
module Operations {
  import opened Wrappers
  import opened Php
  import opened Vendors

  /** The status machine: CREATED -> TRANSFER_* -> WITHDRAW_*. */
  datatype Status = Created | TransferSuccess | TransferFailed | WithdrawRequested | WithdrawFailed

  /** One payout operation, as the operation manager stores it. */
  datatype Operation = Operation(
    id: nat,                        // the store key
    miraklId: Option<int>,          // the seller; null (or 0) for an operator operation
    hipayId: Scalar,                // wallet account id, copied from the vendor
    amount: Amount,
    status: Status,
    transferId: Option<int>,
    withdrawId: Option<int>,
    withdrawnAmount: Option<Amount>,
    updatedAt: int)                 // seconds

  /** The retry window `'-1 day'`, in seconds. */
  const DAY: int := 86400

  /** `!$operation->getMiraklId()`: the operation pays the operator, not a seller. */
  predicate IsOperatorOperation(op: Operation) {
    !IsTruthy(op.miraklId)
  }

  /** The two store queries: `findByStatus` and `findByStatusAndBeforeUpdatedAt`. */
  datatype Query = ByStatus(status: Status) | ByStatusUpdatedBefore(status: Status, cutoff: int)

  predicate Matches(q: Query, op: Operation) {
    match q
    case ByStatus(s) => op.status == s
    case ByStatusUpdatedBefore(s, cutoff) => op.status == s && op.updatedAt < cutoff
  }

  /** Every stored operation sits under its own id. */
  predicate WellKeyed(store: map<nat, Operation>) {
    forall id :: id in store ==> store[id].id == id
  }

  /** Some element of `ops` has id `id`. */
  predicate Listed(id: nat, ops: seq<Operation>) {
    exists i :: 0 <= i < |ops| && ops[i].id == id
  }

  /** No two elements of `ops` share an id. */
  predicate DistinctIds(ops: seq<Operation>) {
    forall i, j :: 0 <= i < j < |ops| ==> ops[i].id != ops[j].id
  }

  /**
   * `ops` is an answer of the store to `q`: stored operations only, each
   * matching `q`, each once, and every matching operation present (in
   * some order, which the store does not promise).
   */
  predicate Lists(ops: seq<Operation>, store: map<nat, Operation>, q: Query) {
    && (forall i :: 0 <= i < |ops| ==> ops[i].id in store && store[ops[i].id] == ops[i] && Matches(q, ops[i]))
    && DistinctIds(ops)
    && (forall id :: id in store && Matches(q, store[id]) ==> Listed(id, ops))
  }

  /** `ops` is the answer to `first` followed by the answer to `second` (PHP `array_merge`). */
  predicate IsSelection(ops: seq<Operation>, split: nat, store: map<nat, Operation>, first: Query, second: Query) {
    split <= |ops| && Lists(ops[..split], store, first) && Lists(ops[split..], store, second)
  }

  /** The transfer selection's two queries, with the cutoff `now - DAY`. */
  function TransferQueries(now: int): (Query, Query) {
    (ByStatus(Created), ByStatusUpdatedBefore(TransferFailed, now - DAY))
  }

  /** The withdraw selection's two queries, with the cutoff `now - DAY`. */
  function WithdrawQueries(now: int): (Query, Query) {
    (ByStatus(TransferSuccess), ByStatusUpdatedBefore(WithdrawFailed, now - DAY))
  }

  /** Eligible for a transfer attempt at time `now`. */
  predicate Transferable(op: Operation, now: int) {
    op.status == Created || (op.status == TransferFailed && op.updatedAt < now - DAY)
  }

  /** Eligible for a withdraw attempt at time `now`. */
  predicate Withdrawable(op: Operation, now: int) {
    op.status == TransferSuccess || (op.status == WithdrawFailed && op.updatedAt < now - DAY)
  }

  /**
   * The reference ids follow the status: a transfer id exactly from
   * TRANSFER_SUCCESS on, a withdraw id and a withdrawn amount exactly at
   * WITHDRAW_REQUESTED.
   */
  predicate Consistent(op: Operation) {
    match op.status
    case Created | TransferFailed =>
      op.transferId.None? && op.withdrawId.None? && op.withdrawnAmount.None?
    case TransferSuccess | WithdrawFailed =>
      op.transferId.Some? && op.withdrawId.None? && op.withdrawnAmount.None?
    case WithdrawRequested =>
      op.transferId.Some? && op.withdrawId.Some? && op.withdrawnAmount.Some?
  }

  predicate AllConsistent(store: map<nat, Operation>) {
    forall id :: id in store ==> Consistent(store[id])
  }

  /**
   * Concatenating the answers of two queries on different statuses never
   * lists an operation twice, and lists exactly the operations matching
   * one of them.
   */
  lemma {:induction false} SelectionIsExact(ops: seq<Operation>, split: nat, store: map<nat, Operation>, first: Query, second: Query)
    requires IsSelection(ops, split, store, first, second)
    requires first.status != second.status
    ensures DistinctIds(ops)
    ensures forall i :: 0 <= i < |ops| ==> ops[i].id in store && store[ops[i].id] == ops[i]
    ensures forall id :: id in store ==> (Listed(id, ops) <==> Matches(first, store[id]) || Matches(second, store[id]))
  {
    var a, b := ops[..split], ops[split..];
    assert ops == a + b;
    forall i | 0 <= i < |ops|
      ensures ops[i].id in store && store[ops[i].id] == ops[i]
      ensures i < split ==> Matches(first, ops[i])
      ensures split <= i ==> Matches(second, ops[i])
    {
      if i < split { assert ops[i] == a[i]; } else { assert ops[i] == b[i - split]; }
    }
    forall i, j | 0 <= i < j < |ops|
      ensures ops[i].id != ops[j].id
    {
      if j < split {
        assert ops[i] == a[i] && ops[j] == a[j];
      } else if split <= i {
        assert ops[i] == b[i - split] && ops[j] == b[j - split];
      } else {
        assert ops[i].status == first.status && ops[j].status == second.status;
      }
    }
    forall id | id in store
      ensures Listed(id, ops) <==> Matches(first, store[id]) || Matches(second, store[id])
    {
      if Matches(first, store[id]) {
        assert Listed(id, a);
        var i :| 0 <= i < |a| && a[i].id == id;
        assert ops[i] == a[i];
      } else if Matches(second, store[id]) {
        assert Listed(id, b);
        var i :| 0 <= i < |b| && b[i].id == id;
        assert ops[split + i] == b[i];
      }
    }
  }

  /**
   * The transfer selection holds every CREATED operation and every
   * TRANSFER_FAILED one last updated more than a day ago, each exactly once.
   */
  lemma TransferSelectionExact(ops: seq<Operation>, split: nat, store: map<nat, Operation>, now: int)
    requires IsSelection(ops, split, store, TransferQueries(now).0, TransferQueries(now).1)
    ensures DistinctIds(ops)
    ensures forall id :: id in store ==> (Listed(id, ops) <==> Transferable(store[id], now))
  {
    SelectionIsExact(ops, split, store, TransferQueries(now).0, TransferQueries(now).1);
  }

  /**
   * The withdraw selection holds every TRANSFER_SUCCESS operation and every
   * WITHDRAW_FAILED one last updated more than a day ago, each exactly once.
   */
  lemma WithdrawSelectionExact(ops: seq<Operation>, split: nat, store: map<nat, Operation>, now: int)
    requires IsSelection(ops, split, store, WithdrawQueries(now).0, WithdrawQueries(now).1)
    ensures DistinctIds(ops)
    ensures forall id :: id in store ==> (Listed(id, ops) <==> Withdrawable(store[id], now))
  {
    SelectionIsExact(ops, split, store, WithdrawQueries(now).0, WithdrawQueries(now).1);
  }

  /** No operation is eligible for both passes at once. */
  lemma PassesDisjoint(op: Operation, now: int)
    ensures !(Transferable(op, now) && Withdrawable(op, now))
  {
  }
}
