/**
 * The cashout processor: selects the operations due for a transfer or a
 * withdrawal, runs each attempt against the wallet provider, updates the
 * operation step by step and saves it once per attempt. Every method is
 * proved to do exactly what the specifications in CashoutSpec say.
 */
module Cashout {
  import opened Wrappers
  import opened Php
  import opened Vendors
  import opened Operations
  import opened Collaborators
  import opened CashoutSpec
  import opened CashoutProperties

  /** The exception raised when the configured operator fails validation in the Operator group. */
  datatype ValidationFailed = ValidationFailed(vendor: Vendor, group: string)

  /** What one run did: each pass's selection and, per selected operation, its outcome. */
  datatype RunReport = RunReport(
    transferable: seq<Operation>,
    transferResults: seq<Result<int, CashoutError>>,
    withdrawable: seq<Operation>,
    withdrawResults: seq<Result<int, CashoutError>>)

  class Processor {
    const operator: Vendor
    const directory: map<int, Vendor>        // the vendor manager
    const manager: OperationManager
    const gateway: Gateway

    /** The configuration the specifications are stated against. */
    function Config(): Env {
      Env(operator, directory, gateway.oracle, manager.labels)
    }

    /** Builds a processor around an operator already known to pass the Operator group. */
    constructor (operator: Vendor, directory: map<int, Vendor>, manager: OperationManager, gateway: Gateway)
      requires ValidOperator(operator)
      ensures this.operator == operator && this.directory == directory
      ensures this.manager == manager && this.gateway == gateway
    {
      this.operator := operator;
      this.directory := directory;
      this.manager := manager;
      this.gateway := gateway;
    }

    /** The PHP constructor: validates the operator in the Operator group, or throws. */
    static method Create(operator: Vendor, directory: map<int, Vendor>, manager: OperationManager, gateway: Gateway)
      returns (r: Result<Processor, ValidationFailed>)
      ensures r.Success? <==> ValidOperator(operator)
      ensures r.Failure? ==> r.error == ValidationFailed(operator, "Operator")
      ensures r.Success? ==>
        && fresh(r.value) && r.value.operator == operator && r.value.directory == directory
        && r.value.manager == manager && r.value.gateway == gateway
    {
      if !ValidOperator(operator) {
        return Failure(ValidationFailed(operator, "Operator"));
      }
      var p := new Processor(operator, directory, manager, gateway);
      r := Success(p);
    }

    // -------------------------------------------------------------- transfer

    /** The catch block of `transfer`. */
    method FailTransfer(o: Operation, now: int, e: CashoutError) returns (r: Result<int, CashoutError>)
      requires manager.Valid()
      modifies manager
      ensures manager.Valid()
      ensures manager.operations == old(manager.operations)[o.id := o.(status := TransferFailed, updatedAt := now)]
      ensures manager.saved == old(manager.saved) + [o.(status := TransferFailed, updatedAt := now)]
      ensures r == Failure(e)
    {
      var failed := o.(status := TransferFailed, updatedAt := now);
      manager.Save(failed);
      r := Failure(e);
    }

    /** `transfer`: from the technical wallet to the operator's or seller's wallet. */
    method Transfer(op: Operation, now: int) returns (r: Result<int, CashoutError>)
      requires manager.Valid()
      modifies manager, gateway
      ensures manager.Valid()
      ensures var a := TransferAttempt(Config(), op, now, |old(gateway.trace)|);
        && r == a.result
        && gateway.trace == old(gateway.trace) + a.calls
        && manager.operations == old(manager.operations)[op.id := a.saved]
        && manager.saved == old(manager.saved) + [a.saved]
    {
      var vendor := GetVendor(Config(), op);
      if vendor.None? {
        r := FailTransfer(op, now, WalletNotFound(vendor));
        return;
      }
      var v := vendor.value;
      var free := gateway.IsAvailable(v.email);
      if free.Fault? {
        r := FailTransfer(op, now, GatewayError(IsAvailableCall(v.email)));
        return;
      }
      if free.value {
        r := FailTransfer(op, now, WalletNotFound(vendor));
        return;
      }
      var o := op.(hipayId := v.hipayId);
      var publicLabel := manager.GenerateLabel(PublicLabel, o, now);
      if publicLabel.Fault? {
        r := FailTransfer(o, now, LabelError(PublicLabel));
        return;
      }
      var privateLabel := manager.GenerateLabel(PrivateLabel, o, now);
      if privateLabel.Fault? {
        r := FailTransfer(o, now, LabelError(PrivateLabel));
        return;
      }
      var request := TransferRequest(RoundToCents(o.amount), v, publicLabel.value, privateLabel.value);
      var transferId := gateway.Transfer(request);
      if transferId.Fault? {
        r := FailTransfer(o, now, GatewayError(TransferCall(request)));
        return;
      }
      o := o.(status := TransferSuccess, transferId := Some(transferId.value), updatedAt := now);
      manager.Save(o);
      r := Success(transferId.value);
    }

    // -------------------------------------------------------------- withdraw

    /** The catch block of `withdraw`. */
    method FailWithdraw(o: Operation, now: int, e: CashoutError) returns (r: Result<int, CashoutError>)
      requires manager.Valid()
      modifies manager
      ensures manager.Valid()
      ensures manager.operations == old(manager.operations)[o.id := o.(status := WithdrawFailed, updatedAt := now)]
      ensures manager.saved == old(manager.saved) + [o.(status := WithdrawFailed, updatedAt := now)]
      ensures r == Failure(e)
    {
      var failed := o.(status := WithdrawFailed, updatedAt := now);
      manager.Save(failed);
      r := Failure(e);
    }

    /** `withdraw`: from the operator's or seller's wallet to its bank account. */
    method Withdraw(op: Operation, now: int) returns (r: Result<int, CashoutError>)
      requires manager.Valid()
      modifies manager, gateway
      ensures manager.Valid()
      ensures var a := WithdrawAttempt(Config(), op, now, |old(gateway.trace)|);
        && r == a.result
        && gateway.trace == old(gateway.trace) + a.calls
        && manager.operations == old(manager.operations)[op.id := a.saved]
        && manager.saved == old(manager.saved) + [a.saved]
    {
      ghost var n := |gateway.trace|;
      ghost var a := WithdrawAttempt(Config(), op, now, n);
      var vendor := GetVendor(Config(), op);
      if vendor.None? {
        r := FailWithdraw(op, now, WalletNotFound(vendor));
        return;
      }
      var v := vendor.value;
      var free := gateway.IsAvailable(v.email);
      if free.Fault? {
        assert a == WithdrawFailure(op, now, [IsAvailableCall(v.email)], GatewayError(IsAvailableCall(v.email)));
        r := FailWithdraw(op, now, GatewayError(IsAvailableCall(v.email)));
        return;
      }
      if free.value {
        assert a == WithdrawFailure(op, now, [IsAvailableCall(v.email)], WalletNotFound(vendor));
        r := FailWithdraw(op, now, WalletNotFound(vendor));
        return;
      }
      ghost var rest := WithdrawVerified(Config(), op, v, now, n + 1);
      assert a == rest.(calls := [IsAvailableCall(v.email)] + rest.calls);
      r := WithdrawChecks(op, v, now);
      assert gateway.trace == old(gateway.trace) + [IsAvailableCall(v.email)] + rest.calls;
    }

    /** The identification and bank-information checks of `withdraw`, then the funds. */
    method WithdrawChecks(op: Operation, v: Vendor, now: int) returns (r: Result<int, CashoutError>)
      requires manager.Valid()
      modifies manager, gateway
      ensures manager.Valid()
      ensures var a := WithdrawVerified(Config(), op, v, now, |old(gateway.trace)|);
        && r == a.result
        && gateway.trace == old(gateway.trace) + a.calls
        && manager.operations == old(manager.operations)[op.id := a.saved]
        && manager.saved == old(manager.saved) + [a.saved]
    {
      ghost var n := |gateway.trace|;
      ghost var a := WithdrawVerified(Config(), op, v, now, n);
      var identified := gateway.IsIdentified(v.email);
      if identified.Fault? {
        r := FailWithdraw(op, now, GatewayError(IsIdentifiedCall(v.email)));
        return;
      }
      if !identified.value {
        r := FailWithdraw(op, now, UnidentifiedWallet(v));
        return;
      }
      ghost var c12 := [IsIdentifiedCall(v.email), BankInfosStatusCall(v)];
      var bankInfo := gateway.BankInfosStatus(v);
      if bankInfo.Fault? {
        assert a == WithdrawFailure(op, now, c12, GatewayError(BankInfosStatusCall(v)));
        r := FailWithdraw(op, now, GatewayError(BankInfosStatusCall(v)));
        return;
      }
      var bankInfoStatus := Trim(bankInfo.value);
      if bankInfoStatus != BANK_INFO_VALIDATED {
        assert a == WithdrawFailure(op, now, c12, UnconfirmedBankAccount(bankInfoStatus, op.miraklId));
        r := FailWithdraw(op, now, UnconfirmedBankAccount(bankInfoStatus, op.miraklId));
        return;
      }
      ghost var rest := CashoutSpec.WithdrawFunds(Config(), op, v, now, n + 2);
      assert a == rest.(calls := c12 + rest.calls);
      r := WithdrawFunds(op, v, now);
      assert gateway.trace == old(gateway.trace) + c12 + rest.calls;
    }

    /** The rest of `withdraw`, once the wallet checks have passed (the balance rule, the label and the withdrawal, and the catch block). */
    method WithdrawFunds(op: Operation, v: Vendor, now: int) returns (r: Result<int, CashoutError>)
      requires manager.Valid()
      modifies manager, gateway
      ensures manager.Valid()
      ensures var a := CashoutSpec.WithdrawFunds(Config(), op, v, now, |old(gateway.trace)|);
        && r == a.result
        && gateway.trace == old(gateway.trace) + a.calls
        && manager.operations == old(manager.operations)[op.id := a.saved]
        && manager.saved == old(manager.saved) + [a.saved]
    {
      var amount := RoundToCents(op.amount);
      var balanceReply := gateway.GetBalance(v);
      if balanceReply.Fault? {
        r := FailWithdraw(op, now, GatewayError(GetBalanceCall(v)));
        return;
      }
      var balance := RoundToCents(balanceReply.value);
      if balance < amount {
        if IsOperatorOperation(op) {
          amount := balance;
        } else {
          r := FailWithdraw(op, now, WrongWalletBalance(v.miraklId, amount, balance));
          return;
        }
      }
      var o := op.(hipayId := v.hipayId);
      var text := manager.GenerateLabel(WithdrawLabel, o, now);
      if text.Fault? {
        r := FailWithdraw(o, now, LabelError(WithdrawLabel));
        return;
      }
      var withdrawId := gateway.Withdraw(v, amount, text.value);
      if withdrawId.Fault? {
        r := FailWithdraw(o, now, GatewayError(WithdrawCall(v, amount, text.value)));
        return;
      }
      o := o.(withdrawId := Some(withdrawId.value), status := WithdrawRequested, updatedAt := now,
              withdrawnAmount := Some(amount));
      manager.Save(o);
      r := Success(withdrawId.value);
    }

    // -------------------------------------------------------------- selection

    /** `getTransferableOperations`: CREATED, then TRANSFER_FAILED last updated over a day ago. */
    method GetTransferableOperations(now: int) returns (r: seq<Operation>, ghost split: nat)
      requires manager.Valid()
      ensures IsSelection(r, split, manager.operations, TransferQueries(now).0, TransferQueries(now).1)
      ensures DistinctIds(r)
      ensures forall id :: id in manager.operations ==> (Listed(id, r) <==> Transferable(manager.operations[id], now))
    {
      var previousDay := now - DAY;
      var created := manager.FindByStatus(Created);
      var failed := manager.FindByStatusAndBeforeUpdatedAt(TransferFailed, previousDay);
      r := created + failed;
      split := |created|;
      assert r[..split] == created && r[split..] == failed;
      TransferSelectionExact(r, split, manager.operations, now);
    }

    /** `getWithdrawableOperations`: TRANSFER_SUCCESS, then WITHDRAW_FAILED last updated over a day ago. */
    method GetWithdrawableOperations(now: int) returns (r: seq<Operation>, ghost split: nat)
      requires manager.Valid()
      ensures IsSelection(r, split, manager.operations, WithdrawQueries(now).0, WithdrawQueries(now).1)
      ensures DistinctIds(r)
      ensures forall id :: id in manager.operations ==> (Listed(id, r) <==> Withdrawable(manager.operations[id], now))
    {
      var previousDay := now - DAY;
      var succeeded := manager.FindByStatus(TransferSuccess);
      var failed := manager.FindByStatusAndBeforeUpdatedAt(WithdrawFailed, previousDay);
      r := succeeded + failed;
      split := |succeeded|;
      assert r[..split] == succeeded && r[split..] == failed;
      WithdrawSelectionExact(r, split, manager.operations, now);
    }

    // -------------------------------------------------------------- batches

    /** The manager's and gateway's state, with the outcomes collected so far. */
    ghost function State(results: seq<Result<int, CashoutError>>): BatchState
      reads manager, gateway
    {
      BatchState(manager.operations, gateway.trace, manager.saved, results)
    }

    /**
     * The `foreach` with its try/catch: every operation is attempted, an
     * error is recorded as that operation's outcome and the loop goes on.
     */
    method AttemptAll(pass: Pass, ops: seq<Operation>, now: int) returns (results: seq<Result<int, CashoutError>>)
      requires manager.Valid()
      modifies manager, gateway
      ensures manager.Valid()
      ensures State(results) == RunFrom(Config(), pass, ops, now, 0, old(State([])))
    {
      results := [];
      for i := 0 to |ops|
        invariant manager.Valid()
        invariant RunFrom(Config(), pass, ops, now, i, State(results)) == RunFrom(Config(), pass, ops, now, 0, old(State([])))
      {
        var r;
        if pass == TransferPass {
          r := Transfer(ops[i], now);
        } else {
          r := Withdraw(ops[i], now);
        }
        results := results + [r];
      }
    }

    /**
     * A pass over a selection: attempts each selected operation once; each
     * gets one save with the pass's success or failure status, and that
     * save is what the store holds afterwards.
     */
    method RunPass(pass: Pass, selected: seq<Operation>, now: int) returns (results: seq<Result<int, CashoutError>>)
      requires manager.Valid() && DistinctIds(selected)
      modifies manager, gateway
      ensures manager.Valid()
      ensures State(results) == RunFrom(Config(), pass, selected, now, 0, old(State([])))
      ensures |results| == |selected| && |manager.saved| == |old(manager.saved)| + |selected|
      ensures forall k :: 0 <= k < |selected| ==>
        var o := manager.saved[|old(manager.saved)| + k];
        && o.id == selected[k].id && o.updatedAt == now
        && o.status == (if results[k].Success? then SuccessStatus(pass) else FailedStatus(pass))
        && selected[k].id in manager.operations && manager.operations[selected[k].id] == o
    {
      ghost var st := State([]);
      results := AttemptAll(pass, selected, now);
      RunLogged(Config(), pass, selected, now, st);
      ghost var f := RunFrom(Config(), pass, selected, now, 0, st);
      assert manager.saved == f.saved && manager.operations == f.store && results == f.results;
      assert st.saved == old(manager.saved);
      forall k | 0 <= k < |selected|
        ensures var o := manager.saved[|old(manager.saved)| + k];
          && o.id == selected[k].id && o.updatedAt == now
          && o.status == (if results[k].Success? then SuccessStatus(pass) else FailedStatus(pass))
          && selected[k].id in manager.operations && manager.operations[selected[k].id] == o
      {
        var o := f.saved[|st.saved| + k];
        assert o.id == selected[k].id && o.updatedAt == now;
        assert o.status == (if f.results[k].Success? then SuccessStatus(pass) else FailedStatus(pass));
        assert selected[k].id in f.store && f.store[selected[k].id] == o;
      }
    }

    /**
     * `transferOperations`: selects, then attempts each selected operation
     * once; each gets one save with TRANSFER_SUCCESS or TRANSFER_FAILED,
     * and that save is what the store holds afterwards.
     */
    method TransferOperations(now: int) returns (selected: seq<Operation>, ghost split: nat, results: seq<Result<int, CashoutError>>)
      requires manager.Valid()
      modifies manager, gateway
      ensures manager.Valid()
      ensures IsSelection(selected, split, old(manager.operations), TransferQueries(now).0, TransferQueries(now).1)
      ensures State(results) == RunFrom(Config(), TransferPass, selected, now, 0, old(State([])))
      ensures |results| == |selected| && |manager.saved| == |old(manager.saved)| + |selected|
      ensures forall k :: 0 <= k < |selected| ==>
        var o := manager.saved[|old(manager.saved)| + k];
        && o.id == selected[k].id && o.updatedAt == now
        && o.status == (if results[k].Success? then TransferSuccess else TransferFailed)
        && selected[k].id in manager.operations && manager.operations[selected[k].id] == o
    {
      selected, split := GetTransferableOperations(now);
      ghost var before := manager.saved;
      results := RunPass(TransferPass, selected, now);
      forall k | 0 <= k < |selected|
        ensures var o := manager.saved[|before| + k];
          && o.id == selected[k].id && o.updatedAt == now
          && o.status == (if results[k].Success? then TransferSuccess else TransferFailed)
          && selected[k].id in manager.operations && manager.operations[selected[k].id] == o
      {
        assert SuccessStatus(TransferPass) == TransferSuccess && FailedStatus(TransferPass) == TransferFailed;
      }
    }

    /**
     * `withdrawOperations`: selects, then attempts each selected operation
     * once; each gets one save with WITHDRAW_REQUESTED or WITHDRAW_FAILED,
     * and that save is what the store holds afterwards.
     */
    method WithdrawOperations(now: int) returns (selected: seq<Operation>, ghost split: nat, results: seq<Result<int, CashoutError>>)
      requires manager.Valid()
      modifies manager, gateway
      ensures manager.Valid()
      ensures IsSelection(selected, split, old(manager.operations), WithdrawQueries(now).0, WithdrawQueries(now).1)
      ensures State(results) == RunFrom(Config(), WithdrawPass, selected, now, 0, old(State([])))
      ensures |results| == |selected| && |manager.saved| == |old(manager.saved)| + |selected|
      ensures forall k :: 0 <= k < |selected| ==>
        var o := manager.saved[|old(manager.saved)| + k];
        && o.id == selected[k].id && o.updatedAt == now
        && o.status == (if results[k].Success? then WithdrawRequested else WithdrawFailed)
        && selected[k].id in manager.operations && manager.operations[selected[k].id] == o
    {
      selected, split := GetWithdrawableOperations(now);
      ghost var before := manager.saved;
      results := RunPass(WithdrawPass, selected, now);
      forall k | 0 <= k < |selected|
        ensures var o := manager.saved[|before| + k];
          && o.id == selected[k].id && o.updatedAt == now
          && o.status == (if results[k].Success? then WithdrawRequested else WithdrawFailed)
          && selected[k].id in manager.operations && manager.operations[selected[k].id] == o
      {
        assert SuccessStatus(WithdrawPass) == WithdrawRequested && FailedStatus(WithdrawPass) == WithdrawFailed;
      }
    }

    /**
     * `process`: the transfer pass on the store as it was, then the withdraw
     * pass on the store the transfer pass left. An operation transferred in
     * this run is selected for withdrawal in the same run, and the
     * reference ids of every stored operation stay in line with its status.
     */
    method Process(now: int) returns (report: RunReport, ghost split: nat, ghost wsplit: nat, ghost mid: BatchState)
      requires manager.Valid()
      modifies manager, gateway
      ensures manager.Valid()
      ensures IsSelection(report.transferable, split, old(manager.operations), TransferQueries(now).0, TransferQueries(now).1)
      ensures mid == RunFrom(Config(), TransferPass, report.transferable, now, 0, old(State([])))
      ensures IsSelection(report.withdrawable, wsplit, mid.store, WithdrawQueries(now).0, WithdrawQueries(now).1)
      ensures State(report.withdrawResults) == RunFrom(Config(), WithdrawPass, report.withdrawable, now, 0, mid.(results := []))
      ensures report.transferResults == mid.results
      ensures |report.transferResults| == |report.transferable| && |report.withdrawResults| == |report.withdrawable|
      ensures forall k :: 0 <= k < |report.transferable| && report.transferResults[k].Success? ==>
        Listed(report.transferable[k].id, report.withdrawable)
      ensures AllConsistent(old(manager.operations)) ==> AllConsistent(manager.operations)
    {
      ghost var start := State([]);
      var transferable, transferResults;
      transferable, split, transferResults := TransferOperations(now);
      mid := State(transferResults);
      ghost var middle := State([]);
      assert middle == mid.(results := []);
      var withdrawable, withdrawResults;
      withdrawable, wsplit, withdrawResults := WithdrawOperations(now);
      report := RunReport(transferable, transferResults, withdrawable, withdrawResults);
      TransferredAreWithdrawable(Config(), transferable, split, now, start, withdrawable, wsplit);
      if AllConsistent(start.store) {
        PassKeepsConsistent(Config(), TransferPass, transferable, split, now, start);
        PassKeepsConsistent(Config(), WithdrawPass, withdrawable, wsplit, now, middle);
      }
    }
  }
}
