/**
 * Properties of the cashout engine, proved on the attempt and batch
 * specifications: vendor choice, the wallet check, the withdraw gates in
 * their order, the balance rule, what a failure leaves untouched, the
 * status/reference invariant, and what a batch does with each selected
 * operation.
 */
module CashoutProperties {
  import opened Wrappers
  import opened Php
  import opened Vendors
  import opened Operations
  import opened Collaborators
  import opened CashoutSpec

  /** No call in `calls` moves money. */
  predicate NoMoneyMoved(calls: seq<Call>) {
    forall i :: 0 <= i < |calls| ==> !MovesMoney(calls[i])
  }

  /**
   * An operation without a Mirakl id (null or 0) is paid to the configured
   * operator; one with an id goes to the directory's vendor under that id,
   * and to nobody if there is none.
   */
  lemma VendorChoice(env: Env, op: Operation)
    ensures var r := GetVendor(env, op);
      && (IsOperatorOperation(op) ==> r == Some(env.operator))
      && (!IsOperatorOperation(op) ==>
            && (r.Some? <==> op.miraklId.value in env.directory)
            && (r.Some? ==> r.value == env.directory[op.miraklId.value]))
  {
  }

  /**
   * With a valid operator and a directory of valid sellers filed under
   * their own ids, the chosen vendor is the operator exactly for an
   * operator operation, and otherwise the seller with the operation's id.
   */
  lemma VendorChoiceValid(env: Env, op: Operation)
    requires ValidOperator(env.operator) && DirectoryConsistent(env)
    ensures var r := GetVendor(env, op);
      && (r.Some? ==> (ValidOperator(r.value) <==> IsOperatorOperation(op)))
      && (r.Some? && !IsOperatorOperation(op) ==> ValidSeller(r.value) && r.value.miraklId == Int(op.miraklId.value))
  {
    var r := GetVendor(env, op);
    if r.Some? && !IsOperatorOperation(op) {
      SellerIsNotOperator(r.value);
    }
  }

  /**
   * The shape every attempt has: the saved operation keeps its id, amount
   * and Mirakl id, is stamped `now`, and its status says whether the
   * attempt succeeded; only the last provider call can move money, a
   * success always ends with one, a business error makes none, a gateway
   * error is the last call; a failure keeps the transfer id, withdraw id
   * and withdrawn amount.
   */
  predicate WellShaped(a: Attempt, pass: Pass, op: Operation, now: int) {
    && a.saved.id == op.id && a.saved.amount == op.amount && a.saved.miraklId == op.miraklId
    && a.saved.updatedAt == now
    && a.saved.status == (if a.result.Success? then SuccessStatus(pass) else FailedStatus(pass))
    && NoMoneyMoved(if a.calls == [] then [] else a.calls[..|a.calls| - 1])
    && (a.result.Success? ==> a.calls != [] && MovesMoney(a.calls[|a.calls| - 1]))
    && (a.result.Failure? && IsBusinessError(a.result.error) ==> NoMoneyMoved(a.calls))
    && (a.result.Failure? && a.result.error.GatewayError? ==> a.calls != [] && a.result.error.call == a.calls[|a.calls| - 1])
    && (a.result.Failure? ==>
          a.saved.transferId == op.transferId && a.saved.withdrawId == op.withdrawId
          && a.saved.withdrawnAmount == op.withdrawnAmount)
  }

  lemma TransferWellShaped(env: Env, op: Operation, now: int, n: nat)
    ensures WellShaped(TransferAttempt(env, op, now, n), TransferPass, op, now)
  {
  }

  /**
   * The withdraw attempts that stop at a gate, before the balance is read,
   * whether a gate fails or its call throws: none of them moves money.
   */
  lemma WithdrawGatesWellShaped(env: Env, op: Operation, now: int, n: nat)
    requires !BankInfoValidated(env, op, n)
    ensures WellShaped(WithdrawAttempt(env, op, now, n), WithdrawPass, op, now)
    ensures NoMoneyMoved(WithdrawAttempt(env, op, now, n).calls)
  {
    var a := WithdrawAttempt(env, op, now, n);
    if !WalletExists(env, op, n) {
      assert |a.calls| <= 1;
    } else if !WalletIdentified(env, op, n) {
      assert |a.calls| == 2;
    } else {
      assert |a.calls| == 3;
    }
  }

  /** The withdraw attempts that read the balance. */
  lemma WithdrawTailWellShaped(env: Env, op: Operation, now: int, n: nat)
    requires BankInfoValidated(env, op, n)
    ensures WellShaped(WithdrawAttempt(env, op, now, n), WithdrawPass, op, now)
  {
  }

  lemma AttemptShape(env: Env, pass: Pass, op: Operation, now: int, n: nat)
    ensures WellShaped(AttemptOf(env, pass, op, now, n), pass, op, now)
  {
    if pass == TransferPass {
      TransferWellShaped(env, op, now, n);
    } else if BankInfoValidated(env, op, n) {
      WithdrawTailWellShaped(env, op, now, n);
    } else {
      WithdrawGatesWellShaped(env, op, now, n);
    }
  }

  /** An attempt on an eligible, consistent operation saves a consistent one. */
  lemma AttemptKeepsConsistent(env: Env, pass: Pass, op: Operation, now: int, n: nat)
    requires Consistent(op) && EligibleStatus(pass, op.status)
    ensures Consistent(AttemptOf(env, pass, op, now, n).saved)
  {
    AttemptShape(env, pass, op, now, n);
  }

  // ---------------------------------------------------------------- transfer

  /**
   * `transfer` raises WalletNotFound exactly when no vendor is found or the
   * provider reports the vendor's email as still available; it then only
   * marks the operation TRANSFER_FAILED and makes no transfer.
   */
  lemma TransferWalletNotFound(env: Env, op: Operation, now: int, n: nat)
    ensures var a := TransferAttempt(env, op, now, n);
      var vendor := GetVendor(env, op);
      && (a.result.Failure? && a.result.error.WalletNotFound? <==>
            vendor.None? || env.oracle.isAvailable(n, vendor.value.email) == Answer(true))
      && (a.result.Failure? && a.result.error.WalletNotFound? ==>
            && a.result.error == WalletNotFound(vendor)
            && a.saved == op.(status := TransferFailed, updatedAt := now)
            && NoMoneyMoved(a.calls))
  {
  }

  /**
   * A successful `transfer` found the wallet, sent the amount rounded to
   * cents to that vendor, and saved TRANSFER_SUCCESS with the returned
   * transfer id and the vendor's wallet id.
   */
  lemma TransferSucceeded(env: Env, op: Operation, now: int, n: nat)
    requires TransferAttempt(env, op, now, n).result.Success?
    ensures var a := TransferAttempt(env, op, now, n);
      var v := GetVendor(env, op).value;
      && WalletExists(env, op, n)
      && a.saved == op.(hipayId := v.hipayId, status := TransferSuccess, transferId := Some(a.result.value), updatedAt := now)
      && |a.calls| == 2 && a.calls[1].TransferCall?
      && a.calls[1].request.amount == RoundToCents(op.amount) && a.calls[1].request.vendor == v
      && env.oracle.transfer(n + 1, a.calls[1].request) == Answer(a.result.value)
  {
  }

  /** When the wallet exists and neither the labels nor the provider throw, `transfer` succeeds. */
  lemma TransferSucceedsWhenNothingThrows(env: Env, op: Operation, now: int, n: nat)
    requires WalletExists(env, op, n)
    requires var v := GetVendor(env, op).value;
      var o := op.(hipayId := v.hipayId);
      var pub := env.labels(PublicLabel, o, now);
      var priv := env.labels(PrivateLabel, o, now);
      pub.Answer? && priv.Answer? &&
      env.oracle.transfer(n + 1, TransferRequest(RoundToCents(op.amount), v, pub.value, priv.value)).Answer?
    ensures TransferAttempt(env, op, now, n).result.Success?
  {
  }

  /**
   * A failed `transfer` changes the status and the time stamp, and the
   * wallet id only if the wallet check had passed.
   */
  lemma TransferFailureChangesLittle(env: Env, op: Operation, now: int, n: nat)
    requires TransferAttempt(env, op, now, n).result.Failure?
    ensures var a := TransferAttempt(env, op, now, n);
      && a.saved == op.(status := TransferFailed, updatedAt := now, hipayId := a.saved.hipayId)
      && a.saved.hipayId == (if WalletExists(env, op, n) then GetVendor(env, op).value.hipayId else op.hipayId)
  {
  }

  // ---------------------------------------------------------------- withdraw

  /** A withdraw gate failed: WITHDRAW_FAILED saved with nothing else changed, and no withdrawal made. */
  predicate GateFailed(a: Attempt, op: Operation, now: int) {
    a.saved == op.(status := WithdrawFailed, updatedAt := now) && NoMoneyMoved(a.calls)
  }

  /** First gate: no vendor, or its email still free at the provider. */
  lemma WithdrawWalletNotFound(env: Env, op: Operation, now: int, n: nat)
    ensures var a := WithdrawAttempt(env, op, now, n);
      var vendor := GetVendor(env, op);
      && (a.result.Failure? && a.result.error.WalletNotFound? <==>
            vendor.None? || env.oracle.isAvailable(n, vendor.value.email) == Answer(true))
      && (a.result.Failure? && a.result.error.WalletNotFound? ==>
            a.result.error == WalletNotFound(vendor) && GateFailed(a, op, now))
  {
  }

  /** Second gate, reached only once the wallet exists: the wallet is not identified. */
  lemma WithdrawUnidentified(env: Env, op: Operation, now: int, n: nat)
    ensures var a := WithdrawAttempt(env, op, now, n);
      && (a.result.Failure? && a.result.error.UnidentifiedWallet? <==>
            WalletExists(env, op, n) && env.oracle.isIdentified(n + 1, GetVendor(env, op).value.email) == Answer(false))
      && (a.result.Failure? && a.result.error.UnidentifiedWallet? ==>
            a.result.error == UnidentifiedWallet(GetVendor(env, op).value) && GateFailed(a, op, now))
  {
  }

  /**
   * Third gate, reached only for an identified wallet: the trimmed bank
   * status is not "validated"; the error carries that status and the
   * operation's Mirakl id.
   */
  lemma WithdrawUnconfirmedBankAccount(env: Env, op: Operation, now: int, n: nat)
    ensures var a := WithdrawAttempt(env, op, now, n);
      && (a.result.Failure? && a.result.error.UnconfirmedBankAccount? <==>
            && WalletIdentified(env, op, n)
            && var answer := env.oracle.bankInfosStatus(n + 2, GetVendor(env, op).value);
               answer.Answer? && Trim(answer.value) != BANK_INFO_VALIDATED)
      && (a.result.Failure? && a.result.error.UnconfirmedBankAccount? ==>
            && a.result.error == UnconfirmedBankAccount(
                 Trim(env.oracle.bankInfosStatus(n + 2, GetVendor(env, op).value).value), op.miraklId)
            && GateFailed(a, op, now))
  {
  }

  /**
   * Fourth gate, reached only with validated bank information: a seller
   * operation whose rounded amount exceeds the rounded balance.
   */
  lemma WithdrawWrongBalance(env: Env, op: Operation, now: int, n: nat)
    ensures var a := WithdrawAttempt(env, op, now, n);
      && (a.result.Failure? && a.result.error.WrongWalletBalance? <==>
            && BankInfoValidated(env, op, n)
            && var balance := env.oracle.getBalance(n + 3, GetVendor(env, op).value);
               balance.Answer? && !IsOperatorOperation(op)
               && RoundToCents(balance.value) < RoundToCents(op.amount))
      && (a.result.Failure? && a.result.error.WrongWalletBalance? ==>
            && a.result.error == WrongWalletBalance(
                 GetVendor(env, op).value.miraklId, RoundToCents(op.amount),
                 RoundToCents(env.oracle.getBalance(n + 3, GetVendor(env, op).value).value))
            && GateFailed(a, op, now))
  {
  }

  /**
   * The balance rule never asks for more than the rounded amount nor more
   * than the rounded balance; it fails only a seller short of funds, and
   * caps an operator at the balance.
   */
  lemma BalanceRuleBounds(op: Operation, v: Vendor, balance: Amount)
    ensures var amount, rounded := RoundToCents(op.amount), RoundToCents(balance);
      var r := BalanceRule(op, v, balance);
      && (r.Failure? <==> !IsOperatorOperation(op) && rounded < amount)
      && (r.Success? ==>
            && IsCents(r.value) && r.value <= amount && r.value <= rounded
            && (IsOperatorOperation(op) ==> r.value == (if rounded < amount then rounded else amount))
            && (!IsOperatorOperation(op) ==> r.value == amount)
            && (IsCents(op.amount) ==> r.value <= op.amount))
  {
    var amount := RoundToCents(op.amount);
    if IsCents(op.amount) {
      RoundToCentsUnique(op.amount, op.amount);
    }
  }

  /**
   * A successful `withdraw` passed every gate, asked the provider for
   * exactly the amount it records as withdrawn (the balance rule's
   * amount), and saved WITHDRAW_REQUESTED with the returned withdraw id
   * and the vendor's wallet id.
   */
  lemma WithdrawSucceeded(env: Env, op: Operation, now: int, n: nat)
    requires WithdrawAttempt(env, op, now, n).result.Success?
    ensures var a := WithdrawAttempt(env, op, now, n);
      var v := GetVendor(env, op).value;
      var balance := env.oracle.getBalance(n + 3, v);
      && BankInfoValidated(env, op, n) && balance.Answer?
      && BalanceRule(op, v, balance.value).Success?
      && var w := BalanceRule(op, v, balance.value).value;
         && a.saved == op.(hipayId := v.hipayId, withdrawId := Some(a.result.value), status := WithdrawRequested,
                          updatedAt := now, withdrawnAmount := Some(w))
         && |a.calls| == 5 && a.calls[4].WithdrawCall? && a.calls[4].vendor == v && a.calls[4].amount == w
         && env.oracle.withdraw(n + 4, v, w, a.calls[4].labelText) == Answer(a.result.value)
         && w <= RoundToCents(op.amount) && w <= RoundToCents(balance.value)
  {
    var v := GetVendor(env, op).value;
    BalanceRuleBounds(op, v, env.oracle.getBalance(n + 3, v).value);
  }

  /**
   * When every gate passes, the balance rule allows the withdrawal and
   * neither the label nor the provider throws, `withdraw` succeeds.
   */
  lemma WithdrawSucceedsWhenNothingThrows(env: Env, op: Operation, now: int, n: nat)
    requires BankInfoValidated(env, op, n)
    requires var v := GetVendor(env, op).value;
      var b := env.oracle.getBalance(n + 3, v);
      && b.Answer? && BalanceRule(op, v, b.value).Success?
      && var text := env.labels(WithdrawLabel, op.(hipayId := v.hipayId), now);
         text.Answer? && env.oracle.withdraw(n + 4, v, BalanceRule(op, v, b.value).value, text.value).Answer?
    ensures WithdrawAttempt(env, op, now, n).result.Success?
  {
  }

  /**
   * An operator operation short of funds, once past the gates, asks the
   * provider for exactly the rounded balance and records that amount as
   * withdrawn when nothing throws.
   */
  lemma OperatorShortfallWithdrawsBalance(env: Env, op: Operation, now: int, n: nat)
    requires BankInfoValidated(env, op, n) && IsOperatorOperation(op)
    requires var v := GetVendor(env, op).value;
      var b := env.oracle.getBalance(n + 3, v);
      && b.Answer? && RoundToCents(b.value) < RoundToCents(op.amount)
      && var text := env.labels(WithdrawLabel, op.(hipayId := v.hipayId), now);
         text.Answer? && env.oracle.withdraw(n + 4, v, RoundToCents(b.value), text.value).Answer?
    ensures var a := WithdrawAttempt(env, op, now, n);
      var b := env.oracle.getBalance(n + 3, GetVendor(env, op).value);
      && a.result.Success?
      && |a.calls| == 5 && a.calls[4].WithdrawCall? && a.calls[4].amount == RoundToCents(b.value)
      && a.saved.withdrawnAmount == Some(RoundToCents(b.value))
  {
  }

  /**
   * A failed `withdraw` changes the status and time stamp, and the wallet
   * id exactly when the balance rule had passed.
   */
  lemma WithdrawFailureChangesLittle(env: Env, op: Operation, now: int, n: nat)
    requires WithdrawAttempt(env, op, now, n).result.Failure?
    ensures var a := WithdrawAttempt(env, op, now, n);
      && a.saved == op.(status := WithdrawFailed, updatedAt := now, hipayId := a.saved.hipayId)
      && a.saved.hipayId ==
           (if BankInfoValidated(env, op, n)
               && var v := GetVendor(env, op).value;
                  var b := env.oracle.getBalance(n + 3, v);
                  b.Answer? && BalanceRule(op, v, b.value).Success?
            then GetVendor(env, op).value.hipayId
            else op.hipayId)
  {
  }

  // ---------------------------------------------------------------- batches

  /** What one iteration adds: one save, one outcome, the attempt's provider calls. */
  lemma StepLog(env: Env, pass: Pass, op: Operation, now: int, st: BatchState)
    ensures var st' := Step(env, pass, op, now, st);
      && st'.saved == st.saved + [st'.saved[|st.saved|]] && st'.results == st.results + [st'.results[|st.results|]]
      && st.trace <= st'.trace
      && var o, r := st'.saved[|st.saved|], st'.results[|st.results|];
         o.id == op.id && o.updatedAt == now
         && o.status == (if r.Success? then SuccessStatus(pass) else FailedStatus(pass))
  {
    AttemptShape(env, pass, op, now, |st.trace|);
  }

  /** The loop's save log and outcome list grow by one entry per listed operation; earlier entries stay. */
  lemma {:induction false} RunFromLengths(env: Env, pass: Pass, ops: seq<Operation>, now: int, i: nat, st: BatchState)
    requires i <= |ops|
    ensures var f := RunFrom(env, pass, ops, now, i, st);
      && |f.saved| == |st.saved| + (|ops| - i) && f.saved[..|st.saved|] == st.saved
      && |f.results| == |st.results| + (|ops| - i) && f.results[..|st.results|] == st.results
      && st.trace <= f.trace
    decreases |ops| - i
  {
    if i < |ops| {
      var st' := Step(env, pass, ops[i], now, st);
      StepLog(env, pass, ops[i], now, st);
      RunFromLengths(env, pass, ops, now, i + 1, st');
      var f := RunFrom(env, pass, ops, now, i, st);
      assert f == RunFrom(env, pass, ops, now, i + 1, st');
      assert f.saved[..|st.saved|] == f.saved[..|st'.saved|][..|st.saved|];
      assert f.results[..|st.results|] == f.results[..|st'.results|][..|st.results|];
    }
  }

  /**
   * The loop attempts every listed operation once, in order: one save per
   * operation, holding that operation, stamped `now`, with the status its
   * outcome calls for.
   */
  lemma {:induction false} RunFromLog(env: Env, pass: Pass, ops: seq<Operation>, now: int, i: nat, st: BatchState)
    requires i <= |ops|
    ensures var f := RunFrom(env, pass, ops, now, i, st);
      && |f.saved| == |st.saved| + (|ops| - i) && |f.results| == |st.results| + (|ops| - i)
      && (forall k :: i <= k < |ops| ==>
            var o, r := f.saved[|st.saved| + k - i], f.results[|st.results| + k - i];
            && o.id == ops[k].id && o.updatedAt == now
            && o.status == (if r.Success? then SuccessStatus(pass) else FailedStatus(pass)))
    decreases |ops| - i
  {
    RunFromLengths(env, pass, ops, now, i, st);
    if i < |ops| {
      var st' := Step(env, pass, ops[i], now, st);
      StepLog(env, pass, ops[i], now, st);
      RunFromLog(env, pass, ops, now, i + 1, st');
      RunFromLengths(env, pass, ops, now, i + 1, st');
      var f := RunFrom(env, pass, ops, now, i, st);
      assert f == RunFrom(env, pass, ops, now, i + 1, st');
      assert f.saved[|st.saved|] == st'.saved[|st.saved|] by {
        assert f.saved[..|st'.saved|] == st'.saved;
      }
      assert f.results[|st.results|] == st'.results[|st.results|] by {
        assert f.results[..|st'.results|] == st'.results;
      }
      forall k | i <= k < |ops|
        ensures var o, r := f.saved[|st.saved| + k - i], f.results[|st.results| + k - i];
          && o.id == ops[k].id && o.updatedAt == now
          && o.status == (if r.Success? then SuccessStatus(pass) else FailedStatus(pass))
      {
        if k > i {
          assert |st.saved| + k - i == |st'.saved| + k - (i + 1);
          assert |st.results| + k - i == |st'.results| + k - (i + 1);
        }
      }
    }
  }

  /** The ids of `ops[i..]` are pairwise different: `DistinctIds` of a suffix, as the batch induction needs it. */
  predicate DistinctFrom(ops: seq<Operation>, i: nat) {
    forall k, l :: i <= k < l < |ops| ==> ops[k].id != ops[l].id
  }

  /** A stored operation whose id is not listed is left as it was. */
  lemma {:induction false} RunFromUntouched(env: Env, pass: Pass, ops: seq<Operation>, now: int, i: nat, st: BatchState, id: nat)
    requires i <= |ops| && id in st.store
    requires forall k :: i <= k < |ops| ==> ops[k].id != id
    ensures var f := RunFrom(env, pass, ops, now, i, st);
      id in f.store && f.store[id] == st.store[id]
    decreases |ops| - i
  {
    if i < |ops| {
      RunFromUntouched(env, pass, ops, now, i + 1, Step(env, pass, ops[i], now, st), id);
    }
  }

  /**
   * When the listed ids are distinct, the store ends up holding, for each
   * listed operation, what its attempt saved.
   */
  lemma {:induction false} RunFromStore(env: Env, pass: Pass, ops: seq<Operation>, now: int, i: nat, st: BatchState)
    requires i <= |ops| && DistinctFrom(ops, i)
    ensures var f := RunFrom(env, pass, ops, now, i, st);
      && |f.saved| == |st.saved| + (|ops| - i)
      && (forall k :: i <= k < |ops| ==> ops[k].id in f.store && f.store[ops[k].id] == f.saved[|st.saved| + k - i])
    decreases |ops| - i
  {
    RunFromLengths(env, pass, ops, now, i, st);
    if i < |ops| {
      var st' := Step(env, pass, ops[i], now, st);
      RunFromStore(env, pass, ops, now, i + 1, st');
      RunFromLengths(env, pass, ops, now, i + 1, st');
      RunFromUntouched(env, pass, ops, now, i + 1, st', ops[i].id);
      var f := RunFrom(env, pass, ops, now, i, st);
      assert f == RunFrom(env, pass, ops, now, i + 1, st');
      assert f.saved[|st.saved|] == st'.saved[|st.saved|] by {
        assert f.saved[..|st'.saved|] == st'.saved;
      }
    }
  }

  /**
   * A whole batch from a fresh outcome list: outcome `k` belongs to the
   * `k`-th listed operation, whose save follows the earlier log, holds the
   * status its outcome calls for and is what the store ends up holding.
   */
  lemma RunLogged(env: Env, pass: Pass, ops: seq<Operation>, now: int, st: BatchState)
    requires DistinctIds(ops) && st.results == []
    ensures var f := RunFrom(env, pass, ops, now, 0, st);
      && |f.results| == |ops| && |f.saved| == |st.saved| + |ops|
      && forall k :: 0 <= k < |ops| ==>
           var o := f.saved[|st.saved| + k];
           && o.id == ops[k].id && o.updatedAt == now
           && o.status == (if f.results[k].Success? then SuccessStatus(pass) else FailedStatus(pass))
           && ops[k].id in f.store && f.store[ops[k].id] == o
  {
    RunFromLog(env, pass, ops, now, 0, st);
    RunFromStore(env, pass, ops, now, 0, st);
    var f := RunFrom(env, pass, ops, now, 0, st);
    forall k | 0 <= k < |ops|
      ensures var o := f.saved[|st.saved| + k];
        && o.id == ops[k].id && o.updatedAt == now
        && o.status == (if f.results[k].Success? then SuccessStatus(pass) else FailedStatus(pass))
        && ops[k].id in f.store && f.store[ops[k].id] == o
    {
      assert |st.saved| + k - 0 == |st.saved| + k && |st.results| + k - 0 == k;
    }
  }

  /** A batch over eligible, consistent operations keeps every stored operation consistent. */
  lemma {:induction false} RunFromKeepsConsistent(env: Env, pass: Pass, ops: seq<Operation>, now: int, i: nat, st: BatchState)
    requires i <= |ops| && AllConsistent(st.store)
    requires forall k :: i <= k < |ops| ==> Consistent(ops[k]) && EligibleStatus(pass, ops[k].status)
    ensures AllConsistent(RunFrom(env, pass, ops, now, i, st).store)
    decreases |ops| - i
  {
    if i < |ops| {
      AttemptKeepsConsistent(env, pass, ops[i], now, |st.trace|);
      RunFromKeepsConsistent(env, pass, ops, now, i + 1, Step(env, pass, ops[i], now, st));
    }
  }

  /** A pass's selection, taken from a consistent store, holds consistent operations of eligible status. */
  lemma SelectionEligible(pass: Pass, ops: seq<Operation>, split: nat, store: map<nat, Operation>, now: int)
    requires IsSelection(ops, split, store, PassQueries(pass, now).0, PassQueries(pass, now).1)
    requires AllConsistent(store)
    ensures DistinctIds(ops)
    ensures forall k :: 0 <= k < |ops| ==> Consistent(ops[k]) && EligibleStatus(pass, ops[k].status)
  {
    var q := PassQueries(pass, now);
    SelectionIsExact(ops, split, store, q.0, q.1);
    forall k | 0 <= k < |ops|
      ensures Consistent(ops[k]) && EligibleStatus(pass, ops[k].status)
    {
      if k < split {
        assert ops[k] == ops[..split][k];
      } else {
        assert ops[k] == ops[split..][k - split];
      }
    }
  }

  /**
   * A whole pass, from selection to the end of the loop, keeps the
   * reference ids of every stored operation in line with its status.
   */
  lemma PassKeepsConsistent(env: Env, pass: Pass, ops: seq<Operation>, split: nat, now: int, st: BatchState)
    requires IsSelection(ops, split, st.store, PassQueries(pass, now).0, PassQueries(pass, now).1)
    requires AllConsistent(st.store)
    ensures AllConsistent(RunFrom(env, pass, ops, now, 0, st).store)
  {
    SelectionEligible(pass, ops, split, st.store, now);
    RunFromKeepsConsistent(env, pass, ops, now, 0, st);
  }

  /**
   * Every operation the transfer pass transferred is TRANSFER_SUCCESS in
   * the store afterwards, so the withdraw selection of the same run
   * lists it.
   */
  lemma TransferredAreWithdrawable(
    env: Env, ops: seq<Operation>, split: nat, now: int, st: BatchState,
    withdrawable: seq<Operation>, wsplit: nat)
    requires IsSelection(ops, split, st.store, TransferQueries(now).0, TransferQueries(now).1)
    requires st.results == []
    requires var f := RunFrom(env, TransferPass, ops, now, 0, st);
      IsSelection(withdrawable, wsplit, f.store, WithdrawQueries(now).0, WithdrawQueries(now).1)
    ensures var f := RunFrom(env, TransferPass, ops, now, 0, st);
      && |f.results| == |ops|
      && forall k :: 0 <= k < |ops| && f.results[k].Success? ==> Listed(ops[k].id, withdrawable)
  {
    var f := RunFrom(env, TransferPass, ops, now, 0, st);
    TransferSelectionExact(ops, split, st.store, now);
    RunLogged(env, TransferPass, ops, now, st);
    WithdrawSelectionExact(withdrawable, wsplit, f.store, now);
    forall k | 0 <= k < |ops| && f.results[k].Success?
      ensures Listed(ops[k].id, withdrawable)
    {
      var o := f.saved[|st.saved| + k];
      assert f.store[ops[k].id] == o && o.status == SuccessStatus(TransferPass);
    }
  }
}
