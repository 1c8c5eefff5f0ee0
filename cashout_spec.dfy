/**
 * What one cashout attempt does, as a function of the processor's
 * configuration, the operation, the current time and the number of
 * provider calls made so far; and what a batch of attempts does. The
 * Processor class is proved to behave exactly as these functions say,
 * and the lemmas below state the properties of the cashout engine on
 * them.
 */
module CashoutSpec {
  import opened Wrappers
  import opened Php
  import opened Vendors
  import opened Operations
  import opened Collaborators

  /** The processor's configuration: the operator, the vendor directory and the collaborators' answers. */
  datatype Env = Env(
    operator: Vendor,
    directory: map<int, Vendor>,       // the vendor manager's `findByMiraklId`
    oracle: Oracle,
    labels: (LabelKind, Operation, int) -> Reply<string>)

  /** The provider's bank-information status meaning "validated". */
  const BANK_INFO_VALIDATED: string := "Validated"

  /** The exceptions an attempt can raise. */
  datatype CashoutError =
    | WalletNotFound(missing: Option<Vendor>)
    | UnidentifiedWallet(unidentified: Vendor)
    | UnconfirmedBankAccount(bankStatus: string, operationMiraklId: Option<int>)
    | WrongWalletBalance(vendorMiraklId: Scalar, amount: Amount, balance: Amount)
    | GatewayError(call: Call)           // the provider call `call` threw
    | LabelError(kind: LabelKind)        // a label template threw

  /** The errors raised by the processor's own checks, before any money moves. */
  predicate IsBusinessError(e: CashoutError) {
    e.WalletNotFound? || e.UnidentifiedWallet? || e.UnconfirmedBankAccount? || e.WrongWalletBalance?
  }

  /**
   * The effect of one attempt: the operation as it is saved (exactly once),
   * the provider calls made, and the id returned or the error re-raised.
   */
  datatype Attempt = Attempt(saved: Operation, calls: seq<Call>, result: Result<int, CashoutError>)

  /** `getVendor`: the operator when the operation has no Mirakl id, else a directory lookup. */
  function GetVendor(env: Env, op: Operation): Option<Vendor> {
    if IsTruthy(op.miraklId) then
      if op.miraklId.value in env.directory then Some(env.directory[op.miraklId.value]) else None
    else Some(env.operator)
  }

  /** The directory holds valid sellers, each under its own Mirakl id. */
  predicate DirectoryConsistent(env: Env) {
    forall id :: id in env.directory ==> ValidSeller(env.directory[id]) && env.directory[id].miraklId == Int(id)
  }

  // ---------------------------------------------------------------- transfer

  /** The catch block of `transfer`: TRANSFER_FAILED, stamped, the error re-raised. */
  function TransferFailure(op: Operation, now: int, calls: seq<Call>, e: CashoutError): Attempt {
    Attempt(op.(status := TransferFailed, updatedAt := now), calls, Failure(e))
  }

  /** `transfer`: move the operation's amount from the technical wallet to the vendor's wallet. */
  function TransferAttempt(env: Env, op: Operation, now: int, n: nat): Attempt {
    var vendor := GetVendor(env, op);
    if vendor.None? then TransferFailure(op, now, [], WalletNotFound(None))
    else
      var v := vendor.value;
      var c0 := IsAvailableCall(v.email);
      match env.oracle.isAvailable(n, v.email)
      case Fault => TransferFailure(op, now, [c0], GatewayError(c0))
      case Answer(free) =>
        if free then TransferFailure(op, now, [c0], WalletNotFound(vendor))
        else
          var o := op.(hipayId := v.hipayId);
          match env.labels(PublicLabel, o, now)
          case Fault => TransferFailure(o, now, [c0], LabelError(PublicLabel))
          case Answer(publicLabel) =>
            match env.labels(PrivateLabel, o, now)
            case Fault => TransferFailure(o, now, [c0], LabelError(PrivateLabel))
            case Answer(privateLabel) =>
              var c1 := TransferCall(TransferRequest(RoundToCents(op.amount), v, publicLabel, privateLabel));
              match env.oracle.transfer(n + 1, c1.request)
              case Fault => TransferFailure(o, now, [c0, c1], GatewayError(c1))
              case Answer(id) =>
                Attempt(o.(status := TransferSuccess, transferId := Some(id), updatedAt := now), [c0, c1], Success(id))
  }

  /** The wallet check shared by `transfer` and `withdraw` passes: a vendor was found and its email is taken at the provider. */
  predicate WalletExists(env: Env, op: Operation, n: nat) {
    var vendor := GetVendor(env, op);
    vendor.Some? && env.oracle.isAvailable(n, vendor.value.email) == Answer(false)
  }

  // ---------------------------------------------------------------- withdraw

  /** The catch block of `withdraw`: WITHDRAW_FAILED, stamped, the error re-raised. */
  function WithdrawFailure(op: Operation, now: int, calls: seq<Call>, e: CashoutError): Attempt {
    Attempt(op.(status := WithdrawFailed, updatedAt := now), calls, Failure(e))
  }

  /**
   * The balance rule: both sides rounded to cents; on a shortfall the
   * operator withdraws what there is and a seller fails.
   */
  function BalanceRule(op: Operation, vendor: Vendor, balance: Amount): Result<Amount, CashoutError> {
    var amount := RoundToCents(op.amount);
    var rounded := RoundToCents(balance);
    if rounded < amount then
      if IsOperatorOperation(op) then Success(rounded)
      else Failure(WrongWalletBalance(vendor.miraklId, amount, rounded))
    else Success(amount)
  }

  /** `withdraw`: move money from the vendor's wallet to its bank account. */
  function WithdrawAttempt(env: Env, op: Operation, now: int, n: nat): Attempt {
    var vendor := GetVendor(env, op);
    if vendor.None? then WithdrawFailure(op, now, [], WalletNotFound(None))
    else
      var v := vendor.value;
      var c0 := IsAvailableCall(v.email);
      match env.oracle.isAvailable(n, v.email)
      case Fault => WithdrawFailure(op, now, [c0], GatewayError(c0))
      case Answer(free) =>
        if free then WithdrawFailure(op, now, [c0], WalletNotFound(vendor))
        else
          var rest := WithdrawVerified(env, op, v, now, n + 1);
          rest.(calls := [c0] + rest.calls)
  }

  /**
   * The middle of `withdraw`, once the wallet is known to exist: the
   * identification and bank-information checks, then the funds; `n`
   * counts the provider calls made before the identification is asked.
   */
  function WithdrawVerified(env: Env, op: Operation, v: Vendor, now: int, n: nat): Attempt {
    var c1 := IsIdentifiedCall(v.email);
    match env.oracle.isIdentified(n, v.email)
    case Fault => WithdrawFailure(op, now, [c1], GatewayError(c1))
    case Answer(identified) =>
      if !identified then WithdrawFailure(op, now, [c1], UnidentifiedWallet(v))
      else
        var c2 := BankInfosStatusCall(v);
        match env.oracle.bankInfosStatus(n + 1, v)
        case Fault => WithdrawFailure(op, now, [c1, c2], GatewayError(c2))
        case Answer(status) =>
          if Trim(status) != BANK_INFO_VALIDATED then
            WithdrawFailure(op, now, [c1, c2], UnconfirmedBankAccount(Trim(status), op.miraklId))
          else
            var rest := WithdrawFunds(env, op, v, now, n + 2);
            rest.(calls := [c1, c2] + rest.calls)
  }

  /**
   * The second half of `withdraw`, once the wallet checks have passed:
   * read the balance, apply the balance rule, render the label and ask
   * for the withdrawal; `n` counts the provider calls made before the
   * balance is read.
   */
  function WithdrawFunds(env: Env, op: Operation, v: Vendor, now: int, n: nat): Attempt {
    var c3 := GetBalanceCall(v);
    match env.oracle.getBalance(n, v)
    case Fault => WithdrawFailure(op, now, [c3], GatewayError(c3))
    case Answer(balance) =>
      match BalanceRule(op, v, balance)
      case Failure(e) => WithdrawFailure(op, now, [c3], e)
      case Success(amount) =>
        var o := op.(hipayId := v.hipayId);
        match env.labels(WithdrawLabel, o, now)
        case Fault => WithdrawFailure(o, now, [c3], LabelError(WithdrawLabel))
        case Answer(text) =>
          var c4 := WithdrawCall(v, amount, text);
          match env.oracle.withdraw(n + 1, v, amount, text)
          case Fault => WithdrawFailure(o, now, [c3, c4], GatewayError(c4))
          case Answer(id) =>
            Attempt(
              o.(withdrawId := Some(id), status := WithdrawRequested, updatedAt := now, withdrawnAmount := Some(amount)),
              [c3, c4], Success(id))
  }

  /** The wallet exists and the provider reports it identified. */
  predicate WalletIdentified(env: Env, op: Operation, n: nat) {
    WalletExists(env, op, n) && env.oracle.isIdentified(n + 1, GetVendor(env, op).value.email) == Answer(true)
  }

  /** ... and its bank information, once trimmed, reads "validated". */
  predicate BankInfoValidated(env: Env, op: Operation, n: nat) {
    WalletIdentified(env, op, n) &&
    var answer := env.oracle.bankInfosStatus(n + 2, GetVendor(env, op).value);
    answer.Answer? && Trim(answer.value) == BANK_INFO_VALIDATED
  }

  // ---------------------------------------------------------------- batches

  /** The two passes of a run. */
  datatype Pass = TransferPass | WithdrawPass

  function AttemptOf(env: Env, pass: Pass, op: Operation, now: int, n: nat): Attempt {
    match pass
    case TransferPass => TransferAttempt(env, op, now, n)
    case WithdrawPass => WithdrawAttempt(env, op, now, n)
  }

  /** The statuses a pass selects: CREATED/TRANSFER_FAILED for transfers, TRANSFER_SUCCESS/WITHDRAW_FAILED for withdrawals. */
  predicate EligibleStatus(pass: Pass, s: Status) {
    match pass
    case TransferPass => s == Created || s == TransferFailed
    case WithdrawPass => s == TransferSuccess || s == WithdrawFailed
  }

  /** The two store queries a pass merges. */
  function PassQueries(pass: Pass, now: int): (Query, Query) {
    match pass
    case TransferPass => TransferQueries(now)
    case WithdrawPass => WithdrawQueries(now)
  }

  function SuccessStatus(pass: Pass): Status {
    if pass == TransferPass then TransferSuccess else WithdrawRequested
  }

  function FailedStatus(pass: Pass): Status {
    if pass == TransferPass then TransferFailed else WithdrawFailed
  }

  /** What a batch has done so far: the store, the provider calls, the save log, the per-operation outcomes. */
  datatype BatchState = BatchState(
    store: map<nat, Operation>,
    trace: seq<Call>,
    saved: seq<Operation>,
    results: seq<Result<int, CashoutError>>)

  /** One iteration of the `foreach`: the attempt's error, if any, is caught and recorded. */
  function Step(env: Env, pass: Pass, op: Operation, now: int, st: BatchState): BatchState {
    var a := AttemptOf(env, pass, op, now, |st.trace|);
    BatchState(st.store[op.id := a.saved], st.trace + a.calls, st.saved + [a.saved], st.results + [a.result])
  }

  /** The `foreach` over `ops`, from index `i` on. */
  function RunFrom(env: Env, pass: Pass, ops: seq<Operation>, now: int, i: nat, st: BatchState): BatchState
    requires i <= |ops|
    decreases |ops| - i
  {
    if i == |ops| then st else RunFrom(env, pass, ops, now, i + 1, Step(env, pass, ops[i], now, st))
  }
}
