/**
 * The processor's collaborators, seen only through their interfaces: the
 * wallet provider's API (answers given as an oracle, every call recorded)
 * and the operation manager (the store, its queries, and the label
 * templates).
 */
module Collaborators {
  import opened Wrappers
  import opened Php
  import opened Vendors
  import opened Operations

  /** The outcome of a foreign call: a value, or an exception. */
  datatype Reply<+T> = Answer(value: T) | Fault

  /** The transfer order handed to the provider. */
  datatype TransferRequest = TransferRequest(amount: Amount, vendor: Vendor, publicLabel: string, privateLabel: string)

  /** One call to the wallet provider, with its arguments. */
  datatype Call =
    | IsAvailableCall(email: Scalar)
    | IsIdentifiedCall(email: Scalar)
    | BankInfosStatusCall(vendor: Vendor)
    | GetBalanceCall(vendor: Vendor)
    | TransferCall(request: TransferRequest)
    | WithdrawCall(vendor: Vendor, amount: Amount, labelText: string)

  /** The calls that move money. */
  predicate MovesMoney(c: Call) {
    c.TransferCall? || c.WithdrawCall?
  }

  /**
   * What the wallet provider answers. Each answer may depend on the number
   * of calls made before it and on the arguments, so repeated calls may
   * get different answers.
   */
  datatype Oracle = Oracle(
    isAvailable: (nat, Scalar) -> Reply<bool>,
    isIdentified: (nat, Scalar) -> Reply<bool>,
    bankInfosStatus: (nat, Vendor) -> Reply<string>,
    getBalance: (nat, Vendor) -> Reply<Amount>,
    transfer: (nat, TransferRequest) -> Reply<int>,
    withdraw: (nat, Vendor, Amount, string) -> Reply<int>)

  /** The wallet provider client: answers come from `oracle`, calls are appended to `trace`. */
  class Gateway {
    const oracle: Oracle
    var trace: seq<Call>

    constructor (oracle: Oracle)
      ensures this.oracle == oracle && trace == []
    {
      this.oracle := oracle;
      trace := [];
    }

    /** True when no wallet uses `email` yet, that is, when the email is still free. */
    method IsAvailable(email: Scalar) returns (r: Reply<bool>)
      modifies this
      ensures trace == old(trace) + [IsAvailableCall(email)]
      ensures r == oracle.isAvailable(|old(trace)|, email)
    {
      r := oracle.isAvailable(|trace|, email);
      trace := trace + [IsAvailableCall(email)];
    }

    method IsIdentified(email: Scalar) returns (r: Reply<bool>)
      modifies this
      ensures trace == old(trace) + [IsIdentifiedCall(email)]
      ensures r == oracle.isIdentified(|old(trace)|, email)
    {
      r := oracle.isIdentified(|trace|, email);
      trace := trace + [IsIdentifiedCall(email)];
    }

    method BankInfosStatus(vendor: Vendor) returns (r: Reply<string>)
      modifies this
      ensures trace == old(trace) + [BankInfosStatusCall(vendor)]
      ensures r == oracle.bankInfosStatus(|old(trace)|, vendor)
    {
      r := oracle.bankInfosStatus(|trace|, vendor);
      trace := trace + [BankInfosStatusCall(vendor)];
    }

    method GetBalance(vendor: Vendor) returns (r: Reply<Amount>)
      modifies this
      ensures trace == old(trace) + [GetBalanceCall(vendor)]
      ensures r == oracle.getBalance(|old(trace)|, vendor)
    {
      r := oracle.getBalance(|trace|, vendor);
      trace := trace + [GetBalanceCall(vendor)];
    }

    method Transfer(request: TransferRequest) returns (r: Reply<int>)
      modifies this
      ensures trace == old(trace) + [TransferCall(request)]
      ensures r == oracle.transfer(|old(trace)|, request)
    {
      r := oracle.transfer(|trace|, request);
      trace := trace + [TransferCall(request)];
    }

    method Withdraw(vendor: Vendor, amount: Amount, labelText: string) returns (r: Reply<int>)
      modifies this
      ensures trace == old(trace) + [WithdrawCall(vendor, amount, labelText)]
      ensures r == oracle.withdraw(|old(trace)|, vendor, amount, labelText)
    {
      r := oracle.withdraw(|trace|, vendor, amount, labelText);
      trace := trace + [WithdrawCall(vendor, amount, labelText)];
    }
  }

  /** The three label templates of the operation manager. */
  datatype LabelKind = PublicLabel | PrivateLabel | WithdrawLabel

  /**
   * The operation manager: the operation store keyed by id, the log of
   * every `save` in order, and the label templates (rendered from the
   * operation and the current time, or failing).
   */
  class OperationManager {
    const labels: (LabelKind, Operation, int) -> Reply<string>
    var operations: map<nat, Operation>
    var saved: seq<Operation>

    ghost predicate Valid()
      reads this
    {
      WellKeyed(operations)
    }

    constructor (operations: map<nat, Operation>, labels: (LabelKind, Operation, int) -> Reply<string>)
      requires WellKeyed(operations)
      ensures Valid()
      ensures this.operations == operations && this.labels == labels && saved == []
    {
      this.operations := operations;
      this.labels := labels;
      saved := [];
    }

    /** Upsert keyed by the operation's id. */
    method Save(op: Operation)
      requires Valid()
      modifies this
      ensures Valid()
      ensures operations == old(operations)[op.id := op]
      ensures saved == old(saved) + [op]
    {
      operations := operations[op.id := op];
      saved := saved + [op];
    }

    /** Renders one label template for `op` at time `now`. */
    method GenerateLabel(kind: LabelKind, op: Operation, now: int) returns (r: Reply<string>)
      ensures r == labels(kind, op, now)
    {
      r := labels(kind, op, now);
    }

    /** Answers query `q`, visiting the stored ids in an unspecified order. */
    method Find(q: Query) returns (r: seq<Operation>)
      requires Valid()
      ensures Lists(r, operations, q)
    {
      r := [];
      var rest := operations.Keys;
      while rest != {}
        invariant rest <= operations.Keys
        invariant forall i :: 0 <= i < |r| ==> r[i].id in operations && operations[r[i].id] == r[i] && Matches(q, r[i]) && r[i].id !in rest
        invariant DistinctIds(r)
        invariant forall id :: id in operations && id !in rest && Matches(q, operations[id]) ==> Listed(id, r)
        decreases rest
      {
        var id :| id in rest;
        if Matches(q, operations[id]) {
          ghost var before := r;
          r := r + [operations[id]];
          assert r[|r| - 1].id == id;
          forall x | Listed(x, before)
            ensures Listed(x, r)
          {
            var i :| 0 <= i < |before| && before[i].id == x;
            assert r[i] == before[i];
          }
        }
        rest := rest - {id};
      }
    }

    /** `findByStatus`. */
    method FindByStatus(status: Status) returns (r: seq<Operation>)
      requires Valid()
      ensures Lists(r, operations, ByStatus(status))
    {
      r := Find(ByStatus(status));
    }

    /** `findByStatusAndBeforeUpdatedAt`: last updated strictly before `cutoff`. */
    method FindByStatusAndBeforeUpdatedAt(status: Status, cutoff: int) returns (r: seq<Operation>)
      requires Valid()
      ensures Lists(r, operations, ByStatusUpdatedBefore(status, cutoff))
    {
      r := Find(ByStatusUpdatedBefore(status, cutoff));
    }
  }
}
