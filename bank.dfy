/**
 * The state bank as the executor sees it. Its internals (the sparse Merkle
 * tree, the witness builders and the circuits) are not part of this model:
 * each bank operation is a function-valued field, so that every property
 * proved below holds whatever the bank does.
 */
module Bank {
  import opened Core
  import Lists
  import Circuits

  /** The in-memory mirror of the state store: the writes buffered so far. */
  datatype Mirror = Mirror(ops: seq<WriteOp>)

  datatype BankError = BankError(code: nat)

  /** The three kinds of batch, each with its own circuit. */
  datatype Kind = DepositKind | WithdrawKind | UpdateKind

  /**
   * A batch ready to be proved: the witness of one circuit run, reduced to
   * the circuit kind and the roots it connects.
   */
  datatype Prover = Prover(kind: Kind, oldRoot: Root, newRoot: Root)

  /** What one bank call returns besides the updated mirror. */
  datatype Applied<T> = Applied(
    accepted: seq<T>,
    rejected: seq<T>,
    newRoot: Root,
    prover: Prover,
    mirror: Mirror)

  datatype Bank = Bank(
    deposit: (Mirror, seq<Circuits.Deposit>) -> Result<Applied<Circuits.Deposit>, BankError>,
    withdraw: (Mirror, seq<Circuits.Withdraw>) -> Result<Applied<Circuits.Withdraw>, BankError>,
    changeState: (Mirror, seq<MpnTransaction>, TokenId) -> Result<Applied<MpnTransaction>, BankError>)

  /** The bank accepts only what it was given, in the order it was given. */
  ghost predicate AcceptsSubsequence(b: Bank) {
    && (forall m, ds :: b.deposit(m, ds).Ok? ==> Lists.IsSubsequence(b.deposit(m, ds).value.accepted, ds))
    && (forall m, ws :: b.withdraw(m, ws).Ok? ==> Lists.IsSubsequence(b.withdraw(m, ws).value.accepted, ws))
    && (forall m, ts, t :: b.changeState(m, ts, t).Ok? ==> Lists.IsSubsequence(b.changeState(m, ts, t).value.accepted, ts))
  }
}
