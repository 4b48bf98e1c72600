/**
 * The ledger types the executor reads from the host chain's zero-mempool and
 * writes back in its aggregate transaction (they come from the host chain's
 * core library).  Only the fields the executor looks at or copies are kept.
 */
module Core {

  datatype Option<T> = None | Some(value: T)

  datatype Result<T, E> = Ok(value: T) | Err(error: E)

  const U32_MODULUS: nat := 0x1_0000_0000
  const U64_MODULUS: nat := 0x1_0000_0000_0000_0000

  type U32 = x: nat | x < U32_MODULUS
  type U64 = x: nat | x < U64_MODULUS

  /** An account address on the host chain (a public key there). */
  type Address = nat

  /** The identifier of a host-chain contract, here the payment network's. */
  type ContractId = nat

  /** A digest of the payment network's state tree (a field element there). */
  type Root = nat

  datatype TokenId = Ziesha | Custom(id: nat)

  datatype Money = Money(token: TokenId, amount: U64)

  /** A payment into or out of a contract, signed by its host-chain sender. */
  datatype ContractPayment = ContractPayment(
    src: Address,
    contractId: ContractId,
    nonce: U32,
    amount: Money,
    fee: Money)

  /** A request to move money from a host-chain account into the network. */
  datatype MpnDeposit = MpnDeposit(
    zkAddress: nat,
    zkTokenIndex: nat,
    payment: ContractPayment)

  /** A request to move money from a network slot back to the host chain. */
  datatype MpnWithdraw = MpnWithdraw(
    zkAddress: nat,
    zkNonce: U64,
    zkTokenIndex: nat,
    zkFeeTokenIndex: nat,
    zkSig: nat,
    payment: ContractPayment)

  /** A transfer between two slots inside the network. */
  datatype MpnTransaction = MpnTransaction(
    nonce: U64,
    srcIndex: nat,
    dstAddress: nat,
    amount: Money,
    fee: Money,
    sig: nat)

  datatype Groth16Proof = Groth16Proof(a: nat, b: nat, c: nat)

  /** The value `Default::default()` gives a Groth16 proof: all points zero. */
  const DefaultGroth16Proof: Groth16Proof := Groth16Proof(0, 0, 0)

  datatype ZkProof = Groth16(groth16: Groth16Proof)

  /** The proof every contract update is built with before proving. */
  const PlaceholderProof: ZkProof := Groth16(DefaultGroth16Proof)

  /** One state transition of the payment-network contract. */
  datatype ContractUpdate =
    | Deposit(depositCircuitId: nat, deposits: seq<ContractPayment>, nextState: Root, proof: ZkProof)
    | Withdraw(withdrawCircuitId: nat, withdraws: seq<ContractPayment>, nextState: Root, proof: ZkProof)
    | FunctionCall(functionId: nat, fee: Money, nextState: Root, proof: ZkProof)

  datatype Signature = Unsigned | Signed(bytes: nat)

  datatype TransactionData = UpdateContract(contractId: ContractId, updates: seq<ContractUpdate>)

  datatype Transaction = Transaction(
    memo: string,
    src: Option<Address>,
    nonce: nat,
    fee: Money,
    data: TransactionData,
    sig: Signature)

  /** One buffered write of the state store's in-memory mirror. */
  datatype WriteOp = Put(key: nat, value: nat) | Remove(key: nat)

  datatype TransactionAndDelta = TransactionAndDelta(tx: Transaction, stateDelta: Option<seq<WriteOp>>)
}

/** The batch entries the proving circuits consume, one per accepted request. */
module Circuits {
  import opened Core

  datatype Deposit = Deposit(
    mpnDeposit: MpnDeposit,
    tokenIndex: nat,
    amount: Money)

  datatype Withdraw = Withdraw(
    mpnWithdraw: MpnWithdraw,
    tokenIndex: nat,
    feeTokenIndex: nat,
    nonce: U64,
    sig: nat,
    amount: Money,
    fee: Money)
}
