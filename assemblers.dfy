/**
 * The three batch assemblers of the executor (`process_deposits`,
 * `process_withdraws`, `process_updates`): each picks the pending requests
 * of one kind, orders them, hands them to the bank and wraps what the bank
 * accepted into a contract update whose proof is still a placeholder.
 */
module Assemblers {
  import opened Core
  import opened Lists
  import opened Bank
  import Circuits
  import Admission

  /** The part of the host chain's configuration the assemblers read: the network's contract id. */
  datatype Config = Config(mpnContractId: ContractId)

  /**
   * The executor's error type; a bank error is wrapped as it propagates.
   * `NodeError` stands for the errors of the host-chain client calls, which
   * are not part of this model; it is kept so that "the error is a bank
   * error" says something.
   */
  datatype ZoroError = NodeError(code: nat) | BankFailure(error: BankError)

  /** What an assembler returns: the update skeleton, its prover, and the mirror the bank left. */
  datatype Processed = Processed(update: ContractUpdate, prover: Prover, mirror: Mirror)

  // ---------------------------------------------------------------- deposits

  function DepositEntry(dw: MpnDeposit): Circuits.Deposit {
    Circuits.Deposit(dw, dw.zkTokenIndex, dw.payment.amount)
  }

  function DepositRequests(es: seq<Circuits.Deposit>): seq<MpnDeposit> {
    seq(|es|, i requires 0 <= i < |es| => es[i].mpnDeposit)
  }

  /** One entry per request, in order; projecting the entries back gives the requests. */
  function DepositEntriesOf(f: seq<MpnDeposit>): (r: seq<Circuits.Deposit>)
    ensures DepositRequests(r) == f
    ensures forall e :: e in r ==> e.mpnDeposit in f && e == DepositEntry(e.mpnDeposit)
  {
    var r := seq(|f|, i requires 0 <= i < |f| => DepositEntry(f[i]));
    assert DepositRequests(r) == f;
    r
  }

  /**
   * The deposit pool filtered to this network's contract and turned into
   * batch entries: every entry is addressed to the contract, and every
   * addressed request is there exactly as often as in the pool.
   */
  function DepositEntries(conf: Config, mempool: seq<MpnDeposit>): (r: seq<Circuits.Deposit>)
    ensures forall e :: e in r ==> e.mpnDeposit.payment.contractId == conf.mpnContractId && e == DepositEntry(e.mpnDeposit)
    ensures forall dw :: multiset(DepositRequests(r))[dw] ==
                          (if dw.payment.contractId == conf.mpnContractId then multiset(mempool)[dw] else 0)
  {
    DepositEntriesOf(Filter(mempool, (dw: MpnDeposit) => dw.payment.contractId == conf.mpnContractId))
  }

  /**
   * The first half of `process_deposits`: filter by contract id, sort by
   * payment nonce, and run the admission scan. `sorted` is the order the sort produced.
   */
  method AssembleDeposits(conf: Config, mempool: seq<MpnDeposit>)
    returns (deposits: seq<Circuits.Deposit>, ghost sorted: seq<Circuits.Deposit>)
    ensures multiset(sorted) == multiset(DepositEntries(conf, mempool))
    ensures SortedBy(sorted, Admission.Nonce)
    ensures deposits == Admission.Admit(sorted)
    ensures forall e :: e in deposits ==> e.mpnDeposit.payment.contractId == conf.mpnContractId
  {
    var entries := DepositEntries(conf, mempool);
    var a := new Circuits.Deposit[|entries|](i requires 0 <= i < |entries| => entries[i]);
    assert a[..] == entries;
    SortByKey(a, Admission.Nonce);
    sorted := a[..];
    deposits := Admission.AdmitDeposits(a[..]);
    Admission.AdmitSubsequence(sorted);
    SubsequenceMembers(deposits, sorted);
    forall e | e in deposits ensures e.mpnDeposit.payment.contractId == conf.mpnContractId {
      assert e in multiset(sorted);
    }
  }

  function Payments(es: seq<Circuits.Deposit>): (ps: seq<ContractPayment>)
    ensures |ps| == |es|
  {
    seq(|es|, i requires 0 <= i < |es| => es[i].mpnDeposit.payment)
  }

  /**
   * What `process_deposits` does on `mirror`, given the order `sorted` its
   * unstable sort produced: `sorted` is a nonce-sorted permutation of the
   * addressed entries; the admitted ones go to the bank, whose error is
   * passed on; otherwise the result is a deposit update (circuit 0) listing
   * the payments of the accepted deposits in order, with the bank's new root,
   * a placeholder proof, the bank's prover and the mirror the bank left.
   */
  ghost predicate DepositsProcessed(conf: Config, mempool: seq<MpnDeposit>, bank: Bank, mirror: Mirror,
                                    sorted: seq<Circuits.Deposit>, r: Result<Processed, ZoroError>)
  {
    && multiset(sorted) == multiset(DepositEntries(conf, mempool))
    && SortedBy(sorted, Admission.Nonce)
    && var res := bank.deposit(mirror, Admission.Admit(sorted));
       && (res.Err? ==> r == Err(BankFailure(res.error)))
       && (res.Ok? ==> r == Ok(Processed(
             ContractUpdate.Deposit(0, Payments(res.value.accepted), res.value.newRoot, PlaceholderProof),
             res.value.prover, res.value.mirror)))
  }

  /**
   * `process_deposits`: the admitted deposits go to the bank; its error is
   * passed on, otherwise the result is a deposit update (circuit 0) listing
   * the payments of the accepted deposits in order, with the bank's new
   * root and a placeholder proof. If the bank accepts only from what it was
   * given, every payment in the update is addressed to this contract.
   */
  method ProcessDeposits(conf: Config, mempool: seq<MpnDeposit>, bank: Bank, mirror: Mirror)
    returns (r: Result<Processed, ZoroError>, ghost sorted: seq<Circuits.Deposit>)
    ensures DepositsProcessed(conf, mempool, bank, mirror, sorted, r)
    ensures r.Ok? && AcceptsSubsequence(bank) ==>
      forall p :: p in r.value.update.deposits ==> p.contractId == conf.mpnContractId
  {
    var deposits;
    deposits, sorted := AssembleDeposits(conf, mempool);
    var res := bank.deposit(mirror, deposits);
    if res.Err? {
      return Err(BankFailure(res.error)), sorted;
    }
    var applied := res.value;
    r := Ok(Processed(
      ContractUpdate.Deposit(0, Payments(applied.accepted), applied.newRoot, PlaceholderProof),
      applied.prover, applied.mirror));
    if AcceptsSubsequence(bank) {
      SubsequenceMembers(applied.accepted, deposits);
      forall p | p in r.value.update.deposits ensures p.contractId == conf.mpnContractId {
        var i :| 0 <= i < |applied.accepted| && Payments(applied.accepted)[i] == p;
        assert applied.accepted[i] in deposits;
      }
    }
  }

  // --------------------------------------------------------------- withdraws

  function WithdrawEntry(dw: MpnWithdraw): Circuits.Withdraw {
    Circuits.Withdraw(dw, dw.zkTokenIndex, dw.zkFeeTokenIndex, dw.zkNonce, dw.zkSig,
                      dw.payment.amount, dw.payment.fee)
  }

  function WithdrawRequests(es: seq<Circuits.Withdraw>): seq<MpnWithdraw> {
    seq(|es|, i requires 0 <= i < |es| => es[i].mpnWithdraw)
  }

  /** One entry per request, in order; projecting the entries back gives the requests. */
  function WithdrawEntriesOf(f: seq<MpnWithdraw>): (r: seq<Circuits.Withdraw>)
    ensures WithdrawRequests(r) == f
    ensures forall e :: e in r ==> e.mpnWithdraw in f && e == WithdrawEntry(e.mpnWithdraw)
  {
    var r := seq(|f|, i requires 0 <= i < |f| => WithdrawEntry(f[i]));
    assert WithdrawRequests(r) == f;
    r
  }

  /** The sort key of a withdrawal: its network-side nonce. */
  function WithdrawNonce(w: Circuits.Withdraw): int { w.nonce }

  /**
   * The withdrawal pool filtered to this network's contract and turned into
   * batch entries that carry the request's nonce, amount and fee: every
   * entry is addressed to the contract, and every addressed request is there
   * exactly as often as in the pool.
   */
  function WithdrawEntries(conf: Config, mempool: seq<MpnWithdraw>): (r: seq<Circuits.Withdraw>)
    ensures forall e :: e in r ==> e.mpnWithdraw.payment.contractId == conf.mpnContractId && e == WithdrawEntry(e.mpnWithdraw)
    ensures forall dw :: multiset(WithdrawRequests(r))[dw] ==
                          (if dw.payment.contractId == conf.mpnContractId then multiset(mempool)[dw] else 0)
  {
    WithdrawEntriesOf(Filter(mempool, (dw: MpnWithdraw) => dw.payment.contractId == conf.mpnContractId))
  }

  function WithdrawPayments(es: seq<Circuits.Withdraw>): (ps: seq<ContractPayment>)
    ensures |ps| == |es|
  {
    seq(|es|, i requires 0 <= i < |es| => es[i].mpnWithdraw.payment)
  }

  /**
   * The first half of `process_withdraws`: filter by contract id, build the
   * entries, then sort by the network-side nonce.
   */
  method AssembleWithdraws(conf: Config, mempool: seq<MpnWithdraw>) returns (withdraws: seq<Circuits.Withdraw>)
    ensures multiset(withdraws) == multiset(WithdrawEntries(conf, mempool))
    ensures SortedBy(withdraws, WithdrawNonce)
    ensures forall e :: e in withdraws ==> e.mpnWithdraw.payment.contractId == conf.mpnContractId
  {
    var entries := WithdrawEntries(conf, mempool);
    var a := new Circuits.Withdraw[|entries|](i requires 0 <= i < |entries| => entries[i]);
    assert a[..] == entries;
    SortByKey(a, WithdrawNonce);
    withdraws := a[..];
    forall e | e in withdraws ensures e.mpnWithdraw.payment.contractId == conf.mpnContractId {
      assert e in multiset(entries);
    }
  }

  /**
   * What `process_withdraws` does on `mirror`, given the order `sorted` its
   * unstable sort produced: `sorted` is a nonce-sorted permutation of the
   * addressed entries and goes to the bank as it is, with no admission scan;
   * the bank's error is passed on; otherwise the result is a withdraw update
   * (circuit 0) listing the accepted payments in order, with the new root, a
   * placeholder proof, the bank's prover and the mirror the bank left.
   */
  ghost predicate WithdrawsProcessed(conf: Config, mempool: seq<MpnWithdraw>, bank: Bank, mirror: Mirror,
                                     sorted: seq<Circuits.Withdraw>, r: Result<Processed, ZoroError>)
  {
    && multiset(sorted) == multiset(WithdrawEntries(conf, mempool))
    && SortedBy(sorted, WithdrawNonce)
    && var res := bank.withdraw(mirror, sorted);
       && (res.Err? ==> r == Err(BankFailure(res.error)))
       && (res.Ok? ==> r == Ok(Processed(
             ContractUpdate.Withdraw(0, WithdrawPayments(res.value.accepted), res.value.newRoot, PlaceholderProof),
             res.value.prover, res.value.mirror)))
  }

  /**
   * `process_withdraws`: the addressed withdrawals, sorted by nonce and
   * without any admission scan, are what the bank gets (`sorted`); its
   * error is passed on, otherwise the result is a withdraw update (circuit
   * 0) listing the accepted payments in order, with the new root and a
   * placeholder proof.
   */
  method ProcessWithdraws(conf: Config, mempool: seq<MpnWithdraw>, bank: Bank, mirror: Mirror)
    returns (r: Result<Processed, ZoroError>, ghost sorted: seq<Circuits.Withdraw>)
    ensures WithdrawsProcessed(conf, mempool, bank, mirror, sorted, r)
    ensures forall e :: e in sorted ==> e.mpnWithdraw.payment.contractId == conf.mpnContractId
    ensures r.Ok? && AcceptsSubsequence(bank) ==>
      forall p :: p in r.value.update.withdraws ==> p.contractId == conf.mpnContractId
  {
    var withdraws := AssembleWithdraws(conf, mempool);
    sorted := withdraws;
    var res := bank.withdraw(mirror, withdraws);
    if res.Err? {
      return Err(BankFailure(res.error)), sorted;
    }
    var applied := res.value;
    r := Ok(Processed(
      ContractUpdate.Withdraw(0, WithdrawPayments(applied.accepted), applied.newRoot, PlaceholderProof),
      applied.prover, applied.mirror));
    if AcceptsSubsequence(bank) {
      SubsequenceMembers(applied.accepted, withdraws);
      forall p | p in r.value.update.withdraws ensures p.contractId == conf.mpnContractId {
        var i :| 0 <= i < |applied.accepted| && WithdrawPayments(applied.accepted)[i] == p;
        assert applied.accepted[i] in multiset(withdraws);
      }
    }
  }

  // ----------------------------------------------------------------- updates

  /** The sort key of a transfer: its nonce. */
  function TxNonce(t: MpnTransaction): int { t.nonce }

  /** The exact sum of the fee amounts of `txs`, whatever their fee tokens. */
  function FeeSum(txs: seq<MpnTransaction>): nat
    decreases |txs|
  {
    if txs == [] then 0 else FeeSum(txs[..|txs| - 1]) + txs[|txs| - 1].fee.amount
  }

  /** Fees add up batch by batch. */
  lemma {:induction false} FeeSumAppend(a: seq<MpnTransaction>, b: seq<MpnTransaction>)
    ensures FeeSum(a + b) == FeeSum(a) + FeeSum(b)
    decreases |b|
  {
    if b == [] {
      assert a + b == a;
    } else {
      var b', t := b[..|b| - 1], b[|b| - 1];
      assert (a + b)[..|a + b| - 1] == a + b';
      FeeSumAppend(a, b');
    }
  }

  /**
   * The fee of each transaction is counted exactly once: the sum is the
   * fees before it, plus its own fee, plus the fees after it.
   */
  lemma FeeSumCountsEach(txs: seq<MpnTransaction>, i: nat)
    requires i < |txs|
    ensures FeeSum(txs) == FeeSum(txs[..i]) + txs[i].fee.amount + FeeSum(txs[i + 1..])
  {
    assert txs == txs[..i] + [txs[i]] + txs[i + 1..];
    FeeSumAppend(txs[..i] + [txs[i]], txs[i + 1..]);
    FeeSumAppend(txs[..i], [txs[i]]);
    assert [txs[i]][..0] == [];
  }

  /** Three transfers with fees 10, 20 and 30 bring in 60, in any fee tokens. */
  lemma FeeSumExample(t1: MpnTransaction, t2: MpnTransaction, t3: MpnTransaction)
    requires t1.fee.amount == 10 && t2.fee.amount == 20 && t3.fee.amount == 30
    ensures FeeSum([t1, t2, t3]) == 60
  {
    assert [t1, t2, t3][..2] == [t1, t2];
    assert [t1, t2][..1] == [t1];
    assert [t1][..0] == [];
    assert FeeSum([t1]) == 10;
    assert FeeSum([t1, t2]) == 30;
  }

  /**
   * `.sum::<u64>()` in a release build: the exact sum wrapped to 64 bits
   * (a debug build panics instead).
   */
  function FeeAmount(txs: seq<MpnTransaction>): (amount: U64)
    ensures FeeSum(txs) < U64_MODULUS ==> amount == FeeSum(txs)
    ensures amount <= FeeSum(txs)
  {
    FeeSum(txs) % U64_MODULUS
  }

  /**
   * What `process_updates` does on `mirror`, given the order `sorted` its
   * unstable sort produced: `sorted` is a nonce-sorted permutation of the
   * whole transfer pool and goes to the bank with Ziesha as the fee token;
   * the bank's error is passed on; otherwise the result is a function-call
   * update (function 0) whose fee is the accepted transactions' fee sum in
   * Ziesha, with the new root, a placeholder proof, the bank's prover and
   * the mirror the bank left.
   */
  ghost predicate UpdatesProcessed(mempool: seq<MpnTransaction>, bank: Bank, mirror: Mirror,
                                   sorted: seq<MpnTransaction>, r: Result<Processed, ZoroError>)
  {
    && multiset(sorted) == multiset(mempool)
    && SortedBy(sorted, TxNonce)
    && var res := bank.changeState(mirror, sorted, Ziesha);
       && (res.Err? ==> r == Err(BankFailure(res.error)))
       && (res.Ok? ==> r == Ok(Processed(
             ContractUpdate.FunctionCall(0, Money(Ziesha, FeeAmount(res.value.accepted)), res.value.newRoot, PlaceholderProof),
             res.value.prover, res.value.mirror)))
  }

  /**
   * `process_updates`: the whole transfer pool, sorted by nonce (`sorted`),
   * goes to the bank with Ziesha as the fee token; its error is passed on,
   * otherwise the result is a function-call update (function 0) with the
   * bank's new root, a placeholder proof, and as fee the sum of the accepted
   * transactions' fee amounts, counted in Ziesha whatever token each
   * transaction's fee names.
   */
  method ProcessUpdates(mempool: seq<MpnTransaction>, bank: Bank, mirror: Mirror)
    returns (r: Result<Processed, ZoroError>, ghost sorted: seq<MpnTransaction>)
    ensures UpdatesProcessed(mempool, bank, mirror, sorted, r)
    ensures r.Ok? ==> r.value.update.fee.token == Ziesha
  {
    var a := new MpnTransaction[|mempool|](i requires 0 <= i < |mempool| => mempool[i]);
    assert a[..] == mempool;
    SortByKey(a, TxNonce);
    var txs := a[..];
    sorted := txs;
    var feeToken := Ziesha;
    var res := bank.changeState(mirror, txs, feeToken);
    if res.Err? {
      return Err(BankFailure(res.error)), sorted;
    }
    var applied := res.value;
    var feeSum := FeeAmount(applied.accepted);
    r := Ok(Processed(
      ContractUpdate.FunctionCall(0, Money(feeToken, feeSum), applied.newRoot, PlaceholderProof),
      applied.prover, applied.mirror));
  }
}
