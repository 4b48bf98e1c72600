/**
 * One round of the executor's main loop: the height gate, the batch loops
 * that run the assemblers in the fixed kind order, proving every batch,
 * attaching the proofs to the update skeletons, and the aggregate
 * transaction that carries them.
 */
module Round {
  import opened Core
  import opened Bank
  import opened Assemblers

  /** How many batches of each kind one round assembles. */
  datatype StartOpt = StartOpt(depositBatches: nat, withdrawBatches: nat, updateBatches: nat)

  /** The zero-mempool as the host-chain node reports it. */
  datatype Mempool = Mempool(deposits: seq<MpnDeposit>, withdraws: seq<MpnWithdraw>, updates: seq<MpnTransaction>)

  /** The updates of a round, before proving, with one prover per update. */
  datatype Assembled = Assembled(updates: seq<ContractUpdate>, provers: seq<Prover>, mirror: Mirror)

  /** What the blocking part of a round hands back: updates, their proofs, the buffered writes. */
  datatype Computed = Computed(updates: seq<ContractUpdate>, proofs: seq<Groth16Proof>, ops: seq<WriteOp>)

  /** The number of batches a round assembles. */
  function Total(opt: StartOpt): nat {
    opt.depositBatches + opt.withdrawBatches + opt.updateBatches
  }

  /**
   * The kind of the k-th batch of a round: the deposit batches come first,
   * then the withdraw batches, then the update batches.
   */
  function KindAt(k: int, opt: StartOpt): Kind {
    if k < opt.depositBatches then DepositKind
    else if k < opt.depositBatches + opt.withdrawBatches then WithdrawKind
    else UpdateKind
  }

  /** Whether an update is of the given kind. */
  ghost predicate OfKind(u: ContractUpdate, kind: Kind) {
    match kind
    case DepositKind => u.Deposit?
    case WithdrawKind => u.Withdraw?
    case UpdateKind => u.FunctionCall?
  }

  /**
   * `deposit` batches of deposit updates, then `withdraw` batches of
   * withdraw updates, then `update` batches of function calls.
   */
  ghost predicate InKindOrder(updates: seq<ContractUpdate>, opt: StartOpt) {
    && |updates| == Total(opt)
    && forall i :: 0 <= i < |updates| ==> OfKind(updates[i], KindAt(i, opt))
  }

  /** Every payment an update moves across the contract boundary is addressed to `cid`. */
  ghost predicate Addressed(u: ContractUpdate, cid: ContractId) {
    && (u.Deposit? ==> forall p :: p in u.deposits ==> p.contractId == cid)
    && (u.Withdraw? ==> forall p :: p in u.withdraws ==> p.contractId == cid)
  }

  /** An assembled update still waiting for its proof and, when the bank is honest, addressed to `cid`. */
  ghost predicate Pending(u: ContractUpdate, cid: ContractId, honest: bool) {
    u.proof == PlaceholderProof && (honest ==> Addressed(u, cid))
  }

  /**
   * `res` is what the assembler of `kind` may return on mirror `m`, for
   * some order its unstable sort may produce.
   */
  ghost predicate BatchResult(kind: Kind, conf: Config, mempool: Mempool, bank: Bank, m: Mirror,
                              res: Result<Processed, ZoroError>)
  {
    match kind
    case DepositKind => exists sorted :: DepositsProcessed(conf, mempool.deposits, bank, m, sorted, res)
    case WithdrawKind => exists sorted :: WithdrawsProcessed(conf, mempool.withdraws, bank, m, sorted, res)
    case UpdateKind => exists sorted :: UpdatesProcessed(mempool.updates, bank, m, sorted, res)
  }

  /** One call of `process_deposits`, `process_withdraws` or `process_updates`, by `kind`. */
  method ProcessBatch(kind: Kind, conf: Config, mempool: Mempool, bank: Bank, m: Mirror)
    returns (res: Result<Processed, ZoroError>)
    ensures BatchResult(kind, conf, mempool, bank, m, res)
    ensures res.Ok? ==> OfKind(res.value.update, kind)
    ensures res.Ok? ==> Pending(res.value.update, conf.mpnContractId, AcceptsSubsequence(bank))
    ensures res.Err? ==> res.error.BankFailure?
  {
    match kind
    case DepositKind =>
      ghost var sorted;
      res, sorted := ProcessDeposits(conf, mempool.deposits, bank, m);
      assert DepositsProcessed(conf, mempool.deposits, bank, m, sorted, res);
    case WithdrawKind =>
      ghost var sorted;
      res, sorted := ProcessWithdraws(conf, mempool.withdraws, bank, m);
      assert WithdrawsProcessed(conf, mempool.withdraws, bank, m, sorted, res);
    case UpdateKind =>
      ghost var sorted;
      res, sorted := ProcessUpdates(mempool.updates, bank, m);
      assert UpdatesProcessed(mempool.updates, bank, m, sorted, res);
  }

  /**
   * The batch loops of a round, as a relation: `ms` are the mirrors the
   * batches see in turn, starting from `mirror`, each batch running on the
   * mirror the previous one left. On success there is one update and one
   * prover per batch, the k-th being what the assembler of the k-th kind
   * returns on `ms[k]`, and the round's mirror is the last one. On failure
   * the batches before the failing one succeeded, and the failing batch
   * returned the round's error.
   */
  ghost predicate Assembles(opt: StartOpt, conf: Config, mempool: Mempool, bank: Bank, mirror: Mirror,
                            ms: seq<Mirror>, r: Result<Assembled, ZoroError>)
  {
    && |ms| >= 1 && ms[0] == mirror
    && (r.Ok? ==>
          && |ms| == Total(opt) + 1
          && |r.value.updates| == |r.value.provers| == Total(opt)
          && r.value.mirror == ms[Total(opt)]
          && forall k :: 0 <= k < Total(opt) ==>
               BatchResult(KindAt(k, opt), conf, mempool, bank, ms[k],
                           Ok(Processed(r.value.updates[k], r.value.provers[k], ms[k + 1]))))
    && (r.Err? ==>
          && |ms| <= Total(opt)
          && (forall k :: 0 <= k < |ms| - 1 ==>
                exists res: Result<Processed, ZoroError> :: res.Ok? && res.value.mirror == ms[k + 1] &&
                  BatchResult(KindAt(k, opt), conf, mempool, bank, ms[k], res))
          && BatchResult(KindAt(|ms| - 1, opt), conf, mempool, bank, ms[|ms| - 1], Err(r.error)))
  }

  /** The k-th batch of the loops succeeded with `pair` on mirror `ms[k]`, leaving `ms[k + 1]`. */
  ghost predicate Pushed(k: nat, opt: StartOpt, conf: Config, mempool: Mempool, bank: Bank,
                         ms: seq<Mirror>, pair: (ContractUpdate, Prover))
    requires k + 1 < |ms|
  {
    && BatchResult(KindAt(k, opt), conf, mempool, bank, ms[k], Ok(Processed(pair.0, pair.1, ms[k + 1])))
    && OfKind(pair.0, KindAt(k, opt))
    && Pending(pair.0, conf.mpnContractId, AcceptsSubsequence(bank))
  }

  /** Every pair pushed so far is the successful batch between two consecutive mirrors of `ms`. */
  ghost predicate AllPushed(opt: StartOpt, conf: Config, mempool: Mempool, bank: Bank,
                            ms: seq<Mirror>, pairs: seq<(ContractUpdate, Prover)>)
  {
    && |ms| == |pairs| + 1
    && forall k :: 0 <= k < |pairs| ==> Pushed(k, opt, conf, mempool, bank, ms, pairs[k])
  }

  /** A successful batch on the last mirror extends the pushed pairs and the mirrors by one. */
  lemma PushBatch(opt: StartOpt, conf: Config, mempool: Mempool, bank: Bank,
                  ms: seq<Mirror>, pairs: seq<(ContractUpdate, Prover)>, res: Result<Processed, ZoroError>)
    requires AllPushed(opt, conf, mempool, bank, ms, pairs)
    requires res.Ok? && BatchResult(KindAt(|pairs|, opt), conf, mempool, bank, ms[|pairs|], res)
    requires OfKind(res.value.update, KindAt(|pairs|, opt))
    requires Pending(res.value.update, conf.mpnContractId, AcceptsSubsequence(bank))
    ensures AllPushed(opt, conf, mempool, bank, ms + [res.value.mirror], pairs + [(res.value.update, res.value.prover)])
  {
    var ms', pairs' := ms + [res.value.mirror], pairs + [(res.value.update, res.value.prover)];
    forall k | 0 <= k < |pairs'| ensures Pushed(k, opt, conf, mempool, bank, ms', pairs'[k]) {
      assert ms'[k] == ms[k] && ms'[k + 1] == (if k < |pairs| then ms[k + 1] else res.value.mirror);
      if k < |pairs| {
        assert Pushed(k, opt, conf, mempool, bank, ms, pairs[k]);
      }
    }
  }

  /** A bank error in the next batch, after the pushed ones, is the loops' failure. */
  lemma FailBatch(opt: StartOpt, conf: Config, mempool: Mempool, bank: Bank, mirror: Mirror,
                  ms: seq<Mirror>, pairs: seq<(ContractUpdate, Prover)>, e: ZoroError)
    requires AllPushed(opt, conf, mempool, bank, ms, pairs) && ms[0] == mirror && |pairs| < Total(opt)
    requires BatchResult(KindAt(|pairs|, opt), conf, mempool, bank, ms[|pairs|], Err(e))
    ensures Assembles(opt, conf, mempool, bank, mirror, ms, Err(e))
  {
    forall k | 0 <= k < |ms| - 1
      ensures exists res: Result<Processed, ZoroError> :: res.Ok? && res.value.mirror == ms[k + 1] &&
                BatchResult(KindAt(k, opt), conf, mempool, bank, ms[k], res)
    {
      assert Pushed(k, opt, conf, mempool, bank, ms, pairs[k]);
      var res: Result<Processed, ZoroError> := Ok(Processed(pairs[k].0, pairs[k].1, ms[k + 1]));
      assert res.value.mirror == ms[k + 1];
    }
  }

  /** All batches pushed: the unzipped pairs are the loops' success, in kind order and pending. */
  lemma CompleteBatches(opt: StartOpt, conf: Config, mempool: Mempool, bank: Bank, mirror: Mirror,
                        ms: seq<Mirror>, pairs: seq<(ContractUpdate, Prover)>, a: Assembled)
    requires AllPushed(opt, conf, mempool, bank, ms, pairs) && ms[0] == mirror && |pairs| == Total(opt)
    requires |a.updates| == |a.provers| == |pairs| && a.mirror == ms[|pairs|]
    requires forall k :: 0 <= k < |pairs| ==> a.updates[k] == pairs[k].0 && a.provers[k] == pairs[k].1
    ensures Assembles(opt, conf, mempool, bank, mirror, ms, Ok(a))
    ensures InKindOrder(a.updates, opt)
    ensures forall i :: 0 <= i < |a.updates| ==> Pending(a.updates[i], conf.mpnContractId, AcceptsSubsequence(bank))
  {
    forall k | 0 <= k < |pairs|
      ensures BatchResult(KindAt(k, opt), conf, mempool, bank, ms[k], Ok(Processed(a.updates[k], a.provers[k], ms[k + 1])))
      ensures OfKind(a.updates[k], KindAt(k, opt))
      ensures Pending(a.updates[k], conf.mpnContractId, AcceptsSubsequence(bank))
    {
      assert Pushed(k, opt, conf, mempool, bank, ms, pairs[k]);
    }
  }

  /**
   * One of the three batch loops: `count` calls of the assembler of `kind`,
   * each pushing its update and prover and handing on the mirror it left;
   * a bank error ends the loop and, with it, the round.
   */
  method PushBatches(kind: Kind, count: nat, opt: StartOpt, conf: Config, mempool: Mempool, bank: Bank,
                     mirror: Mirror, pairs0: seq<(ContractUpdate, Prover)>, ghost ms0: seq<Mirror>, m0: Mirror)
    returns (r: Result<seq<(ContractUpdate, Prover)>, ZoroError>, m: Mirror, ghost ms: seq<Mirror>)
    requires AllPushed(opt, conf, mempool, bank, ms0, pairs0) && ms0[0] == mirror && m0 == ms0[|pairs0|]
    requires |pairs0| + count <= Total(opt)
    requires forall j :: |pairs0| <= j < |pairs0| + count ==> KindAt(j, opt) == kind
    ensures r.Ok? ==>
      && AllPushed(opt, conf, mempool, bank, ms, r.value)
      && |r.value| == |pairs0| + count && ms[0] == mirror && m == ms[|r.value|]
    ensures r.Ok? ==> r.value[..|pairs0|] == pairs0
    ensures |ms0| <= |ms| && ms[..|ms0|] == ms0
    ensures r.Err? ==> Assembles(opt, conf, mempool, bank, mirror, ms, Err(r.error)) && r.error.BankFailure?
  {
    var pairs := pairs0;
    m, ms := m0, ms0;
    for i := 0 to count
      invariant AllPushed(opt, conf, mempool, bank, ms, pairs)
      invariant |pairs| == |pairs0| + i && ms[0] == mirror && m == ms[|pairs|]
      invariant pairs[..|pairs0|] == pairs0 && |ms0| <= |ms| && ms[..|ms0|] == ms0
    {
      var res := ProcessBatch(kind, conf, mempool, bank, m);
      if res.Err? {
        FailBatch(opt, conf, mempool, bank, mirror, ms, pairs, res.error);
        return Err(res.error), m, ms;
      }
      PushBatch(opt, conf, mempool, bank, ms, pairs, res);
      pairs := pairs + [(res.value.update, res.value.prover)];
      m := res.value.mirror;
      ms := ms + [m];
    }
    r := Ok(pairs);
  }

  /**
   * The three batch loops: `depositBatches` calls of `process_deposits`,
   * then the withdraw and update loops, all over the same mempool, each call
   * seeing the mirror the previous one left; the first bank error ends the
   * round. The pairs pushed are then unzipped.
   */
  method AssembleUpdates(opt: StartOpt, conf: Config, mempool: Mempool, bank: Bank, mirror: Mirror)
    returns (r: Result<Assembled, ZoroError>, ghost ms: seq<Mirror>)
    ensures Assembles(opt, conf, mempool, bank, mirror, ms, r)
    ensures r.Ok? ==> InKindOrder(r.value.updates, opt)
    ensures r.Ok? ==> forall i :: 0 <= i < |r.value.updates| ==> r.value.updates[i].proof == PlaceholderProof
    ensures r.Ok? && AcceptsSubsequence(bank) ==>
      forall i :: 0 <= i < |r.value.updates| ==> Addressed(r.value.updates[i], conf.mpnContractId)
    ensures r.Err? ==> r.error.BankFailure?
  {
    var d, w := opt.depositBatches, opt.withdrawBatches;
    var res, m;
    res, m, ms := PushBatches(DepositKind, d, opt, conf, mempool, bank, mirror, [], [mirror], mirror);
    if res.Err? {
      return Err(res.error), ms;
    }
    res, m, ms := PushBatches(WithdrawKind, w, opt, conf, mempool, bank, mirror, res.value, ms, m);
    if res.Err? {
      return Err(res.error), ms;
    }
    res, m, ms := PushBatches(UpdateKind, opt.updateBatches, opt, conf, mempool, bank, mirror, res.value, ms, m);
    if res.Err? {
      return Err(res.error), ms;
    }
    var pairs := res.value;
    var updates := seq(|pairs|, k requires 0 <= k < |pairs| => pairs[k].0);
    var provers := seq(|pairs|, k requires 0 <= k < |pairs| => pairs[k].1);
    CompleteBatches(opt, conf, mempool, bank, mirror, ms, pairs, Assembled(updates, provers, m));
    r := Ok(Assembled(updates, provers, m));
  }

  /**
   * Proving every batch and collecting the results: all proofs, in the
   * provers' order, when every prover succeeds; otherwise the error of one
   * that failed (the proving runs in parallel, so which one is not fixed).
   * Each prover sees the round's cancellation flag.
   */
  function ProveAll(provers: seq<Prover>, prove: (Prover, bool) -> Result<Groth16Proof, BankError>, cancel: bool)
    : (r: Result<seq<Groth16Proof>, BankError>)
    ensures r.Ok? <==> forall i :: 0 <= i < |provers| ==> prove(provers[i], cancel).Ok?
    ensures r.Ok? ==> (|r.value| == |provers| &&
                       forall i :: 0 <= i < |provers| ==> prove(provers[i], cancel) == Ok(r.value[i]))
    ensures r.Err? ==> exists i :: 0 <= i < |provers| && prove(provers[i], cancel) == Err(r.error)
    decreases |provers|
  {
    if provers == [] then Ok([])
    else
      var init, last := provers[..|provers| - 1], provers[|provers| - 1];
      match ProveAll(init, prove, cancel)
      case Err(e) => Err(e)
      case Ok(ps) =>
        match prove(last, cancel)
        case Err(e) => Err(e)
        case Ok(p) => Ok(ps + [p])
  }

  /**
   * The blocking part of a round, as a relation: `assembled` is what the
   * batch loops give on `snapshot` (through the mirrors `ms`); the round
   * succeeds iff they succeed and every prover succeeds, and then it hands
   * back the assembled updates, the proofs in the provers' order and the
   * writes of the last mirror. A failure of the loops is the round's error;
   * otherwise a failure is the error of one prover that failed.
   */
  ghost predicate Computes(opt: StartOpt, conf: Config, mempool: Mempool, bank: Bank, snapshot: Mirror,
                           prove: (Prover, bool) -> Result<Groth16Proof, BankError>, cancel: bool,
                           ms: seq<Mirror>, assembled: Result<Assembled, ZoroError>, r: Result<Computed, ZoroError>)
  {
    && Assembles(opt, conf, mempool, bank, snapshot, ms, assembled)
    && (assembled.Err? ==> r == Err(assembled.error))
    && (assembled.Ok? ==>
          var a := assembled.value;
          && (r.Ok? <==> forall i :: 0 <= i < |a.provers| ==> prove(a.provers[i], cancel).Ok?)
          && (r.Ok? ==>
                && r.value.updates == a.updates
                && r.value.ops == a.mirror.ops
                && |r.value.proofs| == |a.provers|
                && forall i :: 0 <= i < |a.provers| ==> prove(a.provers[i], cancel) == Ok(r.value.proofs[i]))
          && (r.Err? ==>
                && r.error.BankFailure?
                && exists i :: 0 <= i < |a.provers| && prove(a.provers[i], cancel) == Err(r.error.error)))
  }

  /**
   * The blocking part of a round: assemble all batches on a fresh mirror,
   * prove them, and export the mirror's writes.
   */
  method ComputeRound(opt: StartOpt, conf: Config, mempool: Mempool, bank: Bank, snapshot: Mirror,
                      prove: (Prover, bool) -> Result<Groth16Proof, BankError>, cancel: bool)
    returns (r: Result<Computed, ZoroError>, ghost ms: seq<Mirror>, ghost assembled: Result<Assembled, ZoroError>)
    ensures Computes(opt, conf, mempool, bank, snapshot, prove, cancel, ms, assembled, r)
    ensures r.Ok? ==> InKindOrder(r.value.updates, opt)
    ensures r.Ok? ==> forall i :: 0 <= i < |r.value.updates| ==> r.value.updates[i].proof == PlaceholderProof
    ensures r.Ok? && AcceptsSubsequence(bank) ==>
      forall i :: 0 <= i < |r.value.updates| ==> Addressed(r.value.updates[i], conf.mpnContractId)
    ensures r.Err? ==> r.error.BankFailure?
  {
    var res;
    res, ms := AssembleUpdates(opt, conf, mempool, bank, snapshot);
    assembled := res;
    if res.Err? {
      return Err(res.error), ms, assembled;
    }
    var proofs := ProveAll(res.value.provers, prove, cancel);
    if proofs.Err? {
      return Err(BankFailure(proofs.error)), ms, assembled;
    }
    r := Ok(Computed(res.value.updates, proofs.value, res.value.mirror.ops));
  }

  /** An update with its proof reset to the placeholder: everything but the proof. */
  function Skeleton(u: ContractUpdate): ContractUpdate {
    u.(proof := PlaceholderProof)
  }

  /** One arm of the attachment loop: the proof field of `u` set to `p`. */
  function WithProof(u: ContractUpdate, p: Groth16Proof): (r: ContractUpdate)
    ensures r.proof == Groth16(p)
    ensures Skeleton(r) == Skeleton(u)
  {
    match u
    case Deposit(circuit, deposits, next, _) => ContractUpdate.Deposit(circuit, deposits, next, Groth16(p))
    case Withdraw(circuit, withdraws, next, _) => ContractUpdate.Withdraw(circuit, withdraws, next, Groth16(p))
    case FunctionCall(functionId, fee, next, _) => ContractUpdate.FunctionCall(functionId, fee, next, Groth16(p))
  }

  /**
   * The attachment loop: the i-th update gets the i-th proof, for as many
   * positions as both lists have; everything else is left as it was.
   */
  method AttachProofs(updates: array<ContractUpdate>, proofs: seq<Groth16Proof>)
    modifies updates
    ensures forall i :: 0 <= i < updates.Length ==>
      updates[i] == if i < |proofs| then WithProof(old(updates[i]), proofs[i]) else old(updates[i])
  {
    var n := if updates.Length < |proofs| then updates.Length else |proofs|;
    for i := 0 to n
      invariant forall k :: 0 <= k < i ==> updates[k] == WithProof(old(updates[k]), proofs[k])
      invariant forall k :: i <= k < updates.Length ==> updates[k] == old(updates[k])
    {
      updates[i] := WithProof(updates[i], proofs[i]);
    }
  }

  /** The aggregate transaction, before the wallet signs it. */
  function UpdateTransaction(executor: Address, accountNonce: nat, conf: Config, updates: seq<ContractUpdate>)
    : Transaction
  {
    Transaction("", Some(executor), accountNonce + 1, Money(Ziesha, 0),
                UpdateContract(conf.mpnContractId, updates), Unsigned)
  }

  datatype SkipReason = MiningInProgress | ChainOutdated | HeightAlreadyProved

  datatype RoundOutcome =
    | Skipped(reason: SkipReason)
    | Failed(error: ZoroError)
    | Submitted(txDelta: TransactionAndDelta)

  /** The executor's state that outlives a round: the height it last started on. */
  class Executor {
    var lastHeight: Option<nat>

    constructor ()
      ensures lastHeight == None
    {
      lastHeight := None;
    }

    /**
     * The height gate: a round at the height last started on is skipped
     * and the record stays; any other height is recorded and proceeds.
     */
    method CheckHeight(currHeight: nat) returns (proceed: bool)
      modifies this
      ensures proceed <==> old(lastHeight) != Some(currHeight)
      ensures lastHeight == Some(currHeight)
    {
      if Some(currHeight) == lastHeight {
        proceed := false;
      } else {
        lastHeight := Some(currHeight);
        proceed := true;
      }
    }

    /**
     * One round. It is skipped while the node is mining or outdated, or
     * when the height has not moved since the last round started, and then
     * the recorded height stays. Otherwise the height is recorded before any
     * work, so a round that fails is not retried at the same height, and the
     * round computes `computed` as `Computes` says (through the mirrors `ms`
     * and the loops' result `assembled`). A failed computation is the
     * round's failure; a successful one is submitted as one transaction that
     * uses the account's next nonce, pays no fee, calls this network's
     * contract with the computed updates in kind order, the i-th carrying
     * the i-th proof, and carries the computed writes as its state delta.
     */
    method Round(mining: bool, outdated: bool, currHeight: nat, executor: Address, accountNonce: nat,
                 mempool: Mempool, opt: StartOpt, conf: Config, bank: Bank, snapshot: Mirror,
                 prove: (Prover, bool) -> Result<Groth16Proof, BankError>, cancel: bool)
      returns (outcome: RoundOutcome, ghost ms: seq<Mirror>, ghost assembled: Result<Assembled, ZoroError>,
               ghost computed: Result<Computed, ZoroError>)
      modifies this
      ensures mining ==> outcome == Skipped(MiningInProgress)
      ensures !mining && outdated ==> outcome == Skipped(ChainOutdated)
      ensures !mining && !outdated && old(lastHeight) == Some(currHeight) ==> outcome == Skipped(HeightAlreadyProved)
      ensures outcome.Skipped? ==> lastHeight == old(lastHeight)
      ensures !mining && !outdated && old(lastHeight) != Some(currHeight) ==>
        && lastHeight == Some(currHeight)
        && Computes(opt, conf, mempool, bank, snapshot, prove, cancel, ms, assembled, computed)
        && (computed.Err? ==> outcome == Failed(computed.error))
        && (computed.Ok? ==> outcome.Submitted?)
      ensures outcome.Submitted? ==>
        var tx, c := outcome.txDelta.tx, computed.value;
        && computed.Ok?
        && tx.nonce == accountNonce + 1
        && tx.src == Some(executor)
        && tx.fee == Money(Ziesha, 0)
        && tx.data.contractId == conf.mpnContractId
        && |tx.data.updates| == |c.updates| == |c.proofs|
        && (forall i :: 0 <= i < |c.updates| ==> tx.data.updates[i] == WithProof(c.updates[i], c.proofs[i]))
        && outcome.txDelta.stateDelta == Some(c.ops)
        && InKindOrder(tx.data.updates, opt)
        && (AcceptsSubsequence(bank) ==>
              forall i :: 0 <= i < |c.updates| ==> Addressed(tx.data.updates[i], conf.mpnContractId))
    {
      ms, assembled, computed := [], Err(NodeError(0)), Err(NodeError(0));
      if mining {
        return Skipped(MiningInProgress), ms, assembled, computed;
      }
      if outdated {
        return Skipped(ChainOutdated), ms, assembled, computed;
      }
      var proceed := CheckHeight(currHeight);
      if !proceed {
        return Skipped(HeightAlreadyProved), ms, assembled, computed;
      }
      var res;
      res, ms, assembled := ComputeRound(opt, conf, mempool, bank, snapshot, prove, cancel);
      computed := res;
      if res.Err? {
        return Failed(res.error), ms, assembled, computed;
      }
      var c := res.value;
      var updates := new ContractUpdate[|c.updates|](i requires 0 <= i < |c.updates| => c.updates[i]);
      AttachProofs(updates, c.proofs);
      forall i | 0 <= i < updates.Length
        ensures Skeleton(updates[i]) == Skeleton(c.updates[i])
      {
      }
      var tx := UpdateTransaction(executor, accountNonce, conf, updates[..]);
      outcome := Submitted(TransactionAndDelta(tx, Some(c.ops)));
    }
  }
}
