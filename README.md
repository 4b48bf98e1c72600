# Zoro batch assembly, modelled in Dafny

Zoro is the executor of Ziesha's merged payment network (MPN): a service that
pulls pending deposits, withdrawals and in-network transfers from the host
chain's zero-mempool, applies them to a mirror of the network's state tree,
proves the transitions with Groth16 circuits, and submits the resulting
contract updates in one aggregate transaction.

This project models the part of `src/main.rs` that decides what goes into a
round:

- `types.dfy` — the host-chain ledger types the executor reads and writes
  (`Core`) and the circuit batch entries (`Circuits`).
- `bank.dfy` — the state bank as the executor sees it. Each bank operation
  (`deposit`, `withdraw`, `change_state`) is a function-valued field, so every
  property below holds for any bank. `AcceptsSubsequence` names the one
  assumption some properties take: the bank accepts only entries it was
  given, in their order.
- `lists.dfy` — filtering, the subsequence relation, and an in-place sort by
  key. The sort stands in for `sort_unstable_by_key`. Its contract says only
  "ascending by key, and a permutation".
- `admission.dfy` — the per-sender nonce admission scan of
  `process_deposits`. It is an imperative loop over a nonce map (`AdmitDeposits`),
  proved equal to a fold (`Admit`). The lemmas say what the scan admits:
  - a sender's first deposit is its baseline;
  - a later deposit gets in iff its nonce is one more than the sender's last
    admitted nonce;
  - on a list sorted by nonce, each sender gets exactly the longest gap-free
    run of nonces that starts at its smallest nonce;
  - the order the unstable sort leaves among equal nonces cannot change which
    nonces get in.
- `assemblers.dfy` — `process_deposits`, `process_withdraws` and
  `process_updates`: filter by contract id, sort, hand the batch to the bank,
  and build the update skeleton with a placeholder proof. For transfers, the
  fee is summed under the Ziesha token.
- `round.dfy` — one iteration of the main loop:
  - the `last_height` gate;
  - the three batch loops in fixed kind order. They differ only in the
    assembler they call, so one loop method (`PushBatches`) takes the kind
    as a parameter and is called once per kind;
  - proving all batches;
  - attaching the proofs position by position;
  - the aggregate transaction, with nonce `acc.nonce + 1`.

Three behaviours of the code that the model states outright:

- The deposit list is sorted with an unstable sort, not a stable one. So
  nothing is claimed about the order of deposits with equal nonces.
  `AdmittedNoncesIgnoreTieOrder` shows that this order cannot change which
  nonces are admitted.
- `last_height` is recorded when a round passes the gate, before any work.
  A round that then fails is not retried at the same height. Only a new
  height starts a new round (`Executor.Round`).
- The fee of a transfer batch is the sum of the accepted transfers' fee
  amounts, labelled with the Ziesha token. The token each transfer's fee
  names is ignored.

## Model

| member | source | states |
|---|---|---|
| `Assemblers.DepositEntries` | src/main.rs:154-164 | every deposit entry is addressed to this network's contract id and is the entry built from its own request (its token index and amount), and each addressed request of the pool appears exactly as often as in the pool (none dropped, none duplicated) |
| `Assemblers.DepositEntriesOf` | src/main.rs:157-163 | one deposit entry per request, in order, each built from that request (token index and amount); projecting the entries back to their requests gives the requests |
| `Assemblers.WithdrawEntries` | src/main.rs:215-230 | the same filter property for withdrawals, and each entry is the one built from its own request (its nonce, amount and fee) |
| `Assemblers.WithdrawEntriesOf` | src/main.rs:218-229 | one withdraw entry per request, in order, each built from that request; projecting back gives the requests |
| `Lists.SortByKey` | src/main.rs:165 | after sorting, the list is in ascending key order and is a permutation of the list before |
| `Admission.AdmitDeposits` | src/main.rs:166-177 | the admission loop over the nonce map returns what the fold `Admit` of its input gives |
| `Admission.ScanTracksLastAdmitted` | src/main.rs:167-175 | the nonce map has an entry for a sender iff one of its deposits was admitted, and the entry is the nonce of its last admitted deposit |
| `Admission.AdmissionRule` | src/main.rs:168-177 | a sender's first deposit is admitted; a later one is admitted iff its nonce is the last admitted nonce plus one; a skipped deposit leaves the admitted list and the nonce map unchanged |
| `Admission.AdmitSubsequence` | src/main.rs:166-177 | the admitted deposits are a subsequence of the sorted list, in the same relative order |
| `Admission.AdmittedPerSender` | src/main.rs:168-177 | the nonces admitted for a sender depend only on that sender's own nonces, through the single-sender rule `Run` |
| `Admission.RunConsecutive` | src/main.rs:170-175 | a sender's admitted nonces are n, n+1, n+2, … from the nonce of its first deposit, and they come from its nonces in order |
| `Admission.RunMaximal` | src/main.rs:165-177 | on ascending nonces the admitted run is maximal: the nonce after its end does not occur |
| `Admission.AdmittedRunShape` | src/main.rs:166-177 | in any deposit list, a sender with deposits gets at least one in, and its admitted nonces are consecutive from its first deposit's nonce and drawn from its own nonces |
| `Admission.SortedRunMaximal` | src/main.rs:165-177 | in a list sorted by nonce, a sender's first nonce is its smallest and the nonce right after its admitted run does not occur among its deposits |
| `Admission.SenderAdmittedRun` | src/main.rs:165-177 | on a list sorted by nonce, a sender with deposits gets exactly the longest consecutive run starting at its smallest nonce |
| `Admission.DuplicateSkipped` | src/main.rs:170-173 | a deposit repeating a nonce its sender already has admitted is skipped |
| `Admission.GapDefersLaterNonces` | src/main.rs:168-177 | one sender's nonces 1, 2, 4, 5 admit exactly the deposits with nonces 1 and 2 |
| `Admission.AdmittedNoncesIgnoreTieOrder` | src/main.rs:165-177 | any two orders the unstable sort may produce admit the same nonces for every sender |
| `Assemblers.AssembleDeposits` | src/main.rs:154-177 | the batch handed to the bank is the admission fold of a nonce-sorted permutation of the filtered pool, and every entry in it is addressed to the contract |
| `Assemblers.ProcessDeposits` | src/main.rs:140-199 | a bank error is passed on; otherwise a deposit update (circuit 0) with the accepted payments in order, the bank's new root and the placeholder proof; with a bank that accepts only what it was given, every payment in it is addressed to the contract |
| `Assemblers.AssembleWithdraws` | src/main.rs:215-231 | the batch handed to the bank is a nonce-sorted permutation of the filtered withdrawal entries, every one addressed to the contract |
| `Assemblers.ProcessWithdraws` | src/main.rs:201-253 | the bank gets the filtered withdrawals sorted by nonce, with no admission scan, every one addressed to the contract; a bank error is passed on; otherwise a withdraw update (circuit 0) with the accepted payments, the new root and the placeholder proof, addressed to the contract when the bank accepts only what it was given |
| `Assemblers.FeeSumAppend` | src/main.rs:276-279 | the fee sum of two lists joined is the sum of their fee sums |
| `Assemblers.FeeSumCountsEach` | src/main.rs:276-279 | each accepted transaction's fee is counted exactly once: the sum is the sum before it, plus its own amount, plus the sum after it |
| `Assemblers.FeeSumExample` | src/main.rs:276-279 | fees 10, 20 and 30 sum to 60, in any fee tokens |
| `Assemblers.FeeAmount` | src/main.rs:276-279 | the update's fee amount equals the exact fee sum whenever that sum fits in 64 bits |
| `Assemblers.ProcessUpdates` | src/main.rs:255-293 | the bank gets the whole transfer pool sorted by nonce, with fee token Ziesha; a bank error is passed on; otherwise a function-call update (function 0) whose fee is the accepted transactions' fee sum in Ziesha, with the new root and the placeholder proof |
| `Round.ProcessBatch` | src/main.rs:520-564 | one batch of the given kind returns exactly what that kind's assembler returns on the given mirror (for some order its sort may produce): the bank's error, or the update built from the bank's accepted entries, new root and prover, with the mirror the bank left; on success the update has that kind and a placeholder proof, and is addressed to the contract when the bank is honest |
| `Round.PushBatches` | src/main.rs:514-561 | one batch loop of `count` calls that only appends: the pairs and mirrors from before the loop are kept as a prefix; on success every pushed pair is what the assembler of its position's kind returned on the mirror the previous call left; a bank error ends the loop with the batches so far succeeded and the failing batch returning that error |
| `Round.AssembleUpdates` | src/main.rs:512-567 | the batches run in turn on a chain of mirrors starting at the snapshot, each on the mirror the previous one left, and the k-th update and prover are what the k-th kind's assembler returned there; the result's mirror is the last one; on failure the earlier batches succeeded and the failing one returned the error. On success: exactly `deposit_batches` deposit updates, then `withdraw_batches` withdraw updates, then `update_batches` function calls, each with a placeholder proof, one prover per update, each addressed to the contract when the bank is honest; any failure is a bank error |
| `Round.ProveAll` | src/main.rs:571-575 | succeeds iff every prover succeeds, and then returns each prover's proof at its position; otherwise returns the error of some prover that failed |
| `Round.ComputeRound` | src/main.rs:500-583 | succeeds iff the batch loops succeed and every prover succeeds; then the updates are the assembled ones, in kind order with placeholder proofs, there is one proof per update, the one its prover returned, and the writes are those of the last mirror; a loop failure is the round's error, otherwise the error is that of a prover that failed |
| `Round.WithProof` | src/main.rs:586-596 | the update's proof becomes the given proof, and its kind and every other field are unchanged |
| `Round.AttachProofs` | src/main.rs:585-597 | the i-th update gets the i-th proof for every position both lists have; the updates past the shorter list are unchanged |
| `Round.Executor.constructor` | src/main.rs:434 | no height is recorded before the first round |
| `Round.Executor.CheckHeight` | src/main.rs:456-462 | the round proceeds iff the height differs from the recorded one; afterwards the recorded height is the current one |
| `Round.Executor.Round` | src/main.rs:436-620 | skipped while mining or outdated, or at an unchanged height, and then the record stays; otherwise the height is recorded and the round is submitted iff its computation succeeds, failing with the computation's error otherwise; a submitted transaction has nonce `acc.nonce + 1` and fee 0 Ziesha, goes to this network's contract, holds the i-th computed update with the i-th proof attached (so in kind order, addressed to the contract when the bank is honest), and carries the computation's writes as its state delta |

## Left out

- `Round.ProveAll`: the parallel collect reports the error of some failing prover; which one is not fixed by the code, so the contract does not name it.
- `Assemblers.FeeAmount`: models the release build, where `.sum::<u64>()` wraps at 2^64. The debug build panics on overflow; that is not modelled.
- `Admission.AdmitDeposits`: `prev_nonce + 1` is computed without the `u32` bound. On nonce-sorted input a later nonce is never below an earlier one, so a wrap to 0 could not match anyway. The debug-build overflow panic is not modelled.
- `Round.Executor.Round`: `acc.nonce + 1` is unbounded. The overflow of the account nonce is not modelled.
- `Round.Executor.Round`: the signed transaction is left `Unsigned`. Wallet signing (`sign_tx`) is cryptography outside this code.
- `Round.Executor.Round`: the state delta is the mirror's write list as is. `bank::extract_delta` is part of the bank, which is not part of this model.
- The bank's internals (sparse Merkle tree, witness construction, `deposit`/`withdraw`/`change_state`) and the circuits are not part of this model. They are function-valued parameters.
- Groth16 proving itself is not modelled. Each prover is a function of the batch and the cancellation flag.
- The mirror (`RamMirrorKvStore`) is threaded through the bank calls as a value. Its update in place is not captured.
- The cancellation watcher task, `spawn_blocking`, and rayon's parallel proving are not modelled, because their point is concurrency. The cancel flag is one boolean that every prover observes.
- All node RPC calls (`is_mining`, `is_outdated`, `get_height`, `get_account`, `get_zero_mempool`, `transact`) become plain inputs and outputs. The errors they can return are not modelled. The sleeps and the retry loop around a round are not modelled either.
- Key decompression, `zk_address_index` and `payment.fingerprint()` are hashing and cryptography calls. The circuit entries leave those fields out.
- `load_params`, `vk_to_hex`, `db_shutter`, parameter generation, the HTTP stub (`process_request`, `Serve`) and all console and log output are not modelled. They are file, network or display code with no batch logic.
- `src/client.rs` is not modelled. It is an RPC wrapper with no logic of its own.
