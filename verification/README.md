# Proof-of-existence pallet, modelled in Dafny

This project models the `poe` FRAME pallet (`pallets/poe/src/lib.rs`). The
pallet is a registry of claims. A claim is an opaque byte string. The
registry records which account registered the claim and at which block.
The current owner can move the claim to another account. The pallet intends
the owner to be able to revoke it too.

The pallet's state is the storage map `Proofs`: claim bytes → (account, block
number). It is declared as a value-query map, so reading an absent key
returns the default pair (default account, block 0). The model has that as
`Storage.Get`.

Each dispatchable is a pure function
`(store, sender, now, arguments) -> Outcome(store', result, events)`.
`sender` is the account that signed the extrinsic. `now` is the current
block number. Each call runs its `ensure!` checks in the source's order.
Only when all of them pass does it do one storage write and deposit one
event. The predicate `Poe.Atomic` states that discipline. Every call's
contract includes it.

Modules:
- `Storage` (storage.dfy): claim, account and block-number types; the entry
  pair and its default; value-query `Get`, `Insert`, `Remove`.
- `Poe` (poe.dfy): `Event`, `Error`, the dispatch result, and the three
  calls `CreateClaim`, `RevokeClaim` (as shipped) and `MoveClaim`. It also
  holds `RevokeClaimIntended`, the revoke its own comment describes.
- `Claims` (claims.dfy): properties relating several calls.
- `Trace` (trace.dfy): sequences of transactions in block order. `Build`
  picks the shipped revoke or the corrected one. Holds the event-replay and
  block-stamp invariants.
- `Scenarios` (scenarios.dfy): concrete histories.

`revoke_claim` is modelled as the code has it. The comment on line 82 says
the proof must exist, but the test on line 83 is negated. The call therefore
proceeds only when the claim is absent. It then compares the sender with the
owner that the value-query read returns, which is the default account. The
un-negated version is kept apart as `Poe.RevokeClaimIntended` (see
Findings).

Two other facts about the code that the model keeps:
- `move_claim` reports a transfer with the `ClaimRemoved` event. The event
  names only the new owner and the claim, not the previous owner.
- `move_claim` does not check its target account, so an owner can move a
  claim to the default account (`Claims.MoveToDefaultAccount`).

## Model

| member | source | states |
|---|---|---|
| Storage.ReadAfterWrite | pallets/poe/src/lib.rs:30 | read-after-write laws of the value-query map `Get`: a read returns the pair last inserted at that key, the default pair (default account, block 0) once the key is removed, and an insert or removal at another key leaves the read unchanged |
| Storage.Insert | pallets/poe/src/lib.rs:71 | after the write the key holds the given pair, the key set gains only that key, and every other key keeps its presence and value |
| Storage.Remove | pallets/poe/src/lib.rs:89 | after removal the key is absent, the key set loses only that key, every other key is unchanged, and removing an absent key leaves the map as it was |
| Poe.CreateClaim | pallets/poe/src/lib.rs:65-75 | succeeds exactly when the claim is absent; afterwards the claim maps to (sender, now), every other key is unchanged, and exactly `ClaimCreated(sender, claim)` is deposited; on a present claim it fails with `ProofAlreadyExist` whatever the sender, with the store unchanged and no event |
| Poe.RevokeClaim | pallets/poe/src/lib.rs:79-94 | as shipped: never changes the store; a present claim is rejected with `ClaimNotExist`; on an absent claim it fails with `NotClaimOwner` unless the sender is the default account; it succeeds exactly in that case, depositing `ClaimRevoked(default account, claim)` |
| Poe.RevokeClaimIntended | pallets/poe/src/lib.rs:82-93 | corrected revoke: an absent claim is rejected with `ClaimNotExist`; a non-owner is rejected with `NotClaimOwner`, checked in that order; it succeeds exactly when the sender owns the claim, and then removes only that key and deposits `ClaimRevoked(sender, claim)` |
| Poe.MoveClaim | pallets/poe/src/lib.rs:97-112 | an absent claim is rejected with `ClaimNotExist`; a non-owner is rejected with `NotClaimOwner`, checked in that order, and neither failure changes anything; it succeeds exactly for the owner, overwriting the entry with (account, now) without adding or removing keys and depositing `ClaimRemoved(account, claim)`, which names the new owner only |
| Claims.MoveTransfersOwnership | pallets/poe/src/lib.rs:101-109 | after the owner A moves a claim to B, A fails the owner check of both move and the corrected revoke, while B passes both; the shipped revoke still rejects B with `ClaimNotExist` |
| Claims.CreateThenRevokeRestores | pallets/poe/src/lib.rs:65-93 | with the corrected revoke, creating an absent claim and revoking it as its creator restores the original store exactly |
| Claims.CreateThenRevokeFails | pallets/poe/src/lib.rs:69-83 | as shipped, the creator of a freshly created claim cannot revoke it: the call fails with `ClaimNotExist` and changes nothing |
| Claims.RevokeAsWrittenNeverRevokes | pallets/poe/src/lib.rs:82-89 | the shipped and corrected revokes never both succeed on the same input; whenever the corrected one would revoke, the shipped one fails with `ClaimNotExist`, and the converse holds |
| Claims.RevokeAsWrittenReadsDefault | pallets/poe/src/lib.rs:83-91 | on an absent claim the shipped revoke succeeds exactly when the sender equals the owner that the value-query read returns (the default account), and a success leaves the store as it was |
| Claims.RevokeOfPresentClaimFails | pallets/poe/src/lib.rs:82-83 | concrete witness: after A creates "abc" at block 10, A's shipped revoke fails with `ClaimNotExist` while the corrected revoke succeeds |
| Claims.MoveToDefaultAccount | pallets/poe/src/lib.rs:97-109 | the move target is unchecked: an owner can move a claim to the default account, which then owns it and passes the owner check, while the previous owner (if not the default account) fails it |
| Trace.Dispatch | pallets/poe/src/lib.rs:56-113 | every call, in either build, is all-or-nothing: a failure leaves the store as it was and deposits nothing; a success deposits one event about the claim; every key other than the claim is unchanged |
| Trace.RunEventsCountSuccesses | pallets/poe/src/lib.rs:65-112 | over any sequence of transactions, the number of deposited events equals the number of successful transactions |
| Trace.DispatchReplays | pallets/poe/src/lib.rs:36-42 | for one transaction, applying its events to the old ownership table gives the new one |
| Trace.RunReplays | pallets/poe/src/lib.rs:36-42 | over any run and in either build, replaying the deposited events (created/moved set the owner, revoked deletes) on the initial ownership table gives the final one, so an observer of events alone tracks ownership exactly |
| Trace.RunStampsBounded | pallets/poe/src/lib.rs:71-107 | starting from a store stamped no later than the first transaction's block, if transactions arrive in block order, no stored entry ends up stamped later than the last transaction's block |
| Trace.DispatchNeverRewindsStamps | pallets/poe/src/lib.rs:71-107 | a transaction in a block no earlier than every stored stamp never lowers the stamp of an entry that survives it |
| Trace.AsWrittenRunNeverShrinks | pallets/poe/src/lib.rs:79-94 | with the shipped revoke, no sequence of transactions ever removes a registered claim |
| Trace.CorrectedRevokeRemoves | pallets/poe/src/lib.rs:82-91 | with the corrected revoke, the owner's revoke succeeds, removes exactly that claim and deposits `ClaimRevoked(owner, claim)` |
| Scenarios.CreateAndRevokeCorrected | pallets/poe/src/lib.rs:65-94 | create at block 10, a stranger's revoke and the owner's revoke give results Ok, `NotClaimOwner`, Ok; the store ends empty and two events are deposited |
| Scenarios.CreateAndRevokeAsWritten | pallets/poe/src/lib.rs:65-94 | the same history as shipped gives Ok, `ClaimNotExist`, `ClaimNotExist`; the claim stays registered to (A, 10) |
| Scenarios.CreateMoveRevokeCorrected | pallets/poe/src/lib.rs:65-112 | create at block 5, move to B at block 7, B's revoke: with the corrected revoke all three succeed, the store ends empty, and the events are `ClaimCreated(A)`, `ClaimRemoved(B)`, `ClaimRevoked(B)` |
| Scenarios.CreateMoveRevokeAsWritten | pallets/poe/src/lib.rs:65-112 | the same history as shipped gives Ok, Ok, `ClaimNotExist`; B keeps (B, 7) and only the create and move events are deposited |
| Scenarios.DuplicateCreate | pallets/poe/src/lib.rs:65-75 | a second create of the same claim by another account fails with `ProofAlreadyExist`; the first owner keeps it |
| Scenarios.DefaultAccountRevokesNothing | pallets/poe/src/lib.rs:79-94 | as shipped, the default account's revoke of an unregistered claim succeeds, changes nothing and deposits `ClaimRevoked` |

## Left out

- Signature checking (`ensure_signed`, lines 67, 81, 99) is host authentication. The sender is an input and is taken as already verified. The `BadOrigin` failure is not modelled.
- The block-number source (`frame_system::Module::block_number()`, lines 71 and 107) is the parameter `now`.
- Storage key hashing (`blake2_128_concat`, line 30) is not modelled. The store is keyed on the raw claim bytes. The hasher is transparent to the map's behaviour.
- The account type is abstract in the pallet. It is modelled as `nat`, with default 0. Only equality and the default value are used.
- The block-number type is modelled as an unbounded `nat`, so overflow of the runtime's block counter is not modelled. The pallet does no arithmetic on block numbers.
- The FRAME macros are not modelled: `decl_storage!`, `decl_module!`, `decl_event!`, `decl_error!`, the `#[weight = 0]` annotations and the `Trait` configuration. Nor is the conversion of events into the runtime's aggregate event. Nor is the wrapping of pallet errors into the runtime's `DispatchError`. Events are a returned sequence, and errors are the `Error` datatype itself.
- The generated `proofs` getter is the value-query read `Storage.Get`.
- The `mock` and `tests` modules (lines 11-15) are not part of this model.

## Findings

| source | as written | input that shows it | evidently intended | confidence | as-written member | corrected member |
|---|---|---|---|---|---|---|
| pallets/poe/src/lib.rs:83 | `ensure!(!contains_key(claim), ClaimNotExist)`: revoke proceeds only when the claim is absent. It then compares the sender with the default account read from the value-query map. | `create_claim(A, "abc")` at block 10, then `revoke_claim(A, "abc")`: fails with `ClaimNotExist` and the claim stays | `ensure!(contains_key(claim), ClaimNotExist)`, as the comment on line 82 says: the claim must exist, then its owner may remove it | high; not executed | Claims.RevokeOfPresentClaimFails | Poe.RevokeClaimIntended |
