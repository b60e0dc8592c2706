/**
 The proof-of-existence pallet: its events, its errors and its three
 dispatchable calls. Each call is a pure transition
   (store, sender, now, arguments) -> (store', result, events)
 where `sender` is the already-verified signer of the transaction and `now`
 is the current block number. Every call runs its checks first and, only when
 all of them pass, performs one storage write and deposits one event.
 */
module Poe {
  import opened Storage

  datatype Event =
    | ClaimCreated(who: AccountId, claim: Claim)
    | ClaimRevoked(who: AccountId, claim: Claim)
    | ClaimRemoved(who: AccountId, claim: Claim)

  datatype Error = ProofAlreadyExist | ClaimNotExist | NotClaimOwner

  /** `DispatchResult`: success carries nothing, failure carries one error. */
  datatype DispatchResult = Ok | Err(error: Error)

  /** What one call leaves behind: the new store, its result and the events it deposited. */
  datatype Outcome = Outcome(store: Proofs, result: DispatchResult, events: seq<Event>)

  /** A failed `ensure!`: the store is returned as it was and no event is deposited. */
  function Reject(s: Proofs, e: Error): Outcome
  {
    Outcome(s, Err(e), [])
  }

  /** The commit step of a call whose checks all passed. */
  function Commit(s': Proofs, ev: Event): Outcome
  {
    Outcome(s', Ok, [ev])
  }

  /** The validate-then-commit discipline every call follows: a failure changes
      nothing and deposits nothing; a success deposits exactly one event and
      writes at most the entry for `claim`. */
  ghost predicate Atomic(s: Proofs, claim: Claim, o: Outcome)
  {
    && (o.result.Err? ==> o.store == s && o.events == [])
    && (o.result.Ok? ==> |o.events| == 1 && o.events[0].claim == claim)
    && OnlyTouches(s, o.store, claim)
  }

  /** `create_claim`: registers `claim` for `sender`, stamped with `now`. */
  function CreateClaim(s: Proofs, sender: AccountId, now: BlockNumber, claim: Claim): (o: Outcome)
    ensures Atomic(s, claim, o)
    ensures o.result.Ok? <==> claim !in s
    ensures o.result.Err? ==> o.result.error == ProofAlreadyExist
    ensures o.result.Ok? ==>
              && claim in o.store && o.store[claim] == Entry(sender, now)
              && o.events == [ClaimCreated(sender, claim)]
  {
    if claim in s then Reject(s, ProofAlreadyExist)
    else Commit(Insert(s, claim, Entry(sender, now)), ClaimCreated(sender, claim))
  }

  /** `revoke_claim` as the pallet has it. The presence test is negated, so the
      call proceeds only when `claim` is ABSENT; the value-query read then
      yields the default pair, and the owner check compares `sender` with the
      default account. The store therefore never changes. */
  function RevokeClaim(s: Proofs, sender: AccountId, claim: Claim): (o: Outcome)
    ensures Atomic(s, claim, o)
    ensures o.store == s
    ensures claim in s ==> o.result == Err(ClaimNotExist)
    ensures claim !in s && sender != DefaultAccount ==> o.result == Err(NotClaimOwner)
    ensures o.result.Ok? <==> claim !in s && sender == DefaultAccount
    ensures o.result.Ok? ==> o.events == [ClaimRevoked(DefaultAccount, claim)]
  {
    if claim in s then Reject(s, ClaimNotExist)
    else
      var Entry(owner, _) := Get(s, claim);
      if owner != sender then Reject(s, NotClaimOwner)
      else Commit(Remove(s, claim), ClaimRevoked(sender, claim))
  }

  /** `revoke_claim` with its presence test un-negated, as the comment on the
      presence test in `revoke_claim` states: the claim must exist and
      `sender` must own it; then it is removed. */
  function RevokeClaimIntended(s: Proofs, sender: AccountId, claim: Claim): (o: Outcome)
    ensures Atomic(s, claim, o)
    ensures claim !in s ==> o.result == Err(ClaimNotExist)
    ensures claim in s && s[claim].owner != sender ==> o.result == Err(NotClaimOwner)
    ensures o.result.Ok? <==> claim in s && s[claim].owner == sender
    ensures o.result.Ok? ==>
              && claim !in o.store
              && o.store.Keys == s.Keys - {claim}
              && o.events == [ClaimRevoked(sender, claim)]
  {
    if claim !in s then Reject(s, ClaimNotExist)
    else
      var Entry(owner, _) := Get(s, claim);
      if owner != sender then Reject(s, NotClaimOwner)
      else Commit(Remove(s, claim), ClaimRevoked(sender, claim))
  }

  /** `move_claim`: the owner hands `claim` to `account`; the entry is
      overwritten with (account, now) and the event names only the new owner. */
  function MoveClaim(s: Proofs, sender: AccountId, now: BlockNumber, claim: Claim, account: AccountId): (o: Outcome)
    ensures Atomic(s, claim, o)
    ensures claim !in s ==> o.result == Err(ClaimNotExist)
    ensures claim in s && s[claim].owner != sender ==> o.result == Err(NotClaimOwner)
    ensures o.result.Ok? <==> claim in s && s[claim].owner == sender
    ensures o.result.Ok? ==>
              && claim in o.store && o.store[claim] == Entry(account, now)
              && o.store.Keys == s.Keys
              && o.events == [ClaimRemoved(account, claim)]
  {
    if claim !in s then Reject(s, ClaimNotExist)
    else
      var Entry(owner, _) := Get(s, claim);
      if owner != sender then Reject(s, NotClaimOwner)
      else Commit(Insert(s, claim, Entry(account, now)), ClaimRemoved(account, claim))
  }
}
