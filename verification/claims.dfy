/**
 Properties that relate several calls of the pallet: ownership after a move,
 create followed by revoke, and how the revoke the pallet ships differs from
 the revoke its comment describes.
 */
module Claims {
  import opened Storage
  import opened Poe

  /** The owner check after a successful move: the previous owner `a` is
      refused by every owner-checked call, the new owner `b` passes it. */
  lemma MoveTransfersOwnership(s: Proofs, a: AccountId, now: BlockNumber, f: Claim, b: AccountId,
                               later: BlockNumber, target: AccountId)
    requires f in s && s[f].owner == a && a != b
    ensures MoveClaim(s, a, now, f, b).result.Ok?
    ensures var s1 := MoveClaim(s, a, now, f, b).store;
            && MoveClaim(s1, a, later, f, target).result == Err(NotClaimOwner)
            && MoveClaim(s1, b, later, f, target).result.Ok?
            && RevokeClaimIntended(s1, a, f).result == Err(NotClaimOwner)
            && RevokeClaimIntended(s1, b, f).result.Ok?
            && RevokeClaim(s1, b, f).result == Err(ClaimNotExist)
  {
  }

  /** Creating a claim and then revoking it (as intended) by its creator
      restores the store exactly. */
  lemma CreateThenRevokeRestores(s: Proofs, a: AccountId, now: BlockNumber, f: Claim)
    requires f !in s
    ensures var c := CreateClaim(s, a, now, f);
            && c.result.Ok?
            && RevokeClaimIntended(c.store, a, f).result.Ok?
            && RevokeClaimIntended(c.store, a, f).store == s
  {
  }

  /** As written, a created claim cannot be revoked by its creator: the
      negated presence test rejects it with `ClaimNotExist`. */
  lemma CreateThenRevokeFails(s: Proofs, a: AccountId, now: BlockNumber, f: Claim)
    requires f !in s
    ensures var c := CreateClaim(s, a, now, f);
            && c.result.Ok?
            && RevokeClaim(c.store, a, f) == Outcome(c.store, Err(ClaimNotExist), [])
  {
  }

  /** The two revokes never both succeed: whenever the shipped revoke
      succeeds there is no claim to revoke, and whenever the intended one
      succeeds the shipped one rejects the call. */
  lemma RevokeAsWrittenNeverRevokes(s: Proofs, sender: AccountId, f: Claim)
    ensures !(RevokeClaim(s, sender, f).result.Ok? && RevokeClaimIntended(s, sender, f).result.Ok?)
    ensures RevokeClaimIntended(s, sender, f).result.Ok? ==> RevokeClaim(s, sender, f).result == Err(ClaimNotExist)
    ensures RevokeClaim(s, sender, f).result.Ok? ==> RevokeClaimIntended(s, sender, f).result == Err(ClaimNotExist)
  {
  }

  /** On an absent claim the shipped revoke compares the sender with the
      owner the value-query read yields, the default account, and a success
      leaves the store as it was. */
  lemma RevokeAsWrittenReadsDefault(s: Proofs, sender: AccountId, f: Claim)
    requires f !in s
    ensures RevokeClaim(s, sender, f).result.Ok? <==> sender == Get(s, f).owner
    ensures RevokeClaim(s, sender, f).result.Ok? ==> RevokeClaim(s, sender, f).store == s
  {
  }

  /** A concrete witness of the negated check: `create_claim(A, "abc")` at
      block 10 followed by `revoke_claim(A, "abc")`. */
  lemma RevokeOfPresentClaimFails()
    ensures var abc: Claim := [0x61, 0x62, 0x63];
            var c := CreateClaim(map[], 1, 10, abc);
            && c.store == map[abc := Entry(1, 10)]
            && RevokeClaim(c.store, 1, abc).result == Err(ClaimNotExist)
            && RevokeClaimIntended(c.store, 1, abc).result == Ok
  {
  }

  /** `move_claim` does not check its target: an owner can hand a claim to
      the default account, which then owns it: the default account
      passes the owner check and the previous owner no longer does. */
  lemma MoveToDefaultAccount(s: Proofs, a: AccountId, now: BlockNumber, f: Claim)
    requires f in s && s[f].owner == a
    ensures var o := MoveClaim(s, a, now, f, DefaultAccount);
            && o.result.Ok?
            && o.store[f].owner == DefaultAccount
            && MoveClaim(o.store, DefaultAccount, now, f, a).result.Ok?
            && (a != DefaultAccount ==> MoveClaim(o.store, a, now, f, a).result == Err(NotClaimOwner))
  {
  }
}
