/**
 Three concrete histories of the registry. Account 1 plays A and account 2
 plays B; the claims are the ASCII bytes of "abc", "xyz" and "dup".
 */
module Scenarios {
  import opened Storage
  import opened Poe
  import opened Trace

  const A: AccountId := 1
  const B: AccountId := 2

  /** Create at block 10, a revoke by a stranger, a revoke by the owner:
      with the corrected revoke the stranger is refused and the owner's
      revoke empties the store. */
  lemma CreateAndRevokeCorrected()
    ensures var abc: Claim := [0x61, 0x62, 0x63];
            var r := Run(Corrected, map[], [Tx(A, 10, Create(abc)), Tx(B, 11, Revoke(abc)), Tx(A, 12, Revoke(abc))]);
            && r.results == [Ok, Err(NotClaimOwner), Ok]
            && r.store == map[]
            && r.events == [ClaimCreated(A, abc), ClaimRevoked(A, abc)]
  {
    var abc: Claim := [0x61, 0x62, 0x63];
    var t0, t1, t2 := Tx(A, 10, Create(abc)), Tx(B, 11, Revoke(abc)), Tx(A, 12, Revoke(abc));
    assert [t0, t1, t2][1..] == [t1, t2] && [t1, t2][1..] == [t2] && [t2][1..] == [];
    var s1 := map[abc := Entry(A, 10)];
    assert Dispatch(Corrected, map[], t0) == Outcome(s1, Ok, [ClaimCreated(A, abc)]);
    assert Dispatch(Corrected, s1, t1) == Outcome(s1, Err(NotClaimOwner), []);
    assert Dispatch(Corrected, s1, t2).store == map[];
    assert Run(Corrected, s1, [t2]) == RunState(map[], [Ok], [ClaimRevoked(A, abc)]);
    assert Run(Corrected, s1, [t1, t2]) == RunState(map[], [Err(NotClaimOwner), Ok], [ClaimRevoked(A, abc)]);
  }

  /** The same history with the shipped revoke: both revokes are rejected as
      `ClaimNotExist`, the stranger's as well as the owner's, and the claim
      stays registered. */
  lemma CreateAndRevokeAsWritten()
    ensures var abc: Claim := [0x61, 0x62, 0x63];
            var r := Run(AsWritten, map[], [Tx(A, 10, Create(abc)), Tx(B, 11, Revoke(abc)), Tx(A, 12, Revoke(abc))]);
            && r.results == [Ok, Err(ClaimNotExist), Err(ClaimNotExist)]
            && r.store == map[abc := Entry(A, 10)]
            && r.events == [ClaimCreated(A, abc)]
  {
    var abc: Claim := [0x61, 0x62, 0x63];
    var t0, t1, t2 := Tx(A, 10, Create(abc)), Tx(B, 11, Revoke(abc)), Tx(A, 12, Revoke(abc));
    assert [t0, t1, t2][1..] == [t1, t2] && [t1, t2][1..] == [t2] && [t2][1..] == [];
    var s1 := map[abc := Entry(A, 10)];
    assert Dispatch(AsWritten, map[], t0) == Outcome(s1, Ok, [ClaimCreated(A, abc)]);
    assert Dispatch(AsWritten, s1, t1) == Outcome(s1, Err(ClaimNotExist), []);
    assert Dispatch(AsWritten, s1, t2) == Outcome(s1, Err(ClaimNotExist), []);
    assert Run(AsWritten, s1, [t2]) == RunState(s1, [Err(ClaimNotExist)], []);
    assert Run(AsWritten, s1, [t1, t2]) == RunState(s1, [Err(ClaimNotExist), Err(ClaimNotExist)], []);
  }

  /** Create at block 5, move to B at block 7, revoke by B: with the
      corrected revoke all three succeed and the store ends empty. The move
      is reported as `ClaimRemoved` naming B. */
  lemma CreateMoveRevokeCorrected()
    ensures var xyz: Claim := [0x78, 0x79, 0x7a];
            var r := Run(Corrected, map[], [Tx(A, 5, Create(xyz)), Tx(A, 7, Move(xyz, B)), Tx(B, 8, Revoke(xyz))]);
            && r.results == [Ok, Ok, Ok]
            && r.store == map[]
            && r.events == [ClaimCreated(A, xyz), ClaimRemoved(B, xyz), ClaimRevoked(B, xyz)]
  {
    var xyz: Claim := [0x78, 0x79, 0x7a];
    var t0, t1, t2 := Tx(A, 5, Create(xyz)), Tx(A, 7, Move(xyz, B)), Tx(B, 8, Revoke(xyz));
    assert [t0, t1, t2][1..] == [t1, t2] && [t1, t2][1..] == [t2] && [t2][1..] == [];
    var s1 := map[xyz := Entry(A, 5)];
    var s2 := map[xyz := Entry(B, 7)];
    assert Dispatch(Corrected, map[], t0) == Outcome(s1, Ok, [ClaimCreated(A, xyz)]);
    assert Dispatch(Corrected, s1, t1) == Outcome(s2, Ok, [ClaimRemoved(B, xyz)]);
    assert Dispatch(Corrected, s2, t2).store == map[];
    assert Run(Corrected, s2, [t2]) == RunState(map[], [Ok], [ClaimRevoked(B, xyz)]);
    assert Run(Corrected, s1, [t1, t2]) == RunState(map[], [Ok, Ok], [ClaimRemoved(B, xyz), ClaimRevoked(B, xyz)]);
  }

  /** The same history with the shipped revoke: the move succeeds, B's revoke
      is rejected as `ClaimNotExist`, and B keeps the claim stamped at block 7. */
  lemma CreateMoveRevokeAsWritten()
    ensures var xyz: Claim := [0x78, 0x79, 0x7a];
            var r := Run(AsWritten, map[], [Tx(A, 5, Create(xyz)), Tx(A, 7, Move(xyz, B)), Tx(B, 8, Revoke(xyz))]);
            && r.results == [Ok, Ok, Err(ClaimNotExist)]
            && r.store == map[xyz := Entry(B, 7)]
            && r.events == [ClaimCreated(A, xyz), ClaimRemoved(B, xyz)]
  {
    var xyz: Claim := [0x78, 0x79, 0x7a];
    var t0, t1, t2 := Tx(A, 5, Create(xyz)), Tx(A, 7, Move(xyz, B)), Tx(B, 8, Revoke(xyz));
    assert [t0, t1, t2][1..] == [t1, t2] && [t1, t2][1..] == [t2] && [t2][1..] == [];
    var s1 := map[xyz := Entry(A, 5)];
    var s2 := map[xyz := Entry(B, 7)];
    assert Dispatch(AsWritten, map[], t0) == Outcome(s1, Ok, [ClaimCreated(A, xyz)]);
    assert Dispatch(AsWritten, s1, t1) == Outcome(s2, Ok, [ClaimRemoved(B, xyz)]);
    assert Dispatch(AsWritten, s2, t2) == Outcome(s2, Err(ClaimNotExist), []);
    assert Run(AsWritten, s2, [t2]) == RunState(s2, [Err(ClaimNotExist)], []);
    assert Run(AsWritten, s1, [t1, t2]) == RunState(s2, [Ok, Err(ClaimNotExist)], [ClaimRemoved(B, xyz)]);
  }

  /** A second create of the same claim is rejected, whoever sends it, and
      the first owner keeps it. */
  lemma DuplicateCreate(b: Build)
    ensures var dup: Claim := [0x64, 0x75, 0x70];
            var txs := [Tx(A, 3, Create(dup)), Tx(B, 3, Create(dup))];
            && Run(b, map[], txs).results == [Ok, Err(ProofAlreadyExist)]
            && Run(b, map[], txs).store == map[dup := Entry(A, 3)]
  {
    var dup: Claim := [0x64, 0x75, 0x70];
    var t0, t1 := Tx(A, 3, Create(dup)), Tx(B, 3, Create(dup));
    var txs := [t0, t1];
    assert txs[1..] == [t1] && [t1][1..] == [];
    var s1 := map[dup := Entry(A, 3)];
    assert Dispatch(b, map[], t0).store == s1;
    assert Dispatch(b, s1, t1) == Outcome(s1, Err(ProofAlreadyExist), []);
    assert Run(b, s1, [t1]) == RunState(s1, [Err(ProofAlreadyExist)], []);
  }

  /** The default account can "revoke" a claim nobody registered: the call
      succeeds, deposits `ClaimRevoked` and changes nothing. */
  lemma DefaultAccountRevokesNothing()
    ensures var unregistered: Claim := [0x00];
            var r := Run(AsWritten, map[], [Tx(DefaultAccount, 1, Revoke(unregistered))]);
            && r.results == [Ok]
            && r.store == map[]
            && r.events == [ClaimRevoked(DefaultAccount, unregistered)]
  {
  }
}
