/**
 Sequences of transactions applied one at a time, in block order, as the
 runtime applies them. A `Build` selects the revoke the pallet ships or the
 corrected one; everything else is shared.
 */
module Trace {
  import opened Storage
  import opened Poe

  datatype Call =
    | Create(claim: Claim)
    | Revoke(claim: Claim)
    | Move(claim: Claim, account: AccountId)

  /** One signed extrinsic: its verified signer, the block it is included in, the call. */
  datatype Tx = Tx(sender: AccountId, now: BlockNumber, call: Call)

  datatype Build = AsWritten | Corrected

  function Dispatch(b: Build, s: Proofs, tx: Tx): (o: Outcome)
    ensures Atomic(s, tx.call.claim, o)
  {
    match tx.call
    case Create(f) => CreateClaim(s, tx.sender, tx.now, f)
    case Revoke(f) =>
      if b == AsWritten then RevokeClaim(s, tx.sender, f) else RevokeClaimIntended(s, tx.sender, f)
    case Move(f, a) => MoveClaim(s, tx.sender, tx.now, f, a)
  }

  /** The state after a run, the result of each transaction in order and
      every event deposited, in order. */
  datatype RunState = RunState(store: Proofs, results: seq<DispatchResult>, events: seq<Event>)

  function Run(b: Build, s: Proofs, txs: seq<Tx>): (r: RunState)
    ensures |r.results| == |txs|
    ensures |r.events| <= |txs|
    decreases |txs|
  {
    if txs == [] then RunState(s, [], [])
    else
      var o := Dispatch(b, s, txs[0]);
      var rest := Run(b, o.store, txs[1..]);
      RunState(rest.store, [o.result] + rest.results, o.events + rest.events)
  }

  /** Number of successful results. */
  function Successes(rs: seq<DispatchResult>): nat
  {
    if rs == [] then 0 else (if rs[0].Ok? then 1 else 0) + Successes(rs[1..])
  }

  /** Exactly one event per successful transaction, none per failed one. */
  lemma {:induction false} RunEventsCountSuccesses(b: Build, s: Proofs, txs: seq<Tx>)
    ensures |Run(b, s, txs).events| == Successes(Run(b, s, txs).results)
    decreases |txs|
  {
    if txs != [] {
      var o := Dispatch(b, s, txs[0]);
      RunEventsCountSuccesses(b, o.store, txs[1..]);
      var r := Run(b, s, txs);
      assert r.results[1..] == Run(b, o.store, txs[1..]).results;
    }
  }

  // ---------------------------------------------------------------------------
  // The event log as an observer's view of ownership

  /** Who owns each registered claim. */
  function Owners(s: Proofs): map<Claim, AccountId>
  {
    map k | k in s :: s[k].owner
  }

  /** How an indexer that only sees events updates its ownership table. */
  function ApplyEvent(m: map<Claim, AccountId>, ev: Event): map<Claim, AccountId>
  {
    match ev
    case ClaimCreated(a, k) => m[k := a]
    case ClaimRevoked(_, k) => m - {k}
    case ClaimRemoved(a, k) => m[k := a]
  }

  function Replay(m: map<Claim, AccountId>, evs: seq<Event>): map<Claim, AccountId>
    decreases |evs|
  {
    if evs == [] then m else Replay(ApplyEvent(m, evs[0]), evs[1..])
  }

  lemma {:induction false} ReplayAppend(m: map<Claim, AccountId>, e1: seq<Event>, e2: seq<Event>)
    ensures Replay(m, e1 + e2) == Replay(Replay(m, e1), e2)
    decreases |e1|
  {
    if e1 == [] {
      assert e1 + e2 == e2;
    } else {
      assert (e1 + e2)[0] == e1[0];
      assert (e1 + e2)[1..] == e1[1..] + e2;
      ReplayAppend(ApplyEvent(m, e1[0]), e1[1..], e2);
    }
  }

  /** One transaction: replaying its events on the old ownership table gives
      the new ownership table. */
  lemma DispatchReplays(b: Build, s: Proofs, tx: Tx)
    ensures Owners(Dispatch(b, s, tx).store) == Replay(Owners(s), Dispatch(b, s, tx).events)
  {
  }

  /** The events a run deposits are enough to rebuild who owns what: replaying
      them on the initial ownership table yields the final one. This holds for
      the shipped revoke too, because its only successes concern absent claims. */
  lemma {:induction false} RunReplays(b: Build, s: Proofs, txs: seq<Tx>)
    ensures Owners(Run(b, s, txs).store) == Replay(Owners(s), Run(b, s, txs).events)
    decreases |txs|
  {
    if txs != [] {
      var o := Dispatch(b, s, txs[0]);
      var rest := Run(b, o.store, txs[1..]);
      DispatchReplays(b, s, txs[0]);
      RunReplays(b, o.store, txs[1..]);
      ReplayAppend(Owners(s), o.events, rest.events);
    }
  }

  // ---------------------------------------------------------------------------
  // Block stamps

  /** Every stored stamp is at or before block `t`. */
  ghost predicate StampsAtMost(s: Proofs, t: BlockNumber)
  {
    forall k :: k in s ==> s[k].block <= t
  }

  /** Transactions arrive in block order, none before block `t`. */
  ghost predicate InBlockOrder(t: BlockNumber, txs: seq<Tx>)
  {
    && (forall i :: 0 <= i < |txs| ==> t <= txs[i].now)
    && (forall i, j :: 0 <= i < j < |txs| ==> txs[i].now <= txs[j].now)
  }

  function LastBlock(t: BlockNumber, txs: seq<Tx>): BlockNumber
  {
    if txs == [] then t else txs[|txs| - 1].now
  }

  /** A run in block order never leaves an entry stamped later than its last block. */
  lemma {:induction false} RunStampsBounded(b: Build, s: Proofs, t: BlockNumber, txs: seq<Tx>)
    requires StampsAtMost(s, t)
    requires InBlockOrder(t, txs)
    ensures StampsAtMost(Run(b, s, txs).store, LastBlock(t, txs))
    decreases |txs|
  {
    if txs != [] {
      var o := Dispatch(b, s, txs[0]);
      assert StampsAtMost(o.store, txs[0].now) by {
        forall k | k in o.store
          ensures o.store[k].block <= txs[0].now
        {
          if k != txs[0].call.claim {
            assert k in s && o.store[k] == s[k];
          }
        }
      }
      assert InBlockOrder(txs[0].now, txs[1..]) by {
        forall i | 0 <= i < |txs[1..]|
          ensures txs[0].now <= txs[1..][i].now
        {
          assert txs[1..][i] == txs[i + 1];
        }
        forall i, j | 0 <= i < j < |txs[1..]|
          ensures txs[1..][i].now <= txs[1..][j].now
        {
          assert txs[1..][i] == txs[i + 1] && txs[1..][j] == txs[j + 1];
        }
      }
      RunStampsBounded(b, o.store, txs[0].now, txs[1..]);
    }
  }

  /** A transaction in a block no earlier than every stored stamp never moves
      a surviving entry's stamp backwards. */
  lemma DispatchNeverRewindsStamps(b: Build, s: Proofs, tx: Tx)
    requires StampsAtMost(s, tx.now)
    ensures var o := Dispatch(b, s, tx);
            forall k :: k in s && k in o.store ==> s[k].block <= o.store[k].block
  {
  }

  // ---------------------------------------------------------------------------
  // The shipped revoke never deletes

  /** With the shipped revoke, no run ever removes a claim: the set of
      registered claims only grows. */
  lemma {:induction false} AsWrittenRunNeverShrinks(s: Proofs, txs: seq<Tx>)
    ensures s.Keys <= Run(AsWritten, s, txs).store.Keys
    decreases |txs|
  {
    if txs != [] {
      var o := Dispatch(AsWritten, s, txs[0]);
      assert s.Keys <= o.store.Keys;
      AsWrittenRunNeverShrinks(o.store, txs[1..]);
    }
  }

  /** With the corrected revoke, a claim revoked by its owner is gone
      afterwards, and every other claim is as it was. */
  lemma CorrectedRevokeRemoves(s: Proofs, sender: AccountId, now: BlockNumber, f: Claim)
    requires f in s && s[f].owner == sender
    ensures var r := Run(Corrected, s, [Tx(sender, now, Revoke(f))]);
            && r.results == [Ok]
            && r.store == s - {f}
            && r.events == [ClaimRevoked(sender, f)]
  {
  }
}
