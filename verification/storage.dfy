/**
 The pallet's one storage item, `Proofs`: a map from an opaque claim (a byte
 string) to the pair (owner, block number) recorded when the claim was created
 or last moved.

 The map is declared without `Option`, so it is a value-query map: reading a
 key that is absent yields the default pair (the default account, block 0)
 rather than an error. `Get` below models exactly that.
 */
module Storage {

  type byte = bv8

  /** A claim is any byte string; the pallet never inspects its contents. */
  type Claim = seq<byte>

  /** The runtime's account type is abstract: the pallet only compares
      accounts for equality and, through the value-query read, uses its
      default value. */
  type AccountId = nat

  /** The value `AccountId::default()` returns. */
  const DefaultAccount: AccountId := 0

  /** Block numbers are the runtime's unsigned block counter; default 0. */
  type BlockNumber = nat

  /** The stored pair: who owns the claim and at which block it was stamped. */
  datatype Entry = Entry(owner: AccountId, block: BlockNumber)

  /** The default pair a value-query read yields for an absent key. */
  const DefaultEntry: Entry := Entry(DefaultAccount, 0)

  type Proofs = map<Claim, Entry>

  /** The store after a write to `k` agrees with the store before on every
      other key: same presence, same value. */
  ghost predicate OnlyTouches(s: Proofs, s': Proofs, k: Claim)
  {
    forall k' :: k' != k ==> (k' in s <==> k' in s') && (k' in s ==> s'[k'] == s[k'])
  }

  /** Value-query read: the stored pair, or the default pair when `k` is absent. */
  function Get(s: Proofs, k: Claim): Entry
  {
    if k in s then s[k] else DefaultEntry
  }

  /** Unconditional write: afterwards `k` holds `e`, nothing else changes. */
  function Insert(s: Proofs, k: Claim, e: Entry): (s': Proofs)
    ensures k in s' && s'[k] == e
    ensures OnlyTouches(s, s', k)
    ensures s'.Keys == s.Keys + {k}
  {
    s[k := e]
  }

  /** Removal, a no-op when `k` is absent: afterwards `k` is gone, nothing else changes. */
  function Remove(s: Proofs, k: Claim): (s': Proofs)
    ensures k !in s'
    ensures OnlyTouches(s, s', k)
    ensures s'.Keys == s.Keys - {k}
    ensures k !in s ==> s' == s
  {
    s - {k}
  }

  /** Read-after-write laws of the value-query map: a read returns what was
      last written to that key, the default pair once the key is removed, and
      a write or removal elsewhere does not change what the read returns. */
  lemma ReadAfterWrite(s: Proofs, k: Claim, e: Entry, k': Claim)
    ensures Get(Insert(s, k, e), k) == e
    ensures Get(Remove(s, k), k) == DefaultEntry
    ensures k' != k ==> Get(Insert(s, k, e), k') == Get(s, k')
    ensures k' != k ==> Get(Remove(s, k), k') == Get(s, k')
  {
  }
}
