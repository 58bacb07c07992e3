/**
 The environment of the coordinator: transactions, blocks and the node's view of the best chain.
 A transaction stands for its own id and a chain for its own tip hash (both hashes are injective).
 */
module Chain {
  import opened Common

  type NoteId = Token

  datatype NoteKey = NoteKey(network: Token, wallet: Token, note: NoteId)

  /** Where a transaction came from: a Sign call of this coordinator, or anybody else. */
  datatype Origin = SignedIn(call: nat) | Foreign(serial: nat)

  /** An expiry of zero means that the transaction never expires. */
  datatype Tx = Tx(origin: Origin, spends: set<NoteKey>, expiry: int)

  type Block = set<Tx>

  /** The block at height h is the h-th entry. */
  type BestChain = seq<Block>

  predicate MinedAt(c: BestChain, h: int, tx: Tx) {
    0 <= h < |c| && tx in c[h]
  }

  ghost predicate Unspent(c: BestChain, k: NoteKey) {
    forall h, tx | MinedAt(c, h, tx) :: k !in tx.spends
  }

  ghost predicate SpentBy(c: BestChain, k: NoteKey, tx: Tx) {
    k in tx.spends && exists h :: MinedAt(c, h, tx)
  }

  /** Consensus: nothing is mined above its expiry, nothing is spent twice, and bytes that were
      never signed are never mined. */
  ghost predicate ValidChain(c: BestChain, signed: set<Tx>) {
    && (forall h, tx | MinedAt(c, h, tx) :: tx.expiry == 0 || h <= tx.expiry)
    && (forall h, tx | MinedAt(c, h, tx) :: tx.origin.SignedIn? ==> tx in signed)
    && (forall h1, tx1, h2, tx2 | MinedAt(c, h1, tx1) && MinedAt(c, h2, tx2) && tx1.spends * tx2.spends != {} ::
          h1 == h2 && tx1 == tx2)
  }

  /** The number of blocks that have `depth` confirmations on a chain. */
  function Settled(c: BestChain, depth: int): int
    requires depth >= 1
  {
    if |c| < depth then 0 else |c| - depth + 1
  }
}
