/** packages/verus/src/reconciliation.ts: `inspectTransactionConfirmation` against a node whose chain may be reorganized
    between any two of its three calls. */
module Confirmation {
  import opened Wrappers

  type Hash = string
  type TransactionId = string

  datatype Block = Block(hash: Hash, height: nat, transactions: set<TransactionId>)

  /** A node at one instant: every block it has seen, and the active chain by height. */
  datatype Node = Node(blocks: map<Hash, Block>, chain: seq<Hash>)

  /** Blocks are found by their hash and lie at their height, and no transaction is in two active blocks. */
  predicate Valid(n: Node) {
    && (forall hash | hash in n.blocks :: n.blocks[hash].hash == hash)
    && (forall h | 0 <= h < |n.chain| :: n.chain[h] in n.blocks && n.blocks[n.chain[h]].height == h)
    && (forall i, j | 0 <= i < j < |n.chain| ::
          n.blocks[n.chain[i]].transactions !! n.blocks[n.chain[j]].transactions)
  }

  /** The transaction is in the active block at height `h`. */
  predicate Includes(n: Node, tx: TransactionId, h: nat) {
    h < |n.chain| && n.chain[h] in n.blocks && tx in n.blocks[n.chain[h]].transactions
  }

  /** Confirmations of the active block at height `h`. */
  function Depth(n: Node, h: nat): int {
    |n.chain| - h
  }

  datatype RawTransaction = RawTransaction(confirmations: int, blockHash: Option<Hash>)
  datatype RawBlock = RawBlock(block: Block, confirmations: int)

  /** getrawtransaction: an included transaction has its block and depth, any other has no confirmation. */
  predicate AnswersTransaction(n: Node, tx: TransactionId, raw: RawTransaction) {
    if raw.confirmations > 0 then
      exists h | 0 <= h < |n.chain| ::
        Includes(n, tx, h) && raw == RawTransaction(Depth(n, h), Some(n.chain[h]))
    else
      forall h | 0 <= h < |n.chain| :: !Includes(n, tx, h)
  }

  /** getblock: a known block, with its depth if it is on the active chain and a negative count otherwise. */
  predicate AnswersBlock(n: Node, hash: Hash, raw: RawBlock) {
    && hash in n.blocks && raw.block == n.blocks[hash]
    && (if raw.block.height < |n.chain| && n.chain[raw.block.height] == hash
        then raw.confirmations == Depth(n, raw.block.height) else raw.confirmations < 0)
  }

  /** getblockhash. */
  predicate AnswersHash(n: Node, height: nat, hash: Hash) {
    height < |n.chain| && n.chain[height] == hash
  }

  datatype Result = Confirming | ReorgPending | Confirmed(height: nat, hash: Hash)

  /** The decision on the three answers; the last two are not asked for while the first is conclusive. */
  function Inspect(tx: TransactionId, minimum: int, raw: RawTransaction, block: RawBlock, canonical: Hash): Result {
    if raw.confirmations < 0 then ReorgPending
    else if raw.confirmations < minimum || raw.blockHash.None? then Confirming
    else if || block.block.hash != raw.blockHash.value || canonical != raw.blockHash.value
            || block.confirmations < minimum || tx !in block.block.transactions
    then ReorgPending
    else Confirmed(block.block.height, block.block.hash)
  }

  /** Even if the chain changes between the calls, a confirmed transaction is in the reported block, which had the required
      depth when it was read and is on the active chain at its height when the last call returns. */
  lemma ConfirmedIsCanonical(first: Node, second: Node, third: Node, tx: TransactionId, minimum: int,
                             raw: RawTransaction, block: RawBlock, canonical: Hash)
    requires minimum >= 1 && Valid(first) && Valid(second) && Valid(third)
    requires AnswersTransaction(first, tx, raw)
    requires raw.blockHash.Some? ==>
               AnswersBlock(second, raw.blockHash.value, block) && AnswersHash(third, block.block.height, canonical)
    requires Inspect(tx, minimum, raw, block, canonical).Confirmed?
    ensures var r := Inspect(tx, minimum, raw, block, canonical);
            && Includes(second, tx, r.height) && second.chain[r.height] == r.hash && Depth(second, r.height) >= minimum
            && AnswersHash(third, r.height, r.hash)
            && exists h: nat :: Includes(first, tx, h) && first.chain[h] == r.hash
  {
    var h :| 0 <= h < |first.chain| && Includes(first, tx, h) && raw == RawTransaction(Depth(first, h), Some(first.chain[h]));
  }

  /** On a chain that stays as it is, the result is exact: confirmed with the block that includes the transaction at
      sufficient depth, and a reorganization only if the node itself reports a negative count. */
  lemma StableChainExactly(n: Node, tx: TransactionId, minimum: int, raw: RawTransaction, block: RawBlock, canonical: Hash)
    requires minimum >= 1 && Valid(n) && AnswersTransaction(n, tx, raw)
    requires raw.blockHash.Some? ==> AnswersBlock(n, raw.blockHash.value, block)
    requires raw.blockHash.Some? && block.block.height < |n.chain| ==> AnswersHash(n, block.block.height, canonical)
    ensures var r := Inspect(tx, minimum, raw, block, canonical);
            && (r.Confirmed? <==> exists h | 0 <= h < |n.chain| :: Includes(n, tx, h) && Depth(n, h) >= minimum)
            && (r.Confirmed? ==> Includes(n, tx, r.height) && n.chain[r.height] == r.hash)
            && (r.ReorgPending? <==> raw.confirmations < 0)
  {
    if raw.confirmations > 0 {
      var h :| 0 <= h < |n.chain| && Includes(n, tx, h) && raw == RawTransaction(Depth(n, h), Some(n.chain[h]));
      assert block.block.height == h && canonical == n.chain[h];
    }
  }
}
