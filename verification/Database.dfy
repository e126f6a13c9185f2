/** The tables of a node's database. The managers of the node keep no state of
    their own: each works on the tables it is given. */
module Database {
  import opened Types
  import opened ChainTable

  /** One unspent output. Sender and coinbase flag of the stored record are left out. */
  datatype UnspentOut = UnspentOut(txid: TxId, index: int, owner: KeyHash, value: int, block: Hash)

  /** "Output `out` is used by input `input` of transaction `tx` in block `block`". */
  datatype SpentRec = SpentRec(out: int, tx: TxId, input: int, block: Hash)

  class DB {
    var blocks: Blocks
    var topHash: Hash
    var chain: Chain
    var unspent: map<TxId, seq<UnspentOut>>
    var txBlocks: map<TxId, seq<Hash>>
    var txSpent: map<TxId, seq<SpentRec>>
    var rowRefs: map<RefId, TxId>
    var rows: map<string, map<string, map<string, string>>>

    constructor ()
      ensures blocks == map[] && topHash == NoHash && chain == map[]
      ensures unspent == map[] && txBlocks == map[] && txSpent == map[]
      ensures rowRefs == map[] && rows == map[]
    {
      blocks, topHash, chain := map[], NoHash, map[];
      unspent, txBlocks, txSpent := map[], map[], map[];
      rowRefs, rows := map[], map[];
    }

    /** Puts a block above `prev`; refused unless `prev` is the end of the list. */
    method AddToChain(hash: Hash, prev: Hash) returns (err: Option<Error>)
      modifies this`chain
      ensures err == None <==>
        hash != NoHash && (prev != NoHash ==> prev in old(chain) && old(chain)[prev].next == NoHash)
      ensures err == None ==> chain == Linked(old(chain), hash, prev)
      ensures err != None ==> chain == old(chain)
    {
      if hash == NoHash {
        return Some(EmptyHash);
      }
      if prev != NoHash {
        if prev !in chain {
          return Some(HashNotFound);
        }
        if chain[prev].next != NoHash {
          return Some(HasNextHash);
        }
        chain := chain[prev := chain[prev].(next := hash)];
      }
      chain := chain[hash := Link(prev, NoHash)];
      return None;
    }

    /** Takes a block off the chain; refused unless it is the end of the list. */
    method RemoveFromChain(hash: Hash) returns (err: Option<Error>)
      modifies this`chain
      ensures err == None <==>
        && hash != NoHash && hash in old(chain) && old(chain)[hash].next == NoHash
        && (old(chain)[hash].prev != NoHash ==> old(chain)[hash].prev in old(chain))
      ensures err == None ==> chain == Unlinked(old(chain), hash)
      ensures err != None ==> chain == old(chain)
    {
      if hash == NoHash {
        return Some(EmptyHash);
      }
      if hash !in chain {
        return Some(HashNotFound);
      }
      if chain[hash].next != NoHash {
        return Some(NotLastHash);
      }
      var prev := chain[hash].prev;
      if prev != NoHash {
        if prev !in chain {
          return Some(HashNotFound);
        }
        chain := chain[prev := chain[prev].(next := NoHash)];
      }
      chain := chain - {hash};
      return None;
    }

    /** BlockInChain: an error for the empty hash, else whether there is a record. */
    method BlockInChain(hash: Hash) returns (r: Result<bool>)
      ensures r == if hash == NoHash then Err(EmptyHash) else Ok(hash in chain)
    {
      if hash == NoHash {
        return Err(EmptyHash);
      }
      return Ok(hash in chain);
    }
  }
}
