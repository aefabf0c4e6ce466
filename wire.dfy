/**
 * The btcd `wire` and `chainhash` values the bridge passes around.
 *
 * Hashing a header (double SHA-256 of its serialisation) is not modelled in
 * this module: the bridge receives it as a function, see
 * ChainBridge.LndRpcChainBridge.blockHash.
 */
module Wire {

  newtype uint16 = x: int | 0 <= x < 0x1_0000
  newtype uint32 = x: int | 0 <= x < 0x1_0000_0000

  const HashSize := 32

  /** chainhash.Hash: 32 bytes. */
  type Hash = s: seq<bv8> | |s| == HashSize witness seq(HashSize, _ => 0 as bv8)

  /**
   * wire.BlockHeader. The timestamp is the Unix time in seconds that the
   * header carries on the wire (a 32-bit field in the serialisation).
   */
  datatype BlockHeader = BlockHeader(
    version: int,
    prevBlock: Hash,
    merkleRoot: Hash,
    timestamp: uint32,
    bits: uint32,
    nonce: uint32)

  /** wire.MsgBlock; the transactions are kept as their serialised bytes. */
  datatype Block = Block(header: BlockHeader, transactions: seq<seq<bv8>>)
}
