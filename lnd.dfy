/**
 * The remote lnd node, as the bridge reaches it through lndclient's
 * ChainKit and Client services.
 *
 * The node is an abstract, possibly failing backend: a fixed view of the
 * best chain (which hash sits at which height, which blocks and which
 * headers it will hand out), the custom messages it will take, and the
 * version it reported when the connection was made. Every request the
 * bridge sends is appended to a log, so that a caller can state exactly
 * which requests an operation made and in which order.
 */
module Lnd {
  import opened Wrappers
  import opened Wire

  /** verrpc.Version, reduced to the parts a compatibility check compares. */
  datatype Version = Version(appMajor: uint32, appMinor: uint32, appPatch: uint32)

  /**
   * Whether lndclient.AssertVersionCompatible(actual, required) returns nil.
   * lndclient is not part of this model; this is an assumption about it:
   * the three parts are compared one after the other, the first part that
   * differs decides, and equal versions are compatible.
   */
  predicate VersionCompatible(actual: Version, required: Version)
  {
    if actual.appMajor != required.appMajor then actual.appMajor > required.appMajor
    else if actual.appMinor != required.appMinor then actual.appMinor > required.appMinor
    else if actual.appPatch != required.appPatch then actual.appPatch > required.appPatch
    else true
  }

  /** A version read as one number, the major part most significant. */
  function VersionNumber(v: Version): (n: nat)
  {
    (v.appMajor as int * 0x1_0000_0000 + v.appMinor as int) * 0x1_0000_0000 + v.appPatch as int
  }

  /** The part-by-part comparison is the numeric order of versions. */
  lemma VersionCompatibleIsNumericOrder(actual: Version, required: Version)
    ensures VersionCompatible(actual, required) <==> VersionNumber(actual) >= VersionNumber(required)
  {
  }

  const VertexSize := 33

  /** route.Vertex: a node identity, the 33-byte compressed public key. */
  type Vertex = s: seq<bv8> | |s| == VertexSize witness seq(VertexSize, _ => 0 as bv8)

  /**
   * btcec.PublicKey, represented by its compressed serialisation; the
   * elliptic-curve point itself is not modelled.
   */
  datatype PublicKey = PublicKey(compressed: Vertex)

  /** route.NewVertex: the identity of the node holding the key. */
  function NewVertex(key: PublicKey): (v: Vertex)
  {
    key.compressed
  }

  /** lndclient.CustomMessage: the envelope of a peer-to-peer message. */
  datatype CustomMessage = CustomMessage(peer: Vertex, msgType: uint32, data: seq<bv8>)

  /** The ways a request to the node can fail. */
  datatype RpcError =
    | UnknownBlock(hash: Hash)
    | UnknownHeader(hash: Hash)
    | NoBlockAtHeight(height: int)
    | MessageRejected(message: CustomMessage)

  /** One request sent to the node. */
  datatype Call =
    | GetBlockCall(hash: Hash)
    | GetBlockHeaderCall(hash: Hash)
    | GetBlockHashCall(height: int)
    | SendCustomMessageCall(message: CustomMessage)

  /**
   * What the node knows about the chain: the best-chain hash at each height
   * it can answer for, and the blocks and headers it can return by hash.
   */
  datatype ChainView = ChainView(
    hashAt: map<int, Hash>,
    blocks: map<Hash, Block>,
    headers: map<Hash, BlockHeader>)

  /** The node's answer to ChainKit.GetBlock(hash). */
  function BlockReply(chain: ChainView, hash: Hash): (r: Result<Block, RpcError>)
  {
    if hash in chain.blocks then Success(chain.blocks[hash]) else Failure(UnknownBlock(hash))
  }

  /** The node's answer to ChainKit.GetBlockHeader(hash). */
  function HeaderReply(chain: ChainView, hash: Hash): (r: Result<BlockHeader, RpcError>)
  {
    if hash in chain.headers then Success(chain.headers[hash]) else Failure(UnknownHeader(hash))
  }

  /** The node's answer to ChainKit.GetBlockHash(height). */
  function HashReply(chain: ChainView, height: int): (r: Result<Hash, RpcError>)
  {
    if height in chain.hashAt then Success(chain.hashAt[height]) else Failure(NoBlockAtHeight(height))
  }

  /**
   * The node's answer to Client.SendCustomMessage(msg): it takes the
   * envelopes in `accepted` and rejects every other one. Why lnd rejects an
   * envelope (an unknown peer, a reserved type, a full queue) is left open.
   */
  function SendReply(accepted: set<CustomMessage>, msg: CustomMessage): (r: Outcome<RpcError>)
  {
    if msg in accepted then Pass else Fail(MessageRejected(msg))
  }

  /** lndclient.LndServices: one connection to the node, shared by its users. */
  class LndServices {
    /** The version the node reported when the connection was made. */
    const version: Version
    const chain: ChainView
    const acceptedMessages: set<CustomMessage>
    /** Every request sent over this connection, oldest first. */
    var log: seq<Call>

    constructor (version: Version, chain: ChainView, acceptedMessages: set<CustomMessage>)
      ensures this.version == version && this.chain == chain
      ensures this.acceptedMessages == acceptedMessages
      ensures log == []
    {
      this.version := version;
      this.chain := chain;
      this.acceptedMessages := acceptedMessages;
      log := [];
    }

    method GetBlock(hash: Hash) returns (r: Result<Block, RpcError>)
      modifies this
      ensures r == BlockReply(chain, hash)
      ensures log == old(log) + [GetBlockCall(hash)]
    {
      log := log + [GetBlockCall(hash)];
      r := BlockReply(chain, hash);
    }

    method GetBlockHeader(hash: Hash) returns (r: Result<BlockHeader, RpcError>)
      modifies this
      ensures r == HeaderReply(chain, hash)
      ensures log == old(log) + [GetBlockHeaderCall(hash)]
    {
      log := log + [GetBlockHeaderCall(hash)];
      r := HeaderReply(chain, hash);
    }

    method GetBlockHash(height: int) returns (r: Result<Hash, RpcError>)
      modifies this
      ensures r == HashReply(chain, height)
      ensures log == old(log) + [GetBlockHashCall(height)]
    {
      log := log + [GetBlockHashCall(height)];
      r := HashReply(chain, height);
    }

    method SendCustomMessage(msg: CustomMessage) returns (r: Outcome<RpcError>)
      modifies this
      ensures r == SendReply(acceptedMessages, msg)
      ensures log == old(log) + [SendCustomMessageCall(msg)]
    {
      log := log + [SendCustomMessageCall(msg)];
      r := SendReply(acceptedMessages, msg);
    }
  }
}
