# Chain bridge model (taproot-assets `LndRpcChainBridge`)

A Dafny model of the decision and bookkeeping logic of the chain-access
bridge that taproot-assets runs on top of a remote lnd node, and of the
envelope construction of its custom-message transport.

The lnd node is an abstract, possibly failing backend (`Lnd.LndServices`):

- a fixed view of the best chain (`ChainView`): the block hash at each height
  it answers for, and the blocks and headers it can return by hash; a request
  for anything else fails;
- the set of custom-message envelopes it accepts (any other envelope is rejected, for reasons left open);
- the version it reported when the connection was made;
- a log of every request sent to it, in order.

The bridge (`ChainBridge.LndRpcChainBridge`) owns two pieces of state, both
modelled as fields its methods update:

- `getBlockHeaderSupported: Option<bool>` — the memoised answer to "does the
  node answer the header-only `GetBlockHeader` request?" (lnd v0.17.1 and
  later). A ghost counter records how often the version was compared; the
  class invariant says it is 1 once the field is set and 0 before.
- `blockTimestampCache: map<uint32, uint32>` — the timestamp cache, bounded
  by `MaxNumBlocksInCache` = 100,000 entries. A put of a new height into a
  full cache drops one entry, which one is left open; a put of a height
  already cached replaces its value and drops nothing.

Every operation is specified by pure functions over the node's chain view:
the value or error it returns (`VerifyOutcome`, `BlockTimestamp`,
`SendOutcome`) and the exact sequence of requests it sends (`VerifyCalls`,
`TimestampCalls`, `SendCalls`). The methods are proved against these
functions. Lemmas then state the properties the code is written to have.

Main results:

- Memoisation: over any number of `GetBlockHeaderSupported` calls the version
  is compared at most once. Every answer is whether the node is at least
  v0.17.1, and once set the field never changes (`RepeatedSupportQueries`,
  proved by induction).
- Verification: `VerifyBlock` passes iff the header is on the chain in the
  sense of `BlockOnChain`. At a known height the header's hash must be the
  best-chain hash there. The node must return the header (on the header-only
  path) or the whole block (otherwise, and at height 0). A hash mismatch is a
  distinct error carrying the height and both hashes. The requests sent are
  given exactly for each of the three paths.
- Timestamps: because the node's chain view is fixed, the class invariant
  can say that every cached entry is the node's own answer for that height.
  Under that fixed chain, `GetBlockTimestamp` returns the same value with or
  without the cache (`BlockTimestamp`), and a cache hit sends no request.
  This holds only for a fixed chain: the bridge never invalidates an entry,
  so after a reorganisation a hit returns the replaced block's timestamp.
  A successful miss stores `(height, ts)`, so the next call for that height
  is a hit. Any failed request yields the sentinel 0.

  Note that 0 is also what a block whose header carries the timestamp 0
  yields. The model keeps this ambiguity as the code has it: the result
  type has no separate "unknown" value.

Modules: `Wrappers` (Option/Result/Outcome), `Wire` (btcd hashes, headers,
blocks), `Lnd` (the node), `ChainBridge`, `MsgTransport`.

## Model

| member | source | states |
|---|---|---|
| `Lnd.LndServices.GetBlock` | chain_bridge.go:103 | the node returns the block iff it knows the hash, otherwise an error; the request is appended to the log |
| `Lnd.LndServices.GetBlockHeader` | chain_bridge.go:115 | the node returns the header iff it knows the hash; the request is logged |
| `Lnd.LndServices.GetBlockHash` | chain_bridge.go:129 | the node returns the best-chain hash at the height iff it has one; the request is logged |
| `Lnd.LndServices.SendCustomMessage` | chain_bridge.go:324 | the node takes the envelope iff it is one it accepts, and rejects it otherwise; the envelope is logged |
| `Lnd.VersionCompatibleIsNumericOrder` | chain_bridge.go:154-157 | the assumed part-by-part version comparison is the numeric order of (major, minor, patch) |
| `ChainBridge.HeaderQueriesSupportedFromV0171` | chain_bridge.go:147-157 | header queries are supported exactly from lnd v0.17.1 on (v0.17.0 and v0.16.9 are not, v0.17.1 and v0.18.0 are) |
| `ChainBridge.LndRpcChainBridge.constructor` | chain_bridge.go:46-56 | a new bridge has an unset capability field, an empty cache and satisfies the invariant |
| `ChainBridge.LndRpcChainBridge.GetBlock` | chain_bridge.go:100-109 | returns the node's block, or its error wrapped as a block-fetch failure; exactly one GetBlock request |
| `ChainBridge.LndRpcChainBridge.GetBlockHeader` | chain_bridge.go:112-122 | returns the node's header, or its error wrapped as a header-fetch failure; exactly one GetBlockHeader request |
| `ChainBridge.LndRpcChainBridge.GetBlockHash` | chain_bridge.go:126-136 | returns the node's hash at the height, or its error wrapped as a hash-fetch failure; exactly one GetBlockHash request |
| `ChainBridge.LndRpcChainBridge.GetBlockHeaderSupported` | chain_bridge.go:140-161 | answers whether the node is at least v0.17.1 and leaves the field set to that answer; a set field is returned unchanged and the version is not compared again; no request is sent and the cache is untouched |
| `ChainBridge.RepeatedSupportQueries` | chain_bridge.go:143-160 | over any number of calls all answers are the version check's result, the version is compared at most once (never if the field was set), and once set the field keeps its value |
| `ChainBridge.VerifyOutcome` | chain_bridge.go:166-201 | verification passes iff the header is on the chain at that height (`BlockOnChain`); it is a height mismatch iff the height is known and its best-chain hash differs from the header's, and the mismatch carries the height, the hash at that height and the header's hash |
| `ChainBridge.VerifyAtHeightZero` | chain_bridge.go:172-175 | at height 0 the only request is GetBlock by the header's hash, its error is the result, and the capability is not consulted |
| `ChainBridge.VerifyChecksHeightFirst` | chain_bridge.go:177-189 | at a known height the first request is GetBlockHash; if it fails its error is returned and nothing else is sent; if the hash differs the result is the mismatch error and nothing else is sent |
| `ChainBridge.VerifyPresenceCheck` | chain_bridge.go:191-200 | after a matching hash exactly one presence request follows: GetBlockHeader and no GetBlock when supported, GetBlock and no GetBlockHeader otherwise; verification passes iff that request succeeds |
| `ChainBridge.LndRpcChainBridge.VerifyBlock` | chain_bridge.go:166-201 | returns `VerifyOutcome` for the header's hash and sends exactly `VerifyCalls`; the capability field is set to the version check's answer when the presence check is reached, and is otherwise unchanged; the cache is untouched |
| `ChainBridge.BlockTimestamp` | chain_bridge.go:214-253 | a non-zero timestamp comes from a known non-zero height, and when the node can return the header (or the block, on the full-block path) of the best-chain block there, the result is that header's timestamp |
| `ChainBridge.TimestampFailureIsZero` | chain_bridge.go:228-245 | a failed hash, header or block request yields the sentinel 0, after a GetBlockHash request |
| `ChainBridge.CachePutKeepsSound` | chain_bridge.go:249-250 | storing the node's own answer keeps every cached entry equal to the node's answer and the cache within capacity |
| `ChainBridge.LndRpcChainBridge.LookupTimestamp` | chain_bridge.go:223-226 | a cache lookup finds the height iff it is cached, with its cached timestamp |
| `ChainBridge.LndRpcChainBridge.PutTimestamp` | chain_bridge.go:250 | after a put the height maps to the timestamp, other kept entries are unchanged, the cache stays within 100,000 entries, and at most one entry is dropped, only from a full cache when the height is new |
| `ChainBridge.LndRpcChainBridge.GetBlockTimestamp` | chain_bridge.go:214-253 | returns `BlockTimestamp` whatever the cache holds, which holds because the chain view is fixed (a reorg would leave stale entries, see "Left out"); height 0 and cache hits send nothing and change nothing; a miss sends exactly `TimestampCalls`, leaves the cache unchanged on failure and otherwise puts `(height, ts)`, so the next call for that height is a hit returning the same value |
| `ChainBridge.RepeatedTimestampLookup` | chain_bridge.go:223-252 | two lookups of the same height in a row return the same value (under the fixed chain); when the height is non-zero and its timestamp can be fetched, the value is cached afterwards and only the first lookup, on a miss, sends requests; when the height is non-zero and its timestamp cannot be fetched, both lookups return 0, nothing is cached and each lookup sends the same requests |
| `MsgTransport.SendOutcome` | chain_bridge.go:328-341 | sending passes iff encoding succeeds and the node accepts the resulting envelope; an encoding failure is the wrapped encode error, any other failure is the node's rejection of that envelope |
| `MsgTransport.LndMsgTransportClient.constructor` | chain_bridge.go:303-309 | a new transport client uses the given node connection and message encoder |
| `MsgTransport.EnvelopeRoundTrip` | chain_bridge.go:336-340 | the single envelope sent carries the peer's identity, the message's type code and a payload holding only the encoded body, which any decoder that rebuilds a message from its type code and body turns back into the message, given the envelope's type code |
| `MsgTransport.LndMsgTransportClient.SendCustomMessage` | chain_bridge.go:321-325 | hands the envelope to the node unchanged and returns its answer |
| `MsgTransport.LndMsgTransportClient.SendMessage` | chain_bridge.go:328-341 | returns `SendOutcome`; sends nothing when encoding fails and otherwise exactly the one envelope (`SendCalls`) |

## Left out

- Block hashing (`header.BlockHash()`, double SHA-256) is a function the bridge receives at construction; its computation is not modelled.
- The wire encoding of messages (`lnwire.Message.Encode`) is a function the transport client receives; it may fail, and its output is not modelled.
- `route.NewVertex` and public keys: a key is represented by its 33-byte compressed form and the vertex is that form; no elliptic-curve arithmetic. This assumes compressed serialisation is injective, so that distinct keys address distinct peers.
- `lndclient.AssertVersionCompatible` is not part of this model; `Lnd.VersionCompatible` assumes it compares major, minor and patch in turn, the first differing part deciding, equal versions being compatible.
- `Lnd.LndServices`: the node's answers come from a fixed chain view, so a chain that grows or reorganises between calls is not modelled; nor are transport failures that come and go. In particular cached timestamps go stale after a reorg: the bridge never invalidates a cache entry, so a hit can return the timestamp of a block that is no longer at that height, which the model (where the chain cannot change) does not show.
- `Lnd.LndServices.SendCustomMessage`: why lnd rejects a custom message is not modelled; the node has an abstract set of envelopes it accepts.
- `ChainBridge.LndRpcChainBridge.PutTimestamp`: the least-recently-used eviction order lives in the LRU library, which is not part of this model; the contract only says that at most one entry is dropped, and only from a full cache when the height is new.
- `ChainBridge.LndRpcChainBridge.LookupTimestamp`: a cache lookup refreshes recency in the LRU library; recency is not modelled, so a lookup changes nothing here.
- `ChainBridge.LndRpcChainBridge.GetBlockTimestamp` returns `uint32`; the code returns `int64`, which is always the lossless widening of a `uint32`. The conversion `uint32(header.Timestamp.Unix())` is taken as the header's 32-bit timestamp field.
- Confirmation and block-epoch registration (`RegisterConfirmationsNtfn`, `RegisterBlockEpochNtfn`): their substance is cancellation contexts and channels delivering asynchronously, which this sequential model does not cover.
- `PublishTransaction`, `EstimateFee`, `CurrentHeight`, `SubscribeCustomMessages`: one-line delegations to the node with no logic of their own.
- `GenFileChainLookup`, `GenProofChainLookup`: they build a proof-file chain lookup whose code (`proof.NewFile`, `NewProofChainLookup`) is not part of this model.
- Concurrency: the code has no locking around the capability field or the cache beyond what the LRU library does; everything here is sequential.
