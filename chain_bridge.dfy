/**
 * LndRpcChainBridge: the chain-access bridge backed by a remote lnd node.
 *
 * The bridge owns two pieces of state: a memoised answer to "does the node
 * support the header-only GetBlockHeader request?" and a bounded cache of
 * block timestamps by height. Everything else it does is branching over the
 * node's answers. Each operation is specified by pure functions over the
 * node's chain view: what it returns and which requests it sends.
 */
module ChainBridge {
  import opened Wrappers
  import opened Wire
  import opened Lnd

  /** The capacity of the timestamp cache. */
  const MaxNumBlocksInCache := 100_000

  /** The first lnd release with ChainKit.GetBlockHeader (v0.17.1). */
  const GetBlockHeaderMinimalVersion := Version(0, 17, 1)

  /** The errors the bridge reports. */
  datatype ChainError =
    | BlockFetchFailed(cause: RpcError)    // "unable to retrieve block: ..."
    | HeaderFetchFailed(cause: RpcError)   // "unable to retrieve block header: ..."
    | HashFetchFailed(cause: RpcError)     // "unable to retrieve block hash: ..."
    | HeightMismatch(height: uint32, hashAtHeight: Hash, expectedHash: Hash)

  /** Whether a node of this version answers GetBlockHeader. */
  predicate HeaderQueriesSupported(v: Version)
  {
    VersionCompatible(v, GetBlockHeaderMinimalVersion)
  }

  lemma HeaderQueriesSupportedFromV0171(v: Version)
    ensures HeaderQueriesSupported(v) <==> VersionNumber(v) >= VersionNumber(Version(0, 17, 1))
    ensures HeaderQueriesSupported(Version(0, 17, 1)) && HeaderQueriesSupported(Version(0, 18, 0))
    ensures !HeaderQueriesSupported(Version(0, 17, 0)) && !HeaderQueriesSupported(Version(0, 16, 9))
  {
    VersionCompatibleIsNumericOrder(v, GetBlockHeaderMinimalVersion);
  }

  // ---------------------------------------------------------------------
  // The thin wrappers: the node's error given the wrapper's context.

  /** GetBlock's result: "unable to retrieve block: %w". */
  function WithBlockContext(reply: Result<Block, RpcError>): (r: Result<Block, ChainError>)
  {
    match reply
    case Success(b) => Success(b)
    case Failure(e) => Failure(BlockFetchFailed(e))
  }

  /** GetBlockHeader's result: "unable to retrieve block header: %w". */
  function WithHeaderContext(reply: Result<BlockHeader, RpcError>): (r: Result<BlockHeader, ChainError>)
  {
    match reply
    case Success(h) => Success(h)
    case Failure(e) => Failure(HeaderFetchFailed(e))
  }

  /** GetBlockHash's result: "unable to retrieve block hash: %w". */
  function WithHashContext(reply: Result<Hash, RpcError>): (r: Result<Hash, ChainError>)
  {
    match reply
    case Success(h) => Success(h)
    case Failure(e) => Failure(HashFetchFailed(e))
  }

  // ---------------------------------------------------------------------
  // Capability memoisation.

  /** One call of GetBlockHeaderSupported: its answer, the new field, and whether the version was compared. */
  datatype MemoStep = MemoStep(supported: bool, flag: Option<bool>, versionChecked: bool)

  function SupportedStep(flag: Option<bool>, v: Version): (step: MemoStep)
  {
    match flag
    case Some(s) => MemoStep(s, flag, false)
    case None =>
      var s := HeaderQueriesSupported(v);
      MemoStep(s, Some(s), true)
  }

  /** n calls in a row: every answer, the final field, and how many version comparisons were made. */
  datatype MemoRun = MemoRun(answers: seq<bool>, flag: Option<bool>, checks: nat)

  function SupportedRun(flag: Option<bool>, v: Version, n: nat): (run: MemoRun)
    decreases n
  {
    if n == 0 then MemoRun([], flag, 0)
    else
      var step := SupportedStep(flag, v);
      var rest := SupportedRun(step.flag, v, n - 1);
      MemoRun([step.supported] + rest.answers, rest.flag, (if step.versionChecked then 1 else 0) + rest.checks)
  }

  /**
   * Across any number of calls, starting from an unset field or one that
   * already holds the right answer: every call answers whether the node is
   * at least v0.17.1, the version is compared at most once (and not at all
   * if the field was set), and once set the field keeps its value.
   */
  lemma {:induction false} RepeatedSupportQueries(flag: Option<bool>, v: Version, n: nat)
    requires flag.Some? ==> flag.value == HeaderQueriesSupported(v)
    ensures |SupportedRun(flag, v, n).answers| == n
    ensures forall i :: 0 <= i < n ==> SupportedRun(flag, v, n).answers[i] == HeaderQueriesSupported(v)
    ensures SupportedRun(flag, v, n).checks == (if flag.None? && n > 0 then 1 else 0)
    ensures n > 0 ==> SupportedRun(flag, v, n).flag == Some(HeaderQueriesSupported(v))
    ensures flag.Some? ==> SupportedRun(flag, v, n).flag == flag
    decreases n
  {
    if n > 0 {
      var step := SupportedStep(flag, v);
      RepeatedSupportQueries(step.flag, v, n - 1);
      var rest := SupportedRun(step.flag, v, n - 1);
      assert SupportedRun(flag, v, n).answers == [step.supported] + rest.answers;
    }
  }

  // ---------------------------------------------------------------------
  // Block verification.

  /**
   * What a successful verification establishes: at a known height the
   * header's hash is the best-chain hash there, and the node can return the
   * header (header-only path) or the whole block (otherwise, and at height 0).
   */
  predicate BlockOnChain(chain: ChainView, expected: Hash, height: uint32, supported: bool)
  {
    && (height != 0 ==> height as int in chain.hashAt && chain.hashAt[height as int] == expected)
    && (if height != 0 && supported then expected in chain.headers else expected in chain.blocks)
  }

  /** The error VerifyBlock returns, for a header whose hash is `expected`. */
  function VerifyOutcome(chain: ChainView, expected: Hash, height: uint32, supported: bool): (r: Outcome<ChainError>)
    ensures r.Pass? <==> BlockOnChain(chain, expected, height, supported)
    ensures r.Fail? && r.error.HeightMismatch? <==>
      height != 0 && height as int in chain.hashAt && chain.hashAt[height as int] != expected
    ensures r.Fail? && r.error.HeightMismatch? ==>
      r.error == HeightMismatch(height, chain.hashAt[height as int], expected)
  {
    if height == 0 then ErrorOf(WithBlockContext(BlockReply(chain, expected)))
    else
      match WithHashContext(HashReply(chain, height as int))
      case Failure(e) => Fail(e)
      case Success(hash) =>
        if hash != expected then Fail(HeightMismatch(height, hash, expected))
        else if supported then ErrorOf(WithHeaderContext(HeaderReply(chain, expected)))
        else ErrorOf(WithBlockContext(BlockReply(chain, expected)))
  }

  /** The requests VerifyBlock sends, in order. */
  function VerifyCalls(chain: ChainView, expected: Hash, height: uint32, supported: bool): (calls: seq<Call>)
  {
    if height == 0 then [GetBlockCall(expected)]
    else if height as int !in chain.hashAt || chain.hashAt[height as int] != expected then
      [GetBlockHashCall(height as int)]
    else [GetBlockHashCall(height as int), if supported then GetBlockHeaderCall(expected) else GetBlockCall(expected)]
  }

  /** Whether VerifyBlock reaches the capability check. */
  predicate VerifyConsultsCapability(chain: ChainView, expected: Hash, height: uint32)
  {
    height != 0 && height as int in chain.hashAt && chain.hashAt[height as int] == expected
  }

  /** Height 0: one GetBlock by the header's hash, whose error is the result. */
  lemma VerifyAtHeightZero(chain: ChainView, expected: Hash, supported: bool)
    ensures VerifyCalls(chain, expected, 0, supported) == [GetBlockCall(expected)]
    ensures VerifyOutcome(chain, expected, 0, supported) ==
      (match BlockReply(chain, expected)
       case Success(_) => Pass
       case Failure(e) => Fail(BlockFetchFailed(e)))
    ensures !VerifyConsultsCapability(chain, expected, 0)
  {
  }

  /**
   * A known height is checked first: the first request is GetBlockHash; if
   * it fails its error is returned and nothing else is sent; if the hash
   * differs the result is a mismatch carrying the height and both hashes.
   */
  lemma VerifyChecksHeightFirst(chain: ChainView, expected: Hash, height: uint32, supported: bool)
    requires height != 0
    ensures VerifyCalls(chain, expected, height, supported)[0] == GetBlockHashCall(height as int)
    ensures HashReply(chain, height as int).Failure? ==>
      && VerifyCalls(chain, expected, height, supported) == [GetBlockHashCall(height as int)]
      && VerifyOutcome(chain, expected, height, supported) ==
         Fail(HashFetchFailed(HashReply(chain, height as int).error))
    ensures HashReply(chain, height as int).Success? && HashReply(chain, height as int).value != expected ==>
      && VerifyCalls(chain, expected, height, supported) == [GetBlockHashCall(height as int)]
      && VerifyOutcome(chain, expected, height, supported) ==
         Fail(HeightMismatch(height, HashReply(chain, height as int).value, expected))
  {
  }

  /**
   * A matching hash is followed by exactly one presence check: GetBlockHeader
   * (and no GetBlock) when supported, GetBlock (and no GetBlockHeader)
   * otherwise; the verification succeeds iff that request succeeds.
   */
  lemma VerifyPresenceCheck(chain: ChainView, expected: Hash, height: uint32, supported: bool)
    requires VerifyConsultsCapability(chain, expected, height)
    ensures supported ==>
      && VerifyCalls(chain, expected, height, supported) == [GetBlockHashCall(height as int), GetBlockHeaderCall(expected)]
      && (forall h :: GetBlockCall(h) !in VerifyCalls(chain, expected, height, supported))
      && (VerifyOutcome(chain, expected, height, supported).Pass? <==> HeaderReply(chain, expected).Success?)
    ensures !supported ==>
      && VerifyCalls(chain, expected, height, supported) == [GetBlockHashCall(height as int), GetBlockCall(expected)]
      && (forall h :: GetBlockHeaderCall(h) !in VerifyCalls(chain, expected, height, supported))
      && (VerifyOutcome(chain, expected, height, supported).Pass? <==> BlockReply(chain, expected).Success?)
  {
  }

  // ---------------------------------------------------------------------
  // Timestamp lookup.

  /** The timestamp the node gives for the block at `height`, on the header-only path or the full-block path. */
  function FetchTimestamp(chain: ChainView, headerPath: bool, height: uint32): (ts: Option<uint32>)
  {
    match HashReply(chain, height as int)
    case Failure(_) => None
    case Success(hash) =>
      if headerPath then
        match HeaderReply(chain, hash)
        case Success(header) => Some(header.timestamp)
        case Failure(_) => None
      else
        match BlockReply(chain, hash)
        case Success(block) => Some(block.header.timestamp)
        case Failure(_) => None
  }

  /** The requests a timestamp lookup that misses the cache sends, in order. */
  function TimestampCalls(chain: ChainView, headerPath: bool, height: uint32): (calls: seq<Call>)
  {
    match HashReply(chain, height as int)
    case Failure(_) => [GetBlockHashCall(height as int)]
    case Success(hash) =>
      [GetBlockHashCall(height as int), if headerPath then GetBlockHeaderCall(hash) else GetBlockCall(hash)]
  }

  /**
   * The value GetBlockTimestamp returns: 0 for height 0 or for any failed
   * request, otherwise the timestamp of the best-chain block at that height.
   */
  function BlockTimestamp(chain: ChainView, headerPath: bool, height: uint32): (ts: uint32)
    ensures ts != 0 ==> height != 0 && height as int in chain.hashAt
    ensures height != 0 && height as int in chain.hashAt && headerPath && chain.hashAt[height as int] in chain.headers ==>
      ts == chain.headers[chain.hashAt[height as int]].timestamp
    ensures height != 0 && height as int in chain.hashAt && !headerPath && chain.hashAt[height as int] in chain.blocks ==>
      ts == chain.blocks[chain.hashAt[height as int]].header.timestamp
  {
    if height == 0 then 0
    else
      match FetchTimestamp(chain, headerPath, height)
      case Some(t) => t
      case None => 0
  }

  /** Any failed request on a miss yields the sentinel 0, whatever the path. */
  lemma TimestampFailureIsZero(chain: ChainView, headerPath: bool, height: uint32)
    requires height as int !in chain.hashAt
      || (headerPath && chain.hashAt[height as int] !in chain.headers)
      || (!headerPath && chain.hashAt[height as int] !in chain.blocks)
    ensures FetchTimestamp(chain, headerPath, height) == None
    ensures BlockTimestamp(chain, headerPath, height) == 0
    ensures TimestampCalls(chain, headerPath, height)[0] == GetBlockHashCall(height as int)
  {
  }

  /**
   * lru.Cache.Put as far as the bridge relies on it: the key now maps to the
   * value, every other entry kept is unchanged, and an entry is dropped only
   * when the cache was full and the key new, at most one of them.
   */
  ghost predicate CachePut(before: map<uint32, uint32>, key: uint32, value: uint32, after: map<uint32, uint32>)
  {
    && key in after && after[key] == value
    && |after| <= MaxNumBlocksInCache
    && (forall k :: k in after && k != key ==> k in before && after[k] == before[k])
    && (before.Keys - after.Keys != {} ==> key !in before && |before| == MaxNumBlocksInCache)
    && |before.Keys - after.Keys| <= 1
  }

  /** Every cached entry is the node's own answer for that height, and the cache is within capacity. */
  ghost predicate CacheSound(cache: map<uint32, uint32>, chain: ChainView, headerPath: bool)
  {
    && |cache| <= MaxNumBlocksInCache
    && forall h :: h in cache ==> h != 0 && FetchTimestamp(chain, headerPath, h) == Some(cache[h])
  }

  /** Putting the node's own answer keeps the cache sound. */
  lemma CachePutKeepsSound(before: map<uint32, uint32>, after: map<uint32, uint32>, chain: ChainView, headerPath: bool, height: uint32)
    requires CacheSound(before, chain, headerPath)
    requires height != 0 && FetchTimestamp(chain, headerPath, height).Some?
    requires CachePut(before, height, FetchTimestamp(chain, headerPath, height).value, after)
    ensures CacheSound(after, chain, headerPath)
  {
  }

  class LndRpcChainBridge {
    const lnd: LndServices
    /** header.BlockHash(): double SHA-256 of the serialised header, not modelled. */
    const blockHash: BlockHeader -> Hash
    var getBlockHeaderSupported: Option<bool>
    var blockTimestampCache: map<uint32, uint32>
    /** How many times the node's version has been compared. */
    ghost var versionChecks: nat

    ghost predicate Valid()
      reads this
    {
      && (getBlockHeaderSupported.Some? ==> getBlockHeaderSupported.value == HeaderQueriesSupported(lnd.version))
      && versionChecks == (if getBlockHeaderSupported.Some? then 1 else 0)
      && CacheSound(blockTimestampCache, lnd.chain, HeaderQueriesSupported(lnd.version))
    }

    /** NewLndRpcChainBridge. */
    constructor (lnd: LndServices, blockHash: BlockHeader -> Hash)
      ensures Valid()
      ensures this.lnd == lnd && this.blockHash == blockHash
      ensures getBlockHeaderSupported == None && blockTimestampCache == map[]
    {
      this.lnd := lnd;
      this.blockHash := blockHash;
      getBlockHeaderSupported := None;
      blockTimestampCache := map[];
      versionChecks := 0;
    }

    method GetBlock(hash: Hash) returns (r: Result<Block, ChainError>)
      modifies lnd
      ensures r == WithBlockContext(BlockReply(lnd.chain, hash))
      ensures lnd.log == old(lnd.log) + [GetBlockCall(hash)]
    {
      var reply := lnd.GetBlock(hash);
      r := WithBlockContext(reply);
    }

    method GetBlockHeader(hash: Hash) returns (r: Result<BlockHeader, ChainError>)
      modifies lnd
      ensures r == WithHeaderContext(HeaderReply(lnd.chain, hash))
      ensures lnd.log == old(lnd.log) + [GetBlockHeaderCall(hash)]
    {
      var reply := lnd.GetBlockHeader(hash);
      r := WithHeaderContext(reply);
    }

    method GetBlockHash(blockHeight: int) returns (r: Result<Hash, ChainError>)
      modifies lnd
      ensures r == WithHashContext(HashReply(lnd.chain, blockHeight))
      ensures lnd.log == old(lnd.log) + [GetBlockHashCall(blockHeight)]
    {
      var reply := lnd.GetBlockHash(blockHeight);
      r := WithHashContext(reply);
    }

    /**
     * Whether the node answers GetBlockHeader. The first call compares the
     * node's version with v0.17.1 and stores the answer; every later call
     * returns the stored answer without comparing again.
     */
    method GetBlockHeaderSupported() returns (supported: bool)
      requires Valid()
      modifies this`getBlockHeaderSupported, this`versionChecks
      ensures Valid()
      ensures supported == SupportedStep(old(getBlockHeaderSupported), lnd.version).supported
      ensures getBlockHeaderSupported == SupportedStep(old(getBlockHeaderSupported), lnd.version).flag
      ensures versionChecks == old(versionChecks) +
        (if SupportedStep(old(getBlockHeaderSupported), lnd.version).versionChecked then 1 else 0)
      ensures supported == HeaderQueriesSupported(lnd.version)
      ensures getBlockHeaderSupported == Some(supported)
      ensures old(getBlockHeaderSupported).Some? ==>
        getBlockHeaderSupported == old(getBlockHeaderSupported) && versionChecks == old(versionChecks)
    {
      if getBlockHeaderSupported.Some? {
        return getBlockHeaderSupported.value;
      }
      var compatible := VersionCompatible(lnd.version, GetBlockHeaderMinimalVersion);
      versionChecks := versionChecks + 1;
      getBlockHeaderSupported := Some(compatible);
      supported := getBlockHeaderSupported.value;
    }

    /**
     * Checks that the block with this header is on the best chain, at
     * `height` when the height is known (non-zero).
     */
    method VerifyBlock(header: BlockHeader, height: uint32) returns (r: Outcome<ChainError>)
      requires Valid()
      modifies this, lnd
      ensures Valid()
      ensures r == VerifyOutcome(lnd.chain, blockHash(header), height, HeaderQueriesSupported(lnd.version))
      ensures lnd.log == old(lnd.log) +
        VerifyCalls(lnd.chain, blockHash(header), height, HeaderQueriesSupported(lnd.version))
      ensures getBlockHeaderSupported ==
        if VerifyConsultsCapability(lnd.chain, blockHash(header), height)
        then Some(HeaderQueriesSupported(lnd.version))
        else old(getBlockHeaderSupported)
      ensures blockTimestampCache == old(blockTimestampCache)
    {
      if height == 0 {
        var block := GetBlock(blockHash(header));
        return ErrorOf(block);
      }

      var hashResult := GetBlockHash(height as int);
      if hashResult.Failure? {
        return Fail(hashResult.error);
      }
      var hash := hashResult.value;

      var expectedHash := blockHash(header);
      if hash != expectedHash {
        return Fail(HeightMismatch(height, hash, expectedHash));
      }

      var supported := GetBlockHeaderSupported();
      if supported {
        var fetched := GetBlockHeader(blockHash(header));
        return ErrorOf(fetched);
      }

      var block := GetBlock(blockHash(header));
      r := ErrorOf(block);
    }

    /** lru.Cache.Get; recency is not modelled, so a lookup changes nothing. */
    method LookupTimestamp(height: uint32) returns (ts: uint32, found: bool)
      ensures found <==> height in blockTimestampCache
      ensures found ==> ts == blockTimestampCache[height]
    {
      found := height in blockTimestampCache;
      ts := if found then blockTimestampCache[height] else 0;
    }

    /** lru.Cache.Put; which entry a full cache drops is left open. */
    method PutTimestamp(height: uint32, ts: uint32)
      requires |blockTimestampCache| <= MaxNumBlocksInCache
      modifies this`blockTimestampCache
      ensures CachePut(old(blockTimestampCache), height, ts, blockTimestampCache)
    {
      var entries := blockTimestampCache;
      if height !in entries && |entries| == MaxNumBlocksInCache {
        var victim :| victim in entries.Keys;
        entries := entries - {victim};
        assert blockTimestampCache.Keys - entries[height := ts].Keys == {victim};
      } else {
        assert blockTimestampCache.Keys - entries[height := ts].Keys == {};
      }
      blockTimestampCache := entries[height := ts];
    }

    /**
     * The timestamp of the block at `height`, or 0 when the height is 0 or
     * any request fails. A hit in the cache sends nothing; a successful miss
     * stores the answer. Because every cached entry is the node's own
     * answer, the result does not depend on what the cache holds.
     */
    method GetBlockTimestamp(height: uint32) returns (ts: uint32)
      requires Valid()
      modifies this, lnd
      ensures Valid()
      ensures ts == BlockTimestamp(lnd.chain, HeaderQueriesSupported(lnd.version), height)
      ensures height == 0 || height in old(blockTimestampCache) ==>
        && lnd.log == old(lnd.log)
        && blockTimestampCache == old(blockTimestampCache)
        && getBlockHeaderSupported == old(getBlockHeaderSupported)
      ensures height in old(blockTimestampCache) ==> ts == old(blockTimestampCache)[height]
      ensures height != 0 && height !in old(blockTimestampCache) ==>
        && lnd.log == old(lnd.log) + TimestampCalls(lnd.chain, HeaderQueriesSupported(lnd.version), height)
        && getBlockHeaderSupported ==
           (if height as int in lnd.chain.hashAt then Some(HeaderQueriesSupported(lnd.version))
            else old(getBlockHeaderSupported))
        && (match FetchTimestamp(lnd.chain, HeaderQueriesSupported(lnd.version), height)
            case None => blockTimestampCache == old(blockTimestampCache)
            case Some(t) => CachePut(old(blockTimestampCache), height, t, blockTimestampCache))
      ensures height != 0 && FetchTimestamp(lnd.chain, HeaderQueriesSupported(lnd.version), height).Some? ==>
        height in blockTimestampCache && blockTimestampCache[height] == ts
    {
      if height == 0 {
        return 0;
      }

      var cached, found := LookupTimestamp(height);
      if found {
        return cached;
      }

      var hashResult := lnd.GetBlockHash(height as int);
      if hashResult.Failure? {
        return 0;
      }
      var hash := hashResult.value;

      var header: BlockHeader;
      var supported := GetBlockHeaderSupported();
      if supported {
        var fetched := GetBlockHeader(hash);
        if fetched.Failure? {
          return 0;
        }
        header := fetched.value;
      } else {
        var block := lnd.GetBlock(hash);
        if block.Failure? {
          return 0;
        }
        header := block.value.header;
      }

      ts := header.timestamp;
      ghost var before := blockTimestampCache;
      PutTimestamp(height, ts);
      CachePutKeepsSound(before, blockTimestampCache, lnd.chain, supported, height);
    }
  }

  /**
   * Two lookups of the same height in a row agree, and when the block's
   * timestamp can be fetched the second one is answered from the cache:
   * only the first (on a miss) sends requests. When it cannot be fetched,
   * nothing is cached, both lookups yield 0 and each sends its requests.
   */
  method RepeatedTimestampLookup(bridge: LndRpcChainBridge, height: uint32) returns (first: uint32, second: uint32)
    requires bridge.Valid()
    modifies bridge, bridge.lnd
    ensures bridge.Valid()
    ensures first == second
    ensures height != 0 && FetchTimestamp(bridge.lnd.chain, HeaderQueriesSupported(bridge.lnd.version), height).Some? ==>
      && height in bridge.blockTimestampCache && bridge.blockTimestampCache[height] == second
      && bridge.lnd.log == old(bridge.lnd.log) +
         (if height in old(bridge.blockTimestampCache) then []
          else TimestampCalls(bridge.lnd.chain, HeaderQueriesSupported(bridge.lnd.version), height))
    ensures height != 0 && FetchTimestamp(bridge.lnd.chain, HeaderQueriesSupported(bridge.lnd.version), height).None? ==>
      && first == 0 && second == 0
      && bridge.blockTimestampCache == old(bridge.blockTimestampCache)
      && bridge.lnd.log == old(bridge.lnd.log) +
         TimestampCalls(bridge.lnd.chain, HeaderQueriesSupported(bridge.lnd.version), height) +
         TimestampCalls(bridge.lnd.chain, HeaderQueriesSupported(bridge.lnd.version), height)
  {
    first := bridge.GetBlockTimestamp(height);
    second := bridge.GetBlockTimestamp(height);
  }
}
