/** Requests, sampling parameters and the engine configuration. */
module Requests {
  import opened Wrappers

  // Internal request identifiers; the program only ever compares them.
  datatype ReqId = ReqId(name: string)

  // Token identifiers; -1 marks a cache entry that holds no token yet.
  type Token = int

  datatype SamplingParams = SamplingParams(
    maxTokens: Option<nat>,
    eosTokenId: Option<Token>,
    ignoreEos: bool,
    stopTokenIds: seq<Token>)

  // One request object. `computed` is the only field the scheduler updates.
  datatype Request = Request(
    prompt: seq<Token>,
    params: SamplingParams,
    priority: int,
    arrival: real,
    computed: nat)
  {
    predicate IsDecode() {
      computed >= |prompt|
    }

    // Prompt tokens not fed to the model yet.
    function Remaining(): nat {
      if IsDecode() then 0 else |prompt| - computed
    }
  }

  // The request objects. Lists and dictionaries of requests hold identifiers into this table,
  // the way the program's lists hold references to shared objects.
  type Store = map<ReqId, Request>

  const NO_REQUEST := Request([], SamplingParams(None, None, false, []), 0, 0.0, 0)

  function Req(store: Store, id: ReqId): Request {
    if id in store then store[id] else NO_REQUEST
  }

  datatype Policy = Fcfs | Priority

  datatype Config = Config(
    maxModelLen: Option<int>,
    chunkThreshold: int,
    maxBatchedTokens: int,
    maxNumSeqs: nat,
    maxPartialPrefills: int,
    maxLongPartialPrefills: int,
    policy: Policy)

  ghost predicate ValidConfig(cfg: Config) {
    1 <= cfg.chunkThreshold && 1 <= cfg.maxNumSeqs <= cfg.maxBatchedTokens
  }
}
