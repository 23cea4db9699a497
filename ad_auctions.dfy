/**
 * server/ad_auctions: the AdAuctions service. It builds a repository of
 * compiled functions from the configuration (resolving every function's
 * source, rejecting a URI configured twice, and recording a function that
 * fails to compile as unavailable), replaces that repository only when a
 * rebuild succeeds, and runs auctions: every allowed interest group bids,
 * every bid is scored, and the bids are ranked by desirability.
 */
module AdAuctions {
  import opened Status
  import opened FunctionInterface
  import opened FunctionRepository
  import opened FunctionSource

  // ---------------------------------------------------------------------
  // Messages

  /** A google.protobuf.Struct, each value held as its JSON text. */
  datatype Struct = Struct(fields: map<string, string>)

  datatype Ad = Ad(renderUrl: string, adMetadata: Struct)

  /** An interest group as the browser sends it to the auction. */
  datatype InterestGroupAuctionState = InterestGroupAuctionState(
    owner: string,
    name: string,
    biddingLogicUrl: string,
    ads: seq<Ad>,
    userBiddingSignals: Struct,
    browserSignals: Struct,
    trustedBiddingSignals: Struct)

  /** The interest group as the bidding function sees it. */
  datatype InterestGroup = InterestGroup(
    name: string, owner: string, biddingLogicUrl: string, ads: seq<Ad>, userBiddingSignals: Struct)

  datatype AuctionConfiguration = AuctionConfiguration(
    decisionLogicUrl: string,
    interestGroupBuyers: seq<string>,
    auctionSignals: Struct,
    perBuyerSignals: map<string, Struct>)

  datatype BiddingFunctionInput = BiddingFunctionInput(
    perBuyerSignals: Option<Struct>,
    auctionSignals: Struct,
    interestGroup: InterestGroup,
    browserSignals: Struct,
    trustedBiddingSignals: Struct)

  datatype BiddingFunctionOutput = BiddingFunctionOutput(ad: Struct, bid: real, renderUrl: string)

  datatype AdScoringFunctionInput = AdScoringFunctionInput(
    auctionConfig: AuctionConfiguration,
    adMetadata: Struct,
    bid: real,
    trustedScoringSignals: Option<Struct>)

  datatype AdScoringFunctionOutput = AdScoringFunctionOutput(desirabilityScore: real)

  datatype ScoredInterestGroupBid = ScoredInterestGroupBid(
    interestGroupOwner: string,
    interestGroupName: string,
    bidPrice: real,
    renderUrl: string,
    desirabilityScore: real)

  datatype RunAdAuctionRequest = RunAdAuctionRequest(
    interestGroups: seq<InterestGroupAuctionState>,
    auctionConfiguration: AuctionConfiguration,
    trustedScoringSignals: map<string, Struct>)

  datatype RunAdAuctionResponse = RunAdAuctionResponse(
    winningBid: Option<ScoredInterestGroupBid>,
    losingBids: seq<ScoredInterestGroupBid>)

  const EmptyResponse: RunAdAuctionResponse := RunAdAuctionResponse(None, [])

  /** Configuration: the two lists of function specifications. */
  datatype Configuration = Configuration(
    biddingFunctionSpecs: seq<FunctionSpecification>,
    adScoringFunctionSpecs: seq<FunctionSpecification>)

  // ---------------------------------------------------------------------
  // Collaborators

  /** FunctionSource::GetFunctionCode of the source the service was created with. */
  type Resolver = FunctionSpecification -> Result<string>

  /** The resolver of the production FunctionSource, over its HTTP client. */
  function ProductionResolver(fetch: Fetcher): (r: Resolver)
    ensures forall spec :: r(spec).Ok? ==> ParseUrl(spec.uri).Some? && ParseUrl(spec.uri).value.scheme.Some?
  {
    spec => GetFunctionCode(spec, fetch)
  }

  /** Create of the bidding and of the ad scoring function type (sandboxed or not). */
  datatype Compilers<B, S> = Compilers(
    bidding: (string, FunctionOptions) -> Result<B>,
    adScoring: (string, FunctionOptions) -> Result<S>)

  /**
   * BatchInvoke of a compiled function on a batch of one input, and the
   * last (the only) output of that batch.
   */
  datatype Invokers<-B, -S> = Invokers(
    generateBid: (B, BiddingFunctionInput) -> Result<BiddingFunctionOutput>,
    scoreAd: (S, AdScoringFunctionInput) -> Result<AdScoringFunctionOutput>)

  /** Every function the server compiles gets one argument per input field. */
  const ServerFunctionOptions: FunctionOptions := FunctionOptions(true)

  // ---------------------------------------------------------------------
  // Source codes

  function DuplicateUriError(uri: string): Status {
    InvalidArgumentError("Function '" + uri + "' defined more than once in the configuration file.")
  }

  predicate DistinctUris(specs: seq<FunctionSpecification>) {
    forall i, j :: 0 <= i < j < |specs| ==> specs[i].uri != specs[j].uri
  }

  function Uris(specs: seq<FunctionSpecification>): (r: set<string>)
    ensures forall u :: u in r <==> exists i :: 0 <= i < |specs| && specs[i].uri == u
  {
    if specs == [] then {}
    else
      assert forall i :: 0 < i < |specs| ==> specs[i] == specs[1..][i - 1];
      {specs[0].uri} + Uris(specs[1..])
  }

  /** A collection failure that a specification accounts for: its own resolver error, or its URI repeated. */
  predicate ExplainsFailure(resolve: Resolver, spec: FunctionSpecification, failure: Status) {
    (resolve(spec).Err? && resolve(spec).status == failure) || failure == DuplicateUriError(spec.uri)
  }

  /**
   * The loop, started from the partial map `codes`, stops with `failure`
   * at specification k: every specification before k resolved, with a
   * URI neither collected before nor repeated, and k's own resolver error
   * is `failure`, or k resolved but its URI was already collected and
   * `failure` is the duplicate error.
   */
  predicate FirstCollectionFailure(resolve: Resolver, codes: map<string, string>, specs: seq<FunctionSpecification>,
                                   k: int, failure: Status) {
    0 <= k < |specs| &&
    (forall i :: 0 <= i < k ==> resolve(specs[i]).Ok? && specs[i].uri !in codes) &&
    (forall i, j :: 0 <= i < j < k ==> specs[i].uri != specs[j].uri) &&
    if resolve(specs[k]).Err? then failure == resolve(specs[k]).status
    else (specs[k].uri in codes || exists i :: 0 <= i < k && specs[i].uri == specs[k].uri) &&
         failure == DuplicateUriError(specs[k].uri)
  }

  /**
   * The loop of GetFunctionSourceCodes from a partial map: each
   * specification is resolved in turn, and the first resolver error or
   * URI already in the map ends it.
   */
  function SourceCodesFrom(resolve: Resolver, codes: map<string, string>, specs: seq<FunctionSpecification>)
    : (r: Result<map<string, string>>)
    // What was collected before is kept: an insert never overwrites.
    ensures r.Ok? ==> forall u :: u in codes ==> u in r.value && r.value[u] == codes[u]
    // Only a specification can fail the loop.
    ensures r.Err? ==> specs != []
    decreases |specs|
  {
    if specs == [] then Ok(codes)
    else
      var code :- resolve(specs[0]);
      if specs[0].uri in codes then Err(DuplicateUriError(specs[0].uri))
      else SourceCodesFrom(resolve, codes[specs[0].uri := code], specs[1..])
  }

  /** GetFunctionSourceCodes: the source of every specification, by URI. */
  function SourceCodes(resolve: Resolver, specs: seq<FunctionSpecification>): (r: Result<map<string, string>>)
    ensures r.Ok? <==> (forall i :: 0 <= i < |specs| ==> resolve(specs[i]).Ok?) && DistinctUris(specs)
    ensures r.Ok? ==> r.value.Keys == Uris(specs) &&
                      forall i :: 0 <= i < |specs| ==> Ok(r.value[specs[i].uri]) == resolve(specs[i])
    ensures r.Err? ==> exists k :: 0 <= k < |specs| && ExplainsFailure(resolve, specs[k], r.status)
    // The failure is that of the first specification that does not resolve or repeats a URI.
    ensures r.Err? ==> exists k :: FirstCollectionFailure(resolve, map[], specs, k, r.status)
  {
    SourceCodesFromOk(resolve, map[], specs);
    if SourceCodesFrom(resolve, map[], specs).Ok? then
      SourceCodesFromContents(resolve, map[], specs);
      SourceCodesFrom(resolve, map[], specs)
    else
      SourceCodesFromFailure(resolve, map[], specs);
      SourceCodesFrom(resolve, map[], specs)
  }

  /**
   * Collecting succeeds exactly when every specification resolves, no
   * URI repeats and none is already collected.
   */
  lemma {:induction false} SourceCodesFromOk(resolve: Resolver, codes: map<string, string>, specs: seq<FunctionSpecification>)
    ensures SourceCodesFrom(resolve, codes, specs).Ok? <==>
              (forall i :: 0 <= i < |specs| ==> resolve(specs[i]).Ok?) &&
              DistinctUris(specs) && (forall i :: 0 <= i < |specs| ==> specs[i].uri !in codes)
    decreases |specs|
  {
    if specs != [] {
      var rest := specs[1..];
      assert forall i :: 0 < i < |specs| ==> specs[i] == rest[i - 1];
      var head := resolve(specs[0]);
      if head.Ok? && specs[0].uri !in codes {
        var codes' := codes[specs[0].uri := head.value];
        SourceCodesFromOk(resolve, codes', rest);
        assert SourceCodesFrom(resolve, codes, specs) == SourceCodesFrom(resolve, codes', rest);
      }
    }
  }

  /**
   * A successful collection keeps what was collected before and maps
   * each specification's URI to its resolved source, and to nothing else.
   */
  lemma {:induction false} SourceCodesFromContents(resolve: Resolver, codes: map<string, string>, specs: seq<FunctionSpecification>)
    requires SourceCodesFrom(resolve, codes, specs).Ok?
    ensures var collected := SourceCodesFrom(resolve, codes, specs).value;
            collected.Keys == codes.Keys + Uris(specs) &&
            (forall u :: u in codes ==> collected[u] == codes[u]) &&
            (forall i :: 0 <= i < |specs| ==> Ok(collected[specs[i].uri]) == resolve(specs[i]))
    decreases |specs|
  {
    if specs != [] {
      var rest := specs[1..];
      assert forall i :: 0 < i < |specs| ==> specs[i] == rest[i - 1];
      var codes' := codes[specs[0].uri := resolve(specs[0]).value];
      assert SourceCodesFrom(resolve, codes, specs) == SourceCodesFrom(resolve, codes', rest);
      SourceCodesFromContents(resolve, codes', rest);
      SourceCodesFromOk(resolve, codes', rest);
    }
  }

  /**
   * A failed collection reports the first specification that does not
   * resolve or whose URI is already collected: its resolver error, or
   * the duplicate error for its URI.
   */
  lemma {:induction false} SourceCodesFromFailure(resolve: Resolver, codes: map<string, string>, specs: seq<FunctionSpecification>)
    requires SourceCodesFrom(resolve, codes, specs).Err?
    ensures exists k :: 0 <= k < |specs| && ExplainsFailure(resolve, specs[k], SourceCodesFrom(resolve, codes, specs).status)
    ensures exists k :: FirstCollectionFailure(resolve, codes, specs, k, SourceCodesFrom(resolve, codes, specs).status)
    decreases |specs|
  {
    var failure := SourceCodesFrom(resolve, codes, specs).status;
    var head := resolve(specs[0]);
    if head.Err? || specs[0].uri in codes {
      assert ExplainsFailure(resolve, specs[0], failure);
      assert FirstCollectionFailure(resolve, codes, specs, 0, failure);
    } else {
      var rest := specs[1..];
      var codes' := codes[specs[0].uri := head.value];
      assert SourceCodesFrom(resolve, codes, specs) == SourceCodesFrom(resolve, codes', rest);
      SourceCodesFromFailure(resolve, codes', rest);
      var k :| FirstCollectionFailure(resolve, codes', rest, k, failure);
      assert specs[k + 1] == rest[k];
      assert ExplainsFailure(resolve, specs[k + 1], failure);
      FailureOneLater(resolve, codes, specs, k, failure);
    }
  }

  /** A first failure of the loop after the first specification is, one place later, the first failure of all. */
  lemma FailureOneLater(resolve: Resolver, codes: map<string, string>, specs: seq<FunctionSpecification>,
                        k: int, failure: Status)
    requires |specs| > 0 && resolve(specs[0]).Ok? && specs[0].uri !in codes
    requires FirstCollectionFailure(resolve, codes[specs[0].uri := resolve(specs[0]).value], specs[1..], k, failure)
    ensures FirstCollectionFailure(resolve, codes, specs, k + 1, failure)
  {
    var rest := specs[1..];
    assert forall i :: 0 < i < |specs| ==> specs[i] == rest[i - 1];
    if resolve(specs[k + 1]).Ok? && specs[k + 1].uri !in codes && specs[k + 1].uri != specs[0].uri {
      var i :| 0 <= i < k && rest[i].uri == rest[k].uri;
      assert specs[i + 1].uri == specs[k + 1].uri;
    }
  }

  /** Conversely, the first specification that does not resolve or repeats a URI decides the loop's failure. */
  lemma {:induction false} SourceCodesFromFailsAt(resolve: Resolver, codes: map<string, string>, specs: seq<FunctionSpecification>,
                                                  k: int, failure: Status)
    requires FirstCollectionFailure(resolve, codes, specs, k, failure)
    ensures SourceCodesFrom(resolve, codes, specs) == Err(failure)
    decreases |specs|
  {
    if k > 0 {
      var rest := specs[1..];
      assert forall i :: 0 < i < |specs| ==> specs[i] == rest[i - 1];
      var codes' := codes[specs[0].uri := resolve(specs[0]).value];
      assert SourceCodesFrom(resolve, codes, specs) == SourceCodesFrom(resolve, codes', rest);
      if resolve(rest[k - 1]).Ok? && rest[k - 1].uri !in codes' {
        var i :| 0 <= i < k && specs[i].uri == specs[k].uri;
        assert i > 0 && rest[i - 1].uri == rest[k - 1].uri;
      }
      SourceCodesFromFailsAt(resolve, codes', rest, k - 1, failure);
    }
  }

  /** GetFunctionSourceCodes fails with the first failure among the specifications. */
  lemma CollectionFailsAt(resolve: Resolver, specs: seq<FunctionSpecification>, k: int, failure: Status)
    requires FirstCollectionFailure(resolve, map[], specs, k, failure)
    ensures SourceCodes(resolve, specs) == Err(failure)
  {
    SourceCodesFromFailsAt(resolve, map[], specs, k, failure);
  }

  /** The loop of GetFunctionSourceCodes. */
  method GetFunctionSourceCodes(resolve: Resolver, specs: seq<FunctionSpecification>)
    returns (r: Result<map<string, string>>)
    ensures r == SourceCodes(resolve, specs)
  {
    var codes: map<string, string> := map[];
    for i := 0 to |specs|
      invariant SourceCodes(resolve, specs) == SourceCodesFrom(resolve, codes, specs[i..])
    {
      assert specs[i..][1..] == specs[i + 1..];
      var code :- resolve(specs[i]);
      if specs[i].uri in codes {
        return Err(DuplicateUriError(specs[i].uri));
      }
      codes := codes[specs[i].uri := code];
    }
    assert specs[|specs|..] == [];
    r := Ok(codes);
  }

  // ---------------------------------------------------------------------
  // The repository

  /** Each URI's compiled function, or the `None` placeholder when its compilation failed. */
  function Placeholders<H>(codes: map<string, string>, compile: (string, FunctionOptions) -> Result<H>)
    : (r: map<string, Option<H>>)
    ensures r.Keys == codes.Keys
    ensures forall u :: u in codes ==> (r[u].Some? <==> compile(codes[u], ServerFunctionOptions).Ok?)
    ensures forall u :: u in codes && r[u].Some? ==> r[u].value == compile(codes[u], ServerFunctionOptions).value
  {
    map u | u in codes :: if compile(codes[u], ServerFunctionOptions).Ok? then Some(compile(codes[u], ServerFunctionOptions).value) else None
  }

  /**
   * CreateFunctionRepository: both kinds' sources must be collected, each
   * kind on its own (a URI may be both a bidding and a scoring function);
   * a compilation failure never fails the build.
   */
  function BuildRepository<B, S>(config: Configuration, resolve: Resolver, compilers: Compilers<B, S>)
    : (r: Result<Repository<B, S>>)
    ensures r.Ok? <==> SourceCodes(resolve, config.biddingFunctionSpecs).Ok? &&
                       SourceCodes(resolve, config.adScoringFunctionSpecs).Ok?
    // The bidding sources are collected first, and a collection error is returned as it is.
    ensures SourceCodes(resolve, config.biddingFunctionSpecs).Err? ==>
              r == Err(SourceCodes(resolve, config.biddingFunctionSpecs).status)
    ensures SourceCodes(resolve, config.biddingFunctionSpecs).Ok? &&
            SourceCodes(resolve, config.adScoringFunctionSpecs).Err? ==>
              r == Err(SourceCodes(resolve, config.adScoringFunctionSpecs).status)
  {
    var bidding :- SourceCodes(resolve, config.biddingFunctionSpecs);
    var scoring :- SourceCodes(resolve, config.adScoringFunctionSpecs);
    Ok(Repository(Placeholders(bidding, compilers.bidding), Placeholders(scoring, compilers.adScoring)))
  }

  /** A specification's source, compiled as the server compiles bidding functions. */
  function CompiledBiddingFunction<B, S>(resolve: Resolver, compilers: Compilers<B, S>, spec: FunctionSpecification): Result<B> {
    var code :- resolve(spec);
    compilers.bidding(code, ServerFunctionOptions)
  }

  /**
   * What a lookup finds after a successful build: NOT_FOUND exactly for
   * a URI no bidding specification names, UNAVAILABLE for one whose
   * source did not compile, and otherwise the compiled function.
   */
  lemma LookupAfterBuild<B, S>(config: Configuration, resolve: Resolver, compilers: Compilers<B, S>, uri: string)
    requires BuildRepository(config, resolve, compilers).Ok?
    ensures var repo := BuildRepository(config, resolve, compilers).value;
            var specs := config.biddingFunctionSpecs;
            var found := GetBiddingFunction(repo, uri);
            found.Err? && found.status.code == NOT_FOUND <==> forall i :: 0 <= i < |specs| ==> specs[i].uri != uri
    ensures var repo := BuildRepository(config, resolve, compilers).value;
            var specs := config.biddingFunctionSpecs;
            forall i :: 0 <= i < |specs| && specs[i].uri == uri ==>
              var compiled := CompiledBiddingFunction(resolve, compilers, specs[i]);
              var found := GetBiddingFunction(repo, uri);
              (compiled.Ok? ==> found == Ok(compiled.value)) &&
              (compiled.Err? ==> found.Err? && found.status.code == UNAVAILABLE)
  {
    SourceCodesFromOk(resolve, map[], config.biddingFunctionSpecs);
    SourceCodesFromContents(resolve, map[], config.biddingFunctionSpecs);
  }

  function CompiledAdScoringFunction<B, S>(resolve: Resolver, compilers: Compilers<B, S>, spec: FunctionSpecification): Result<S> {
    var code :- resolve(spec);
    compilers.adScoring(code, ServerFunctionOptions)
  }

  /** The same three cases for ad scoring lookups after a successful build. */
  lemma ScoringLookupAfterBuild<B, S>(config: Configuration, resolve: Resolver, compilers: Compilers<B, S>, uri: string)
    requires BuildRepository(config, resolve, compilers).Ok?
    ensures var repo := BuildRepository(config, resolve, compilers).value;
            var specs := config.adScoringFunctionSpecs;
            var found := GetAdScoringFunction(repo, uri);
            found.Err? && found.status.code == NOT_FOUND <==> forall i :: 0 <= i < |specs| ==> specs[i].uri != uri
    ensures var repo := BuildRepository(config, resolve, compilers).value;
            var specs := config.adScoringFunctionSpecs;
            forall i :: 0 <= i < |specs| && specs[i].uri == uri ==>
              var compiled := CompiledAdScoringFunction(resolve, compilers, specs[i]);
              var found := GetAdScoringFunction(repo, uri);
              (compiled.Ok? ==> found == Ok(compiled.value)) &&
              (compiled.Err? ==> found.Err? && found.status.code == UNAVAILABLE)
  {
    SourceCodesFromOk(resolve, map[], config.adScoringFunctionSpecs);
    SourceCodesFromContents(resolve, map[], config.adScoringFunctionSpecs);
  }

  /** Every specification of either kind is resolved before anything is compiled; a resolver error fails the build. */
  lemma ResolveErrorFailsBuild<B, S>(config: Configuration, resolve: Resolver, compilers: Compilers<B, S>, k: int)
    requires 0 <= k < |config.adScoringFunctionSpecs| && resolve(config.adScoringFunctionSpecs[k]).Err?
    ensures BuildRepository(config, resolve, compilers).Err?
    // When the bidding sources collect and k is the first scoring specification
    // to fail, the build returns k's resolver error.
    ensures var specs := config.adScoringFunctionSpecs;
            SourceCodes(resolve, config.biddingFunctionSpecs).Ok? &&
            (forall i :: 0 <= i < k ==> resolve(specs[i]).Ok?) &&
            (forall i, j :: 0 <= i < j < k ==> specs[i].uri != specs[j].uri) ==>
              BuildRepository(config, resolve, compilers) == Err(resolve(specs[k]).status)
  {
    var specs := config.adScoringFunctionSpecs;
    SourceCodesFromOk(resolve, map[], specs);
    if (forall i :: 0 <= i < k ==> resolve(specs[i]).Ok?) &&
       (forall i, j :: 0 <= i < j < k ==> specs[i].uri != specs[j].uri) {
      CollectionFailsAt(resolve, specs, k, resolve(specs[k]).status);
    }
  }

  /** One loop of CreateFunctionRepository: compile every source, recording failures as placeholders. */
  method CompileAll<H>(codes: map<string, string>, compile: (string, FunctionOptions) -> Result<H>)
    returns (functions: map<string, Option<H>>)
    ensures functions == Placeholders(codes, compile)
  {
    functions := map[];
    var todo := codes.Keys;
    while todo != {}
      invariant todo <= codes.Keys
      invariant functions.Keys == codes.Keys - todo
      invariant forall u :: u in functions ==> functions[u] == Placeholders(codes, compile)[u]
      decreases |todo|
    {
      var uri :| uri in todo;
      var created := compile(codes[uri], ServerFunctionOptions);
      if created.Ok? {
        functions := functions[uri := Some(created.value)];
      } else {
        functions := functions[uri := None];
      }
      todo := todo - {uri};
    }
  }

  /** CreateFunctionRepository. */
  method CreateFunctionRepository<B, S>(config: Configuration, resolve: Resolver, compilers: Compilers<B, S>)
    returns (r: Result<Repository<B, S>>)
    ensures r == BuildRepository(config, resolve, compilers)
  {
    var bidding :- GetFunctionSourceCodes(resolve, config.biddingFunctionSpecs);
    var scoring :- GetFunctionSourceCodes(resolve, config.adScoringFunctionSpecs);
    var biddingFunctions := CompileAll(bidding, compilers.bidding);
    var scoringFunctions := CompileAll(scoring, compilers.adScoring);
    r := Ok(Repository(biddingFunctions, scoringFunctions));
  }

  // ---------------------------------------------------------------------
  // Function inputs

  /**
   * CreateBiddingFunctionInput: the interest group's own fields, the
   * auction signals, and the per-buyer signals of the group's owner when
   * the auction has some for it.
   */
  function CreateBiddingFunctionInput(group: InterestGroupAuctionState, config: AuctionConfiguration)
    : (input: BiddingFunctionInput)
    ensures input.perBuyerSignals.Some? <==> group.owner in config.perBuyerSignals
    ensures input.perBuyerSignals.Some? ==> input.perBuyerSignals.value == config.perBuyerSignals[group.owner]
    ensures input.auctionSignals == config.auctionSignals
    ensures input.interestGroup.owner == group.owner && input.interestGroup.name == group.name
    ensures input.interestGroup.biddingLogicUrl == group.biddingLogicUrl && input.interestGroup.ads == group.ads
    ensures input.interestGroup.userBiddingSignals == group.userBiddingSignals
    ensures input.browserSignals == group.browserSignals && input.trustedBiddingSignals == group.trustedBiddingSignals
  {
    BiddingFunctionInput(
      if group.owner in config.perBuyerSignals then Some(config.perBuyerSignals[group.owner]) else None,
      config.auctionSignals,
      InterestGroup(group.name, group.owner, group.biddingLogicUrl, group.ads, group.userBiddingSignals),
      group.browserSignals,
      group.trustedBiddingSignals)
  }

  /**
   * CreateAdScoringInputs: the auction configuration, the bid and its ad,
   * and the trusted scoring signals of the bid's render URL when there
   * are some.
   */
  function CreateAdScoringInputs(output: BiddingFunctionOutput, config: AuctionConfiguration,
                                 trustedScoringSignals: map<string, Struct>)
    : (input: AdScoringFunctionInput)
    ensures input.auctionConfig == config
    ensures input.adMetadata == output.ad && input.bid == output.bid
    ensures input.trustedScoringSignals.Some? <==> output.renderUrl in trustedScoringSignals
    ensures input.trustedScoringSignals.Some? ==> input.trustedScoringSignals.value == trustedScoringSignals[output.renderUrl]
  {
    AdScoringFunctionInput(config, output.ad, output.bid,
      if output.renderUrl in trustedScoringSignals then Some(trustedScoringSignals[output.renderUrl]) else None)
  }

  /** GetScoredInterestGroupBid. */
  function GetScoredInterestGroupBid(group: InterestGroupAuctionState, bid: BiddingFunctionOutput,
                                     scored: AdScoringFunctionOutput)
    : (r: ScoredInterestGroupBid)
    ensures r.interestGroupOwner == group.owner && r.interestGroupName == group.name
    ensures r.bidPrice == bid.bid && r.renderUrl == bid.renderUrl
    ensures r.desirabilityScore == scored.desirabilityScore
  {
    ScoredInterestGroupBid(group.owner, group.name, bid.bid, bid.renderUrl, scored.desirabilityScore)
  }

  // ---------------------------------------------------------------------
  // Invocations

  /** RunGenerateBidFunction: the lookup's error, or the bidding function's result. */
  function RunGenerateBidFunction<B, S>(repo: Repository<B, S>, invokers: Invokers<B, S>,
                                        url: string, input: BiddingFunctionInput)
    : (r: Result<BiddingFunctionOutput>)
    ensures GetBiddingFunction(repo, url).Err? ==> r == Err(GetBiddingFunction(repo, url).status)
    ensures GetBiddingFunction(repo, url).Ok? ==> r == invokers.generateBid(GetBiddingFunction(repo, url).value, input)
  {
    var handle :- GetBiddingFunction(repo, url);
    invokers.generateBid(handle, input)
  }

  /** RunScoreAdFunction: the lookup's error, or the scoring function's result. */
  function RunScoreAdFunction<B, S>(repo: Repository<B, S>, invokers: Invokers<B, S>,
                                    url: string, input: AdScoringFunctionInput)
    : (r: Result<AdScoringFunctionOutput>)
    ensures GetAdScoringFunction(repo, url).Err? ==> r == Err(GetAdScoringFunction(repo, url).status)
    ensures GetAdScoringFunction(repo, url).Ok? ==> r == invokers.scoreAd(GetAdScoringFunction(repo, url).value, input)
  {
    var handle :- GetAdScoringFunction(repo, url);
    invokers.scoreAd(handle, input)
  }

  /** A gRPC status carries the code and message of a status, not its payloads. */
  function GrpcStatus(s: Status): (r: Status)
    ensures r.code == s.code && r.message == s.message && r.payloads == []
  {
    Status(s.code, s.message, [])
  }

  // ---------------------------------------------------------------------
  // The auction

  /** What one interest group contributes to an auction. */
  datatype GroupOutcome =
    | Skipped                               // not a buyer, or its bidding call failed
    | Scored(bid: ScoredInterestGroupBid)
    | Aborted(status: Status)               // its bid could not be scored

  /** The group's bid: its bidding function run on the input built for it. */
  function GroupBid<B, S>(repo: Repository<B, S>, invokers: Invokers<B, S>,
                          request: RunAdAuctionRequest, group: InterestGroupAuctionState)
    : Result<BiddingFunctionOutput>
  {
    RunGenerateBidFunction(repo, invokers, group.biddingLogicUrl,
                           CreateBiddingFunctionInput(group, request.auctionConfiguration))
  }

  /** The seller's score of a bid: the decision logic run on the scoring input built for it. */
  function BidScore<B, S>(repo: Repository<B, S>, invokers: Invokers<B, S>,
                          request: RunAdAuctionRequest, bid: BiddingFunctionOutput)
    : Result<AdScoringFunctionOutput>
  {
    RunScoreAdFunction(repo, invokers, request.auctionConfiguration.decisionLogicUrl,
                       CreateAdScoringInputs(bid, request.auctionConfiguration, request.trustedScoringSignals))
  }

  /**
   * One interest group of RunAdAuction: a group whose owner is not a buyer,
   * or whose bidding call fails, is skipped; a bid the seller cannot score
   * aborts the auction with that error's code and message; otherwise the
   * group contributes its scored bid.
   */
  function AuctionStep<B, S>(repo: Repository<B, S>, invokers: Invokers<B, S>,
                             request: RunAdAuctionRequest, group: InterestGroupAuctionState)
    : (r: GroupOutcome)
    ensures group.owner !in request.auctionConfiguration.interestGroupBuyers ==> r == Skipped
    ensures group.owner in request.auctionConfiguration.interestGroupBuyers ==>
              var bid := GroupBid(repo, invokers, request, group);
              (bid.Err? ==> r == Skipped) &&
              (bid.Ok? && BidScore(repo, invokers, request, bid.value).Err? ==>
                 r == Aborted(GrpcStatus(BidScore(repo, invokers, request, bid.value).status))) &&
              (bid.Ok? && BidScore(repo, invokers, request, bid.value).Ok? ==>
                 r == Scored(GetScoredInterestGroupBid(group, bid.value, BidScore(repo, invokers, request, bid.value).value)))
    ensures r.Scored? ==> r.bid.interestGroupOwner == group.owner &&
                          group.owner in request.auctionConfiguration.interestGroupBuyers
    ensures r.Aborted? ==> r.status.payloads == []
  {
    if group.owner !in request.auctionConfiguration.interestGroupBuyers then Skipped
    else match GroupBid(repo, invokers, request, group)
      case Err(_) => Skipped
      case Ok(bid) =>
        match BidScore(repo, invokers, request, bid)
        case Err(s) => Aborted(GrpcStatus(s))
        case Ok(scored) => Scored(GetScoredInterestGroupBid(group, bid, scored))
  }

  /** The outcome of every interest group, in request order. */
  function GroupOutcomes<B, S>(repo: Repository<B, S>, invokers: Invokers<B, S>,
                               request: RunAdAuctionRequest, groups: seq<InterestGroupAuctionState>)
    : (r: seq<GroupOutcome>)
    ensures |r| == |groups|
    ensures forall i :: 0 <= i < |groups| ==> r[i] == AuctionStep(repo, invokers, request, groups[i])
  {
    if groups == [] then []
    else [AuctionStep(repo, invokers, request, groups[0])] + GroupOutcomes(repo, invokers, request, groups[1..])
  }

  /** The scored bids among some outcomes, in order. */
  function ScoredOnly(outcomes: seq<GroupOutcome>): seq<ScoredInterestGroupBid> {
    if outcomes == [] then []
    else (if outcomes[0].Scored? then [outcomes[0].bid] else []) + ScoredOnly(outcomes[1..])
  }

  /** Outcome k is the first that aborts the auction. */
  predicate AbortsFirstAt(outcomes: seq<GroupOutcome>, k: int) {
    0 <= k < |outcomes| && outcomes[k].Aborted? && forall j :: 0 <= j < k ==> !outcomes[j].Aborted?
  }

  /**
   * The scored bids of the interest groups, in request order, or the
   * status of the first bid that could not be scored. Only groups whose
   * owner is a buyer ever bid.
   */
  function ScoredBids<B, S>(repo: Repository<B, S>, invokers: Invokers<B, S>,
                            request: RunAdAuctionRequest, groups: seq<InterestGroupAuctionState>)
    : (r: Result<seq<ScoredInterestGroupBid>>)
    ensures r.Ok? ==> |r.value| <= |groups|
    ensures r.Ok? ==> forall b :: b in r.value ==> b.interestGroupOwner in request.auctionConfiguration.interestGroupBuyers
    ensures r.Err? ==> exists k :: 0 <= k < |groups| && AuctionStep(repo, invokers, request, groups[k]) == Aborted(r.status)
  {
    if groups == [] then Ok([])
    else
      var rest := ScoredBids(repo, invokers, request, groups[1..]);
      match AuctionStep(repo, invokers, request, groups[0])
      case Aborted(s) => Err(s)
      case Skipped => rest
      case Scored(bid) =>
        if rest.Err? then
          var k :| 0 <= k < |groups[1..]| && AuctionStep(repo, invokers, request, groups[1..][k]) == Aborted(rest.status);
          assert groups[k + 1] == groups[1..][k];
          rest
        else Ok([bid] + rest.value)
  }

  /**
   * The bids an auction collects: when no group aborts, exactly the scored
   * bids in request order; otherwise the status of the first group whose
   * bid could not be scored.
   */
  lemma {:induction false} ScoredBidsCollects<B, S>(repo: Repository<B, S>, invokers: Invokers<B, S>,
                                                    request: RunAdAuctionRequest, groups: seq<InterestGroupAuctionState>)
    ensures var outcomes := GroupOutcomes(repo, invokers, request, groups);
            var r := ScoredBids(repo, invokers, request, groups);
            (r.Ok? <==> forall k :: 0 <= k < |outcomes| ==> !outcomes[k].Aborted?) &&
            (r.Ok? ==> r.value == ScoredOnly(outcomes)) &&
            (r.Err? ==> exists k :: AbortsFirstAt(outcomes, k) && r.status == outcomes[k].status)
    decreases |groups|
  {
    if groups != [] {
      var outcomes := GroupOutcomes(repo, invokers, request, groups);
      var later := GroupOutcomes(repo, invokers, request, groups[1..]);
      assert outcomes[1..] == later;
      ScoredBidsCollects(repo, invokers, request, groups[1..]);
      var rest := ScoredBids(repo, invokers, request, groups[1..]);
      var r := ScoredBids(repo, invokers, request, groups);
      if outcomes[0].Aborted? {
        assert AbortsFirstAt(outcomes, 0);
      } else {
        assert r == Combine(outcomes[0], rest);
        if rest.Err? {
          var k :| AbortsFirstAt(later, k) && rest.status == later[k].status;
          LaterAbortFirst(outcomes, k);
        } else {
          forall k | 0 <= k < |outcomes|
            ensures !outcomes[k].Aborted?
          {
            if k > 0 {
              assert outcomes[k] == later[k - 1];
            }
          }
        }
      }
    }
  }

  /** There is only one first abort. */
  lemma FirstAbortUnique(outcomes: seq<GroupOutcome>, j: int, k: int)
    requires AbortsFirstAt(outcomes, j) && AbortsFirstAt(outcomes, k)
    ensures j == k
  {
  }

  /** A first abort among the later outcomes, after one that does not abort, is the first abort of all. */
  lemma LaterAbortFirst(outcomes: seq<GroupOutcome>, k: int)
    requires outcomes != [] && !outcomes[0].Aborted?
    requires AbortsFirstAt(outcomes[1..], k)
    ensures AbortsFirstAt(outcomes, k + 1) && outcomes[k + 1] == outcomes[1..][k]
  {
    forall j | 0 <= j < k + 1
      ensures !outcomes[j].Aborted?
    {
      if j > 0 {
        assert outcomes[j] == outcomes[1..][j - 1];
      }
    }
  }

  /** One group's outcome ahead of the outcome of the groups after it. */
  function Combine(outcome: GroupOutcome, rest: Result<seq<ScoredInterestGroupBid>>): Result<seq<ScoredInterestGroupBid>> {
    match outcome
    case Aborted(s) => Err(s)
    case Skipped => rest
    case Scored(bid) => if rest.Err? then rest else Ok([bid] + rest.value)
  }

  /** The bids gathered so far, ahead of one more group's outcome and the outcome of the groups after it. */
  lemma PrefixedCombine(scored: seq<ScoredInterestGroupBid>, outcome: GroupOutcome,
                        later: Result<seq<ScoredInterestGroupBid>>)
    ensures outcome.Aborted? ==> Prefixed(scored, Combine(outcome, later)) == Err(outcome.status)
    ensures outcome.Skipped? ==> Prefixed(scored, Combine(outcome, later)) == Prefixed(scored, later)
    ensures outcome.Scored? ==> Prefixed(scored, Combine(outcome, later)) == Prefixed(scored + [outcome.bid], later)
  {
    if outcome.Scored? && later.Ok? {
      assert scored + ([outcome.bid] + later.value) == (scored + [outcome.bid]) + later.value;
    }
  }

  lemma ScoredBidsAt<B, S>(repo: Repository<B, S>, invokers: Invokers<B, S>,
                           request: RunAdAuctionRequest, groups: seq<InterestGroupAuctionState>, i: int)
    requires 0 <= i < |groups|
    ensures ScoredBids(repo, invokers, request, groups[i..]) ==
              Combine(AuctionStep(repo, invokers, request, groups[i]), ScoredBids(repo, invokers, request, groups[i + 1..]))
  {
    assert groups[i..][0] == groups[i];
    assert groups[i..][1..] == groups[i + 1..];
  }

  /** The scored bids so far, ahead of the outcome of the remaining groups. */
  function Prefixed(prefix: seq<ScoredInterestGroupBid>, r: Result<seq<ScoredInterestGroupBid>>)
    : Result<seq<ScoredInterestGroupBid>>
  {
    if r.Err? then r else Ok(prefix + r.value)
  }

  predicate NonIncreasing(s: seq<ScoredInterestGroupBid>) {
    forall j, k :: 0 <= j < k < |s| ==> s[j].desirabilityScore >= s[k].desirabilityScore
  }

  /** The winner, if any, then the losers. */
  function Ranked(response: RunAdAuctionResponse): seq<ScoredInterestGroupBid> {
    (if response.winningBid.Some? then [response.winningBid.value] else []) + response.losingBids
  }

  /**
   * What a successful auction answers for its scored bids: the winner and
   * the losers are those bids; the losers come in non-increasing
   * desirability; a winner has a positive score no loser exceeds; and
   * there is no winner only when no bid has a positive score.
   */
  predicate RanksBids(response: RunAdAuctionResponse, bids: seq<ScoredInterestGroupBid>): (b: bool)
    // Every scored bid is answered exactly once.
    ensures b ==> |Ranked(response)| == |bids|
    // A winner is one of the bids and at least as desirable as each of them.
    ensures b && response.winningBid.Some? ==>
              response.winningBid.value in bids &&
              forall x :: x in bids ==> response.winningBid.value.desirabilityScore >= x.desirabilityScore
  {
    RankedWinnerIsBest(response, bids);
    && multiset(Ranked(response)) == multiset(bids)
    && NonIncreasing(response.losingBids)
    && (response.winningBid.Some? ==>
          response.winningBid.value.desirabilityScore > 0.0 &&
          forall l :: l in response.losingBids ==> response.winningBid.value.desirabilityScore >= l.desirabilityScore)
    && (response.winningBid.None? ==> forall b :: b in bids ==> b.desirabilityScore <= 0.0)
  }

  /** A winner ranked above the losers, among a permutation of the bids, is a bid no other bid outranks. */
  lemma RankedWinnerIsBest(response: RunAdAuctionResponse, bids: seq<ScoredInterestGroupBid>)
    ensures multiset(Ranked(response)) == multiset(bids) ==> |Ranked(response)| == |bids|
    ensures multiset(Ranked(response)) == multiset(bids) && response.winningBid.Some? &&
            (forall l :: l in response.losingBids ==> response.winningBid.value.desirabilityScore >= l.desirabilityScore) ==>
              response.winningBid.value in bids &&
              forall x :: x in bids ==> response.winningBid.value.desirabilityScore >= x.desirabilityScore
  {
    var ranked := Ranked(response);
    if multiset(ranked) == multiset(bids) {
      assert |multiset(ranked)| == |multiset(bids)|;
      if response.winningBid.Some? {
        var w := response.winningBid.value;
        assert ranked == [w] + response.losingBids;
        assert w in multiset(ranked);
        forall x | x in bids
          ensures x == w || x in response.losingBids
        {
          assert x in multiset(bids);
          assert x in ranked;
        }
      }
    }
  }

  /** absl::c_sort by descending desirability (the order of ties is left open). */
  method SortByDesirability(a: array<ScoredInterestGroupBid>)
    modifies a
    ensures NonIncreasing(a[..])
    ensures multiset(a[..]) == multiset(old(a[..]))
  {
    for i := 0 to a.Length
      invariant NonIncreasing(a[..i])
      invariant multiset(a[..]) == multiset(old(a[..]))
    {
      InsertDown(a, i);
    }
    assert a[..a.Length] == a[..];
  }

  /** Moves a[i] down past every less desirable bid before it, extending the sorted prefix by one. */
  method InsertDown(a: array<ScoredInterestGroupBid>, i: int)
    requires 0 <= i < a.Length && NonIncreasing(a[..i])
    modifies a
    ensures NonIncreasing(a[..i + 1])
    ensures multiset(a[..]) == multiset(old(a[..]))
  {
    var j := i;
    while j > 0 && a[j - 1].desirabilityScore < a[j].desirabilityScore
      invariant 0 <= j <= i
      invariant forall p, q :: 0 <= p < q <= i && p != j && q != j ==> a[p].desirabilityScore >= a[q].desirabilityScore
      invariant forall q :: j < q <= i ==> a[j].desirabilityScore >= a[q].desirabilityScore
      invariant multiset(a[..]) == multiset(old(a[..]))
    {
      SwapAdjacent(a, j);
      j := j - 1;
    }
  }

  /** Exchanges a bid with the one before it. */
  method SwapAdjacent(a: array<ScoredInterestGroupBid>, j: int)
    requires 0 < j < a.Length
    modifies a
    ensures a[j - 1] == old(a[j]) && a[j] == old(a[j - 1])
    ensures forall k :: 0 <= k < a.Length && k != j - 1 && k != j ==> a[k] == old(a[k])
    ensures multiset(a[..]) == multiset(old(a[..]))
  {
    a[j - 1], a[j] := a[j], a[j - 1];
  }

  /** The sorted bids, split into the winner (a positive top score) and the losers. */
  lemma SplitRanksBids(sorted: seq<ScoredInterestGroupBid>, bids: seq<ScoredInterestGroupBid>, response: RunAdAuctionResponse)
    requires NonIncreasing(sorted) && multiset(sorted) == multiset(bids)
    requires response == if sorted != [] && sorted[0].desirabilityScore > 0.0
                         then RunAdAuctionResponse(Some(sorted[0]), sorted[1..])
                         else RunAdAuctionResponse(None, sorted)
    ensures RanksBids(response, bids)
  {
    if response.winningBid.Some? {
      assert Ranked(response) == [sorted[0]] + sorted[1..] == sorted;
      TopOutranksRest(sorted);
      RestNonIncreasing(sorted);
    } else {
      assert Ranked(response) == sorted;
      NoPositiveBid(sorted, bids);
    }
  }

  lemma TopOutranksRest(sorted: seq<ScoredInterestGroupBid>)
    requires NonIncreasing(sorted) && sorted != []
    ensures forall l :: l in sorted[1..] ==> sorted[0].desirabilityScore >= l.desirabilityScore
  {
    forall l | l in sorted[1..]
      ensures sorted[0].desirabilityScore >= l.desirabilityScore
    {
      var k :| 0 <= k < |sorted[1..]| && sorted[1..][k] == l;
      assert sorted[k + 1] == l;
    }
  }

  lemma RestNonIncreasing(sorted: seq<ScoredInterestGroupBid>)
    requires NonIncreasing(sorted) && sorted != []
    ensures NonIncreasing(sorted[1..])
  {
    var rest := sorted[1..];
    forall j, k | 0 <= j < k < |rest|
      ensures rest[j].desirabilityScore >= rest[k].desirabilityScore
    {
      assert rest[j] == sorted[j + 1] && rest[k] == sorted[k + 1];
    }
  }

  /** When the top sorted bid is not positive, no bid is. */
  lemma NoPositiveBid(sorted: seq<ScoredInterestGroupBid>, bids: seq<ScoredInterestGroupBid>)
    requires NonIncreasing(sorted) && multiset(sorted) == multiset(bids)
    requires sorted == [] || sorted[0].desirabilityScore <= 0.0
    ensures forall b :: b in bids ==> b.desirabilityScore <= 0.0
  {
    forall b | b in bids
      ensures b.desirabilityScore <= 0.0
    {
      assert b in multiset(sorted);
      var k :| 0 <= k < |sorted| && sorted[k] == b;
      assert sorted[0].desirabilityScore >= sorted[k].desirabilityScore;
    }
  }

  /**
   * The service, with the repository it currently serves from. The
   * function source it refreshes from is held by reference and answers
   * differently as remote functions change, so it is not a field here:
   * each refresh is given the source as it answers at that moment.
   */
  class AdAuctionsImpl<B, S> {
    const configuration: Configuration
    const compilers: Compilers<B, S>
    const invokers: Invokers<B, S>
    var repository: Repository<B, S>

    constructor (configuration: Configuration, compilers: Compilers<B, S>,
                 invokers: Invokers<B, S>, initial: Repository<B, S>)
      ensures this.configuration == configuration
      ensures this.compilers == compilers && this.invokers == invokers
      ensures repository == initial
    {
      this.configuration := configuration;
      this.compilers := compilers;
      this.invokers := invokers;
      repository := initial;
    }

    /**
     * RefreshFunctionRepository: the repository is rebuilt from the
     * configuration with the function source as `resolve` answers now, and
     * replaced only by a successful rebuild. After a success every
     * function is served as compiled from its current source.
     */
    method RefreshFunctionRepository(resolve: Resolver)
      modifies this
      ensures var built := BuildRepository(configuration, resolve, compilers);
              repository == if built.Ok? then built.value else old(repository)
      ensures BuildRepository(configuration, resolve, compilers).Ok? ==>
                var specs := configuration.biddingFunctionSpecs;
                forall i :: 0 <= i < |specs| && CompiledBiddingFunction(resolve, compilers, specs[i]).Ok? ==>
                  GetBiddingFunction(repository, specs[i].uri) ==
                    Ok(CompiledBiddingFunction(resolve, compilers, specs[i]).value)
    {
      var built := CreateFunctionRepository(configuration, resolve, compilers);
      if built.Ok? {
        repository := built.value;
        forall i | 0 <= i < |configuration.biddingFunctionSpecs|
          ensures var spec := configuration.biddingFunctionSpecs[i];
                  CompiledBiddingFunction(resolve, compilers, spec).Ok? ==>
                    GetBiddingFunction(repository, spec.uri) == Ok(CompiledBiddingFunction(resolve, compilers, spec).value)
        {
          LookupAfterBuild(configuration, resolve, compilers, configuration.biddingFunctionSpecs[i].uri);
        }
      }
    }

    /** ComputeBid: the bidding function's output, or its error as a gRPC status. */
    method ComputeBid(biddingFunctionName: string, input: BiddingFunctionInput)
      returns (status: Status, response: Option<BiddingFunctionOutput>)
      ensures var bid := RunGenerateBidFunction(repository, invokers, biddingFunctionName, input);
              (bid.Ok? ==> status == OkStatus && response == Some(bid.value)) &&
              (bid.Err? ==> status == GrpcStatus(bid.status) && response.None?)
    {
      var bid := RunGenerateBidFunction(repository, invokers, biddingFunctionName, input);
      if bid.Err? {
        return GrpcStatus(bid.status), None;
      }
      status, response := OkStatus, Some(bid.value);
    }

    /**
     * RunAdAuction: a failure to score any bid ends the auction with that
     * code and message and no winner; otherwise the scored bids are ranked.
     */
    method RunAdAuction(request: RunAdAuctionRequest) returns (status: Status, response: RunAdAuctionResponse)
      ensures var bids := ScoredBids(repository, invokers, request, request.interestGroups);
              (bids.Err? ==> status == bids.status && response == EmptyResponse) &&
              (bids.Ok? ==> status == OkStatus && RanksBids(response, bids.value))
      ensures var outcomes := GroupOutcomes(repository, invokers, request, request.interestGroups);
              ((forall k :: 0 <= k < |outcomes| ==> !outcomes[k].Aborted?) ==>
                 status == OkStatus && RanksBids(response, ScoredOnly(outcomes))) &&
              (forall k :: AbortsFirstAt(outcomes, k) ==> status == outcomes[k].status && response == EmptyResponse)
    {
      ScoredBidsCollects(repository, invokers, request, request.interestGroups);
      var bids := CollectScoredBids(repository, invokers, request);
      if bids.Err? {
        ghost var outcomes := GroupOutcomes(repository, invokers, request, request.interestGroups);
        ghost var first :| AbortsFirstAt(outcomes, first) && bids.status == outcomes[first].status;
        forall k | AbortsFirstAt(outcomes, k)
          ensures k == first
        {
          FirstAbortUnique(outcomes, k, first);
        }
        return bids.status, EmptyResponse;
      }
      response := RankBids(bids.value);
      status := OkStatus;
    }
  }

  /**
   * The body of RunAdAuction's loop for one group: a group whose owner is
   * not a buyer or whose bidding call fails is skipped; a scoring failure
   * aborts the auction.
   */
  method ScoreGroup<B, S>(repo: Repository<B, S>, invokers: Invokers<B, S>,
                          request: RunAdAuctionRequest, group: InterestGroupAuctionState)
    returns (outcome: GroupOutcome)
    ensures outcome == AuctionStep(repo, invokers, request, group)
  {
    var config := request.auctionConfiguration;
    if group.owner !in config.interestGroupBuyers {
      return Skipped;
    }
    var bid := RunGenerateBidFunction(repo, invokers, group.biddingLogicUrl,
                                      CreateBiddingFunctionInput(group, config));
    if bid.Err? {
      return Skipped;
    }
    var scoredAd := RunScoreAdFunction(repo, invokers, config.decisionLogicUrl,
                                       CreateAdScoringInputs(bid.value, config, request.trustedScoringSignals));
    if scoredAd.Err? {
      return Aborted(GrpcStatus(scoredAd.status));
    }
    outcome := Scored(GetScoredInterestGroupBid(group, bid.value, scoredAd.value));
  }

  /** The loop of RunAdAuction over the interest groups. */
  method CollectScoredBids<B, S>(repo: Repository<B, S>, invokers: Invokers<B, S>, request: RunAdAuctionRequest)
    returns (r: Result<seq<ScoredInterestGroupBid>>)
    ensures r == ScoredBids(repo, invokers, request, request.interestGroups)
  {
    var groups := request.interestGroups;
    var scored: seq<ScoredInterestGroupBid> := [];
    assert groups[0..] == groups;
    var all := ScoredBids(repo, invokers, request, groups);
    assert all.Ok? ==> [] + all.value == all.value;
    assert Prefixed(scored, all) == all;
    for i := 0 to |groups|
      invariant all == Prefixed(scored, ScoredBids(repo, invokers, request, groups[i..]))
    {
      ScoredBidsAt(repo, invokers, request, groups, i);
      var outcome := ScoreGroup(repo, invokers, request, groups[i]);
      PrefixedCombine(scored, outcome, ScoredBids(repo, invokers, request, groups[i + 1..]));
      match outcome
      case Aborted(s) =>
        return Err(s);
      case Scored(entry) =>
        scored := scored + [entry];
      case Skipped =>
    }
    assert groups[|groups|..] == [];
    assert scored + [] == scored;
    r := Ok(scored);
  }

  /** The end of RunAdAuction: sort the scored bids, then split off the winner. */
  method RankBids(scored: seq<ScoredInterestGroupBid>) returns (response: RunAdAuctionResponse)
    ensures RanksBids(response, scored)
  {
    var bids := new ScoredInterestGroupBid[|scored|](k requires 0 <= k < |scored| => scored[k]);
    assert bids[..] == scored;
    SortByDesirability(bids);
    var sorted := bids[..];
    var winner: Option<ScoredInterestGroupBid> := None;
    var start := 0;
    if sorted != [] && sorted[0].desirabilityScore > 0.0 {
      winner := Some(sorted[0]);
      start := 1;
    }
    var losers: seq<ScoredInterestGroupBid> := [];
    for k := start to |sorted|
      invariant losers == sorted[start..k]
    {
      losers := losers + [sorted[k]];
    }
    response := RunAdAuctionResponse(winner, losers);
    SplitRanksBids(sorted, scored, response);
  }

  /** AdAuctionsImpl::Create: the service starts only with a successfully built repository. */
  method Create<B, S>(configuration: Configuration, resolve: Resolver, compilers: Compilers<B, S>,
                      invokers: Invokers<B, S>)
    returns (r: Result<AdAuctionsImpl<B, S>>)
    ensures var built := BuildRepository(configuration, resolve, compilers);
            (built.Err? ==> r == Err(built.status)) &&
            (built.Ok? ==> r.Ok? && fresh(r.value) && r.value.repository == built.value &&
                           r.value.configuration == configuration && r.value.compilers == compilers &&
                           r.value.invokers == invokers)
  {
    var initial :- CreateFunctionRepository(configuration, resolve, compilers);
    var service := new AdAuctionsImpl(configuration, compilers, invokers, initial);
    r := Ok(service);
  }

  // ---------------------------------------------------------------------
  // The configuration file

  /** A YAML document as yaml-cpp presents it. */
  datatype YamlNode =
    | Scalar(text: string)
    | Sequence(items: seq<YamlNode>)
    | Mapping(entries: map<string, YamlNode>)
    | Null

  /** Reading the configuration file: it cannot be opened, does not parse, or gives a document. */
  datatype ConfigFile = Unreadable | Unparsable | Parsed(root: YamlNode)

  /**
   * `as<std::string>()` on a node: a scalar gives its text and a null node
   * (a key written with no value) gives the text "null"; any other node
   * fails to convert.
   */
  function AsString(node: YamlNode): (r: Option<string>)
    ensures r.Some? <==> node.Scalar? || node.Null?
    ensures node.Null? ==> r == Some("null")
  {
    match node
    case Scalar(text) => Some(text)
    case Null => Some("null")
    case _ => None
  }

  /**
   * The YAML decode rule for a specification: a mapping whose `uri` reads
   * as a non-empty string and whose `source`, when present, reads as a
   * string. None is a failed conversion (a node that does not read as a
   * string, or a decode that returned false).
   */
  function DecodeSpecification(node: YamlNode): (r: Option<FunctionSpecification>)
    ensures r.Some? <==> node.Mapping? && "uri" in node.entries &&
                         AsString(node.entries["uri"]).Some? && AsString(node.entries["uri"]).value != "" &&
                         ("source" in node.entries ==> AsString(node.entries["source"]).Some?)
    ensures r.Some? ==> AsString(node.entries["uri"]) == Some(r.value.uri) &&
                        (r.value.sourceCode.Some? <==> "source" in node.entries) &&
                        (r.value.sourceCode.Some? ==> AsString(node.entries["source"]) == r.value.sourceCode)
  {
    if !node.Mapping? then None
    else if "source" in node.entries && AsString(node.entries["source"]).None? then None
    else if "uri" in node.entries && AsString(node.entries["uri"]).None? then None
    else
      var source := if "source" in node.entries then AsString(node.entries["source"]) else None;
      var uri := if "uri" in node.entries then AsString(node.entries["uri"]).value else "";
      if uri == "" then None else Some(FunctionSpecification(uri, source))
  }

  /** A `uri` key written with no value is read as the URI "null", not rejected as empty. */
  lemma NullUriReadsAsText(node: YamlNode)
    requires node.Mapping? && "uri" in node.entries && node.entries["uri"].Null? && "source" !in node.entries
    ensures DecodeSpecification(node) == Some(FunctionSpecification("null", None))
  {
  }

  /** `as<std::vector<FunctionSpecification>>`: a sequence whose every item decodes, in order. */
  function DecodeSpecifications(node: YamlNode): (r: Option<seq<FunctionSpecification>>)
    ensures r.Some? <==> node.Sequence? && forall i :: 0 <= i < |node.items| ==> DecodeSpecification(node.items[i]).Some?
    ensures r.Some? ==> |r.value| == |node.items| &&
                        forall i :: 0 <= i < |node.items| ==> Some(r.value[i]) == DecodeSpecification(node.items[i])
  {
    if !node.Sequence? then None else DecodeItems(node.items)
  }

  function DecodeItems(items: seq<YamlNode>): (r: Option<seq<FunctionSpecification>>)
    ensures r.Some? <==> forall i :: 0 <= i < |items| ==> DecodeSpecification(items[i]).Some?
    ensures r.Some? ==> |r.value| == |items| &&
                        forall i :: 0 <= i < |items| ==> Some(r.value[i]) == DecodeSpecification(items[i])
  {
    if items == [] then Some([])
    else
      assert forall i :: 0 < i < |items| ==> items[i] == items[1..][i - 1];
      match (DecodeSpecification(items[0]), DecodeItems(items[1..]))
      case (Some(spec), Some(specs)) => Some([spec] + specs)
      case (None, _) => None
      case (_, None) => None
  }

  /**
   * Loading the configuration: an unreadable file is NOT_FOUND, a file
   * that does not parse or lacks a well-formed list of either kind is
   * INVALID_ARGUMENT.
   */
  function LoadConfiguration(file: ConfigFile): (r: Result<Configuration>)
    ensures file.Unreadable? ==> r == Err(NotFoundError("Could not open the YAML configuration file"))
    ensures file.Unparsable? ==> r == Err(InvalidArgumentError("Parsing failure reading the YAML configuration file"))
    ensures file.Parsed? && r.Err? ==> r == Err(InvalidArgumentError("Malformed YAML configuration"))
    ensures r.Ok? <==> file.Parsed? && file.root.Mapping? &&
                       "biddingFunctions" in file.root.entries && "adScoringFunctions" in file.root.entries &&
                       DecodeSpecifications(file.root.entries["biddingFunctions"]).Some? &&
                       DecodeSpecifications(file.root.entries["adScoringFunctions"]).Some?
  {
    match file
    case Unreadable => Err(NotFoundError("Could not open the YAML configuration file"))
    case Unparsable => Err(InvalidArgumentError("Parsing failure reading the YAML configuration file"))
    case Parsed(root) =>
      if root.Mapping? && "biddingFunctions" in root.entries && "adScoringFunctions" in root.entries then
        match (DecodeSpecifications(root.entries["biddingFunctions"]), DecodeSpecifications(root.entries["adScoringFunctions"]))
        case (Some(bidding), Some(scoring)) => Ok(Configuration(bidding, scoring))
        case _ => Err(InvalidArgumentError("Malformed YAML configuration"))
      else Err(InvalidArgumentError("Malformed YAML configuration"))
  }

  /** AdAuctionsImpl::Create from a configuration file: load it, then create from the configuration. */
  method CreateFromFile<B, S>(file: ConfigFile, resolve: Resolver, compilers: Compilers<B, S>,
                              invokers: Invokers<B, S>)
    returns (r: Result<AdAuctionsImpl<B, S>>)
    ensures LoadConfiguration(file).Err? ==> r == Err(LoadConfiguration(file).status)
    ensures LoadConfiguration(file).Ok? ==>
              var built := BuildRepository(LoadConfiguration(file).value, resolve, compilers);
              (built.Err? ==> r == Err(built.status)) &&
              (built.Ok? ==> r.Ok? && fresh(r.value) && r.value.repository == built.value)
  {
    var configuration :- LoadConfiguration(file);
    r := Create(configuration, resolve, compilers, invokers);
  }
}
