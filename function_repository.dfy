/**
 * server/function_repository: a snapshot of the compiled bidding and ad
 * scoring functions, each keyed by its URI. A URI whose function failed to
 * compile is present with no function, so that a caller can tell a
 * function that was never configured from one that is not available.
 */
module FunctionRepository {
  import opened Status

  /**
   * The two maps of the repository; `None` is the placeholder for a
   * function whose compilation failed. B and S are the handles of the
   * bidding and the ad scoring functions.
   */
  datatype Repository<B, S> = Repository(
    biddingFunctions: map<string, Option<B>>,
    adScoringFunctions: map<string, Option<S>>)

  /**
   * GetBiddingFunction: NOT_FOUND for a URI that is not configured,
   * UNAVAILABLE for one whose function is a placeholder, and otherwise
   * exactly the stored function.
   */
  function GetBiddingFunction<B, S>(repo: Repository<B, S>, uri: string): (r: Result<B>)
    ensures uri !in repo.biddingFunctions <==>
              r == Err(NotFoundError("Bidding function " + uri + " not found"))
    ensures uri in repo.biddingFunctions && repo.biddingFunctions[uri].None? <==>
              r == Err(UnavailableError("Bidding function " + uri + " is not available"))
    ensures r.Ok? <==> uri in repo.biddingFunctions && repo.biddingFunctions[uri].Some?
    ensures r.Ok? ==> Some(r.value) == repo.biddingFunctions[uri]
  {
    if uri !in repo.biddingFunctions then
      Err(NotFoundError("Bidding function " + uri + " not found"))
    else if repo.biddingFunctions[uri].None? then
      Err(UnavailableError("Bidding function " + uri + " is not available"))
    else
      Ok(repo.biddingFunctions[uri].value)
  }

  /** GetAdScoringFunction: the same rules on the ad scoring map. */
  function GetAdScoringFunction<B, S>(repo: Repository<B, S>, uri: string): (r: Result<S>)
    ensures uri !in repo.adScoringFunctions <==>
              r == Err(NotFoundError("Ad scoring function " + uri + " not found"))
    ensures uri in repo.adScoringFunctions && repo.adScoringFunctions[uri].None? <==>
              r == Err(UnavailableError("Ad scoring function " + uri + " is not available"))
    ensures r.Ok? <==> uri in repo.adScoringFunctions && repo.adScoringFunctions[uri].Some?
    ensures r.Ok? ==> Some(r.value) == repo.adScoringFunctions[uri]
  {
    if uri !in repo.adScoringFunctions then
      Err(NotFoundError("Ad scoring function " + uri + " not found"))
    else if repo.adScoringFunctions[uri].None? then
      Err(UnavailableError("Ad scoring function " + uri + " is not available"))
    else
      Ok(repo.adScoringFunctions[uri].value)
  }

  /**
   * The two kinds live in separate maps: replacing every ad scoring
   * function changes no bidding lookup, and the other way round.
   */
  lemma KindsAreSeparate<B, S>(repo: Repository<B, S>, uri: string,
                               bidding: map<string, Option<B>>, scoring: map<string, Option<S>>)
    ensures GetBiddingFunction(repo.(adScoringFunctions := scoring), uri) == GetBiddingFunction(repo, uri)
    ensures GetAdScoringFunction(repo.(biddingFunctions := bidding), uri) == GetAdScoringFunction(repo, uri)
  {
  }
}
