/**
 * The ranking hook (hooks/use-ranking.ts): a fetch that dispatches on the
 * ranking type to the global, weekly or per-category endpoint, refusing a
 * category ranking without a category and an unknown type.
 */
module UseRanking {
  import opened Wrappers
  import opened Api
  import opened Text

  const CategoryRequiredMessage := "Categoria é obrigatória para ranking por categoria"
  const InvalidTypeMessage := "Tipo de ranking inválido"
  const RankingFailedMessage := "Erro ao carregar ranking"

  /** `options.type`: the three declared ranking types, or any other value passed at run time. */
  datatype RankingType = Global | Weekly | Category | Unknown(name: string)

  /** The outcome of the switch in fetchRanking: the endpoint to fetch, or the Error thrown instead. */
  datatype Dispatch = Fetch(endpoint: string) | Refuse(error: ErrorValue)

  /** The path each declared type is served from. */
  function RankingPath(kind: RankingType, category: string): string {
    match kind
    case Global => GlobalRankingPath
    case Weekly => WeeklyRankingPath
    case Category => CategoryRankingPrefix + category
    case Unknown(_) => ""
  }

  /**
   * `e` is `path`, then "?", and ends with a query that carries the page
   * and limit given, or 1 and 10 for those absent.
   */
  predicate EndpointFor(e: string, path: string, page: Option<int>, limit: Option<int>) {
    var q := RankingQuery(page, limit);
    StartsWith(e, path + "?") && EndsWith(e, q)
    && ParseRankingQuery(e[|e| - |q|..]) == Some((page.GetOr(1), limit.GetOr(10)))
  }

  /**
   * The switch of fetchRanking: "global" and "weekly" fetch their endpoint,
   * "category" needs a non-empty category, and any other type is refused;
   * page and limit are passed through to the query.
   */
  function RankingRequest(kind: RankingType, category: Option<string>, page: Option<int>, limit: Option<int>): (r: Dispatch)
    ensures r.Refuse? <==> kind.Unknown? || (kind.Category? && (category.None? || category.value == ""))
    ensures r.Refuse? ==> r.error == ErrorObject(if kind.Category? then CategoryRequiredMessage else InvalidTypeMessage)
    ensures r.Fetch? ==> r.endpoint == RankingPath(kind, category.GetOr("")) + RankingQuery(page, limit)
  {
    match kind
    case Global => Fetch(GlobalRankingEndpoint(page, limit))
    case Weekly => Fetch(WeeklyRankingEndpoint(page, limit))
    case Category =>
      if category.Some? && category.value != "" then
        Fetch(CategoryRankingEndpoint(category.value, page, limit))
      else Refuse(ErrorObject(CategoryRequiredMessage))
    case Unknown(_) => Refuse(ErrorObject(InvalidTypeMessage))
  }

  /**
   * Every endpoint fetchRanking requests is the type's path, then "?", and
   * carries the page and limit asked for, or 1 and 10 when they are absent.
   */
  lemma RankingRequestPaging(kind: RankingType, category: Option<string>, page: Option<int>, limit: Option<int>)
    ensures var r := RankingRequest(kind, category, page, limit);
      r.Fetch? ==> EndpointFor(r.endpoint, RankingPath(kind, category.GetOr("")), page, limit)
  {
    var r := RankingRequest(kind, category, page, limit);
    if r.Fetch? {
      EndpointShape(RankingPath(kind, category.GetOr("")), page, limit, r.endpoint);
    }
  }

  lemma EndpointShape(path: string, page: Option<int>, limit: Option<int>, e: string)
    requires e == path + RankingQuery(page, limit)
    ensures EndpointFor(e, path, page, limit)
  {
    var q := RankingQuery(page, limit);
    assert e[|e| - |q|..] == q;
    assert q[0] == '?';
    assert e[..|path| + 1] == path + "?";
    RankingQueryRoundTrip(page, limit);
  }

  class RankingHook {
    var players: seq<RankingPlayer>
    var isLoading: bool
    var error: Option<string>
    var total: int

    constructor ()
      ensures players == [] && isLoading && error == None && total == 0
    {
      players, isLoading, error, total := [], true, None, 0;
    }

    /**
     * fetchRanking: `requested` is the endpoint fetched, if any. A refused
     * type makes no request and reports its Error's message; a delivered
     * page replaces the players and the total; any other answer keeps them
     * and reports the message or "Erro ao carregar ranking".
     */
    method FetchRanking(kind: RankingType, category: Option<string>, page: Option<int>, limit: Option<int>,
                        outcome: CallOutcome<RankingPage>) returns (requested: Option<string>)
      modifies this
      ensures !isLoading
      ensures var r := RankingRequest(kind, category, page, limit);
        requested == (if r.Fetch? then Some(r.endpoint) else None)
      ensures requested.None? ==>
        players == old(players) && total == old(total)
        && error == Some(if kind.Category? then CategoryRequiredMessage else InvalidTypeMessage)
      ensures requested.Some? && Delivered(outcome) ==>
        players == outcome.response.data.value.players && total == outcome.response.data.value.total && error == None
      ensures requested.Some? && !Delivered(outcome) ==>
        players == old(players) && total == old(total) && error == Some(FailureMessage(outcome, RankingFailedMessage))
    {
      isLoading := true;
      error := None;
      var request := RankingRequest(kind, category, page, limit);
      if request.Refuse? {
        requested := None;
        var message := if kind.Category? then CategoryRequiredMessage else InvalidTypeMessage;
        assert request.error == ErrorObject(message);
        var shown := HandleApiError(request.error);
        assert shown == message by {
          assert |message| > 0;
        }
        error := Some(message);
      } else {
        requested := Some(request.endpoint);
        if Delivered(outcome) {
          players := outcome.response.data.value.players;
          total := outcome.response.data.value.total;
        } else {
          error := Some(FailureMessage(outcome, RankingFailedMessage));
        }
      }
      isLoading := false;
    }
  }
}
