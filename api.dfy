/**
 * The API client (lib/api.ts): the records the server sends, the error and
 * formatting helpers, the query strings built for the games and ranking
 * calls, and the ApiClient object with its held token, its header merge and
 * its classification of a fetched response into data or a thrown error.
 *
 * The network is not modelled: what `fetch` delivers is an input
 * (FetchResult), and what a call to the client delivers to its callers is a
 * CallOutcome: the parsed response it returned, or the value it threw.
 */
module Api {
  import opened Wrappers
  import opened Text

  // ---------------------------------------------------------------------------
  // Records exchanged with the server
  // ---------------------------------------------------------------------------

  /** The envelope of every response: a success flag, optional data and message. */
  datatype ApiResponse<T> = ApiResponse(success: bool, data: Option<T>, message: Option<string>)

  datatype UserStatus = Active | Inactive | Banned

  datatype User = User(
    id: string, name: string, email: string, avatar: Option<string>,
    level: int, totalScore: int, gamesCompleted: int, joinedAt: string,
    status: UserStatus)

  datatype Difficulty = Beginner | Intermediate | Advanced

  datatype GameStatus = GameActive | Maintenance | Disabled

  datatype Game = Game(
    id: string, title: string, description: string, image: string,
    difficulty: Difficulty, duration: int, category: string, rating: real,
    players: int, isNew: Option<bool>, status: GameStatus)

  datatype ProgressStatus = NotStarted | InProgress | Completed

  datatype UserProgress = UserProgress(
    id: string, userId: string, gameId: string, progress: int, score: int,
    startedAt: string, completedAt: Option<string>, timeSpent: int,
    status: ProgressStatus)

  datatype Achievement = Achievement(
    id: string, name: string, description: string, icon: string,
    points: int, unlockedAt: Option<string>)

  datatype Trend = Up | Down | Stable

  datatype RankingPlayer = RankingPlayer(
    id: string, name: string, avatar: string, score: int, level: int,
    gamesCompleted: int, position: int, trend: Trend)

  /** The data of a successful login or registration. */
  datatype AuthData = AuthData(user: User, token: string)

  /** The data of a successful games listing. */
  datatype GamesPage = GamesPage(games: seq<Game>, total: int, page: int, totalPages: int)

  /** The data of a successful ranking request. */
  datatype RankingPage = RankingPage(players: seq<RankingPlayer>, total: int)

  // ---------------------------------------------------------------------------
  // Thrown values and call outcomes
  // ---------------------------------------------------------------------------

  /**
   * A value a call can throw: an object with a `message` property (every
   * `Error`), a bare string, or any other value without a message.
   */
  datatype ErrorValue = ErrorObject(message: string) | StringError(text: string) | OtherValue

  /** What an awaited client call gives its caller: a response, or a thrown value. */
  datatype CallOutcome<T> = Returned(response: ApiResponse<T>) | Threw(error: ErrorValue)

  /** `r.success && r.data`: the response succeeded and carries data. */
  predicate Carries<T>(r: ApiResponse<T>) {
    r.success && r.data.Some?
  }

  /**
   * `response.success && response.data` on what a call gave: only a returned
   * response that succeeded with data counts; a throw never does.
   */
  predicate Delivered<T>(o: CallOutcome<T>)
    ensures Delivered(o) ==> o.Returned? && o.response.success && o.response.data.Some?
    ensures o.Threw? || !o.response.success || o.response.data.None? ==> !Delivered(o)
  {
    o.Returned? && Carries(o.response)
  }

  /** JavaScript's `s || fallback` for an optional string: an absent or empty `s` is falsy. */
  function OrElse(s: Option<string>, fallback: string): (r: string)
    ensures s.Some? && s.value != "" ==> r == s.value
    ensures s.None? || s.value == "" ==> r == fallback
  {
    if s.Some? && s.value != "" then s.value else fallback
  }

  const UnexpectedErrorMessage := "Ocorreu um erro inesperado. Tente novamente."

  /**
   * handleApiError: the message of an error, else the error itself when it
   * is a string, else a fixed fallback.
   */
  function HandleApiError(e: ErrorValue): (msg: string)
    ensures e.ErrorObject? && e.message != "" ==> msg == e.message
    ensures e.StringError? ==> msg == e.text
    ensures e.OtherValue? || e == ErrorObject("") ==> msg == UnexpectedErrorMessage
    ensures msg == "" <==> e == StringError("")
  {
    match e
    case ErrorObject(m) => if m != "" then m else UnexpectedErrorMessage
    case StringError(s) => s
    case OtherValue => UnexpectedErrorMessage
  }

  /**
   * The message a caller shows for a call that did not deliver: the
   * response's message or the caller's default, or handleApiError of what
   * was thrown.
   */
  function FailureMessage<T>(o: CallOutcome<T>, fallback: string): (msg: string)
    ensures o.Returned? ==> msg == OrElse(o.response.message, fallback)
    ensures o.Threw? ==> msg == HandleApiError(o.error)
    ensures fallback != "" ==> (msg == "" <==> o == Threw(StringError("")))
  {
    match o
    case Returned(r) => OrElse(r.message, fallback)
    case Threw(e) => HandleApiError(e)
  }

  // ---------------------------------------------------------------------------
  // formatDuration
  // ---------------------------------------------------------------------------

  /** formatDuration: whole minutes as "M min", "Hh" or "Hh Mmin". */
  function FormatDuration(minutes: int): (r: string)
    ensures minutes < 60 ==> r == IntToString(minutes) + " min"
    ensures minutes >= 60 && minutes % 60 == 0 ==> r == NatToString(minutes / 60) + "h"
    ensures minutes >= 60 && minutes % 60 != 0 ==>
      r == NatToString(minutes / 60) + "h " + NatToString(minutes % 60) + "min"
  {
    if minutes < 60 then IntToString(minutes) + " min"
    else
      var hours := minutes / 60;
      var remaining := minutes % 60;
      if remaining == 0 then NatToString(hours) + "h"
      else NatToString(hours) + "h " + NatToString(remaining) + "min"
  }

  /** Reads back a duration in any of the three forms FormatDuration writes. */
  function ParseDuration(s: string): Option<int> {
    if EndsWith(s, " min") then ParseInt(s[..|s| - 4])
    else if EndsWith(s, "h") then ParseHours(s[..|s| - 1])
    else if EndsWith(s, "min") then ParseHoursAndMinutes(s[..|s| - 3])
    else None
  }

  /** "H" as H hours, in minutes. */
  function ParseHours(body: string): Option<int> {
    match ParseNat(body)
    case Some(h) => Some(h * 60)
    case None => None
  }

  /** "H M" (what precedes "min" in "Hh Mmin") as minutes. */
  function ParseHoursAndMinutes(body: string): Option<int> {
    var i := IndexOf(body, 'h');
    if i < 0 || i + 1 >= |body| || body[i + 1] != ' ' then None
    else
      match (ParseNat(body[..i]), ParseNat(body[i + 2..]))
      case (Some(h), Some(m)) => Some(h * 60 + m)
      case _ => None
  }

  /** Every duration text determines its minutes: formatting loses nothing. */
  lemma FormatDurationRoundTrip(minutes: int)
    ensures ParseDuration(FormatDuration(minutes)) == Some(minutes)
  {
    if minutes < 60 {
      MinutesRoundTrip(minutes);
    } else if minutes % 60 == 0 {
      WholeHoursRoundTrip(minutes / 60);
    } else {
      HoursAndMinutesRoundTrip(minutes / 60, minutes % 60);
    }
  }

  lemma MinutesRoundTrip(minutes: int)
    requires minutes < 60
    ensures ParseDuration(IntToString(minutes) + " min") == Some(minutes)
  {
    var s := IntToString(minutes) + " min";
    assert s[..|s| - 4] == IntToString(minutes);
    assert s[|s| - 4..] == " min";
    ParseIntRoundTrip(minutes);
  }

  lemma WholeHoursRoundTrip(hours: nat)
    ensures ParseDuration(NatToString(hours) + "h") == Some(hours * 60)
  {
    var s := NatToString(hours) + "h";
    assert s[|s| - 1] == 'h';
    assert !EndsWith(s, " min");
    assert s[..|s| - 1] == NatToString(hours);
    ParseNatRoundTrip(hours);
    assert ParseHours(NatToString(hours)) == Some(hours * 60);
  }

  lemma HoursAndMinutesRoundTrip(hours: nat, remaining: nat)
    requires 0 < remaining
    ensures ParseDuration(NatToString(hours) + "h " + NatToString(remaining) + "min") == Some(hours * 60 + remaining)
  {
    var dh, dm := NatToString(hours), NatToString(remaining);
    var s := dh + "h " + dm + "min";
    assert s[|s| - 4] == dm[|dm| - 1];
    assert !EndsWith(s, " min");
    assert s[|s| - 1] == 'n';
    assert !EndsWith(s, "h");
    assert s[|s| - 3..] == "min";
    assert s[..|s| - 3] == dh + "h " + dm;
    HoursAndMinutesBody(hours, remaining);
  }

  lemma HoursAndMinutesBody(hours: nat, remaining: nat)
    ensures ParseHoursAndMinutes(NatToString(hours) + "h " + NatToString(remaining)) == Some(hours * 60 + remaining)
  {
    var dh, dm := NatToString(hours), NatToString(remaining);
    HoursPrefix(dh, dm);
    ParseNatRoundTrip(hours);
    ParseNatRoundTrip(remaining);
  }

  lemma HoursPrefix(dh: string, dm: string)
    requires AllDigits(dh)
    ensures var body := dh + "h " + dm;
      IndexOf(body, 'h') == |dh| && body[|dh| + 1] == ' ' && body[..|dh|] == dh && body[|dh| + 2..] == dm
  {
    var body := dh + "h " + dm;
    assert body[|dh|] == 'h';
    assert forall j :: 0 <= j < |dh| ==> body[j] == dh[j];
    assert body[..|dh|] == dh;
    assert body[|dh| + 2..] == dm;
  }

  // ---------------------------------------------------------------------------
  // calculateLevel
  // ---------------------------------------------------------------------------

  /** The integer square root: the largest r with r * r <= n. */
  function ISqrt(n: nat): (r: nat)
    ensures r * r <= n < (r + 1) * (r + 1)
  {
    if n == 0 then 0
    else
      var p := ISqrt(n - 1);
      if (p + 1) * (p + 1) <= n then
        assert n < (p + 2) * (p + 2) by {
          assert n <= (p + 1) * (p + 1);
          assert (p + 1) * (p + 1) < (p + 2) * (p + 2);
        }
        p + 1
      else p
  }

  /**
   * calculateLevel: floor(sqrt(score / 100)) + 1, computed over the reals.
   * For a whole score of zero or more, floor(sqrt(score / 100)) over the reals
   * equals the integer square root of score div 100, so the level is
   * ISqrt(score / 100) + 1 on naturals. Rounding of doubles is not modelled.
   */
  function CalculateLevel(score: nat): (level: nat)
    ensures level >= 1
    ensures 100 * (level - 1) * (level - 1) <= score < 100 * level * level
  {
    var q := score / 100;
    var k := ISqrt(q);
    var level := k + 1;
    Hundredfold(level - 1);
    Hundredfold(level);
    assert 100 * (k * k) <= 100 * q <= score;
    assert score < 100 * (q + 1) <= 100 * (level * level);
    level
  }

  lemma SquareMonotone(a: nat, b: nat)
    requires a <= b
    ensures a * a <= b * b
  {
    assert a * a <= a * b <= b * b;
  }

  /** Squares of naturals are ordered as the naturals are. */
  lemma SquareOrder(a: nat, b: nat)
    ensures a * a < b * b ==> a < b
  {
    if b <= a {
      SquareMonotone(b, a);
    }
  }

  /** The level band is unique: a level that brackets the score is the computed one. */
  lemma LevelUnique(score: nat, level: nat)
    requires level >= 1
    requires 100 * (level - 1) * (level - 1) <= score < 100 * level * level
    ensures CalculateLevel(score) == level
  {
    var c := CalculateLevel(score);
    Hundredfold(c - 1);
    Hundredfold(c);
    Hundredfold(level - 1);
    Hundredfold(level);
    SquareOrder(c - 1, level);
    SquareOrder(level - 1, c);
  }

  lemma Hundredfold(a: nat)
    ensures 100 * a * a == 100 * (a * a)
  {
  }

  /** A higher score never gives a lower level. */
  lemma LevelMonotone(a: nat, b: nat)
    requires a <= b
    ensures CalculateLevel(a) <= CalculateLevel(b)
  {
    var la, lb := CalculateLevel(a), CalculateLevel(b);
    Hundredfold(la - 1);
    Hundredfold(lb);
    SquareOrder(la - 1, lb);
  }

  // ---------------------------------------------------------------------------
  // getGames query string
  // ---------------------------------------------------------------------------

  /** A query parameter value: a number or a string. */
  datatype ParamValue = NumberParam(n: int) | StringParam(s: string)

  /** `value.toString()` for a whole number or a string. */
  function ParamText(v: ParamValue): (r: string)
    ensures v.StringParam? ==> r == v.s
    ensures v.NumberParam? ==> ParseInt(r) == Some(v.n)
  {
    match v
    case NumberParam(n) => ParseIntRoundTrip(n); IntToString(n)
    case StringParam(s) => s
  }

  /** The key/value pairs appended for the entries whose value is defined, in entry order. */
  function DefinedParams(params: seq<(string, Option<ParamValue>)>): (r: seq<(string, string)>)
    ensures |r| <= |params|
    ensures (forall i :: 0 <= i < |params| ==> params[i].1.Some?) ==> |r| == |params|
  {
    if params == [] then []
    else
      var last := params[|params| - 1];
      DefinedParams(params[..|params| - 1])
        + (if last.1.Some? then [(last.0, ParamText(last.1.value))] else [])
  }

  /** Joining two entry lists joins their pairs: the order of entries is kept. */
  lemma {:induction false} DefinedParamsConcat(a: seq<(string, Option<ParamValue>)>, b: seq<(string, Option<ParamValue>)>)
    ensures DefinedParams(a + b) == DefinedParams(a) + DefinedParams(b)
    decreases |b|
  {
    if b == [] {
      assert a + b == a;
    } else {
      var b' := b[..|b| - 1];
      assert (a + b)[..|a + b| - 1] == a + b';
      DefinedParamsConcat(a, b');
    }
  }

  /** An entry whose value is undefined contributes nothing, wherever it stands. */
  lemma UndefinedParamSkipped(a: seq<(string, Option<ParamValue>)>, key: string, b: seq<(string, Option<ParamValue>)>)
    ensures DefinedParams(a + [(key, None)] + b) == DefinedParams(a + b)
  {
    var skipped: seq<(string, Option<ParamValue>)> := [(key, None)];
    DefinedParamsConcat(a + skipped, b);
    DefinedParamsConcat(a, skipped);
    assert skipped[..0] == [];
    DefinedParamsConcat(a, b);
  }

  /** No defined entry, no pair; otherwise at least one. */
  lemma {:induction false} DefinedParamsEmpty(params: seq<(string, Option<ParamValue>)>)
    ensures DefinedParams(params) == [] <==> forall i :: 0 <= i < |params| ==> params[i].1.None?
    decreases |params|
  {
    if params != [] {
      var prefix := params[..|params| - 1];
      var last := params[|params| - 1];
      DefinedParamsEmpty(prefix);
      var extra: seq<(string, string)> := if last.1.Some? then [(last.0, ParamText(last.1.value))] else [];
      assert DefinedParams(params) == DefinedParams(prefix) + extra;
      assert DefinedParams(params) == [] <==> DefinedParams(prefix) == [] && last.1.None?;
      assert (forall i :: 0 <= i < |params| ==> params[i].1.None?) <==>
        (forall i :: 0 <= i < |prefix| ==> prefix[i].1.None?) && last.1.None?;
    }
  }

  /** `key=value` pairs joined by "&", as URLSearchParams prints them (without percent-encoding). */
  function Serialize(pairs: seq<(string, string)>): (q: string)
    ensures q == "" <==> pairs == []
  {
    if pairs == [] then ""
    else
      var last := pairs[|pairs| - 1];
      var item := last.0 + "=" + last.1;
      if |pairs| == 1 then item else Serialize(pairs[..|pairs| - 1]) + "&" + item
  }

  /**
   * getGames: append the defined parameters in entry order, and add the
   * query to "/games" with a "?" only when it is non-empty.
   */
  method GamesEndpoint(params: seq<(string, Option<ParamValue>)>) returns (endpoint: string)
    ensures endpoint == "/games" + (if DefinedParams(params) == [] then "" else "?" + Serialize(DefinedParams(params)))
    ensures endpoint == "/games" <==> forall i :: 0 <= i < |params| ==> params[i].1.None?
  {
    var searchParams: seq<(string, string)> := [];
    var i := 0;
    while i < |params|
      invariant 0 <= i <= |params|
      invariant searchParams == DefinedParams(params[..i])
    {
      var (key, value) := params[i];
      assert params[..i + 1][..i] == params[..i];
      if value.Some? {
        searchParams := searchParams + [(key, ParamText(value.value))];
      }
      i := i + 1;
    }
    assert params[..|params|] == params;
    var query := Serialize(searchParams);
    endpoint := "/games" + (if query != "" then "?" + query else "");
    DefinedParamsEmpty(params);
    assert endpoint == "/games" <==> query == "";
  }

  // ---------------------------------------------------------------------------
  // Ranking endpoints
  // ---------------------------------------------------------------------------

  /** The "?page=P&limit=L" query of the ranking calls, with defaults page 1 and limit 10. */
  function RankingQuery(page: Option<int>, limit: Option<int>): (q: string)
    ensures StartsWith(q, "?page=")
  {
    "?page=" + IntToString(page.GetOr(1)) + "&limit=" + IntToString(limit.GetOr(10))
  }

  /** Reads page and limit back from a ranking query. */
  function ParseRankingQuery(q: string): Option<(int, int)> {
    if !StartsWith(q, "?page=") then None
    else
      var rest := q[6..];
      var amp := IndexOf(rest, '&');
      if amp < 0 || !StartsWith(rest[amp..], "&limit=") then None
      else
        match (ParseInt(rest[..amp]), ParseInt(rest[amp + 7..]))
        case (Some(p), Some(l)) => Some((p, l))
        case _ => None
  }

  /** The ranking query carries the page and limit given, or 1 and 10 when absent. */
  lemma RankingQueryRoundTrip(page: Option<int>, limit: Option<int>)
    ensures ParseRankingQuery(RankingQuery(page, limit)) == Some((page.GetOr(1), limit.GetOr(10)))
  {
    PagingRoundTrip(page.GetOr(1), limit.GetOr(10));
  }

  /** The query written for page `a` and limit `b` parses back to them. */
  lemma PagingRoundTrip(a: int, b: int)
    ensures ParseRankingQuery("?page=" + IntToString(a) + "&limit=" + IntToString(b)) == Some((a, b))
  {
    var p, l := IntToString(a), IntToString(b);
    var q := "?page=" + p + "&limit=" + l;
    assert q[..6] == "?page=";
    assert q[6..] == p + "&limit=" + l;
    IntToStringChars(a, '&');
    LimitSplit(p, l);
    ParseIntRoundTrip(a);
    ParseIntRoundTrip(b);
  }

  /** In "P&limit=L" with no "&" in P, the first "&" ends P and "&limit=" follows. */
  lemma LimitSplit(p: string, l: string)
    requires forall j :: 0 <= j < |p| ==> p[j] != '&'
    ensures var rest := p + "&limit=" + l;
      IndexOf(rest, '&') == |p| && StartsWith(rest[|p|..], "&limit=")
      && rest[..|p|] == p && rest[|p| + 7..] == l
  {
    var rest := p + "&limit=" + l;
    assert rest[|p|] == '&';
    assert forall j :: 0 <= j < |p| ==> rest[j] == p[j];
    assert rest[|p|..][..7] == "&limit=";
    assert rest[..|p|] == p;
    assert rest[|p| + 7..] == l;
  }

  const GlobalRankingPath := "/ranking/global"
  const WeeklyRankingPath := "/ranking/weekly"
  const CategoryRankingPrefix := "/ranking/by-category/"

  /** getGlobalRanking's endpoint: its path, then a query that reads back as the paging asked for. */
  function GlobalRankingEndpoint(page: Option<int>, limit: Option<int>): (e: string)
    ensures StartsWith(e, GlobalRankingPath + "?page=")
    ensures ParseRankingQuery(e[|GlobalRankingPath|..]) == Some((page.GetOr(1), limit.GetOr(10)))
  {
    WithQuery(GlobalRankingPath, page, limit)
  }

  /** getWeeklyRanking's endpoint, in the same shape. */
  function WeeklyRankingEndpoint(page: Option<int>, limit: Option<int>): (e: string)
    ensures StartsWith(e, WeeklyRankingPath + "?page=")
    ensures ParseRankingQuery(e[|WeeklyRankingPath|..]) == Some((page.GetOr(1), limit.GetOr(10)))
  {
    WithQuery(WeeklyRankingPath, page, limit)
  }

  /** getCategoryRanking's endpoint: the category is spliced into the path unescaped. */
  function CategoryRankingEndpoint(category: string, page: Option<int>, limit: Option<int>): (e: string)
    ensures StartsWith(e, CategoryRankingPrefix + category + "?page=")
    ensures ParseRankingQuery(e[|CategoryRankingPrefix + category|..]) == Some((page.GetOr(1), limit.GetOr(10)))
  {
    WithQuery(CategoryRankingPrefix + category, page, limit)
  }

  /** `path` followed by the ranking query. */
  function WithQuery(path: string, page: Option<int>, limit: Option<int>): (e: string)
    ensures e == path + RankingQuery(page, limit)
    ensures StartsWith(e, path + "?page=")
    ensures ParseRankingQuery(e[|path|..]) == Some((page.GetOr(1), limit.GetOr(10)))
  {
    var q := RankingQuery(page, limit);
    var e := path + q;
    assert e[|path|..] == q;
    assert e[..|path| + 6] == path + q[..6];
    RankingQueryRoundTrip(page, limit);
    e
  }

  // ---------------------------------------------------------------------------
  // Response classification in request
  // ---------------------------------------------------------------------------

  /** What `fetch` delivered: a rejection, or an HTTP response with its parsed JSON body. */
  datatype FetchResult<T> =
    | NetworkFailure(error: ErrorValue, isTypeError: bool)
    | HttpResponse(status: int, contentType: Option<string>, body: ApiResponse<T>)

  /** `response.ok`: a status in the 2xx range. */
  predicate IsOkStatus(status: int) {
    200 <= status <= 299
  }

  /** A present content-type that includes "application/json". */
  predicate IsJson(contentType: Option<string>) {
    contentType.Some? && Includes(contentType.value, "application/json")
  }

  const ConnectionErrorMessage := "Não foi possível conectar ao servidor. Verifique sua conexão com a internet."

  function InvalidResponseMessage(status: int): string {
    "Servidor retornou resposta inválida. Status: " + IntToString(status)
  }

  function HttpErrorMessage(status: int): string {
    "HTTP error! status: " + IntToString(status)
  }

  /**
   * The second half of request: a response is data only when its
   * content-type is JSON and its status is ok; every other response becomes
   * an Error; a "Failed to fetch" TypeError becomes the connection message
   * and any other rejection is rethrown unchanged.
   */
  function Classify<T>(r: FetchResult<T>): (o: CallOutcome<T>)
    ensures o.Returned? <==> r.HttpResponse? && IsJson(r.contentType) && IsOkStatus(r.status)
    ensures o.Returned? ==> o.response == r.body
    ensures r.HttpResponse? && !IsJson(r.contentType) ==>
      o == Threw(ErrorObject(InvalidResponseMessage(r.status)))
    ensures r.HttpResponse? && IsJson(r.contentType) && !IsOkStatus(r.status) ==>
      o == Threw(ErrorObject(OrElse(r.body.message, HttpErrorMessage(r.status))))
    ensures r.NetworkFailure? && r.isTypeError && r.error == ErrorObject("Failed to fetch") ==>
      o == Threw(ErrorObject(ConnectionErrorMessage))
    ensures r.NetworkFailure? && !(r.isTypeError && r.error == ErrorObject("Failed to fetch")) ==>
      o == Threw(r.error)
  {
    match r
    case NetworkFailure(e, isTypeError) =>
      if isTypeError && e.ErrorObject? && e.message == "Failed to fetch" then Threw(ErrorObject(ConnectionErrorMessage))
      else Threw(e)
    case HttpResponse(status, contentType, body) =>
      if contentType.None? || contentType.value == "" || !Includes(contentType.value, "application/json") then
        Threw(ErrorObject(InvalidResponseMessage(status)))
      else if !IsOkStatus(status) then
        Threw(ErrorObject(OrElse(body.message, HttpErrorMessage(status))))
      else Returned(body)
  }

  /**
   * Every error request makes of an HTTP response carries a non-empty
   * message, so handleApiError shows that message to the user.
   */
  lemma HttpErrorsShowTheirMessage<T>(r: FetchResult<T>)
    requires r.HttpResponse?
    ensures Classify(r).Threw? ==>
      Classify(r).error.ErrorObject? && HandleApiError(Classify(r).error) == Classify(r).error.message != ""
  {
    var o := Classify(r);
    if o.Threw? {
      if !IsJson(r.contentType) {
        assert o.error.message == InvalidResponseMessage(r.status);
      } else {
        assert o.error.message == OrElse(r.body.message, HttpErrorMessage(r.status));
      }
    }
  }

  // ---------------------------------------------------------------------------
  // The client object
  // ---------------------------------------------------------------------------

  const TokenKey := "auth_token"

  /** Storage after setToken(t): "auth_token" holds a non-empty `t`, and is absent otherwise. */
  function WithToken(storage: map<string, string>, t: Option<string>): (r: map<string, string>)
    ensures TokenKey in r <==> t.Some? && t.value != ""
    ensures TokenKey in r ==> r[TokenKey] == t.value
    ensures forall key :: key != TokenKey ==> Lookup(r, key) == Lookup(storage, key)
  {
    if t.Some? && t.value != "" then storage[TokenKey := t.value] else storage - {TokenKey}
  }

  /** The value `key` has in a string map (headers or storage), if any. */
  function Lookup(m: map<string, string>, key: string): Option<string> {
    if key in m then Some(m[key]) else None
  }

  /** The value of the last custom header named `key`: later assignments win. */
  function LastValue(custom: seq<(string, string)>, key: string): Option<string> {
    if custom == [] then None
    else if custom[|custom| - 1].0 == key then Some(custom[|custom| - 1].1)
    else LastValue(custom[..|custom| - 1], key)
  }

  /** The header `key` after the custom headers are assigned over Content-Type. */
  function MergedHeader(custom: seq<(string, string)>, key: string): Option<string> {
    if LastValue(custom, key).Some? then LastValue(custom, key)
    else if key == "Content-Type" then Some("application/json")
    else None
  }

  /**
   * The header `key` that request sends: "Bearer <token>" for Authorization
   * when a non-empty token is held (the form of section 2.1 of RFC 6750),
   * else the last custom value, else "application/json" for Content-Type.
   */
  function ExpectedHeader(custom: seq<(string, string)>, token: Option<string>, key: string): Option<string> {
    if key == "Authorization" && token.Some? && token.value != "" then Some("Bearer " + token.value)
    else MergedHeader(custom, key)
  }

  /** The API client: the base URL, the held token and the browser storage it writes. */
  class ApiClient {
    const baseUrl: string
    var token: Option<string>
    /** The browser's localStorage, of which the client owns the "auth_token" key. */
    var storage: map<string, string>

    /** The constructor loads the held token from storage. */
    constructor (baseUrl: string, storage: map<string, string>)
      ensures this.baseUrl == baseUrl && this.storage == storage
      ensures token == Lookup(storage, TokenKey)
    {
      this.baseUrl := baseUrl;
      this.storage := storage;
      token := if TokenKey in storage then Some(storage[TokenKey]) else None;
    }

    /** `if (this.token)`: a non-empty token is held. */
    predicate HoldsToken()
      reads this
    {
      token.Some? && token.value != ""
    }

    /**
     * setToken: hold `t`; store it under "auth_token" when it is non-empty,
     * otherwise remove that key. Other storage keys are untouched.
     */
    method SetToken(t: Option<string>)
      modifies this`token, this`storage
      ensures token == t
      ensures storage == WithToken(old(storage), t)
    {
      token := t;
      if t.Some? && t.value != "" {
        storage := storage[TokenKey := t.value];
      } else {
        storage := storage - {TokenKey};
      }
    }

    /**
     * The headers request sends: Content-Type first, the custom headers
     * assigned over it in order, then Authorization from the held token.
     */
    method BuildHeaders(custom: seq<(string, string)>) returns (headers: map<string, string>)
      ensures forall key :: Lookup(headers, key) == ExpectedHeader(custom, token, key)
      ensures "Content-Type" in headers
      ensures HoldsToken() ==> "Authorization" in headers && headers["Authorization"] == "Bearer " + token.value
    {
      headers := map["Content-Type" := "application/json"];
      var i := 0;
      while i < |custom|
        invariant 0 <= i <= |custom|
        invariant forall key :: Lookup(headers, key) == MergedHeader(custom[..i], key)
      {
        assert custom[..i + 1][..i] == custom[..i];
        ghost var before := headers;
        headers := headers[custom[i].0 := custom[i].1];
        forall key
          ensures Lookup(headers, key) == MergedHeader(custom[..i + 1], key)
        {
          assert Lookup(before, key) == MergedHeader(custom[..i], key);
        }
        i := i + 1;
      }
      assert custom[..|custom|] == custom;
      ghost var merged := headers;
      if token.Some? && token.value != "" {
        headers := headers["Authorization" := "Bearer " + token.value];
      }
      forall key
        ensures Lookup(headers, key) == ExpectedHeader(custom, token, key)
      {
        assert Lookup(merged, key) == MergedHeader(custom, key);
      }
      assert Lookup(headers, "Content-Type") == ExpectedHeader(custom, token, "Content-Type");
      assert Lookup(headers, "Authorization") == ExpectedHeader(custom, token, "Authorization");
    }

    /** The URL request fetches: the base URL followed by the endpoint. */
    function Url(endpoint: string): (url: string)
      reads this
      ensures StartsWith(url, baseUrl) && url[|baseUrl|..] == endpoint
    {
      baseUrl + endpoint
    }
  }
}
