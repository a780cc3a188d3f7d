# athenadev front end — a Dafny model of its client-side logic

This project models the logic under the athenadev web front end: the API client
(`lib/api.ts`), the authentication provider (`contexts/auth-context.tsx`), the
sign-in/sign-up page (`app/auth/page.tsx`), the data hooks for games, progress,
achievements and ranking (`hooks/`), the route guard
(`components/protected-route.tsx`) and the state rule of the animated background
of the sign-in page (`components/auth-background.tsx`).

The model is split into one module per source file:

- `api.dfy` (`Api`): the server's records, `handleApiError`, `formatDuration`,
  `calculateLevel`, the query strings of `getGames` and the ranking calls, the
  classification of a fetched response in `request`, and the `ApiClient` object
  (held token, storage, header merge).
- `auth_context.dfy` (`AuthContext`), `auth_page.dfy` (`AuthPage`),
  `use_games.dfy` (`UseGames`), `use_achievements.dfy` (`UseAchievements`),
  `use_ranking.dfy` (`UseRanking`), `protected_route.dfy` (`ProtectedRoute`),
  `auth_background.dfy` (`AuthBackground`).
- The helper modules are `wrappers.dfy` (`Option`), `text.dfy` (decimal printing
  and parsing, `startsWith`, `includes`, `indexOf`) and `ui.dfy` (what a
  component renders, and where it redirects).

React state that a handler changes through its setters is a class field that the
method assigns. `localStorage` is the `storage` map of `ApiClient`.

The network is an input. What `fetch` delivers is a `FetchResult`. What an awaited
client call gives its caller is a `CallOutcome`: either the parsed response it
returned or the value it threw. A thrown value is an object with a `message`, a
string, or any other value.

JavaScript's `a || b` on strings is `OrElse`: an absent or empty string falls back.

The background uses `real`. The results of `Math.random`, `cos`, `sin`, `sqrt` and
`atan2` are passed in, and its bounds hold whatever those readings are.

## Model

| member | source | states |
|---|---|---|
| Api.OrElse | lib/api.ts:158 | `s \|\| fallback` on strings: a present non-empty `s`, else the fallback |
| Api.HandleApiError | lib/api.ts:311-321 | a non-empty error message is returned; a string error is itself; any other value, or an empty message, gives the fixed fallback; the result is empty exactly for the empty string error |
| Api.FailureMessage | contexts/auth-context.tsx:86-91 | a returned response gives its message or the caller's default; a throw gives handleApiError of it; with a non-empty default the message is empty only for a thrown empty string |
| Api.Delivered | contexts/auth-context.tsx:59 | `response.success && response.data`: holds only for a returned response that succeeded with data; a throw, a failure or a success without data never delivers |
| Api.FormatDuration | lib/api.ts:328-341 | "M min" below 60 minutes (negatives included), "Hh" for a whole number of hours, otherwise "Hh Mmin" with H = minutes div 60 and M = minutes mod 60 |
| Api.FormatDurationRoundTrip | lib/api.ts:328-341 | every formatted duration reads back as the minutes it was made from, in all three forms |
| Api.MinutesRoundTrip | lib/api.ts:329-331 | below 60, "<minutes> min" reads back as the minutes, negatives included |
| Api.WholeHoursRoundTrip | lib/api.ts:333-338 | a whole number of hours is printed "<h>h" and reads back as h*60 |
| Api.HoursAndMinutesRoundTrip | lib/api.ts:333-340 | "<h>h <rem>min" with 0 < rem reads back as h*60 + rem |
| Api.ISqrt | lib/api.ts:344 | the integer square root: r*r <= n < (r+1)*(r+1) |
| Api.CalculateLevel | lib/api.ts:343-345 | computed over the reals: the level is at least 1 and 100(L-1)^2 <= score < 100L^2 |
| Api.LevelUnique | lib/api.ts:343-345 | any level whose band brackets the score is the computed level |
| Api.LevelMonotone | lib/api.ts:343-345 | a higher score never gives a lower level |
| Api.ParamText | lib/api.ts:230 | `value.toString()`: a string value is itself, and a number prints as text that reads back as that number |
| Api.DefinedParams | lib/api.ts:227-233 | the pairs appended by the `forEach`: at most one per entry, and exactly one per entry when every value is defined |
| Api.DefinedParamsConcat | lib/api.ts:227-233 | the appended pairs of two entry lists joined are their pairs joined, so entry order is kept |
| Api.UndefinedParamSkipped | lib/api.ts:229-231 | an entry whose value is undefined appends nothing, wherever it stands |
| Api.DefinedParamsEmpty | lib/api.ts:227-235 | no pair is appended exactly when every value is undefined |
| Api.Serialize | lib/api.ts:235 | the query is empty exactly when no pair was appended |
| Api.GamesEndpoint | lib/api.ts:218-236 | the endpoint is "/games", then "?" and the query of the defined pairs only when there is one; it is bare "/games" exactly when every parameter is undefined |
| Api.RankingQuery | lib/api.ts:276 | the ranking query starts "?page=" |
| Api.GlobalRankingEndpoint | lib/api.ts:275-277 | "/ranking/global?page=", with a query that reads back as the page and limit given, or 1 and 10 |
| Api.WeeklyRankingEndpoint | lib/api.ts:279-281 | "/ranking/weekly?page=", with a query that reads back as the page and limit given, or 1 and 10 |
| Api.CategoryRankingEndpoint | lib/api.ts:283-289 | "/ranking/by-category/", the category unescaped, then "?page=" and a query that reads back as the page and limit given, or 1 and 10 |
| Api.RankingQueryRoundTrip | lib/api.ts:275-289 | the ranking query carries the page and limit given, or 1 and 10 when absent |
| Api.Classify | lib/api.ts:149-171 | data is returned exactly for a JSON response with an ok status; a non-JSON response throws the invalid-response message with its status; a JSON error response throws its message or the HTTP-status message; "Failed to fetch" becomes the connection message; any other rejection is rethrown unchanged |
| Api.HttpErrorsShowTheirMessage | lib/api.ts:150-159 | every error made from an HTTP response has a non-empty message, which handleApiError shows |
| Api.WithToken | lib/api.ts:96-105 | "auth_token" is stored exactly when the token is non-empty, holds that token, and every other key keeps its value |
| Api.ApiClient.constructor | lib/api.ts:82-93 | the held token is the one stored under "auth_token", if any |
| Api.ApiClient.SetToken | lib/api.ts:96-105 | the held token is `t` and storage is updated as WithToken says |
| Api.ApiClient.BuildHeaders | lib/api.ts:115-138 | each header is "Bearer <token>" for Authorization when a token is held, else the last custom value, else application/json for Content-Type; Content-Type is always present |
| Api.ApiClient.Url | lib/api.ts:113 | the URL is the base URL followed by the endpoint |
| Text.IntToString | lib/api.ts:330 | `${n}` for a whole number below 1e21 in magnitude: at least one character, a minus sign exactly for negatives, digits otherwise |
| Text.ParseIntRoundTrip | lib/api.ts:276 | a printed whole number reads back as itself |
| Text.Includes | lib/api.ts:151 | `includes` holds exactly when the part occurs at some index |
| ProtectedRoute.Guard | components/protected-route.tsx:18-42 | a spinner exactly while loading; the children exactly for an authenticated user after loading; otherwise nothing, with a redirect to `redirectTo` or "/auth" |
| AuthContext.AuthProvider.constructor | contexts/auth-context.tsx:25-26 | no user, and loading |
| AuthContext.AuthProvider.IsAuthenticated | contexts/auth-context.tsx:29 | authenticated exactly when a user is set |
| AuthContext.AuthProvider.CheckAuthStatus | contexts/auth-context.tsx:43-74 | the verify call is made exactly when a non-empty token is stored; a delivered user is adopted; any other answer or a throw clears the token, its storage key and the user; loading ends |
| AuthContext.AuthProvider.Login | contexts/auth-context.tsx:76-94 | success exactly when the response delivers; then the token is held and stored and the user set; otherwise the message or "Erro ao fazer login" (or handleApiError) is reported and the session is unchanged; loading ends |
| AuthContext.AuthProvider.Register | contexts/auth-context.tsx:96-114 | as login, with the default "Erro ao criar conta" |
| AuthContext.AuthProvider.SignIn | contexts/auth-context.tsx:77-93 | the shared body of login and register, with the same contract for a given default |
| AuthContext.AuthProvider.Logout | contexts/auth-context.tsx:116-125 | whatever the server does, the user and the held token are cleared and "auth_token" is removed from storage |
| AuthContext.AuthProvider.RefreshUser | contexts/auth-context.tsx:155-164 | the user is replaced only by a delivered one |
| AuthContext.AuthProvider.ForgotPassword | contexts/auth-context.tsx:127-139 | success follows the response's flag alone; a failure reports the message or its default, or handleApiError |
| AuthContext.AuthProvider.ResetPassword | contexts/auth-context.tsx:141-153 | as forgotPassword, with the default "Erro ao redefinir senha" |
| AuthContext.PasswordResult | contexts/auth-context.tsx:127-153 | success exactly for a returned successful response; a failure with a non-empty default carries a message that is empty only for a thrown empty string |
| AuthPage.FormData.With | app/auth/page.tsx:45-47 | the named field takes the value and every other field keeps its own |
| AuthPage.FormError | app/auth/page.tsx:52-76 | no error exactly when email and password are present and, when registering, the name is present, the confirmation matches and the password has at least 6 characters; missing email or password gives the fields message first; login only ever reports that message |
| AuthPage.RegisterChecksInOrder | app/auth/page.tsx:58-73 | when registering, each later message is reported exactly when every earlier check passes |
| AuthPage.LoginIgnoresRegistrationFields | app/auth/page.tsx:52-76 | in login mode the name and the confirmation never change the outcome |
| AuthPage.PageGuard | app/auth/page.tsx:115-127 | a spinner exactly while loading; the form exactly for a signed-out visitor; otherwise nothing, together with the redirect home of lines 38-42 |
| AuthPage.AuthForm.constructor | app/auth/page.tsx:23-32 | login mode, an empty form, no error, not submitting |
| AuthPage.AuthForm.HandleInputChange | app/auth/page.tsx:45-49 | the named field is set, the others are kept, and the error is cleared |
| AuthPage.AuthForm.ValidateForm | app/auth/page.tsx:52-76 | valid exactly when FormError finds nothing; a failure writes its message and a pass leaves the error alone |
| AuthPage.AuthForm.ToggleMode | app/auth/page.tsx:109-113 | the mode flips, every field is emptied and the error cleared |
| AuthPage.AuthForm.ToggleTwice | app/auth/page.tsx:109-113 | toggling twice gives back the mode, with an empty form |
| AuthPage.AuthForm.HandleSubmit | app/auth/page.tsx:79-106 | an invalid form makes no call and changes no session; a valid one calls login or register with the form's values, redirects home exactly when it delivers, with the user set and the token held and stored; otherwise it shows the reported error or the default and leaves the client unchanged; submitting ends |
| UseGames.FindIndex | hooks/use-games.ts:150 | the first index with the game id, or -1 when there is none |
| UseGames.Upsert | hooks/use-games.ts:149-158 | the first entry for the game is replaced by the record, or the record is appended when there is none; every other entry is kept |
| UseGames.UpsertIdempotent | hooks/use-games.ts:149-158 | applying the same record for its own game twice is applying it once |
| UseGames.UpsertFindsRecord | hooks/use-games.ts:149-158 | after an upsert, the first entry for the game is the record |
| UseGames.GamesHook.constructor | hooks/use-games.ts:24-28 | no games, loading, no error, zero counts |
| UseGames.GamesHook.FetchGames | hooks/use-games.ts:30-49 | a delivered page replaces the games and both counts and clears the error; otherwise the old data stays and the error is the message or "Erro ao carregar jogos" (or handleApiError); loading ends |
| UseGames.GameHook.constructor | hooks/use-games.ts:73-75 | no game, loading, no error |
| UseGames.GameHook.FetchGame | hooks/use-games.ts:77-94 | as fetchGames for one game, with the default "Erro ao carregar jogo" |
| UseGames.GameHook.OnGameId | hooks/use-games.ts:96-100 | it fetches exactly for a non-empty id; an empty id changes nothing, loading included |
| UseGames.ProgressHook.constructor | hooks/use-games.ts:120-122 | no progress, loading, no error |
| UseGames.ProgressHook.FetchProgress | hooks/use-games.ts:124-141 | as fetchGames for the progress list, with the default "Erro ao carregar progresso" |
| UseGames.ProgressHook.UpdateProgress | hooks/use-games.ts:143-166 | true exactly when the call delivers a record, which is then upserted under the requested game id; otherwise nothing changes |
| UseGames.ProgressHook.CompleteGame | hooks/use-games.ts:168-191 | the same bookkeeping as updateProgress |
| UseAchievements.AchievementsHook.constructor | hooks/use-achievements.ts:16-19 | both lists empty, loading, no error |
| UseAchievements.AchievementsHook.FetchAchievements | hooks/use-achievements.ts:21-47 | each list is replaced only by its own response carrying data; only a failed catalogue response sets the error (its message or "Erro ao carregar conquistas"); a throw keeps both lists and reports handleApiError; loading ends |
| UseAchievements.AchievementsHook.UnlockAchievement | hooks/use-achievements.ts:49-63 | true exactly when the call delivers; then the record is appended, and the list grows by one |
| UseRanking.RankingRequest | hooks/use-ranking.ts:34-49 | a request is refused exactly for an unknown type or a category ranking without a non-empty category, with the matching error; otherwise the endpoint is the type's path followed by the ranking query |
| UseRanking.RankingRequestPaging | hooks/use-ranking.ts:34-46 | every requested endpoint starts with its path and "?" and carries the page and limit asked for, or 1 and 10 |
| UseRanking.RankingHook.constructor | hooks/use-ranking.ts:22-25 | no players, loading, no error, zero total |
| UseRanking.RankingHook.FetchRanking | hooks/use-ranking.ts:27-62 | a refused type requests nothing and shows its error; a delivered page replaces players and total; any other answer keeps them and shows the message or "Erro ao carregar ranking"; loading ends |
| AuthBackground.NewWave | components/auth-background.tsx:28-37 | a new wave has radius in [50,200), opacity in [0.1,0.4), angle in [0,2π), direction 1 exactly when its draw exceeds 0.5, and is within every lifetime range |
| AuthBackground.Wave.constructor | components/auth-background.tsx:28-37 | the new wave's fields are those NewWave gives |
| AuthBackground.Clamp | components/auth-background.tsx:69-70 | the result lies in [lo,hi], equals v inside it and the nearer bound outside |
| AuthBackground.Force | components/auth-background.tsx:52-53 | the pull is positive exactly within 200 pixels, and at most 1 |
| AuthBackground.Drift | components/auth-background.tsx:42-56 | far from the pointer the position moves only by the base motion |
| AuthBackground.Step | components/auth-background.tsx:40-71 | the new position lies within 100 pixels of the canvas and is the drifted one when that was inside; opacity and radius keep [0.1,0.6] and [50,200]; far from the pointer they decay by 0.005 and 0.5 to their floors, near it neither decreases; the direction flips once per axis out of range; valid waves stay valid |
| AuthBackground.Wave.Update | components/auth-background.tsx:40-71 | updates the fields in place to the state Step gives |
| AuthBackground.RunKeepsRanges | components/auth-background.tsx:146-149 | a valid wave stays valid, and within the margin, through any number of frames |
| AuthBackground.FarPointerFades | components/auth-background.tsx:59-63 | while the pointer stays out of reach, after k frames opacity is max(0.1, o - 0.005k) and radius max(50, r - 0.5k) |
| AuthBackground.WaveCount | components/auth-background.tsx:117 | the count is floor(w*h/50000), and is positive only for a canvas of positive size |
| AuthBackground.Placed | components/auth-background.tsx:120 | a placed wave starts inside [0,w) x [0,h) and is valid |
| AuthBackground.InitWaves | components/auth-background.tsx:115-124 | exactly floor(w*h/50000) new, distinct waves, each built from its draws and starting inside the canvas |
| AuthBackground.Background.constructor | components/auth-background.tsx:12-13 | no waves, pointer at the origin |
| AuthBackground.Background.ResizeCanvas | components/auth-background.tsx:155-165 | the canvas takes the box's size and the whole collection is replaced by new waves for it; the background stays valid |
| AuthBackground.Background.HandleMouseMove | components/auth-background.tsx:168-177 | the pointer is the client position minus the canvas's left and top, and the waves stay valid |
| AuthBackground.Background.AnimateFrame | components/auth-background.tsx:146-149 | each wave is updated in place by Step with its own readings; all waves keep their ranges and margin |

## Left out

- The network and the browser: `fetch`, its CORS options, `response.json()`, the
  `typeof window` branches and `console.error` (lib/api.ts:107-111, 141-147, 163).
  A fetched response, a JSON body and a thrown value are inputs. A JSON parse
  failure is not modelled.
- The request bodies and the endpoints of the authentication, progress and
  achievement calls. The model covers what callers do with each call's outcome,
  not the call itself.
- `formatScore`, because it is locale formatting by `toLocaleString`.
- Percent-encoding done by `URLSearchParams`. `Serialize` joins keys and values
  unencoded.
- Api.ApiClient.BuildHeaders: custom headers given as a `Headers` instance are
  read with lower-cased names by the browser, and the model treats all three forms
  as an ordered list of pairs.
- Api.FormatDuration and Api.CalculateLevel: only whole numbers are modelled, and
  calculateLevel only for scores of zero or more. Fractional minutes, fractional
  scores, `NaN` and negative scores are left out.
- Api.CalculateLevel: the level is stated over the reals, and the double
  rounding of `score / 100` and `Math.sqrt` is not modelled. Just below a band
  boundary, from scores of about 7·10^15, the rounded square root can reach the
  next whole number. The program's level is then one higher than the model's. An
  example is score 100·8388900² − 1, which is below 2^53.
- Text.IntToString: numbers printed by `${}` or `toString()` are modelled as
  whole numbers (`int`), which prints them as JavaScript does for whole numbers
  below 1e21 in magnitude. Fractions, exponent forms such as "1e+21", and the loss
  of integer precision above 2^53 are not modelled. This covers every printed
  number: Api.ParamText (`value.toString()` in getGames), the page and limit of
  Api.RankingQuery, and the status in Api.InvalidResponseMessage and
  Api.HttpErrorMessage.
- String lengths are counted in characters, not in JavaScript's UTF-16 code units.
  The 6-character password rule differs only for characters outside the Basic
  Multilingual Plane.
- Thrown `null` or `undefined`: handleApiError would itself throw on them.
- React machinery: rendering, effect scheduling, hydration flags (`mounted`,
  `isClient`), `useContext`/`useAuth`, and the `refetch` aliases.
  `router.push` is a returned redirect.
- `Promise.all` in the achievements hook: the two responses arrive together, or
  one thrown value arrives instead.
- AuthPage.AuthForm.HandleSubmit: the `catch` branch (app/auth/page.tsx:101-102)
  is not reachable in this model, because login and register catch every error
  themselves.
- UseGames.GameHook.OnGameId: an empty id never fetches, so `isLoading` keeps its
  initial `true`. The model states this and does not treat it as an error.
- The showPassword toggle of the page, which only changes an input's type.
- components/auth-background.tsx:
  - canvas drawing, gradients and the CSS colour lookup (lines 74-112, 137-143);
  - the `requestAnimationFrame` scheduling and listener registration
    (lines 151, 179-208), including the second `initWaves` call after
    `resizeCanvas`;
  - floating-point rounding.
- AuthBackground.Wave.Update: the pointer distance and bearing are passed in, so
  the model does not tie them to `mouseX`/`mouseY` through `sqrt` and `atan2`.
  Every property holds for any readings.
- AuthBackground.Background.ResizeCanvas: the box's size is taken as whole pixels,
  as a canvas stores it.
- components/header.tsx, components/team-section.tsx and
  src/components/Header/index.js: these are presentational markup. next.config.mjs
  is build configuration.
