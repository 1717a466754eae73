# News-to-Telegram agent: a Dafny model

The system is a small Next.js application. A page, the agent controller, holds
three credentials, a category, a running flag, a status banner, the last
articles found and a log of at most 50 entries. When it runs, it asks its
news route for articles. The news route checks the NewsAPI key, fetches the top
five French headlines of the category and keeps the articles that have a title
and a description. If the list is not empty, the page posts it to its Telegram
route. That route sends one Markdown message per article to the bot API, one
after the other with a one-second pause after each. It records one result per
article and reports whether every send succeeded.

The model has five modules:

- `Types` (types.dfy): decoded JSON values as JavaScript sees them. A string
  member is `Missing`, `Null` or `Str(s)`. It is truthy only when it is a
  non-empty string. `Show` renders it the way a template literal does
  ("undefined", "null"). The `Article` record is also defined here.
- `Strings` (strings.dfy): `split`/`join` on one separator, with the proof
  that splitting a join of separator-free pieces gives the pieces back, and
  the decimal rendering of a count.
- `NewsRoute` (news_route.dfy): pure functions. The provider's reply is a
  parameter (`Upstream`).
- `TelegramRoute` (telegram_route.dfy): the pure specification `Exchange` and
  the loop `Post`, proved equal to it. The bot API is an oracle:
  `sink(k)` is its answer to the k-th call of a request.
- `Agent` (agent.dfy): the class `AgentController`, whose methods update the
  page state. The answers of the two routes, as the page receives them, are
  parameters. A method returns the route calls it made.

Some behaviours of the code a reader might not expect, which the model follows:

- The filter does not trim, so whitespace-only titles survive.
- A pause follows every answered send, including the last one.
- In the message, only a single line break comes before the "Source" line.
- `stopAgent` is not a no-op when the agent is idle. It still logs and sets the
  banner. Only the disabled Stop button keeps it from being used then (see
  `Agent.AgentController.Press`).
- An empty article list passes the Telegram route's parameter check, and the
  result is a vacuous success.
- There is no timer. The state pair at app/page.tsx:24 is named
  `[interval, setInterval]`, so inside the component `setInterval` is the
  state setter, not the browser's timer. The call at app/page.tsx:122 passes
  `executeAgent` to that setter as an updater: React calls it, which starts
  another run, and stores the Promise it returns in `interval`. `timer` is
  undefined, so `clearInterval(timer)` does nothing. Because `interval` is a
  dependency of the effect and a new Promise differs from the old value, the
  effect fires again after every commit, without end, while `isRunning`
  holds. Each firing uses the `runAgent` of the latest render, so it reads the
  form values shown at that moment: an edit to the form takes effect at the
  next firing, and emptying a credential makes each firing refuse with
  "Veuillez remplir tous les champs". In the model, one firing is
  `TimerTick`. Starting the agent is `StartAgent`, and the effect's firings
  follow it.

## Model

| member | source | states |
|---|---|---|
| `NewsRoute.Post` | app/api/news/route.ts:7-11 | No upstream request is made exactly when the key is missing or empty, and then the answer is 400 "API key manquante". Otherwise exactly one request goes to the fixed endpoint with the category and the key, and the provider's reply decides the answer. |
| `NewsRoute.QueryParameters` | app/api/news/route.ts:11 | The query consists of exactly four parameters: `category=<category>`, `language=fr`, `pageSize=5` and `apiKey=<key>`. This holds whenever neither value contains '&'. |
| `NewsRoute.Respond` | app/api/news/route.ts:16-34 | The answer lists articles exactly when the reply has status "ok", an articles list, and a source object on every surviving article. The list is the projections of the surviving articles, in order. It is no longer than the input, and every entry has a truthy title and description. Otherwise the answer is 400 with `message` (or "Erreur API" if `message` is not a non-empty string), or 500 "Erreur serveur" when the fetch throws or a surviving article has no source object. |
| `NewsRoute.Filter` | app/api/news/route.ts:18 | The output is no longer than the input. Every survivor has a truthy title and description. An article survives exactly when it occurs in the input and passes the test. |
| `NewsRoute.FilterIsSubsequence` | app/api/news/route.ts:17-18 | The filter is stable: survivors keep their relative order. |
| `NewsRoute.FilterCount` | app/api/news/route.ts:18 | Each passing article survives as many times as it occurs in the input. Other articles never survive. |
| `NewsRoute.FilterAppend` | app/api/news/route.ts:18 | Filtering a concatenation equals concatenating the filtered pieces. This is an order property of the stable filter. |
| `NewsRoute.FilterIdempotent` | app/api/news/route.ts:18 | Filtering twice is the same as filtering once. |
| `NewsRoute.ProjectAll` | app/api/news/route.ts:19-25 | The projection succeeds exactly when every article has a source object. On success it has one entry per article, and the i-th entry is `{title, description, url, source.name, publishedAt}` of the i-th article. |
| `TelegramRoute.Exchange` | app/api/telegram/route.ts:7-51 | A missing token, chat id or article list gives 400 "Paramètres manquants", with no send and no pause. Otherwise the calls follow article order, one per article. In a report, `success` holds exactly when every result succeeded, and the message is the matching one of the two summaries. |
| `TelegramRoute.Post` | app/api/telegram/route.ts:11-47 | The send loop produces exactly what `Exchange` specifies: the answer, the ordered calls and the pauses. |
| `TelegramRoute.Message` | app/api/telegram/route.ts:14 | The message is six lines joined by line breaks: "📰 *title*", an empty line, the description, an empty line, "🔗 [Lire l'article](url)", and "📌 Source: source". |
| `TelegramRoute.MessageLines` | app/api/telegram/route.ts:14 | When no field contains a line break, a message consists of exactly six lines: bold title, blank line, description, blank line, link "Lire l'article", and the Source line directly after the link. |
| `TelegramRoute.Record` | app/api/telegram/route.ts:33-37 | A result names the article's title and succeeds exactly when the bot API answered `ok`. A failed result carries the API's `description`. A successful one has no `error` member. |
| `TelegramRoute.FirstBroken` | app/api/telegram/route.ts:13-31 | Gives the index of the first call that throws, or the number of articles if none does. Every earlier call was answered. |
| `TelegramRoute.AllSucceeded` | app/api/telegram/route.ts:42 | `results.every(r => r.success)` holds exactly when every entry succeeded. For an empty list it holds vacuously. |
| `TelegramRoute.OneSendPerArticle` | app/api/telegram/route.ts:13-40 | If every call is answered, N articles give N calls, N results and N pauses. The i-th call carries the i-th article's message, and the i-th result is recorded from the i-th answer. |
| `TelegramRoute.FailureIsolation` | app/api/telegram/route.ts:33-47 | An answer with `ok=false` at position k is recorded as `{success:false, article, error}`. Every other article is still sent and recorded. The verdict is failure, with the partial-failure summary. |
| `TelegramRoute.EmptyListSucceeds` | app/api/telegram/route.ts:42-47 | An empty article list gives success with no results, no calls and no pauses. |
| `TelegramRoute.BrokenCallAborts` | app/api/telegram/route.ts:49-51 | If call k throws, the answer is 500 "Erreur serveur" and the collected results are dropped. Calls 0..k were made, and there were k pauses. |
| `Agent.Fetched` | app/page.tsx:46-53 | `fetchNews` returns a non-empty list exactly when the route answered with a non-empty `articles` list, and then that list. In every other case it returns nothing, including after a throw. |
| `Agent.FailureText` | app/page.tsx:74-79 | The text `${error}` of the caught error. For `new Error(data.error)`, it is "Error: <data.error>" when that is a non-empty string, and "Error" otherwise, including when the answer had no `error`. For a thrown call, it is the exception's own text. |
| `Agent.Newest` | app/page.tsx:32 | `slice(-50)` keeps min(n, 50) entries: the last ones, in their order. |
| `Agent.AppendedKeepsNewest` | app/page.tsx:30-33 | `addLog` makes the new entry the last one. Before it come the newest older entries in their previous order. The new length is min(old+1, 50). |
| `Agent.NewestAbsorbs` | app/page.tsx:32 | Truncating early and truncating again after appending gives the same result as truncating once at the end. |
| `Agent.AppendAllNewest` | app/page.tsx:30-33 | A sequence of `addLog` calls on a log of at most 50 entries leaves the newest 50 entries of the old log and the new entries taken together. |
| `Agent.AppendAllConcat` | app/page.tsx:30-33 | Logging two batches one after the other is the same as logging their concatenation. |
| `Agent.FetchLogs` | app/page.tsx:35-58 | `fetchNews` always logs "Recherche de nouvelles news..." first. It then logs at success level exactly when the list is non-empty, and at error level exactly when the call threw. An empty list or an error answer gives "Aucun nouvel article trouvé" at info level. A non-empty list logs "N articles trouvés" with its count N. A thrown call logs "Erreur lors de la recherche: " followed by the error. |
| `Agent.SendLogs` | app/page.tsx:60-80 | `sendToTelegram` first logs "Envoi vers Telegram...". It then writes one entry. When the answer had `success`, that entry is at success level and gives the article count. Otherwise it is at error level and reads "✗ Erreur Telegram: " followed by the caught error's text. |
| `Agent.SendStatus` | app/page.tsx:71-80 | The banner has success type exactly when the answer had `success`, and it then reads "N articles publiés avec succès!" with the article count N. Otherwise it reads "Erreur: " followed by the caught error's text. |
| `Agent.RunLogs` | app/page.tsx:83-93 | A run logs the fetch's two entries (`FetchLogs`). Exactly when the list was non-empty, the dispatch's two entries (`SendLogs` for that many articles) follow. |
| `Agent.RunCalls` | app/page.tsx:83-92 | A run makes one or two route calls. The first always goes to the news route with the run's key and category. The second exists exactly when the fetch returned a non-empty list, and it posts that list with the run's token and chat id. |
| `Agent.RunKeepsNewest` | app/page.tsx:30-33 | After a run, the log holds at most 50 entries and ends with that run's entries. |
| `Agent.OnlyValidArticlesDispatched` | app/page.tsx:46-49 | Articles that reach the dispatcher from the news route have a truthy title and description. |
| `Agent.AgentController.AddLog` | app/page.tsx:30-33 | The log becomes `Appended(old log, entry)`. Nothing else changes, and the log stays within 50 entries. |
| `Agent.AgentController.FetchNews` | app/page.tsx:35-58 | Returns the non-empty list or nothing. `news` is replaced only by a non-empty list, and the log gets `FetchLogs`. |
| `Agent.AgentController.SendToTelegram` | app/page.tsx:60-81 | The log gets `SendLogs`, and the banner becomes `SendStatus`. |
| `Agent.AgentController.RunAgent` | app/page.tsx:83-93 | A run uses the form values of the render that created it. With an empty credential, the banner says "Veuillez remplir tous les champs" and nothing else changes: no call, no log. Otherwise the run makes the calls, log entries, news and banner given by `RunCalls`, `RunLogs`, `NewsAfterRun` and `StatusAfterRun`. The news becomes the non-empty list found, or stays as it was. The banner becomes `SendStatus` after a dispatch, or stays as it was. |
| `Agent.AgentController.StartAgent` | app/page.tsx:95-105 | With an empty credential, it refuses like `RunAgent`, and `isRunning` is unchanged. Otherwise it sets `isRunning`, logs "🤖 Agent démarré" before the run's entries, and runs once with the current form values. The banner shows the start message unless the run dispatched. |
| `Agent.AgentController.MarkStarted` | app/page.tsx:101-103 | The part of `startAgent` before its run. It sets `isRunning`, logs "🤖 Agent démarré" at success level and shows the start banner "Agent démarré - recherche automatique activée". |
| `Agent.AgentController.StopAgent` | app/page.tsx:107-111 | Clears `isRunning`, logs "Agent arrêté" at info level and sets the info banner. |
| `Agent.AgentController.TimerTick` | app/page.tsx:113-126 | One run started by a firing of the effect. While the agent runs, it is a full run with the form values shown now. With an empty credential, that run refuses: the banner says "Veuillez remplir tous les champs", and there is no call, no log entry and no change to the news. Otherwise the calls, log, news and banner are those of `RunAgent`. When the agent is idle, nothing changes. |
| `Agent.AgentController.Press` | app/page.tsx:193-215 | Start and "run now" are enabled only while idle, and Stop only while running. A press on a disabled button changes nothing. An enabled Stop has the whole effect of `stopAgent`. An enabled Start has the whole effect of `startAgent`, and "run now" that of `runAgent`, each with the current form values and including the credential refusal. A press that reaches a route first calls the news route, and only with credentials and while idle. |
| `Agent.AgentController.Configure` | app/page.tsx:140-178 | Each input sets its own field to the new value. The running flag, the log, the news and the banner cannot change. The next run, from a button or from the effect, reads the new values. |
| `Agent.AgentController.constructor` | app/page.tsx:20-28 | The initial state: empty credentials, category "technology", not running, no banner, no news, empty log. |
| `Strings.DecimalRoundTrip` | app/page.tsx:48 | The count written into "N articles trouvés" reads back as N. |

## Left out

- The outbound HTTP calls are oracles and are not modelled: the NewsAPI fetch, the bot API's `sendMessage` and the page's calls to its routes. Their answers are parameters. So are the exception texts the page puts into its messages.
- Next.js request and response objects, HTTP status plumbing and the decoding of the routes' own JSON bodies are not modelled. A body that cannot be parsed is not modelled either.
- JSON members of a non-string type, a non-array `articles` value, and null entries inside an article list are not modelled. A string member is absent, null or a string.
- TimerTick: how often the effect fires is not modelled. It fires without end while the agent runs, and each firing starts two runs: the updater passed to the shadowed `setInterval` and the direct call to `executeAgent`. `TimerTick` stands for one run of one firing, and a caller applies it as many times as it likes. The Promise stored in `interval`, the number input that sets `interval`, and the effect's clean-up (which does nothing) are not modelled.
- The asynchronous interleaving of runs is not modelled. A run is one atomic method, so overlapping runs, which the code does not prevent, are not represented.
- The pause after each send is counted (`waits`) but its duration is not modelled.
- Timestamps of log entries (`toLocaleTimeString`), date formatting, all JSX rendering and `console.error` are not modelled.
- app/layout.tsx is not part of this model. It holds only static metadata.
