/** The agent controller (the page component): credentials and category, the
    running flag, the status banner, the last articles found and a log that
    keeps the newest 50 entries. Its handlers fetch from the news route and,
    when something was found, post to the Telegram route. The two routes'
    answers as the page receives them are parameters. */
module Agent {
  import opened Types
  import Strings
  import NewsRoute
  import TelegramRoute

  const MaxLogs := 50
  const FillAll := "Veuillez remplir tous les champs"
  const Searching := "Recherche de nouvelles news..."
  const NothingNew := "Aucun nouvel article trouvé"
  const Sending := "Envoi vers Telegram..."
  const StartedLog := "\U{1F916} Agent démarré"
  const StartedStatus := "Agent démarré - recherche automatique activée"
  const Stopped := "Agent arrêté"

  /** The level of a log entry, and the type of the status banner. */
  datatype Kind = Info | Success | Error

  datatype LogEntry = LogEntry(message: string, kind: Kind)
  datatype Status = Status(kind: Kind, message: string)

  /** What `fetch` + `response.json()` gave the page: the decoded body of a
      route's answer, or the text of the exception it threw. */
  datatype Reply<T> = Delivered(body: T) | Rejected(error: string)

  /** A request the page makes to one of its routes, with its JSON body. */
  datatype RouteCall =
    | NewsCall(apiKey: string, category: string)
    | TelegramCall(botToken: string, chatId: string, articles: seq<Article>)

  /** The form's four values as one render of the page sees them; a handler
      created by that render reads these. */
  datatype Config = Config(botToken: string, chatId: string, newsApiKey: string, category: string)

  /** `!botToken || !chatId || !newsApiKey` is false. */
  predicate Filled(cfg: Config)
  {
    cfg.botToken != "" && cfg.chatId != "" && cfg.newsApiKey != ""
  }

  /** The three buttons of the control panel. */
  datatype Button = Start | Stop | RunNow

  /** `slice(-50)`: the newest (last) 50 entries, or all of them. */
  function Newest(s: seq<LogEntry>): (r: seq<LogEntry>)
    ensures |r| == if |s| <= MaxLogs then |s| else MaxLogs
    ensures forall i :: 0 <= i < |r| ==> r[i] == s[|s| - |r| + i]
  {
    if |s| <= MaxLogs then s else s[|s| - MaxLogs..]
  }

  /** The log after `addLog(e)`. */
  function Appended(logs: seq<LogEntry>, e: LogEntry): seq<LogEntry>
  {
    Newest(logs + [e])
  }

  /** `addLog` puts the new entry last, keeps before it the newest of the
      previous entries in their previous order, and never exceeds 50. */
  lemma AppendedKeepsNewest(logs: seq<LogEntry>, e: LogEntry)
    ensures var r := Appended(logs, e);
      |r| == (if |logs| + 1 <= MaxLogs then |logs| + 1 else MaxLogs)
      && r[|r| - 1] == e
      && r[..|r| - 1] == logs[|logs| - (|r| - 1)..]
  {
  }

  /** The log after one `addLog` per entry of `es`, in order. */
  function AppendAll(logs: seq<LogEntry>, es: seq<LogEntry>): seq<LogEntry>
    decreases |es|
  {
    if es == [] then logs else AppendAll(Appended(logs, es[0]), es[1..])
  }

  /** An `addLog` call followed by a batch is one batch. */
  lemma AppendFirst(logs: seq<LogEntry>, e: LogEntry, es: seq<LogEntry>)
    ensures AppendAll(Appended(logs, e), es) == AppendAll(logs, [e] + es)
  {
    assert ([e] + es)[0] == e && ([e] + es)[1..] == es;
  }

  /** Two `addLog` calls in a row. */
  lemma AppendTwo(logs: seq<LogEntry>, a: LogEntry, b: LogEntry)
    ensures AppendAll(logs, [a, b]) == Appended(Appended(logs, a), b)
  {
    var once := Appended(logs, a);
    assert [a, b][1..] == [b];
    assert AppendAll(logs, [a, b]) == AppendAll(once, [b]);
    assert [b][1..] == [];
    assert AppendAll(once, [b]) == AppendAll(Appended(once, b), []);
  }

  /** Truncating before appending more changes nothing once the result is
      truncated again. */
  lemma NewestAbsorbs(x: seq<LogEntry>, y: seq<LogEntry>)
    ensures Newest(Newest(x) + y) == Newest(x + y)
  {
  }

  /** Appending entries one at a time keeps exactly the newest 50 of the old
      log and the new entries taken together. */
  lemma {:induction false} AppendAllNewest(logs: seq<LogEntry>, es: seq<LogEntry>)
    requires |logs| <= MaxLogs
    ensures AppendAll(logs, es) == Newest(logs + es)
    decreases |es|
  {
    if es == [] {
      assert logs + es == logs;
    } else {
      var next := Appended(logs, es[0]);
      AppendAllNewest(next, es[1..]);
      NewestAbsorbs(logs + [es[0]], es[1..]);
      assert logs + [es[0]] + es[1..] == logs + es;
    }
  }

  /** Appending two batches is appending their concatenation. */
  lemma {:induction false} AppendAllConcat(logs: seq<LogEntry>, es: seq<LogEntry>, fs: seq<LogEntry>)
    ensures AppendAll(AppendAll(logs, es), fs) == AppendAll(logs, es + fs)
    decreases |es|
  {
    if es == [] {
      assert es + fs == fs;
    } else {
      AppendAllConcat(Appended(logs, es[0]), es[1..], fs);
      assert (es + fs)[0] == es[0] && (es + fs)[1..] == es[1..] + fs;
    }
  }

  /** The articles `fetchNews` returns: the route's list when it is non-empty,
      otherwise none (an error answer carries no `articles`). */
  function Fetched(reply: Reply<NewsRoute.NewsResponse>): (r: seq<Article>)
    ensures r != [] <==> reply.Delivered? && reply.body.Found? && reply.body.articles != []
    ensures r != [] ==> r == reply.body.articles
  {
    if reply.Delivered? && reply.body.Found? && |reply.body.articles| > 0 then reply.body.articles
    else []
  }

  /** The two entries `fetchNews` logs. */
  function FetchLogs(reply: Reply<NewsRoute.NewsResponse>): (es: seq<LogEntry>)
    ensures |es| == 2 && es[0] == LogEntry(Searching, Info)
    ensures es[1].kind == Success <==> Fetched(reply) != []
    ensures es[1].kind == Error <==> reply.Rejected?
    ensures reply.Delivered? && Fetched(reply) == [] ==> es[1] == LogEntry(NothingNew, Info)
    ensures Fetched(reply) != [] ==>
      es[1].message == Strings.Decimal(|Fetched(reply)|) + " articles trouvés"
    ensures reply.Rejected? ==> es[1].message == "Erreur lors de la recherche: " + reply.error
  {
    [LogEntry(Searching, Info)]
    + match reply
      case Rejected(e) => [LogEntry("Erreur lors de la recherche: " + e, Error)]
      case Delivered(_) =>
        var found := Fetched(reply);
        if found != [] then [LogEntry(Strings.Decimal(|found|) + " articles trouvés", Success)]
        else [LogEntry(NothingNew, Info)]
  }

  /** Whether `sendToTelegram` saw `data.success`. */
  predicate Published(reply: Reply<TelegramRoute.TelegramResponse>)
  {
    reply.Delivered? && reply.body.Report? && reply.body.success
  }

  /** `${error}` for what `sendToTelegram` caught: `new Error(data.error)`
      renders as "Error: <message>", or "Error" when the message is absent or
      empty; a rejection renders as the text it carries. */
  function FailureText(reply: Reply<TelegramRoute.TelegramResponse>): (r: string)
    ensures reply.Rejected? ==> r == reply.error
    ensures reply.Delivered? && reply.body.Failed? && reply.body.error != "" ==> r == "Error: " + reply.body.error
    ensures reply.Delivered? && !(reply.body.Failed? && reply.body.error != "") ==> r == "Error"
  {
    match reply
    case Rejected(e) => e
    case Delivered(body) =>
      if body.Failed? && body.error != "" then "Error: " + body.error else "Error"
  }

  /** The two entries `sendToTelegram` logs for `n` articles. */
  function SendLogs(n: nat, reply: Reply<TelegramRoute.TelegramResponse>): (es: seq<LogEntry>)
    ensures |es| == 2 && es[0] == LogEntry(Sending, Info)
    ensures es[1].kind == (if Published(reply) then Success else Error)
    ensures Published(reply) ==> es[1].message == "✓ " + Strings.Decimal(n) + " articles envoyés sur Telegram"
    ensures !Published(reply) ==> es[1].message == "✗ Erreur Telegram: " + FailureText(reply)
  {
    [LogEntry(Sending, Info)]
    + if Published(reply) then [LogEntry("✓ " + Strings.Decimal(n) + " articles envoyés sur Telegram", Success)]
      else [LogEntry("✗ Erreur Telegram: " + FailureText(reply), Error)]
  }

  /** The banner `sendToTelegram` leaves for `n` articles. */
  function SendStatus(n: nat, reply: Reply<TelegramRoute.TelegramResponse>): (s: Status)
    ensures s.kind == (if Published(reply) then Success else Error)
    ensures s.kind == Error ==> s.message == "Erreur: " + FailureText(reply)
    ensures Published(reply) ==> s.message == Strings.Decimal(n) + " articles publiés avec succès!"
  {
    if Published(reply) then Status(Success, Strings.Decimal(n) + " articles publiés avec succès!")
    else Status(Error, "Erreur: " + FailureText(reply))
  }

  /** The entries one run logs after the credential check passed: the fetch's
      two, then the dispatch's two only when something was found. */
  function RunLogs(news: Reply<NewsRoute.NewsResponse>, sent: Reply<TelegramRoute.TelegramResponse>): (es: seq<LogEntry>)
    ensures |es| == (if Fetched(news) != [] then 4 else 2)
    ensures es[..2] == FetchLogs(news)
    ensures |es| == 4 ==> es[2..] == SendLogs(|Fetched(news)|, sent)
  {
    var found := Fetched(news);
    FetchLogs(news) + if found != [] then SendLogs(|found|, sent) else []
  }

  /** The route calls of one run after the credential check passed: always the
      news request; the Telegram request only with a non-empty list. */
  function RunCalls(cfg: Config, news: Reply<NewsRoute.NewsResponse>): (cs: seq<RouteCall>)
    ensures 1 <= |cs| <= 2 && cs[0] == NewsCall(cfg.newsApiKey, cfg.category)
    ensures |cs| == 2 <==> Fetched(news) != []
    ensures |cs| == 2 ==> cs[1] == TelegramCall(cfg.botToken, cfg.chatId, Fetched(news))
  {
    var found := Fetched(news);
    [NewsCall(cfg.newsApiKey, cfg.category)] + if found != [] then [TelegramCall(cfg.botToken, cfg.chatId, found)] else []
  }

  /** The articles shown after a run: the list found, or the previous ones
      when nothing was found. */
  function NewsAfterRun(news: Reply<NewsRoute.NewsResponse>, before: seq<Article>): seq<Article>
  {
    if Fetched(news) != [] then Fetched(news) else before
  }

  /** The banner after a run: the dispatch's verdict when something was
      found, otherwise the banner shown before. */
  function StatusAfterRun(news: Reply<NewsRoute.NewsResponse>, sent: Reply<TelegramRoute.TelegramResponse>,
                          before: Option<Status>): Option<Status>
  {
    if Fetched(news) != [] then Some(SendStatus(|Fetched(news)|, sent)) else before
  }

  /** A batch of at most 50 entries logged onto a log of at most 50 ends the
      log, after as many older entries as still fit. */
  lemma EndsWithBatch(logs: seq<LogEntry>, es: seq<LogEntry>)
    requires |logs| <= MaxLogs && |es| <= MaxLogs
    ensures var after := AppendAll(logs, es);
      |es| <= |after| <= MaxLogs && after[|after| - |es|..] == es
  {
    AppendAllNewest(logs, es);
    var all := logs + es;
    var after := Newest(all);
    assert after[|after| - |es|..] == es by {
      forall i | 0 <= i < |es| ensures after[|after| - |es| + i] == es[i] {
        assert all[|all| - |es| + i] == es[i];
      }
    }
  }

  /** One run's effect on the log, proved once for every log: the run's
      entries end the log, after as many older entries as still fit. */
  lemma RunKeepsNewest(logs: seq<LogEntry>, news: Reply<NewsRoute.NewsResponse>,
                       sent: Reply<TelegramRoute.TelegramResponse>)
    requires |logs| <= MaxLogs
    ensures var after := AppendAll(logs, RunLogs(news, sent));
      |RunLogs(news, sent)| <= |after| <= MaxLogs
      && after[|after| - |RunLogs(news, sent)|..] == RunLogs(news, sent)
  {
    EndsWithBatch(logs, RunLogs(news, sent));
  }

  class AgentController {
    var botToken: string
    var chatId: string
    var newsApiKey: string
    var category: string
    var isRunning: bool
    var status: Option<Status>
    var news: seq<Article>
    var logs: seq<LogEntry>

    /** The log never holds more than 50 entries. */
    ghost predicate Valid()
      reads this`logs
    {
      |logs| <= MaxLogs
    }

    /** The page's initial state. */
    constructor ()
      ensures Valid()
      ensures botToken == "" && chatId == "" && newsApiKey == "" && category == "technology"
      ensures !isRunning && status == None && news == [] && logs == []
    {
      botToken, chatId, newsApiKey, category := "", "", "", "technology";
      isRunning, status, news, logs := false, None, [], [];
    }

    /** The form values of the current render. */
    function Current(): Config
      reads this`botToken, this`chatId, this`newsApiKey, this`category
    {
      Config(botToken, chatId, newsApiKey, category)
    }

    /** The `disabled` attribute of each button, negated. */
    predicate Enabled(b: Button)
      reads this`isRunning
    {
      match b
      case Start => !isRunning
      case Stop => isRunning
      case RunNow => !isRunning
    }

    /** The four inputs of the configuration form. The next run, whether from
        a button or from the effect re-firing, reads the new values. */
    method Configure(botToken': string, chatId': string, newsApiKey': string, category': string)
      modifies this`botToken, this`chatId, this`newsApiKey, this`category
      ensures botToken == botToken' && chatId == chatId' && newsApiKey == newsApiKey' && category == category'
    {
      botToken, chatId, newsApiKey, category := botToken', chatId', newsApiKey', category';
    }

    /** `addLog`: append, keep the newest 50. */
    method AddLog(message: string, kind: Kind)
      requires Valid()
      modifies this`logs
      ensures Valid()
      ensures logs == Appended(old(logs), LogEntry(message, kind))
    {
      logs := Appended(logs, LogEntry(message, kind));
    }

    /** `fetchNews`, given what the news route answered. */
    method FetchNews(reply: Reply<NewsRoute.NewsResponse>) returns (articles: seq<Article>)
      requires Valid()
      modifies this`logs, this`news
      ensures Valid()
      ensures articles == Fetched(reply)
      ensures news == if articles != [] then articles else old(news)
      ensures logs == AppendAll(old(logs), FetchLogs(reply))
    {
      ghost var before := logs;
      var es := FetchLogs(reply);
      AddLog(Searching, Info);
      match reply {
        case Rejected(e) =>
          AddLog("Erreur lors de la recherche: " + e, Error);
          articles := [];
          assert es[1] == LogEntry("Erreur lors de la recherche: " + e, Error);
        case Delivered(body) =>
          if body.Found? && |body.articles| > 0 {
            news := body.articles;
            AddLog(Strings.Decimal(|body.articles|) + " articles trouvés", Success);
            articles := body.articles;
            assert es[1] == LogEntry(Strings.Decimal(|body.articles|) + " articles trouvés", Success);
          } else {
            AddLog(NothingNew, Info);
            articles := [];
            assert es[1] == LogEntry(NothingNew, Info);
          }
      }
      assert es == [es[0], es[1]];
      AppendTwo(before, es[0], es[1]);
    }

    /** `sendToTelegram`, given what the Telegram route answered. */
    method SendToTelegram(articles: seq<Article>, reply: Reply<TelegramRoute.TelegramResponse>)
      requires Valid()
      modifies this`logs, this`status
      ensures Valid()
      ensures logs == AppendAll(old(logs), SendLogs(|articles|, reply))
      ensures status == Some(SendStatus(|articles|, reply))
    {
      ghost var before := logs;
      var es := SendLogs(|articles|, reply);
      AddLog(Sending, Info);
      if Published(reply) {
        AddLog("✓ " + Strings.Decimal(|articles|) + " articles envoyés sur Telegram", Success);
        status := Some(Status(Success, Strings.Decimal(|articles|) + " articles publiés avec succès!"));
      } else {
        var error := FailureText(reply);
        AddLog("✗ Erreur Telegram: " + error, Error);
        status := Some(Status(Error, "Erreur: " + error));
      }
      assert es == [es[0], es[1]];
      AppendTwo(before, es[0], es[1]);
    }

    /** `runAgent` as created by a render whose form values are `cfg`: refuse
        without credentials; otherwise fetch, and dispatch only a non-empty
        list. The route calls made are returned. */
    method RunAgent(cfg: Config, newsReply: Reply<NewsRoute.NewsResponse>,
                    sendReply: Reply<TelegramRoute.TelegramResponse>)
      returns (calls: seq<RouteCall>)
      requires Valid()
      modifies this`logs, this`news, this`status
      ensures Valid()
      ensures !Filled(cfg) ==>
        status == Some(Status(Error, FillAll)) && logs == old(logs) && news == old(news) && calls == []
      ensures Filled(cfg) ==>
        calls == RunCalls(cfg, newsReply)
        && logs == AppendAll(old(logs), RunLogs(newsReply, sendReply))
        && news == NewsAfterRun(newsReply, old(news))
        && status == StatusAfterRun(newsReply, sendReply, old(status))
    {
      if !Filled(cfg) {
        status := Some(Status(Error, FillAll));
        return [];
      }
      ghost var before := logs;
      calls := [NewsCall(cfg.newsApiKey, cfg.category)];
      var articles := FetchNews(newsReply);
      if |articles| > 0 {
        calls := calls + [TelegramCall(cfg.botToken, cfg.chatId, articles)];
        SendToTelegram(articles, sendReply);
        AppendAllConcat(before, FetchLogs(newsReply), SendLogs(|articles|, sendReply));
      } else {
        assert FetchLogs(newsReply) + [] == FetchLogs(newsReply);
      }
    }

    /** `startAgent`: refuse without credentials; otherwise mark the agent as
        running, log and announce it, and run once. */
    method StartAgent(newsReply: Reply<NewsRoute.NewsResponse>, sendReply: Reply<TelegramRoute.TelegramResponse>)
      returns (calls: seq<RouteCall>)
      requires Valid()
      modifies this`isRunning, this`logs, this`news, this`status
      ensures Valid()
      ensures !Filled(Current()) ==>
        status == Some(Status(Error, FillAll)) && isRunning == old(isRunning)
        && logs == old(logs) && news == old(news) && calls == []
      ensures Filled(Current()) ==>
        isRunning
        && calls == RunCalls(Current(), newsReply)
        && logs == AppendAll(old(logs), [LogEntry(StartedLog, Success)] + RunLogs(newsReply, sendReply))
        && news == NewsAfterRun(newsReply, old(news))
        && status == StatusAfterRun(newsReply, sendReply, Some(Status(Success, StartedStatus)))
    {
      if !Filled(Current()) {
        status := Some(Status(Error, FillAll));
        return [];
      }
      ghost var before := logs;
      var cfg := Current();
      MarkStarted();
      assert Current() == cfg;
      calls := RunAgent(cfg, newsReply, sendReply);
      assert Current() == cfg;
      AppendFirst(before, LogEntry(StartedLog, Success), RunLogs(newsReply, sendReply));
    }

    /** What `startAgent` does before its run: raise the flag, log the start
        and announce it. */
    method MarkStarted()
      requires Valid()
      modifies this`isRunning, this`logs, this`status
      ensures Valid() && isRunning
      ensures logs == Appended(old(logs), LogEntry(StartedLog, Success))
      ensures status == Some(Status(Success, StartedStatus))
    {
      isRunning := true;
      AddLog(StartedLog, Success);
      status := Some(Status(Success, StartedStatus));
    }

    /** `stopAgent`: unconditional; the Stop button is what keeps it from
        being used while the agent is idle. */
    method StopAgent()
      requires Valid()
      modifies this`isRunning, this`logs, this`status
      ensures Valid()
      ensures !isRunning
      ensures logs == Appended(old(logs), LogEntry(Stopped, Info))
      ensures status == Some(Status(Info, Stopped))
    {
      isRunning := false;
      AddLog(Stopped, Info);
      status := Some(Status(Info, Stopped));
    }

    /** One run started by the effect on `isRunning`/`interval`. Its
        `setInterval` is the `interval` state setter, so each firing stores a
        new Promise in `interval` and the effect fires again after the next
        commit. While the agent is running, the run is the `runAgent` of the
        latest render, that is, with the values the form shows now, refusal
        included; otherwise nothing happens. */
    method TimerTick(newsReply: Reply<NewsRoute.NewsResponse>, sendReply: Reply<TelegramRoute.TelegramResponse>)
      returns (calls: seq<RouteCall>)
      requires Valid()
      modifies this`logs, this`news, this`status
      ensures Valid()
      ensures !isRunning ==> calls == [] && logs == old(logs) && news == old(news) && status == old(status)
      ensures isRunning && !Filled(Current()) ==>
        status == Some(Status(Error, FillAll)) && logs == old(logs) && news == old(news) && calls == []
      ensures isRunning && Filled(Current()) ==>
        calls == RunCalls(Current(), newsReply)
        && logs == AppendAll(old(logs), RunLogs(newsReply, sendReply))
        && news == NewsAfterRun(newsReply, old(news))
        && status == StatusAfterRun(newsReply, sendReply, old(status))
    {
      if isRunning {
        calls := RunAgent(Current(), newsReply, sendReply);
      } else {
        calls := [];
      }
    }

    /** A click on a button: a disabled button does nothing; an enabled one
        runs its handler with the current form values. */
    method Press(b: Button, newsReply: Reply<NewsRoute.NewsResponse>, sendReply: Reply<TelegramRoute.TelegramResponse>)
      returns (calls: seq<RouteCall>)
      requires Valid()
      modifies this`isRunning, this`logs, this`news, this`status
      ensures Valid()
      ensures !old(Enabled(b)) ==>
        calls == [] && isRunning == old(isRunning) && logs == old(logs)
        && news == old(news) && status == old(status)
      ensures old(Enabled(b)) && b == Stop ==>
        calls == [] && !isRunning && news == old(news)
        && logs == Appended(old(logs), LogEntry(Stopped, Info)) && status == Some(Status(Info, Stopped))
      ensures old(Enabled(b)) && b != Stop && !Filled(Current()) ==>
        calls == [] && isRunning == old(isRunning)
        && logs == old(logs) && news == old(news) && status == Some(Status(Error, FillAll))
      ensures old(Enabled(b)) && b != Stop && Filled(Current()) ==>
        calls == RunCalls(Current(), newsReply)
        && news == NewsAfterRun(newsReply, old(news))
      ensures old(Enabled(b)) && b == Start && Filled(Current()) ==>
        isRunning
        && logs == AppendAll(old(logs), [LogEntry(StartedLog, Success)] + RunLogs(newsReply, sendReply))
        && status == StatusAfterRun(newsReply, sendReply, Some(Status(Success, StartedStatus)))
      ensures old(Enabled(b)) && b == RunNow && Filled(Current()) ==>
        !isRunning
        && logs == AppendAll(old(logs), RunLogs(newsReply, sendReply))
        && status == StatusAfterRun(newsReply, sendReply, old(status))
      ensures b == RunNow ==> isRunning == old(isRunning)
      ensures calls != [] ==> calls[0] == NewsCall(newsApiKey, category) && Filled(Current()) && !old(isRunning)
    {
      if !Enabled(b) {
        return [];
      }
      match b {
        case Start => calls := StartAgent(newsReply, sendReply);
        case Stop => StopAgent(); calls := [];
        case RunNow => calls := RunAgent(Current(), newsReply, sendReply);
      }
    }
  }

  /** What the page would receive from the news route itself reaches the
      dispatcher only as articles with a truthy title and description. */
  lemma OnlyValidArticlesDispatched(apiKey: string, category: string, upstream: NewsRoute.Upstream)
    ensures var found := Fetched(Delivered(NewsRoute.Post(NewsRoute.NewsRequest(Str(apiKey), Str(category)), upstream).response));
      forall i :: 0 <= i < |found| ==> Truthy(found[i].title) && Truthy(found[i].description)
  {
  }
}
