/** The dispatch route (POST /api/telegram): checks its parameters, then sends
    one Markdown message per article to the Telegram bot API, one after the
    other, recording one result per article, and folds the results into an
    overall verdict. The bot API is an oracle: `sink(k)` is its answer to the
    k-th call of one request. */
module TelegramRoute {
  import opened Types
  import Strings

  const MissingParams := "Paramètres manquants"
  const ServerError := "Erreur serveur"
  const AllSent := "Tous les articles ont été envoyés"
  const SomeFailed := "Certains articles n'ont pas pu être envoyés"

  /** The route's JSON body; `articles` is None when absent or null. */
  datatype TelegramRequest = TelegramRequest(botToken: Field, chatId: Field, articles: Option<seq<Article>>)

  /** The answer to one sendMessage call: the decoded `{ok, description}`, or
      an exception (network failure, or a body that is not JSON). */
  datatype SinkReply = Answered(ok: bool, description: Field) | Broken

  /** One entry of `results`; a success carries no `error` member. */
  datatype SendResult = SendResult(success: bool, article: Field, error: Field)

  /** The route's answer. */
  datatype TelegramResponse =
    | Report(success: bool, results: seq<SendResult>, message: string)
    | Failed(status: nat, error: string)

  /** One sendMessage call: the URL and the JSON body it posts. */
  datatype Outbound = Outbound(endpoint: string, chatId: Field, text: string, parseMode: string, disablePreview: bool)

  /** Everything observable of one request: the answer, the calls made to the
      bot API in order, and the number of 1000 ms pauses taken. */
  datatype Trace = Trace(response: TelegramResponse, sends: seq<Outbound>, waits: nat)

  /** The message text for one article: the bold title, a blank line, the
      description, a blank line, the link, and the source directly below the
      link, joined by line breaks. */
  function Message(a: Article): (r: string)
    ensures r == Strings.Join([
      "\U{1F4F0} *" + Show(a.title) + "*",
      "",
      Show(a.description),
      "",
      "\U{1F517} [Lire l'article](" + Show(a.url) + ")",
      "\U{1F4CC} Source: " + Show(a.source)], '\n')
  {
    var t, d, u, src := Show(a.title), Show(a.description), Show(a.url), Show(a.source);
    JoinSix("\U{1F4F0} *" + t + "*", "", d, "", "\U{1F517} [Lire l'article](" + u + ")", "\U{1F4CC} Source: " + src, '\n');
    TemplateRegroup(t, d, u, src);
    "\U{1F4F0} *" + t + "*\n\n" + d + "\n\n\U{1F517} [Lire l'article](" + u + ")\n\U{1F4CC} Source: " + src
  }

  /** The six lines of a message, when no field contains a line break: the
      bold title, a blank line, the description, a blank line, the link, and
      directly below it (no blank line) the source. */
  lemma MessageLines(a: Article)
    requires '\n' !in Show(a.title) && '\n' !in Show(a.description)
    requires '\n' !in Show(a.url) && '\n' !in Show(a.source)
    ensures Strings.Split(Message(a), '\n') == [
      "\U{1F4F0} *" + Show(a.title) + "*",
      "",
      Show(a.description),
      "",
      "\U{1F517} [Lire l'article](" + Show(a.url) + ")",
      "\U{1F4CC} Source: " + Show(a.source)]
  {
    var t, d, u, src := Show(a.title), Show(a.description), Show(a.url), Show(a.source);
    var first := "\U{1F4F0} *" + t + "*";
    var link := "\U{1F517} [Lire l'article](" + u + ")";
    var last := "\U{1F4CC} Source: " + src;
    assert '\n' !in first && '\n' !in link && '\n' !in last;
    Strings.SplitJoin([first, "", d, "", link, last], '\n');
  }

  /** Join of six pieces, spelled out. */
  lemma JoinSix(a: string, b: string, c: string, d: string, e: string, f: string, sep: char)
    ensures Strings.Join([a, b, c, d, e, f], sep)
         == a + [sep] + (b + [sep] + (c + [sep] + (d + [sep] + (e + [sep] + f))))
  {
    assert Strings.Join([f], sep) == f;
    assert [e, f][1..] == [f];
    assert Strings.Join([e, f], sep) == e + [sep] + f;
    assert [d, e, f][1..] == [e, f];
    assert Strings.Join([d, e, f], sep) == d + [sep] + (e + [sep] + f);
    assert [c, d, e, f][1..] == [d, e, f];
    assert Strings.Join([c, d, e, f], sep) == c + [sep] + (d + [sep] + (e + [sep] + f));
    assert [b, c, d, e, f][1..] == [c, d, e, f];
    assert [a, b, c, d, e, f][1..] == [b, c, d, e, f];
  }

  /** The message template regrouped line by line. */
  lemma TemplateRegroup(t: string, d: string, u: string, s: string)
    ensures "\U{1F4F0} *" + t + "*\n\n" + d + "\n\n\U{1F517} [Lire l'article](" + u + ")\n\U{1F4CC} Source: " + s
         == ("\U{1F4F0} *" + t + "*") + "\n" + ("" + "\n" + (d + "\n" + ("" + "\n"
            + (("\U{1F517} [Lire l'article](" + u + ")") + "\n" + ("\U{1F4CC} Source: " + s)))))
  {
    Regroup("\U{1F4F0} *", t, "*", "\n", "", d, "\U{1F517} [Lire l'article](", u, ")", "\U{1F4CC} Source: ", s,
            "*\n\n", "\n\n\U{1F517} [Lire l'article](", ")\n\U{1F4CC} Source: ");
  }

  /** The same regrouping over arbitrary pieces. */
  lemma Regroup(head: string, t: string, star: string, nl: string, e: string, d: string,
                link: string, u: string, close: string, src: string, s: string,
                mid1: string, mid2: string, mid3: string)
    requires mid1 == star + nl + e + nl && mid2 == nl + e + nl + link && mid3 == close + nl + src
    ensures head + t + mid1 + d + mid2 + u + mid3 + s
         == (head + t + star) + nl + (e + nl + (d + nl + (e + nl + ((link + u + close) + nl + (src + s)))))
  {
  }

  /** The bot API endpoint for a token. */
  function Endpoint(botToken: string): string
  {
    "https://api.telegram.org/bot" + botToken + "/sendMessage"
  }

  /** The call made for one article. */
  function Send(botToken: string, chatId: Field, a: Article): Outbound
  {
    Outbound(Endpoint(botToken), chatId, Message(a), "Markdown", false)
  }

  /** The first `k` calls of a request, one per article, in article order. */
  function Sends(botToken: string, chatId: Field, articles: seq<Article>, k: nat): (r: seq<Outbound>)
    requires k <= |articles|
  {
    seq(k, i requires 0 <= i < k => Send(botToken, chatId, articles[i]))
  }

  /** The result recorded for an article whose call was answered. */
  function Record(a: Article, reply: SinkReply): (r: SendResult)
    requires reply.Answered?
    ensures r.success == reply.ok && r.article == a.title
    ensures !r.success ==> r.error == reply.description
    ensures r.success ==> r.error == Missing
  {
    if reply.ok then SendResult(true, a.title, Missing)
    else SendResult(false, a.title, reply.description)
  }

  /** The results of the first `k` articles, all answered. */
  function Results(articles: seq<Article>, sink: nat -> SinkReply, k: nat): seq<SendResult>
    requires k <= |articles|
    requires forall j :: 0 <= j < k ==> sink(j).Answered?
  {
    seq(k, i requires 0 <= i < k => Record(articles[i], sink(i)))
  }

  /** One more call. */
  lemma SendsStep(botToken: string, chatId: Field, articles: seq<Article>, k: nat)
    requires k < |articles|
    ensures Sends(botToken, chatId, articles, k + 1)
         == Sends(botToken, chatId, articles, k) + [Send(botToken, chatId, articles[k])]
  {
  }

  /** One more answered call. */
  lemma ResultsStep(articles: seq<Article>, sink: nat -> SinkReply, k: nat)
    requires k < |articles|
    requires forall j :: 0 <= j <= k ==> sink(j).Answered?
    ensures Results(articles, sink, k + 1) == Results(articles, sink, k) + [Record(articles[k], sink(k))]
  {
  }

  /** The index, from `i` on, of the first call that throws, or `n`. */
  function FirstBroken(sink: nat -> SinkReply, i: nat, n: nat): (k: nat)
    requires i <= n
    ensures i <= k <= n
    ensures forall j :: i <= j < k ==> sink(j).Answered?
    ensures k < n ==> sink(k).Broken?
    decreases n - i
  {
    if i == n then n
    else if sink(i).Broken? then i
    else FirstBroken(sink, i + 1, n)
  }

  /** `results.every(r => r.success)`. */
  function AllSucceeded(results: seq<SendResult>): (r: bool)
    ensures r <==> forall i :: 0 <= i < |results| ==> results[i].success
    decreases |results|
  {
    results == [] || (results[0].success && AllSucceeded(results[1..]))
  }

  function Summary(success: bool): string
  {
    if success then AllSent else SomeFailed
  }

  /** The parameter check: `!botToken || !chatId || !articles` refuses. */
  predicate Complete(req: TelegramRequest)
  {
    Truthy(req.botToken) && Truthy(req.chatId) && req.articles.Some?
  }

  /** What one request does, as a function of the body and the bot API's
      answers: the specification of Post. */
  function Exchange(req: TelegramRequest, sink: nat -> SinkReply): (t: Trace)
    ensures !Complete(req) ==> t == Trace(Failed(400, MissingParams), [], 0)
    ensures Complete(req) ==>
      var articles := req.articles.value;
      |t.sends| <= |articles|
      && forall i :: 0 <= i < |t.sends| ==> t.sends[i] == Send(req.botToken.s, req.chatId, articles[i])
    ensures t.response.Report? ==>
      (t.response.success <==> forall i :: 0 <= i < |t.response.results| ==> t.response.results[i].success)
      && t.response.message == (if t.response.success then AllSent else SomeFailed)
  {
    if !Complete(req) then Trace(Failed(400, MissingParams), [], 0)
    else
      var articles := req.articles.value;
      var n := |articles|;
      var k := FirstBroken(sink, 0, n);
      if k < n then
        Trace(Failed(500, ServerError), Sends(req.botToken.s, req.chatId, articles, k + 1), k)
      else
        var results := Results(articles, sink, n);
        var success := AllSucceeded(results);
        Trace(Report(success, results, Summary(success)), Sends(req.botToken.s, req.chatId, articles, n), n)
  }

  /** The route handler: the `for...of` loop that sends, records and pauses. */
  method Post(req: TelegramRequest, sink: nat -> SinkReply) returns (t: Trace)
    ensures t == Exchange(req, sink)
  {
    if !Complete(req) {
      return Trace(Failed(400, MissingParams), [], 0);
    }
    var botToken, chatId, articles := req.botToken.s, req.chatId, req.articles.value;
    var results: seq<SendResult> := [];
    var sends: seq<Outbound> := [];
    var waits := 0;
    var i := 0;
    while i < |articles|
      invariant 0 <= i <= |articles|
      invariant forall j :: 0 <= j < i ==> sink(j).Answered?
      invariant results == Results(articles, sink, i)
      invariant sends == Sends(botToken, chatId, articles, i)
      invariant waits == i
    {
      SendsStep(botToken, chatId, articles, i);
      sends := sends + [Send(botToken, chatId, articles[i])];
      var reply := sink(i);
      if reply.Broken? {
        assert FirstBroken(sink, 0, |articles|) == i;
        return Trace(Failed(500, ServerError), sends, waits);
      }
      ResultsStep(articles, sink, i);
      results := results + [Record(articles[i], reply)];
      waits := waits + 1;
      i := i + 1;
    }
    assert FirstBroken(sink, 0, |articles|) == |articles|;
    var success := AllSucceeded(results);
    t := Trace(Report(success, results, Summary(success)), sends, waits);
  }

  /** N articles whose calls are all answered: N calls in article order, N
      results whose i-th names the i-th article, N pauses. */
  lemma OneSendPerArticle(req: TelegramRequest, sink: nat -> SinkReply)
    requires Complete(req)
    requires forall j :: 0 <= j < |req.articles.value| ==> sink(j).Answered?
    ensures var t := Exchange(req, sink); var articles := req.articles.value;
      t.response.Report?
      && |t.sends| == |t.response.results| == t.waits == |articles|
      && forall i :: 0 <= i < |articles| ==>
           t.sends[i].text == Message(articles[i])
           && t.response.results[i] == Record(articles[i], sink(i))
  {
  }

  /** Failure isolation: a refused message at position k is recorded with the
      bot API's description, the other articles are still sent and recorded,
      and the verdict is the partial-failure one. */
  lemma FailureIsolation(req: TelegramRequest, sink: nat -> SinkReply, k: nat)
    requires Complete(req)
    requires forall j :: 0 <= j < |req.articles.value| ==> sink(j).Answered?
    requires k < |req.articles.value| && !sink(k).ok
    ensures var t := Exchange(req, sink); var articles := req.articles.value;
      t.response.Report?
      && |t.response.results| == |t.sends| == |articles|
      && t.response.results[k] == SendResult(false, articles[k].title, sink(k).description)
      && (forall j :: 0 <= j < |articles| && j != k ==> t.response.results[j] == Record(articles[j], sink(j)))
      && !t.response.success
      && t.response.message == SomeFailed
  {
  }

  /** An empty article list is a vacuous success: no call, no result. */
  lemma EmptyListSucceeds(req: TelegramRequest, sink: nat -> SinkReply)
    requires Complete(req) && req.articles.value == []
    ensures Exchange(req, sink) == Trace(Report(true, [], AllSent), [], 0)
  {
  }

  /** A call that throws ends the request: the answer is the server error,
      the collected results are dropped, and no later article is sent. */
  lemma BrokenCallAborts(req: TelegramRequest, sink: nat -> SinkReply, k: nat)
    requires Complete(req)
    requires k < |req.articles.value| && sink(k).Broken?
    requires forall j :: 0 <= j < k ==> sink(j).Answered?
    ensures var t := Exchange(req, sink);
      t.response == Failed(500, ServerError) && |t.sends| == k + 1 && t.waits == k
  {
  }
}
