/** The article intake route (POST /api/news): checks the API key, asks the
    news provider for the top five French headlines of a category, and turns
    the provider's reply into either an error message or the list of usable
    articles. The provider is an oracle: its reply is a parameter. */
module NewsRoute {
  import opened Types
  import Strings

  const Endpoint := "https://newsapi.org/v2/top-headlines?"
  const MissingKey := "API key manquante"
  const ApiFallback := "Erreur API"
  const ServerError := "Erreur serveur"

  /** The route's JSON body. */
  datatype NewsRequest = NewsRequest(apiKey: Field, category: Field)

  /** An article as the provider sends it; `source` is an object that may be
      absent or null. */
  datatype RawSource = RawSource(name: Field)
  datatype RawArticle = RawArticle(
    title: Field,
    description: Field,
    url: Field,
    source: Option<RawSource>,
    publishedAt: Field)

  /** The provider's decoded reply; `articles` is None when absent or null. */
  datatype ProviderReply = ProviderReply(status: Field, articles: Option<seq<RawArticle>>, message: Field)

  /** What the outbound fetch produced: a decoded reply, or an exception
      (network failure, or a body that is not JSON). */
  datatype Upstream = Replied(data: ProviderReply) | Unreachable

  /** The route's answer: `{articles}`, or `{error}` with an HTTP status. */
  datatype NewsResponse = Found(articles: seq<Article>) | Failed(status: nat, error: string)

  /** The answer together with the URL fetched upstream, if any. */
  datatype NewsTrace = NewsTrace(response: NewsResponse, request: Option<string>)

  /** The filter's test: title and description both truthy. */
  predicate Keep(a: RawArticle)
  {
    Truthy(a.title) && Truthy(a.description)
  }

  /** `articles.filter(a => a.title && a.description)`. */
  function Filter(s: seq<RawArticle>): (r: seq<RawArticle>)
    ensures |r| <= |s|
    ensures forall i :: 0 <= i < |r| ==> Keep(r[i])
    ensures forall a :: a in r <==> a in s && Keep(a)
    decreases |s|
  {
    if s == [] then []
    else (if Keep(s[0]) then [s[0]] else []) + Filter(s[1..])
  }

  /** `r` is `s` with some elements deleted, the rest in their order. */
  ghost predicate Subsequence<T>(r: seq<T>, s: seq<T>)
    decreases |s|
  {
    if r == [] then true
    else if s == [] then false
    else (r[0] == s[0] && Subsequence(r[1..], s[1..])) || Subsequence(r, s[1..])
  }

  /** The filter is stable: what survives keeps its relative order. */
  lemma {:induction false} FilterIsSubsequence(s: seq<RawArticle>)
    ensures Subsequence(Filter(s), s)
    decreases |s|
  {
    if s != [] {
      FilterIsSubsequence(s[1..]);
      if Keep(s[0]) {
        assert Filter(s) == [s[0]] + Filter(s[1..]);
        assert Filter(s)[1..] == Filter(s[1..]);
      } else {
        assert Filter(s) == Filter(s[1..]);
      }
    }
  }

  /** Every kept article survives as often as it occurs; no other survives. */
  lemma {:induction false} FilterCount(s: seq<RawArticle>, a: RawArticle)
    ensures multiset(Filter(s))[a] == if Keep(a) then multiset(s)[a] else 0
    decreases |s|
  {
    if s != [] {
      FilterCount(s[1..], a);
      assert s == [s[0]] + s[1..];
      assert multiset(s) == multiset([s[0]]) + multiset(s[1..]);
      if Keep(s[0]) {
        assert multiset(Filter(s)) == multiset([s[0]]) + multiset(Filter(s[1..]));
      } else {
        assert Filter(s) == Filter(s[1..]);
      }
    }
  }

  /** Filtering two pieces separately is filtering their concatenation. */
  lemma {:induction false} FilterAppend(a: seq<RawArticle>, b: seq<RawArticle>)
    ensures Filter(a + b) == Filter(a) + Filter(b)
    decreases |a|
  {
    if a != [] {
      FilterAppend(a[1..], b);
      assert (a + b)[0] == a[0] && (a + b)[1..] == a[1..] + b;
    } else {
      assert a + b == b;
    }
  }

  /** Filtering twice is filtering once. */
  lemma {:induction false} FilterIdempotent(s: seq<RawArticle>)
    ensures Filter(Filter(s)) == Filter(s)
    decreases |s|
  {
    if s != [] {
      FilterIdempotent(s[1..]);
      var f := Filter(s);
      if Keep(s[0]) {
        assert f == [s[0]] + Filter(s[1..]);
        assert f[0] == s[0] && f[1..] == Filter(s[1..]);
      } else {
        assert f == Filter(s[1..]);
      }
    }
  }

  /** The projection of one surviving article; None stands for the TypeError
      thrown by `article.source.name` when `source` is absent or null. */
  function Project(a: RawArticle): Option<Article>
  {
    match a.source
    case None => None
    case Some(src) => Some(Article(a.title, a.description, a.url, src.name, a.publishedAt))
  }

  /** The `.map` projection: all of it, or None as soon as one element throws. */
  function ProjectAll(s: seq<RawArticle>): (r: Option<seq<Article>>)
    ensures r.Some? <==> forall i :: 0 <= i < |s| ==> s[i].source.Some?
    ensures r.Some? ==> |r.value| == |s|
    ensures r.Some? ==> forall i :: 0 <= i < |s| ==> Project(s[i]) == Some(r.value[i])
    decreases |s|
  {
    if s == [] then Some([])
    else match (Project(s[0]), ProjectAll(s[1..]))
      case (Some(a), Some(rest)) => Some([a] + rest)
      case _ => None
  }

  /** The query string of the provider request. */
  function Query(category: Field, apiKey: string): string
  {
    "category=" + Show(category) + "&" + "language=fr" + "&" + "pageSize=5" + "&" + "apiKey=" + apiKey
  }

  /** The query fixes `language=fr` and `pageSize=5` and carries the category
      and the key, each as its own parameter, when neither contains '&'. */
  lemma QueryParameters(category: Field, apiKey: string)
    requires '&' !in Show(category) && '&' !in apiKey
    ensures Strings.Split(Query(category, apiKey), '&')
         == ["category=" + Show(category), "language=fr", "pageSize=5", "apiKey=" + apiKey]
  {
    var first, last := "category=" + Show(category), "apiKey=" + apiKey;
    assert '&' !in first && '&' !in last;
    JoinFour(first, "language=fr", "pageSize=5", last, '&');
    QueryRegroup("category=" + Show(category), "&", "language=fr", "pageSize=5", "apiKey=", apiKey);
    Strings.SplitJoin([first, "language=fr", "pageSize=5", last], '&');
  }

  /** Join of four pieces, spelled out. */
  lemma JoinFour(a: string, b: string, c: string, d: string, sep: char)
    ensures Strings.Join([a, b, c, d], sep) == a + [sep] + (b + [sep] + (c + [sep] + d))
  {
    assert Strings.Join([d], sep) == d;
    assert [c, d][1..] == [d];
    assert Strings.Join([c, d], sep) == c + [sep] + d;
    assert [b, c, d][1..] == [c, d];
    assert Strings.Join([b, c, d], sep) == b + [sep] + (c + [sep] + d);
    assert [a, b, c, d][1..] == [b, c, d];
  }

  /** Concatenation regrouped around the three separators of the query. */
  lemma QueryRegroup(x: string, amp: string, p: string, q: string, r: string, k: string)
    ensures x + amp + p + amp + q + amp + r + k == x + amp + (p + amp + (q + amp + (r + k)))
  {
  }

  /** Whether the provider reply is usable: status "ok" and an articles list. */
  predicate Usable(data: ProviderReply)
  {
    data.status == Str("ok") && data.articles.Some?
  }

  /** The answer built from what the upstream fetch produced. */
  function Respond(upstream: Upstream): (r: NewsResponse)
    ensures r.Found? <==>
      upstream.Replied? && Usable(upstream.data)
      && forall a :: a in Filter(upstream.data.articles.value) ==> a.source.Some?
    ensures r.Found? ==>
      var kept := Filter(upstream.data.articles.value);
      |r.articles| == |kept| <= |upstream.data.articles.value|
      && forall i :: 0 <= i < |kept| ==> Project(kept[i]) == Some(r.articles[i])
    ensures r.Found? ==>
      forall i :: 0 <= i < |r.articles| ==> Truthy(r.articles[i].title) && Truthy(r.articles[i].description)
    ensures upstream.Replied? && !Usable(upstream.data) ==>
      r == Failed(400, if Truthy(upstream.data.message) then upstream.data.message.s else ApiFallback)
    ensures upstream.Unreachable? ==> r == Failed(500, ServerError)
    ensures upstream.Replied? && Usable(upstream.data) && !r.Found? ==> r == Failed(500, ServerError)
  {
    match upstream
    case Unreachable => Failed(500, ServerError)
    case Replied(data) =>
      if Usable(data) then
        match ProjectAll(Filter(data.articles.value))
        case Some(articles) => Found(articles)
        case None => Failed(500, ServerError)
      else
        Failed(400, if Truthy(data.message) then data.message.s else ApiFallback)
  }

  /** The route handler. A missing or empty key is refused before any request
      goes upstream; otherwise the provider is asked once, with the fixed
      query, and its reply is mapped by Respond. */
  function Post(req: NewsRequest, upstream: Upstream): (x: NewsTrace)
    ensures x.request.None? <==> !Truthy(req.apiKey)
    ensures !Truthy(req.apiKey) ==> x.response == Failed(400, MissingKey)
    ensures Truthy(req.apiKey) ==>
      x.request == Some(Endpoint + Query(req.category, req.apiKey.s))
      && x.response == Respond(upstream)
  {
    if !Truthy(req.apiKey) then NewsTrace(Failed(400, MissingKey), None)
    else NewsTrace(Respond(upstream), Some(Endpoint + Query(req.category, req.apiKey.s)))
  }
}
