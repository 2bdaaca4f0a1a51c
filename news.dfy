/** The deterministic part of `financial_news_tool`: at most five articles are
    taken from the news query, each is rendered as title and body, and the
    numbered sections are joined into one text block. The EventRegistry query
    itself is replaced by the sequence of articles it returns, in its order. */
module News {
  import opened Text

  datatype Article = Article(title: string, body: string)

  /** `maxItems=5` passed to the query. */
  const MaxItems: nat := 5

  const TitleBodySeparator := "\n\n"
  const SectionSeparator := "\n\n\n"

  /** The articles the capped query yields: the first `MaxItems`, in order. */
  function Capped(results: seq<Article>): (r: seq<Article>)
    ensures |r| <= MaxItems
    ensures |r| == if |results| <= MaxItems then |results| else MaxItems
    ensures r == results[..|r|]
  {
    if |results| <= MaxItems then results else results[..MaxItems]
  }

  /** `'\n\n'.join([title, body])`. */
  function ArticleText(a: Article): (t: string)
    ensures t == a.title + TitleBodySeparator + a.body
  {
    var parts := [a.title, a.body];
    assert parts[..1] == [a.title];
    assert Join(TitleBodySeparator, parts[..1]) == a.title;
    Join(TitleBodySeparator, parts)
  }

  /** The rendered text of each article the capped query yields, in order. */
  function RenderedArticles(results: seq<Article>): seq<string>
  {
    seq(|Capped(results)|, i requires 0 <= i < |Capped(results)| => ArticleText(results[i]))
  }

  /** The loop that fills `article_list`, one rendered article per result. */
  method CollectArticles(results: seq<Article>) returns (articleList: seq<string>)
    ensures |articleList| == |Capped(results)| <= MaxItems
    ensures forall i :: 0 <= i < |articleList| ==> articleList[i] == ArticleText(results[i])
    ensures articleList == RenderedArticles(results)
  {
    var capped := Capped(results);
    articleList := [];
    for i := 0 to |capped|
      invariant |articleList| == i
      invariant forall k :: 0 <= k < i ==> articleList[k] == ArticleText(results[k])
    {
      var article := ArticleText(capped[i]);
      articleList := articleList + [article];
    }
  }

  /** `f"**Article {n}**:\n\n"`. */
  function SectionHeading(n: nat): string
  {
    "**Article " + NatToString(n) + "**:\n\n"
  }

  /** The numbered sections, numbered from 1 in list order. */
  function Sections(articleList: seq<string>): seq<string>
  {
    seq(|articleList|, i requires 0 <= i < |articleList| => SectionHeading(i + 1) + articleList[i])
  }

  /** `'\n\n\n'.join([...])` over the numbered sections. */
  function FormatBundle(articleList: seq<string>): string
  {
    Join(SectionSeparator, Sections(articleList))
  }

  /** The whole tool on the articles the query returned. */
  method FinancialNewsTool(results: seq<Article>) returns (bundle: string)
    ensures bundle == FormatBundle(RenderedArticles(results))
  {
    var articleList := CollectArticles(results);
    bundle := FormatBundle(articleList);
  }

  /** An empty article list gives the empty string. */
  lemma FormatBundleEmpty()
    ensures FormatBundle([]) == ""
  {
  }

  /** A single article gives its section alone, with no separator. */
  lemma FormatBundleSingle(article: string)
    ensures FormatBundle([article]) == SectionHeading(1) + article
  {
  }

  /** One more article adds exactly one separator and the next numbered section:
      the sections appear in input order, numbered consecutively. */
  lemma FormatBundleSnoc(articleList: seq<string>, article: string)
    requires |articleList| > 0
    ensures FormatBundle(articleList + [article])
         == FormatBundle(articleList) + SectionSeparator + SectionHeading(|articleList| + 1) + article
  {
    var ss := Sections(articleList + [article]);
    assert ss[..|ss| - 1] == Sections(articleList);
  }

  /** A non-empty bundle opens with the first article's section. */
  lemma {:induction false} FormatBundleStartsWithFirst(articleList: seq<string>)
    requires |articleList| > 0
    ensures SectionHeading(1) + articleList[0] <= FormatBundle(articleList)
  {
    var ss := Sections(articleList);
    if |ss| > 1 {
      assert ss == [ss[0]] + ss[1..];
      JoinCons(SectionSeparator, ss[0], ss[1..]);
    }
  }

  /** The heading of section `n` carries the number `n`, written in decimal. */
  lemma SectionHeadingNumber(n: nat)
    ensures var h := SectionHeading(n);
      "**Article " <= h
      && var digits := h[|"**Article "|..|h| - |"**:\n\n"|];
         (forall k :: 0 <= k < |digits| ==> IsDigit(digits[k])) && DecimalValue(digits) == n
  {
    var h := SectionHeading(n);
    assert h[|"**Article "|..|h| - |"**:\n\n"|] == NatToString(n);
    DecimalRoundTrip(n);
  }

  /** The tool never yields more than `MaxItems` sections, and section `i` is the
      `i`-th returned article, in order. */
  lemma NewsBundleSections(results: seq<Article>)
    ensures var ss := Sections(RenderedArticles(results));
      |ss| <= MaxItems
      && forall i :: 0 <= i < |ss| ==>
           ss[i] == SectionHeading(i + 1) + results[i].title + TitleBodySeparator + results[i].body
  {
  }
}
