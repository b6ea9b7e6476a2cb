/** The client's article helpers: each request's success replaces the
    store's article list by a function of the old list; a failed request
    leaves it as it was. */
module ClientArticles {
  import opened Wrappers
  import opened Lists
  import opened Sorting
  import opened UserStore

  function ArticleKey(a: Article): string {
    a.id
  }

  /** `updateArticle`: `response` is the server's updated article, `None` when the request failed. */
  method UpdateArticle(store: Store, response: Option<Article>)
    modifies store`articles
    ensures store.articles == if response.None? then old(store.articles)
                              else ReplaceByKey(old(store.articles), ArticleKey, response.value)
  {
    if response.Some? {
      store.articles := ReplaceByKey(store.articles, ArticleKey, response.value);
    }
  }

  /** `createArticle`: the created article joins the list, which is then
      sorted with `compareDates` (`le`). */
  method CreateArticle(store: Store, response: Option<Article>, le: (Article, Article) -> bool)
    modifies store`articles
    ensures store.articles == if response.None? then old(store.articles)
                              else Sort(old(store.articles) + [response.value], le)
    ensures response.Some? ==> multiset(store.articles) == multiset(old(store.articles)) + multiset{response.value}
    ensures response.Some? && TotalPreorder(le) ==> SortedBy(store.articles, le)
  {
    if response.Some? {
      ghost var all := store.articles + [response.value];
      store.articles := Sort(store.articles + [response.value], le);
      if TotalPreorder(le) {
        SortIsSortedPermutation(all, le);
      }
    }
  }

  /** `deleteArticle`: `ok` says whether the request succeeded. */
  method DeleteArticle(store: Store, articleId: string, ok: bool)
    modifies store`articles
    ensures store.articles == if ok then RemoveByKey(old(store.articles), ArticleKey, articleId)
                              else old(store.articles)
  {
    if ok {
      store.articles := RemoveByKey(store.articles, ArticleKey, articleId);
    }
  }

  /** Some permission for the article's purpose grants reading. */
  predicate ReadableUnder(permissions: seq<Permission>, a: Article) {
    exists k :: 0 <= k < |permissions| && permissions[k].purpose == a.purpose && permissions[k].canRead
  }

  function Readable(permissions: seq<Permission>): Article -> bool {
    a => ReadableUnder(permissions, a)
  }

  /** `filterAllowedArticles`: the test reads the signed-in user, so it fails
      (the promise rejects) without one, unless there is no article to test. */
  function FilterAllowedArticles(articles: seq<Article>, user: Option<ClientUser>): (r: Option<seq<Article>>)
    ensures r.None? <==> user.None? && articles != []
    ensures user.None? && articles == [] ==> r == Some([])
    ensures r.Some? && user.Some? ==> forall i :: 0 <= i < |r.value| ==>
      r.value[i] in articles && ReadableUnder(user.value.permissions, r.value[i])
    ensures r.Some? && user.Some? ==> forall j :: 0 <= j < |articles| && ReadableUnder(user.value.permissions, articles[j]) ==>
      articles[j] in r.value
  {
    if articles == [] then Some([])
    else if user.None? then None
    else Some(Filter(articles, Readable(user.value.permissions)))
  }

  /** The readable articles of two lists, concatenated, are those of the
      concatenation: the filter keeps the articles' order. */
  lemma FilterAllowedKeepsOrder(a: seq<Article>, b: seq<Article>, user: ClientUser)
    ensures FilterAllowedArticles(a + b, Some(user)).value
         == FilterAllowedArticles(a, Some(user)).value + FilterAllowedArticles(b, Some(user)).value
  {
    FilterConcat(a, b, Readable(user.permissions));
  }

  /** `sortArticles`: sorts the array itself and returns that same array. */
  method SortArticles(a: array<Article>, le: (Article, Article) -> bool) returns (r: array<Article>)
    modifies a
    ensures r == a
    ensures a[..] == Sort(old(a[..]), le)
    ensures multiset(a[..]) == multiset(old(a[..]))
    ensures TotalPreorder(le) ==> SortedBy(a[..], le)
  {
    var sorted := Sort(a[..], le);
    forall i | 0 <= i < a.Length {
      a[i] := sorted[i];
    }
    assert a[..] == sorted;
    if TotalPreorder(le) {
      SortIsSortedPermutation(old(a[..]), le);
    }
    r := a;
  }
}
