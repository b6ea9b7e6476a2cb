/** The server's article routes over the article store. Creation passes two
    middleware guards, update and delete only the permission guard; the
    handlers for update and delete have no error handling of their own. */
module ArticlesRouter {
  import opened Wrappers
  import ArticleModel

  type ArticleId = string
  type Article = ArticleModel.Article

  /** The caller's request as the middleware sees it; the guards are opaque. */
  type Credentials = string

  /** How a route ends: a status code sent by the handler, a rejection sent
      by a middleware guard (whose code is the middleware's business), or no
      response at all because the handler threw outside any `try`. */
  datatype Outcome = Responded(code: int) | Blocked | NoResponse

  class Router {
    var articles: map<ArticleId, Article>
    /** `jwtMiddleware`. */
    const jwtOk: Credentials -> bool
    /** `checkPermissions(action)`. */
    const permitted: (string, Credentials) -> bool
    /** Whether a string casts to an `ObjectId`, as the organizer path asks. */
    const castsToId: string -> bool

    /** Every stored article passed validation when it was saved. */
    ghost predicate Valid()
      reads this
    {
      forall id :: id in articles ==> ArticleModel.Valid(articles[id], castsToId)
    }

    constructor (jwtOk: Credentials -> bool, permitted: (string, Credentials) -> bool, castsToId: string -> bool)
      ensures Valid() && articles == map[]
      ensures this.jwtOk == jwtOk && this.permitted == permitted && this.castsToId == castsToId
    {
      articles := map[];
      this.jwtOk := jwtOk;
      this.permitted := permitted;
      this.castsToId := castsToId;
    }

    /** `GET /`: every stored article, with no permission filtering. */
    method List() returns (all: map<ArticleId, Article>)
      ensures all == articles
    {
      all := articles;
    }

    /** `POST /new`: stored only past both guards and validation; a
        validation failure is caught and answered with 500. */
    method Create(c: Credentials, article: Article, newId: ArticleId) returns (r: Outcome)
      requires newId !in articles
      modifies this
      ensures !jwtOk(c) || !permitted("create_article", c) ==> r == Blocked && articles == old(articles)
      ensures jwtOk(c) && permitted("create_article", c) && !ArticleModel.Valid(article, castsToId) ==>
        r == Responded(500) && articles == old(articles)
      ensures jwtOk(c) && permitted("create_article", c) && ArticleModel.Valid(article, castsToId) ==>
        r == Responded(200) && articles == old(articles)[newId := article]
      ensures old(Valid()) ==> Valid()
    {
      if !jwtOk(c) || !permitted("create_article", c) {
        return Blocked;
      }
      if !ArticleModel.Valid(article, castsToId) {
        return Responded(500);
      }
      articles := articles[newId := article];
      r := Responded(200);
    }

    /** `PUT /:id`: assigns the title and the body, then saves. The schema has
        no `body` path, so only the title is persisted. A missing article
        (`null.title`) or a failing validation throws with no handler to
        answer. */
    method Update(c: Credentials, id: ArticleId, title: Option<string>, body: Option<string>) returns (r: Outcome)
      modifies this
      ensures !permitted("update_article", c) ==> r == Blocked && articles == old(articles)
      ensures permitted("update_article", c) && id !in old(articles) ==> r == NoResponse && articles == old(articles)
      ensures permitted("update_article", c) && id in old(articles) ==>
        var updated := old(articles)[id].(title := title);
        if ArticleModel.Valid(updated, castsToId) then r == Responded(200) && articles == old(articles)[id := updated]
        else r == NoResponse && articles == old(articles)
      ensures articles.Keys == old(articles).Keys
      ensures forall k :: k in articles && k != id ==> articles[k] == old(articles)[k]
      ensures old(Valid()) ==> Valid()
    {
      if !permitted("update_article", c) {
        return Blocked;
      }
      if id !in articles {
        return NoResponse;
      }
      var article := articles[id];
      article := article.(title := title);
      if !ArticleModel.Valid(article, castsToId) {
        return NoResponse;
      }
      articles := articles[id := article];
      r := Responded(200);
    }

    /** `DELETE /:id`: removes exactly that article; a missing one throws. */
    method Delete(c: Credentials, id: ArticleId) returns (r: Outcome)
      modifies this
      ensures !permitted("delete_article", c) ==> r == Blocked && articles == old(articles)
      ensures permitted("delete_article", c) && id !in old(articles) ==> r == NoResponse && articles == old(articles)
      ensures permitted("delete_article", c) && id in old(articles) ==>
        r == Responded(200) && articles == old(articles) - {id}
      ensures old(Valid()) ==> Valid()
    {
      if !permitted("delete_article", c) {
        return Blocked;
      }
      if id !in articles {
        return NoResponse;
      }
      articles := articles - {id};
      r := Responded(200);
    }
  }
}
