/** The client's global observable store, reduced to the fields the core
    client code reads and replaces, with the records it holds. */
module UserStore {
  import opened Wrappers

  /** A per-purpose permission record as the client receives it. */
  datatype Permission = Permission(purpose: string, canRead: bool, canWrite: bool)

  datatype ClientUser = ClientUser(
    id: string,
    firstName: Option<string>,
    lastName: Option<string>,
    email: string,
    permissions: seq<Permission>)

  datatype Article = Article(id: string, title: string, purpose: string, date: string)

  datatype Feedback = Feedback(id: string, articleId: string, userId: string, text: string)

  /** The populated `user` of a listed request: its id and username. */
  datatype UserRef = UserRef(id: string, username: string)

  /** A request as the client lists it; `user` is `null` when its user is gone. */
  datatype SubmittedRequest = SubmittedRequest(id: string, purpose: string, status: string, user: Option<UserRef>)

  datatype Purpose = Purpose(name: string, description: string, canReadMembers: seq<string>, canWriteMembers: seq<string>)

  class Store {
    var user: Option<ClientUser>
    var articles: seq<Article>
    var submittedRequests: seq<SubmittedRequest>
    var feedbacks: seq<Feedback>
    var purposes: seq<Purpose>
    var canRead: seq<string>
    var canWrite: seq<string>
    /** `undefined` until fetched. */
    var permissions: Option<seq<Permission>>

    constructor (user: Option<ClientUser>)
      ensures this.user == user
      ensures articles == [] && submittedRequests == [] && feedbacks == [] && purposes == []
      ensures canRead == [] && canWrite == [] && permissions == None
    {
      this.user := user;
      articles, submittedRequests, feedbacks, purposes := [], [], [], [];
      canRead, canWrite, permissions := [], [], None;
    }
  }
}
