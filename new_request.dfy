/** The request form: which purposes the user may still ask for, the
    user's own requests in the store, and the body the form posts. */
module NewRequest {
  import opened Wrappers
  import opened Lists
  import opened UserStore
  import RequestsRouter
  import Users

  function PermissionFor(key: string): Permission -> bool {
    (p: Permission) => p.purpose == key
  }

  function RequestFor(key: string): SubmittedRequest -> bool {
    (r: SubmittedRequest) => r.purpose == key
  }

  /** `isPurposeAllowed`: the `canRead` of the first permission for the
      purpose; false without a user, without permissions, or with no match. */
  function IsPurposeAllowed(user: Option<ClientUser>, permissions: Option<seq<Permission>>, key: string): (r: bool)
    ensures user.None? || permissions.None? ==> !r
    ensures user.Some? && permissions.Some? ==>
      var ps := permissions.value;
      (r <==> exists i :: 0 <= i < |ps| && ps[i].purpose == key && ps[i].canRead &&
                          forall j :: 0 <= j < i ==> ps[j].purpose != key)
  {
    if user.None? || permissions.None? then false
    else
      var ps := permissions.value;
      var i := FirstIndex(ps, PermissionFor(key));
      i != -1 && ps[i].canRead
  }

  /** `isRequestPending`: the first submitted request for the purpose is
      Pending. The guard tests the permissions, as the source does. */
  function IsRequestPending(user: Option<ClientUser>, permissions: Option<seq<Permission>>,
                            submitted: seq<SubmittedRequest>, key: string): (r: bool)
    ensures user.None? || permissions.None? ==> !r
    ensures user.Some? && permissions.Some? ==>
      (r <==> exists i :: 0 <= i < |submitted| && submitted[i].purpose == key && submitted[i].status == "Pending" &&
                          forall j :: 0 <= j < i ==> submitted[j].purpose != key)
  {
    if user.None? || permissions.None? then false
    else
      var i := FirstIndex(submitted, RequestFor(key));
      i != -1 && submitted[i].status == "Pending"
  }

  /** A purpose's menu item is disabled when it is already allowed or pending. */
  function MenuItemDisabled(user: Option<ClientUser>, permissions: Option<seq<Permission>>,
                            submitted: seq<SubmittedRequest>, key: string): (r: bool)
    ensures r <==> IsPurposeAllowed(user, permissions, key) || IsRequestPending(user, permissions, submitted, key)
    ensures user.None? || permissions.None? ==> !r
  {
    IsPurposeAllowed(user, permissions, key) || IsRequestPending(user, permissions, submitted, key)
  }

  /** Only the first request for a purpose is consulted: a Pending request
      behind an earlier Denied one for the same purpose is not seen. */
  lemma LaterPendingIsHidden(user: ClientUser, permissions: seq<Permission>, key: string, r1: SubmittedRequest, r2: SubmittedRequest)
    requires r1.purpose == key && r1.status == "Denied"
    requires r2.purpose == key && r2.status == "Pending"
    ensures !IsRequestPending(Some(user), Some(permissions), [r1, r2], key)
  {
    assert FirstIndex([r1, r2], RequestFor(key)) == 0;
  }

  function OwnedBy(userId: string): SubmittedRequest -> bool {
    (r: SubmittedRequest) => r.user.Some? && r.user.value.id == userId
  }

  /** The requests whose populated requester is the given user, in server order. */
  function UserRequests(all: seq<SubmittedRequest>, userId: string): (r: seq<SubmittedRequest>)
    ensures forall i :: 0 <= i < |r| ==> r[i] in all && r[i].user.Some? && r[i].user.value.id == userId
    ensures forall j :: 0 <= j < |all| && all[j].user.Some? && all[j].user.value.id == userId ==> all[j] in r
  {
    Filter(all, OwnedBy(userId))
  }

  /** The mount effect: seeds the submitted requests with the user's own,
      only when the list is empty and a user is signed in. */
  method SeedSubmittedRequests(store: Store, allRequests: seq<SubmittedRequest>)
    modifies store`submittedRequests
    ensures store.submittedRequests ==
      if store.user.Some? && old(store.submittedRequests) == [] then UserRequests(allRequests, store.user.value.id)
      else old(store.submittedRequests)
  {
    if store.user.None? {
      return;
    }
    if |store.submittedRequests| == 0 {
      store.submittedRequests := UserRequests(allRequests, store.user.value.id);
    }
  }

  /** The body the form posts, as written: the requester is under `user`. */
  function SubmitBodyAsWritten(purpose: string, yearOfStudy: string, message: string, user: ClientUser): (b: RequestsRouter.Body)
    ensures RequestsRouter.Field(b, "user") == Some(user.id)
    ensures RequestsRouter.Field(b, "userId") == None
    ensures RequestsRouter.Field(b, "purpose") == Some(purpose)
  {
    map["purpose" := purpose, "year_of_study" := yearOfStudy, "message" := message,
        "user" := user.id, "email" := user.email]
  }

  /** The body with the requester under `userId`, the field the server reads. */
  function SubmitBody(purpose: string, yearOfStudy: string, message: string, user: ClientUser): (b: RequestsRouter.Body)
    ensures RequestsRouter.Field(b, "userId") == Some(user.id)
    ensures RequestsRouter.Field(b, "purpose") == Some(purpose)
  {
    map["purpose" := purpose, "year_of_study" := yearOfStudy, "message" := message,
        "userId" := user.id, "email" := user.email]
  }

  /** The form's body as written never names `userId`, so the server answers
      every submission with 400 and stores nothing. */
  lemma AsWrittenSubmissionRejected(s: RequestsRouter.State, purpose: string, yearOfStudy: string, message: string,
                                    user: ClientUser, users: map<Users.UserId, Users.User>, newId: RequestsRouter.RequestId,
                                    initial: RequestsRouter.Status, validId: string -> bool, mailOk: bool)
    requires newId !in s.requests
    ensures var r := RequestsRouter.Create(s, SubmitBodyAsWritten(purpose, yearOfStudy, message, user),
                                           users, newId, initial, validId, mailOk);
      r.code == 400 && r.state == s
  {
    assert "userId" !in SubmitBodyAsWritten(purpose, yearOfStudy, message, user);
  }

  /** With the body naming `userId`, a non-empty purpose from a known user
      is stored as a new request on that user's behalf. */
  lemma SubmissionStored(s: RequestsRouter.State, purpose: string, yearOfStudy: string, message: string,
                         user: ClientUser, users: map<Users.UserId, Users.User>, newId: RequestsRouter.RequestId,
                         initial: RequestsRouter.Status, validId: string -> bool, mailOk: bool)
    requires newId !in s.requests
    requires purpose != "" && user.id != "" && validId(user.id) && user.id in users
    ensures var r := RequestsRouter.Create(s, SubmitBody(purpose, yearOfStudy, message, user),
                                           users, newId, initial, validId, mailOk);
      && r.code in {201, 500}
      && r.state.requests == s.requests[newId := RequestsRouter.Request(purpose, user.id, initial, None)]
  {
  }

  /** axios settles a call successfully only on a 2xx status; any other
      status rejects, and the handler's `catch` runs instead. */
  predicate Succeeded(code: int) {
    200 <= code < 300
  }

  /** `handleFormSubmit`: posts the body as written. `code` is the server's
      answer and `created` the request in it. On success the request is
      appended, the progress bar cleared and the page left; on failure only
      the error is logged, so the progress bar stays. The form is only shown
      once a user is signed in. */
  method HandleFormSubmit(store: Store, purpose: string, yearOfStudy: string, message: string,
                          code: int, created: SubmittedRequest)
      returns (sent: RequestsRouter.Body, submitting: bool, navigated: bool)
    requires store.user.Some?
    modifies store`submittedRequests
    ensures sent == SubmitBodyAsWritten(purpose, yearOfStudy, message, store.user.value)
    ensures submitting <==> !Succeeded(code)
    ensures navigated <==> Succeeded(code)
    ensures store.submittedRequests == if Succeeded(code) then old(store.submittedRequests) + [created]
                                       else old(store.submittedRequests)
  {
    submitting, navigated := true, false;
    sent := SubmitBodyAsWritten(purpose, yearOfStudy, message, store.user.value);
    if !Succeeded(code) {
      return;
    }
    store.submittedRequests := store.submittedRequests + [created];
    submitting, navigated := false, true;
  }

  /** Whatever the server holds, the form's post is refused, so a submission
      never adds to the submitted requests and the progress bar stays. */
  lemma FormSubmissionFails(s: RequestsRouter.State, purpose: string, yearOfStudy: string, message: string,
                            user: ClientUser, users: map<Users.UserId, Users.User>, newId: RequestsRouter.RequestId,
                            initial: RequestsRouter.Status, validId: string -> bool, mailOk: bool)
    requires newId !in s.requests
    ensures !Succeeded(RequestsRouter.Create(s, SubmitBodyAsWritten(purpose, yearOfStudy, message, user),
                                             users, newId, initial, validId, mailOk).code)
  {
    AsWrittenSubmissionRejected(s, purpose, yearOfStudy, message, user, users, newId, initial, validId, mailOk);
  }
}
