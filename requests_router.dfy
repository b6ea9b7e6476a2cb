/** The server's access-request routes: creating a request, re-statusing it
    (an approval adds the requester to a purpose's readers), deleting it, and
    listing all requests. Requests and purposes live in two keyed stores. */
module RequestsRouter {
  import opened Wrappers
  import opened Lists
  import Users
  import Text

  type UserId = Users.UserId
  type RequestId = string

  /** A parsed JSON request body whose values are strings. */
  type Body = map<string, string>

  /** `req.body[name]`, which is `undefined` when the field is missing. */
  function Field(b: Body, name: string): Option<string> {
    if name in b then Some(b[name]) else None
  }

  datatype Status = Pending | Approved | Denied

  function StatusName(st: Status): string {
    match st
    case Pending => "Pending"
    case Approved => "Approved"
    case Denied => "Denied"
  }

  /** The status named by the body, if it is one of the three the route accepts. */
  function ParseStatus(v: Option<string>): (r: Option<Status>)
    ensures r.Some? <==> v.Some? && v.value in {"Pending", "Approved", "Denied"}
    ensures r.Some? ==> StatusName(r.value) == v.value
  {
    if v == Some("Pending") then Some(Pending)
    else if v == Some("Approved") then Some(Approved)
    else if v == Some("Denied") then Some(Denied)
    else None
  }

  /** A stored request. Its initial status is chosen by the request model, a
      parameter here. */
  datatype Request = Request(purpose: string, user: UserId, status: Status, message: Option<string>)

  datatype Purpose = Purpose(name: string, description: string, canReadMembers: seq<UserId>, canWriteMembers: seq<UserId>)

  /** The two stores the routes touch: request id to request, purpose name to purpose. */
  datatype State = State(requests: map<RequestId, Request>, purposes: map<string, Purpose>)

  /** The status code sent, and the stores afterwards. */
  datatype Reply = Reply(code: int, state: State)

  /** Whether user `u` is a reader of the purpose named `name`. */
  predicate CanRead(purposes: map<string, Purpose>, u: UserId, name: string): (r: bool)
    ensures r ==> name in purposes
    ensures name in purposes && purposes[name].canReadMembers == [] ==> !r
  {
    name in purposes && u in purposes[name].canReadMembers
  }

  /** Readers with no user listed twice. */
  ghost predicate MembersDistinct(purposes: map<string, Purpose>) {
    forall n :: n in purposes ==> NoDup(purposes[n].canReadMembers)
  }

  /** Push `u` onto the readers unless already there. */
  function AddReader(p: Purpose, u: UserId): (q: Purpose)
    ensures u in q.canReadMembers
    ensures forall v :: v in q.canReadMembers <==> v in p.canReadMembers || v == u
    ensures q.name == p.name && q.description == p.description && q.canWriteMembers == p.canWriteMembers
    ensures u in p.canReadMembers ==> q == p
    ensures NoDup(p.canReadMembers) ==> NoDup(q.canReadMembers)
  {
    if u in p.canReadMembers then p else p.(canReadMembers := p.canReadMembers + [u])
  }

  /** The membership grant of an approval: the purpose named `name`, if it
      exists, gains `u` as a reader; every other purpose is untouched. */
  function GrantRead(purposes: map<string, Purpose>, name: Option<string>, u: UserId): (r: map<string, Purpose>)
    ensures r.Keys == purposes.Keys
    ensures forall n :: n in purposes && Some(n) != name ==> r[n] == purposes[n]
    ensures name.Some? && name.value in purposes ==> r[name.value] == AddReader(purposes[name.value], u)
    ensures MembersDistinct(purposes) ==> MembersDistinct(r)
  {
    if name.Some? && name.value in purposes then purposes[name.value := AddReader(purposes[name.value], u)]
    else purposes
  }

  /** The request after a successful status update: the new status whatever
      the old one was; the message replaced only by a non-empty one. */
  function Resolved(req: Request, st: Status, message: Option<string>): (r: Request)
    ensures r.status == st
    ensures r.message == if Text.Truthy(message) then message else req.message
    ensures r.purpose == req.purpose && r.user == req.user
  {
    var r := req.(status := st);
    if Text.Truthy(message) then r.(message := message) else r
  }

  /** `POST /new`. `validId` is Mongoose's object-id test (a malformed user id
      makes the lookup throw, which is answered with 500); `mailOk` says
      whether sending the notification succeeded. */
  function Create(s: State, body: Body, users: map<UserId, Users.User>, newId: RequestId,
                  initial: Status, validId: string -> bool, mailOk: bool): (r: Reply)
    requires newId !in s.requests
    ensures var purpose, userId := Field(body, "purpose"), Field(body, "userId");
      && (r.code == 400 <==> !Text.Truthy(purpose) || !Text.Truthy(userId))
      && (r.code == 404 <==> Text.Truthy(purpose) && Text.Truthy(userId) && validId(userId.value) && userId.value !in users)
      && (r.code == 201 <==> Text.Truthy(purpose) && Text.Truthy(userId) && validId(userId.value) && userId.value in users && mailOk)
      && (r.state != s <==> Text.Truthy(purpose) && Text.Truthy(userId) && validId(userId.value) && userId.value in users)
      && (r.state != s ==> r.state == s.(requests := s.requests[newId := Request(purpose.value, userId.value, initial, None)]))
    ensures r.code in {201, 400, 404, 500}
    ensures r.state.purposes == s.purposes
  {
    var purpose, userId := Field(body, "purpose"), Field(body, "userId");
    if !Text.Truthy(purpose) || !Text.Truthy(userId) then Reply(400, s)
    else if !validId(userId.value) then Reply(500, s)
    else if userId.value !in users then Reply(404, s)
    else
      var s' := s.(requests := s.requests[newId := Request(purpose.value, userId.value, initial, None)]);
      Reply(if mailOk then 201 else 500, s')
  }

  /** The update is accepted: a well-formed id, a known status and a stored request. */
  predicate UpdateAccepted(s: State, id: RequestId, body: Body, validId: string -> bool) {
    validId(id) && ParseStatus(Field(body, "status")).Some? && id in s.requests
  }

  /** `PUT /:id/status`. The grant goes to the purpose named in the body, not
      to the request's own purpose, and no prior status is protected. */
  function UpdateStatus(s: State, id: RequestId, body: Body, validId: string -> bool, mailOk: bool): (r: Reply)
    ensures r.code == 400 <==> !validId(id) || ParseStatus(Field(body, "status")).None?
    ensures r.code == 404 <==> validId(id) && ParseStatus(Field(body, "status")).Some? && id !in s.requests
    ensures r.code == 200 <==> UpdateAccepted(s, id, body, validId) && mailOk
    ensures r.code == 500 <==> UpdateAccepted(s, id, body, validId) && !mailOk
    ensures !UpdateAccepted(s, id, body, validId) ==> r.state == s
    ensures UpdateAccepted(s, id, body, validId) ==>
      var st := ParseStatus(Field(body, "status")).value;
      && r.state.requests == s.requests[id := Resolved(s.requests[id], st, Field(body, "message"))]
      && r.state.purposes == if st == Approved then GrantRead(s.purposes, Field(body, "purpose"), s.requests[id].user)
                             else s.purposes
  {
    if !validId(id) then Reply(400, s)
    else
      var st := ParseStatus(Field(body, "status"));
      if st.None? then Reply(400, s)
      else if id !in s.requests then Reply(404, s)
      else
        var req := Resolved(s.requests[id], st.value, Field(body, "message"));
        var purposes := if st.value == Approved then GrantRead(s.purposes, Field(body, "purpose"), req.user)
                        else s.purposes;
        Reply(if mailOk then 200 else 500, State(s.requests[id := req], purposes))
  }

  /** `DELETE /:id`: removes that request only; membership is never touched. */
  function Delete(s: State, id: RequestId, validId: string -> bool): (r: Reply)
    ensures r.code == 400 <==> !validId(id)
    ensures r.code == 404 <==> validId(id) && id !in s.requests
    ensures r.code == 200 <==> validId(id) && id in s.requests
    ensures r.state.requests == if r.code == 200 then s.requests - {id} else s.requests
    ensures r.state.purposes == s.purposes
  {
    if !validId(id) then Reply(400, s)
    else if id !in s.requests then Reply(404, s)
    else Reply(200, s.(requests := s.requests - {id}))
  }

  /** An accepted approval makes the requester a reader of the body-named
      purpose when it exists, and changes no other purpose (in particular not
      the request's own purpose when the two names differ). */
  lemma ApprovalGrantsRead(s: State, id: RequestId, body: Body, validId: string -> bool, mailOk: bool, name: string)
    requires UpdateAccepted(s, id, body, validId)
    requires Field(body, "status") == Some("Approved")
    requires Field(body, "purpose") == Some(name) && name in s.purposes
    ensures CanRead(UpdateStatus(s, id, body, validId, mailOk).state.purposes, s.requests[id].user, name)
    ensures forall m :: m in s.purposes && m != name ==>
      UpdateStatus(s, id, body, validId, mailOk).state.purposes[m] == s.purposes[m]
  {
  }

  /** No update, whatever its outcome, introduces a duplicate reader. */
  lemma UpdateKeepsMembersDistinct(s: State, id: RequestId, body: Body, validId: string -> bool, mailOk: bool)
    requires MembersDistinct(s.purposes)
    ensures MembersDistinct(UpdateStatus(s, id, body, validId, mailOk).state.purposes)
  {
  }

  /** There is no terminal status: after any accepted update, a second update
      of the same request with any known status is accepted and sets that
      status (a Denied request can later be Approved, and vice versa). */
  lemma {:induction false} StatusIsNeverFinal(s: State, id: RequestId, first: Body, second: Body,
                                              validId: string -> bool, mailOk: bool)
    requires UpdateAccepted(s, id, first, validId)
    requires ParseStatus(Field(second, "status")).Some?
    ensures var s1 := UpdateStatus(s, id, first, validId, mailOk).state;
      && UpdateAccepted(s1, id, second, validId)
      && UpdateStatus(s1, id, second, validId, mailOk).state.requests[id].status
         == ParseStatus(Field(second, "status")).value
  {
    var s1 := UpdateStatus(s, id, first, validId, mailOk).state;
    assert id in s1.requests;
  }

  /** Repeating an accepted update changes nothing more: the request and every
      purpose stay as the first update left them. */
  lemma {:induction false} UpdateIsIdempotent(s: State, id: RequestId, body: Body, validId: string -> bool, mailOk: bool)
    requires UpdateAccepted(s, id, body, validId)
    ensures var s1 := UpdateStatus(s, id, body, validId, mailOk).state;
      UpdateStatus(s1, id, body, validId, mailOk).state == s1
  {
    var st := ParseStatus(Field(body, "status")).value;
    var s1 := UpdateStatus(s, id, body, validId, mailOk).state;
    var req1 := s1.requests[id];
    assert Resolved(req1, st, Field(body, "message")) == req1;
    assert s1.requests[id := req1] == s1.requests;
    if st == Approved {
      var u := s.requests[id].user;
      assert req1.user == u;
      var name := Field(body, "purpose");
      if name.Some? && name.value in s.purposes {
        assert u in s1.purposes[name.value].canReadMembers;
        assert GrantRead(s1.purposes, name, u) == s1.purposes;
      }
    }
  }

  /** Deleting a request never takes back a read grant. */
  lemma DeleteKeepsGrants(s: State, id: RequestId, validId: string -> bool, u: UserId, name: string)
    ensures CanRead(Delete(s, id, validId).state.purposes, u, name) <==> CanRead(s.purposes, u, name)
  {
  }

  /** Submit then approve: a request created for user `u` and purpose `p`,
      approved with `p` named in the body, makes `u` a reader of `p`. */
  lemma {:induction false} SubmitThenApprove(s: State, users: map<UserId, Users.User>, newId: RequestId,
                                             initial: Status, validId: string -> bool, mailOk: bool,
                                             u: UserId, p: string, message: string)
    requires newId !in s.requests
    requires u != "" && p != "" && validId(u) && u in users && validId(newId)
    requires p in s.purposes
    ensures var s1 := Create(s, map["purpose" := p, "userId" := u], users, newId, initial, validId, mailOk).state;
      var approval := map["status" := "Approved", "purpose" := p, "message" := message];
      CanRead(UpdateStatus(s1, newId, approval, validId, mailOk).state.purposes, u, p)
  {
    var body := map["purpose" := p, "userId" := u];
    assert Field(body, "purpose") == Some(p) && Field(body, "userId") == Some(u);
    var s1 := Create(s, body, users, newId, initial, validId, mailOk).state;
    assert s1.requests[newId].user == u;
    var approval := map["status" := "Approved", "purpose" := p, "message" := message];
    assert Field(approval, "status") == Some("Approved") && Field(approval, "purpose") == Some(p);
    ApprovalGrantsRead(s1, newId, approval, validId, mailOk, p);
  }

  /** The router object: the two stores, updated in place by the handlers. */
  class Router {
    var requests: map<RequestId, Request>
    var purposes: map<string, Purpose>
    /** Mongoose's `ObjectId.isValid`. */
    const validId: string -> bool

    constructor (requests: map<RequestId, Request>, purposes: map<string, Purpose>, validId: string -> bool)
      ensures this.requests == requests && this.purposes == purposes && this.validId == validId
    {
      this.requests := requests;
      this.purposes := purposes;
      this.validId := validId;
    }

    function Stores(): State
      reads this
    {
      State(requests, purposes)
    }

    /** `GET /`: every stored request. */
    method List() returns (code: int, all: map<RequestId, Request>)
      ensures code == 200 && all == requests
    {
      code, all := 200, requests;
    }

    /** `POST /new`: the request is saved before the mail goes out, so a
        failed mail still leaves it stored. */
    method CreateRequest(body: Body, users: map<UserId, Users.User>, newId: RequestId, initial: Status, mailOk: bool)
      returns (code: int)
      requires newId !in requests
      modifies this
      ensures Reply(code, Stores()) == Create(old(Stores()), body, users, newId, initial, validId, mailOk)
    {
      var purpose, userId := Field(body, "purpose"), Field(body, "userId");
      if !Text.Truthy(purpose) || !Text.Truthy(userId) {
        return 400;
      }
      if !validId(userId.value) {
        return 500;
      }
      if userId.value !in users {
        return 404;
      }
      var request := Request(purpose.value, userId.value, initial, None);
      requests := requests[newId := request];
      if !mailOk {
        return 500;
      }
      return 201;
    }

    /** `PUT /:id/status`. */
    method UpdateRequestStatus(id: RequestId, body: Body, mailOk: bool) returns (code: int)
      modifies this
      ensures Reply(code, Stores()) == UpdateStatus(old(Stores()), id, body, validId, mailOk)
    {
      if !validId(id) {
        return 400;
      }
      var status := ParseStatus(Field(body, "status"));
      if status.None? {
        return 400;
      }
      if id !in requests {
        return 404;
      }
      var request := requests[id];
      request := request.(status := status.value);
      var message := Field(body, "message");
      if Text.Truthy(message) {
        request := request.(message := message);
      }
      requests := requests[id := request];
      if status.value == Approved {
        var userId := request.user;
        var name := Field(body, "purpose");
        if name.Some? && name.value in purposes {
          var target := purposes[name.value];
          if userId !in target.canReadMembers {
            target := target.(canReadMembers := target.canReadMembers + [userId]);
            purposes := purposes[name.value := target];
          }
        }
      }
      code := if mailOk then 200 else 500;
    }

    /** `DELETE /:id`. */
    method DeleteRequest(id: RequestId) returns (code: int)
      modifies this
      ensures Reply(code, Stores()) == Delete(old(Stores()), id, validId)
    {
      if !validId(id) {
        return 400;
      }
      if id !in requests {
        return 404;
      }
      requests := requests - {id};
      code := 200;
    }
  }
}
