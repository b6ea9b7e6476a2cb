/** The client's feedback service: each request's success replaces the
    store's feedback list; a failed request leaves it as it was. */
module Feedbacks {
  import opened Wrappers
  import opened Lists
  import opened UserStore

  function FeedbackKey(f: Feedback): string {
    f.id
  }

  /** `updateFeedback`: `response` is the server's updated feedback. */
  method UpdateFeedback(store: Store, response: Option<Feedback>)
    modifies store`feedbacks
    ensures store.feedbacks == if response.None? then old(store.feedbacks)
                               else ReplaceByKey(old(store.feedbacks), FeedbackKey, response.value)
  {
    if response.Some? {
      store.feedbacks := ReplaceByKey(store.feedbacks, FeedbackKey, response.value);
    }
  }

  /** `createFeedback`: the server creates or updates; the store drops any
      entry with the returned id and appends the returned feedback. */
  method CreateFeedback(store: Store, response: Option<Feedback>) returns (r: Option<Feedback>)
    modifies store`feedbacks
    ensures r == response
    ensures store.feedbacks == if response.None? then old(store.feedbacks)
                               else UpsertByKey(old(store.feedbacks), FeedbackKey, response.value)
  {
    if response.None? {
      return None;
    }
    var temp := RemoveByKey(store.feedbacks, FeedbackKey, response.value.id);
    store.feedbacks := temp + [response.value];
    r := response;
  }

  /** `deleteFeedback`: `ok` says whether the request succeeded. */
  method DeleteFeedback(store: Store, feedbackId: string, ok: bool)
    modifies store`feedbacks
    ensures store.feedbacks == if ok then RemoveByKey(old(store.feedbacks), FeedbackKey, feedbackId)
                               else old(store.feedbacks)
  {
    if ok {
      store.feedbacks := RemoveByKey(store.feedbacks, FeedbackKey, feedbackId);
    }
  }

  /** `fetchFeedbacks`: the fetched list replaces the store's and is returned. */
  method FetchFeedbacks(store: Store, response: Option<seq<Feedback>>) returns (r: Option<seq<Feedback>>)
    modifies store`feedbacks
    ensures r == response
    ensures store.feedbacks == if response.None? then old(store.feedbacks) else response.value
  {
    if response.Some? {
      store.feedbacks := response.value;
    }
    r := response;
  }
}
