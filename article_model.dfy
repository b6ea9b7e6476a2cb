/** The validation Mongoose applies to an article before saving it: required
    fields, maximum string lengths, and the cast of the organizer to an
    `ObjectId`. Whether a string casts is a parameter `castsToId`. */
module ArticleModel {
  import opened Wrappers
  import opened Text

  /** An article document. Every path is optional in the record; the schema
      decides which must be present. `date` is a timestamp. */
  datatype Article = Article(
    title: Option<string>,
    event_link: Option<string>,
    date: Option<int>,
    duration: Option<string>,
    purpose: Option<string>,
    organizer: Option<string>,
    meeting_id: Option<string>,
    passcode: Option<string>,
    speaker: Option<string>,
    location: Option<string>,
    additional_details: Option<string>)

  /** `maxlength: n`: an absent value passes. */
  predicate AtMost(v: Option<string>, n: nat) {
    v.None? || |v.value| <= n
  }

  /** The paths whose validator or cast rejects the article. */
  function FailingPaths(a: Article, castsToId: string -> bool): set<string> {
    (if Truthy(a.title) && AtMost(a.title, 250) then {} else {"title"})
    + (if a.date.Some? then {} else {"date"})
    + (if Truthy(a.purpose) then {} else {"purpose"})
    + (if AtMost(a.meeting_id, 50) then {} else {"meeting_id"})
    + (if AtMost(a.passcode, 50) then {} else {"passcode"})
    + (if AtMost(a.additional_details, 1000) then {} else {"additional_details"})
    + (if a.organizer.None? || castsToId(a.organizer.value) then {} else {"organizer"})
  }

  /** The article passes validation: no path fails. */
  predicate Valid(a: Article, castsToId: string -> bool) {
    FailingPaths(a, castsToId) == {}
  }

  /** What a valid article has: a non-empty title of at most 250 characters, a
      date, a non-empty purpose, the three bounded optional fields within
      their bounds, and an organizer, if any, that casts to an id; and conversely. */
  lemma ValidMeans(a: Article, castsToId: string -> bool)
    ensures Valid(a, castsToId) <==>
      && a.title.Some? && a.title.value != "" && |a.title.value| <= 250
      && a.date.Some?
      && a.purpose.Some? && a.purpose.value != ""
      && (a.meeting_id.Some? ==> |a.meeting_id.value| <= 50)
      && (a.passcode.Some? ==> |a.passcode.value| <= 50)
      && (a.additional_details.Some? ==> |a.additional_details.value| <= 1000)
      && (a.organizer.Some? ==> castsToId(a.organizer.value))
  {
    if !Valid(a, castsToId) {
      var p :| p in FailingPaths(a, castsToId);
    }
  }

  /** `event_link`, `duration`, `speaker` and `location` are strings with no
      validator: any values for them leave validity as it was. */
  lemma UnvalidatedPaths(a: Article, castsToId: string -> bool, link: Option<string>, duration: Option<string>,
                         speaker: Option<string>, location: Option<string>)
    ensures Valid(a, castsToId) <==>
            Valid(a.(event_link := link, duration := duration, speaker := speaker, location := location), castsToId)
  {
    assert FailingPaths(a.(event_link := link, duration := duration, speaker := speaker, location := location), castsToId)
        == FailingPaths(a, castsToId);
  }

  /** An organizer that does not cast to an id makes any article invalid. */
  lemma MalformedOrganizerRejected(a: Article, castsToId: string -> bool)
    requires a.organizer.Some? && !castsToId(a.organizer.value)
    ensures !Valid(a, castsToId)
  {
    assert "organizer" in FailingPaths(a, castsToId);
  }
}
