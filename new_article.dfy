/** The event-creation form: the purposes the user may write to, the
    duration label, the event-link normalisation, the payload it submits,
    and adding a new purpose. */
module NewArticle {
  import opened Wrappers
  import opened Lists
  import opened Text
  import opened UserStore

  function WritableBy(userId: string): Purpose -> bool {
    (p: Purpose) => userId in p.canWriteMembers
  }

  /** The purposes the user may write to, in order; none while purposes are undefined. */
  function AllowedPurposes(purposes: Option<seq<Purpose>>, userId: string): (r: seq<Purpose>)
    ensures purposes.None? ==> r == []
    ensures purposes.Some? ==> forall i :: 0 <= i < |r| ==> r[i] in purposes.value && userId in r[i].canWriteMembers
    ensures purposes.Some? ==> forall j :: 0 <= j < |purposes.value| && userId in purposes.value[j].canWriteMembers ==>
      purposes.value[j] in r
  {
    match purposes
    case None => []
    case Some(ps) => Filter(ps, WritableBy(userId))
  }

  /** JavaScript's `a % b` for a positive divisor: the remainder takes the sign of `a`. */
  function JsRem(a: int, b: int): (r: int)
    requires b > 0
    ensures a >= 0 ==> 0 <= r < b
    ensures a < 0 ==> -b < r <= 0
  {
    if a >= 0 then a % b else -((-a) % b)
  }

  /** The remainder completes JavaScript's division truncated toward zero:
      with the quotient rounded toward zero, `a` is quotient times divisor
      plus remainder. Together with the sign and bound this fixes the value. */
  lemma JsRemTruncates(a: int, b: int)
    requires b > 0
    ensures var q := if a >= 0 then a / b else -((-a) / b);
      a == b * q + JsRem(a, b)
  {
  }

  /** Concretely, the remainder of a negative duration is negative, where
      Dafny's Euclidean remainder would be positive. */
  lemma JsRemOfNegative()
    ensures JsRem(-90, 60) == -30 && -90 % 60 == 30
  {
  }

  /** `Math.floor(d / 60)`: Dafny's division by a positive number already rounds down. */
  function Hours(d: int): int {
    d / 60
  }

  /** `formatDuration`: the hours, then the minutes only when there are any. */
  function FormatDuration(d: int): (r: string)
    ensures |r| >= 2
    ensures r[|r| - 1] == 'h' <==> JsRem(d, 60) == 0
    ensures r[|r| - 1] == 'm' <==> JsRem(d, 60) != 0
  {
    var hours, mins := Hours(d), JsRem(d, 60);
    if mins == 0 then IntToString(hours) + "h"
    else IntToString(hours) + "h " + IntToString(mins) + "m"
  }

  /** For a non-negative duration, the hours and minutes shown add back up to it. */
  lemma DurationParts(d: int)
    requires d >= 0
    ensures 60 * Hours(d) + JsRem(d, 60) == d && 0 <= JsRem(d, 60) < 60
  {
  }

  /** The slider's values, 15 to 240 in steps of 15, show only whole quarters of an hour. */
  lemma SliderMinutes(d: int)
    requires 15 <= d <= 240 && d % 15 == 0
    ensures JsRem(d, 60) in {0, 15, 30, 45}
  {
  }

  function IsH(): char -> bool {
    (c: char) => c == 'h'
  }

  /** Reads a duration label back into minutes: `"{h}h"` or `"{h}h {m}m"`. */
  function ParseDuration(s: string): Option<int> {
    var i := FirstIndex(s, IsH());
    if i == -1 then None
    else
      match ParseNat(s[..i])
      case None => None
      case Some(h) =>
        var rest := s[i + 1..];
        if rest == "" then Some(60 * h)
        else if |rest| >= 2 && rest[0] == ' ' && rest[|rest| - 1] == 'm' then
          match ParseNat(rest[1..|rest| - 1])
          case None => None
          case Some(m) => Some(60 * h + m)
        else None
  }

  lemma {:induction false} FirstHAfterDigits(x: string, y: string)
    requires forall k :: 0 <= k < |x| ==> IsDigit(x[k])
    ensures FirstIndex(x + "h" + y, IsH()) == |x|
  {
    var s := x + "h" + y;
    assert IsH()(s[|x|]);
    forall j | 0 <= j < |x| ensures !IsH()(s[j]) {
      assert s[j] == x[j];
    }
  }

  /** A whole-hours label reads back as those hours. */
  lemma {:induction false} WholeHoursLabelParses(h: nat)
    ensures ParseDuration(NatToString(h) + "h") == Some(60 * h)
  {
    var hs := NatToString(h);
    ParseNatToString(h);
    var s := hs + "h";
    assert s == hs + "h" + "";
    FirstHAfterDigits(hs, "");
    assert s[..|hs|] == hs;
    assert s[|hs| + 1..] == "";
  }

  /** An hours-and-minutes label reads back as its total in minutes. */
  lemma {:induction false} MinutesLabelParses(h: nat, m: nat)
    ensures ParseDuration(NatToString(h) + "h " + NatToString(m) + "m") == Some(60 * h + m)
  {
    var hs, ms := NatToString(h), NatToString(m);
    ParseNatToString(h);
    ParseNatToString(m);
    var tail := " " + ms + "m";
    var s := hs + "h" + tail;
    assert hs + "h " + ms + "m" == s;
    FirstHAfterDigits(hs, tail);
    assert s[..|hs|] == hs;
    assert s[|hs| + 1..] == tail;
    assert tail[1..|tail| - 1] == ms;
  }

  /** The label of a non-negative duration reads back as that duration. */
  lemma {:induction false} FormatDurationRoundTrip(d: int)
    requires d >= 0
    ensures ParseDuration(FormatDuration(d)) == Some(d)
  {
    DurationParts(d);
    var hours, mins := Hours(d), JsRem(d, 60);
    if mins == 0 {
      assert FormatDuration(d) == NatToString(hours) + "h";
      WholeHoursLabelParses(hours);
    } else {
      assert FormatDuration(d) == NatToString(hours) + "h " + NatToString(mins) + "m";
      MinutesLabelParses(hours, mins);
    }
  }

  const Https := "https://"

  /** The event link with `https://` put in front unless it already starts with it. */
  function NormalizeLink(link: string): (r: string)
    ensures StartsWith(r, Https)
    ensures StartsWith(link, Https) <==> r == link
    ensures !StartsWith(link, Https) ==> r == Https + link
  {
    if StartsWith(link, Https) then link else Https + link
  }

  /** Normalising twice is normalising once. */
  lemma NormalizeIdempotent(link: string)
    ensures NormalizeLink(NormalizeLink(link)) == NormalizeLink(link)
  {
  }

  /** A plain-http link is not rewritten but prefixed, so it carries two schemes. */
  lemma HttpLinksArePrefixed(link: string)
    requires StartsWith(link, "http://")
    ensures NormalizeLink(link) == Https + link
  {
    assert link[4] == ':' by {
      assert link[..7] == "http://";
    }
    assert !StartsWith(link, Https) by {
      if |Https| <= |link| {
        assert link[..|Https|][4] == link[4] != Https[4];
      }
    }
  }

  /** The form's article state. `time` is unset until the user picks one. */
  datatype Draft = Draft(
    title: string, event_link: string, date: string, duration: int, purpose: string,
    meeting_id: string, passcode: string, speaker: string, additional_details: string,
    location: string, virtual: bool, time: Option<int>)

  /** What `handleSubmit` hands to the create mutation. */
  datatype Payload = Payload(
    title: string, event_link: string, date: string, duration: int, purpose: string,
    meeting_id: string, passcode: string, speaker: string, additional_details: string,
    location: string, virtual: bool, time: string, organizer: string)

  /** `handleSubmit`. Formatting an unset time throws before the title test,
      so nothing is sent then either; `formatTime` is the time formatter. */
  method HandleSubmit(article: Draft, userId: string, formatTime: int -> string) returns (sent: Option<Payload>)
    ensures sent.None? <==> article.time.None? || article.title == ""
    ensures sent.Some? ==>
      && sent.value.organizer == userId
      && sent.value.event_link == NormalizeLink(article.event_link)
      && StartsWith(sent.value.event_link, Https)
      && sent.value.time == formatTime(article.time.value)
      && sent.value.title == article.title && sent.value.purpose == article.purpose
      && sent.value.date == article.date && sent.value.duration == article.duration
      && sent.value.meeting_id == article.meeting_id && sent.value.passcode == article.passcode
      && sent.value.speaker == article.speaker && sent.value.location == article.location
      && sent.value.additional_details == article.additional_details && sent.value.virtual == article.virtual
  {
    var eventLink := article.event_link;
    if !StartsWith(eventLink, Https) {
      eventLink := Https + eventLink;
    }
    if article.time.None? {
      return None;
    }
    var formattedTime := formatTime(article.time.value);
    var payload := Payload(article.title, eventLink, article.date, article.duration, article.purpose,
                           article.meeting_id, article.passcode, article.speaker, article.additional_details,
                           article.location, article.virtual, formattedTime, userId);
    if payload.title == "" {
      return None;
    }
    sent := Some(payload);
  }

  /** The form's purpose state. */
  class Form {
    var allowedPurposes: seq<Purpose>
    var newPurposeName: string
    var newPurposeDescription: string
    var showAddPurposeModal: bool

    constructor ()
      ensures allowedPurposes == [] && newPurposeName == "" && newPurposeDescription == "" && !showAddPurposeModal
    {
      allowedPurposes := [];
      newPurposeName, newPurposeDescription := "", "";
      showAddPurposeModal := false;
    }

    /** The effect run once the purposes have loaded. */
    method LoadAllowedPurposes(isLoading: bool, purposes: Option<seq<Purpose>>, userId: string)
      modifies this`allowedPurposes
      ensures allowedPurposes == if isLoading then old(allowedPurposes) else AllowedPurposes(purposes, userId)
    {
      if isLoading {
        return;
      }
      allowedPurposes := AllowedPurposes(purposes, userId);
    }

    /** `handleAddPurpose`: sends a purpose with empty member lists; the
        server's answer `created` is appended. When the call fails the rest
        of the handler does not run. */
    method HandleAddPurpose(created: Option<Purpose>) returns (sent: Purpose)
      modifies this
      ensures sent == Purpose(old(newPurposeName), old(newPurposeDescription), [], [])
      ensures created.None? ==>
        && allowedPurposes == old(allowedPurposes) && newPurposeName == old(newPurposeName)
        && newPurposeDescription == old(newPurposeDescription) && showAddPurposeModal == old(showAddPurposeModal)
      ensures created.Some? ==>
        && allowedPurposes == old(allowedPurposes) + [created.value]
        && newPurposeName == "" && newPurposeDescription == "" && !showAddPurposeModal
    {
      sent := Purpose(newPurposeName, newPurposeDescription, [], []);
      if created.None? {
        return;
      }
      allowedPurposes := allowedPurposes + [created.value];
      newPurposeName, newPurposeDescription := "", "";
      showAddPurposeModal := false;
    }
  }
}
