/**
 * The logic of `RealWorldPlanner.tsx`: the label of a suggestion's link,
 * whether the link is shown, and the Gmail compose link for the parent
 * email.
 */
module PlannerView {
  import opened JsText
  import opened Uri
  import opened Types
  import GeminiService

  const CalendarHost: string := "calendar.google.com"
  const YoutubeHost: string := "youtube.com"
  const FindOnPrefix: string := "Find on "

  /**
   * `getLinkText`: the first test that holds decides, in the order
   * calendar URL, YouTube URL, Khan Academy platform, any platform.
   */
  function LinkText(s: PlanSuggestion): (text: string)
    ensures text == "Add to Calendar" <==> Contains(s.url, CalendarHost)
    ensures text == "Watch on YouTube" <==> !Contains(s.url, CalendarHost) && Contains(s.url, YoutubeHost)
    ensures text == "Search on Khan Academy" <==>
      !Contains(s.url, CalendarHost) && !Contains(s.url, YoutubeHost)
      && s.platform.Some? && Contains(ToLower(s.platform.value), "khan")
    ensures text == "Learn More" <==>
      !Contains(s.url, CalendarHost) && !Contains(s.url, YoutubeHost) && (s.platform.None? || s.platform.value == "")
    ensures (!Contains(s.url, CalendarHost) && !Contains(s.url, YoutubeHost) && s.platform.Some?
             && s.platform.value != "" && !Contains(ToLower(s.platform.value), "khan")) ==>
      text == FindOnPrefix + s.platform.value
  {
    if Contains(s.url, CalendarHost) then "Add to Calendar"
    else if Contains(s.url, YoutubeHost) then "Watch on YouTube"
    else if s.platform.Some? && Contains(ToLower(s.platform.value), "khan") then "Search on Khan Academy"
    else if s.platform.Some? && s.platform.value != "" then
      // Every other label starts with a letter other than 'F'.
      assert (FindOnPrefix + s.platform.value)[0] == 'F';
      FindOnPrefix + s.platform.value
    else "Learn More"
  }

  /** The link is rendered only for a non-empty URL. */
  predicate RendersLink(s: PlanSuggestion)
  {
    s.url != ""
  }

  /**
   * A Khan Academy course always shows its link once the service has fixed
   * it up: either its URL already held the search path, or it was replaced
   * by the search URL.
   */
  lemma KhanCourseRendersLink(s: PlanSuggestion)
    requires GeminiService.IsKhanPlatform(s.platform)
    ensures RendersLink(GeminiService.KhanRewrite(s))
  {
    if Contains(s.url, GeminiService.KhanSearchMarker) {
      assert |s.url| >= |GeminiService.KhanSearchMarker|;
    }
  }

  const GmailCompose: string := "https://mail.google.com/mail/"

  /** `gmailHref`: subject and body, each percent-encoded, in the `su` and `body` slots. */
  function GmailHref(email: ParentEmail): string
  {
    GmailCompose + "?view=cm&fs=1&to=&su=" + EncodeURIComponent(email.subject)
      + "&body=" + EncodeURIComponent(email.body)
  }

  /** The five query fields of the compose link, in order. */
  function GmailFields(email: ParentEmail): seq<string>
  {
    ["view=cm", "fs=1", "to=", "su=" + EncodeURIComponent(email.subject), "body=" + EncodeURIComponent(email.body)]
  }

  /**
   * Whatever the subject and body hold, the compose link is the compose
   * address, `?`, then exactly five `&`-separated fields, the fixed ones
   * first; and the `su` and `body` values decode to the UTF-8 bytes of the
   * subject and of the body: no character of either can end its field
   * early, start another, or start a fragment.
   */
  lemma GmailHrefFields(email: ParentEmail)
    ensures GmailHref(email) == GmailCompose + "?" + JoinWith(GmailFields(email), '&')
    ensures Split(JoinWith(GmailFields(email), '&'), '&') == GmailFields(email)
    ensures '?' !in JoinWith(GmailFields(email), '&') && '#' !in JoinWith(GmailFields(email), '&')
    ensures PercentDecode(EncodeURIComponent(email.subject)) == Utf8String(email.subject)
    ensures PercentDecode(EncodeURIComponent(email.body)) == Utf8String(email.body)
  {
    GmailHrefIsJoin(email);
    GmailFieldsClean(email);
    SplitJoin(GmailFields(email), '&');
    DecodeEncodeURIComponent(email.subject);
    DecodeEncodeURIComponent(email.body);
  }

  lemma GmailHrefIsJoin(email: ParentEmail)
    ensures GmailHref(email) == GmailCompose + "?" + JoinWith(GmailFields(email), '&')
  {
    var f := GmailFields(email);
    JoinFive(f);
    HrefShape(EncodeURIComponent(email.subject), EncodeURIComponent(email.body));
  }

  /** The template literal, regrouped field by field. */
  lemma HrefShape(es: string, eb: string)
    ensures GmailCompose + "?view=cm&fs=1&to=&su=" + es + "&body=" + eb
         == GmailCompose + "?" + ("view=cm" + "&" + "fs=1" + "&" + "to=" + "&" + ("su=" + es) + "&" + ("body=" + eb))
  {
    var fixed := "view=cm" + "&" + "fs=1" + "&" + "to=" + "&";
    assert "?view=cm&fs=1&to=&su=" == "?" + fixed + "su=";
    assert "view=cm" + "&" + "fs=1" + "&" + "to=" + "&" + ("su=" + es) + "&" + ("body=" + eb)
        == fixed + "su=" + es + "&body=" + eb;
  }

  /** No field holds `&`, `?` or `#`, so neither does their join. */
  lemma GmailFieldsClean(email: ParentEmail)
    ensures forall i :: 0 <= i < 5 ==> '&' !in GmailFields(email)[i] && '?' !in GmailFields(email)[i] && '#' !in GmailFields(email)[i]
    ensures '?' !in JoinWith(GmailFields(email), '&') && '#' !in JoinWith(GmailFields(email), '&')
  {
    GmailFieldsHaveNoDelimiter(email);
    JoinWithAvoids(GmailFields(email), '&', '?');
    JoinWithAvoids(GmailFields(email), '&', '#');
  }

  lemma GmailFieldsHaveNoDelimiter(email: ParentEmail)
    ensures forall i :: 0 <= i < 5 ==> '&' !in GmailFields(email)[i] && '?' !in GmailFields(email)[i] && '#' !in GmailFields(email)[i]
  {
    EncodedHasNoDelimiter(email.subject);
    EncodedHasNoDelimiter(email.body);
  }

  /** Five joined fields, spelled out. */
  lemma JoinFive(f: seq<string>)
    requires |f| == 5
    ensures JoinWith(f, '&') == f[0] + "&" + f[1] + "&" + f[2] + "&" + f[3] + "&" + f[4]
  {
    assert f[1..][1..] == f[2..] && f[2..][1..] == f[3..] && f[3..][1..] == f[4..];
    assert JoinWith(f[4..], '&') == f[4];
    assert JoinWith(f[3..], '&') == f[3] + "&" + f[4];
    assert JoinWith(f[2..], '&') == f[2] + "&" + f[3] + "&" + f[4];
    assert JoinWith(f[1..], '&') == f[1] + "&" + f[2] + "&" + f[3] + "&" + f[4];
  }
}
