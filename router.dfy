/**
 * The free-text handler `reply_to_message`: the text is lower-cased, sent
 * to the AI endpoint, and a fixed priority chain picks the reply. Within
 * each tier a keyword in the text and an exact intent from the AI are
 * alternatives; the tiers are tried gig, schedule, contact, help.
 */
module Router {
  import opened Wrappers
  import opened Strings
  import opened Replies
  import opened Grok

  /** Tier 1: the text mentions "gig" or the AI says `ask_about_gig`. */
  ghost predicate AsksGig(text: string, intent: Option<string>)
  {
    Occurs(text, "gig") || intent == Some("ask_about_gig")
  }

  /** Tier 2: the text mentions "schedule" or "appointment", or the AI says `schedule_meeting`. */
  ghost predicate AsksSchedule(text: string, intent: Option<string>)
  {
    Occurs(text, "schedule") || Occurs(text, "appointment") || intent == Some("schedule_meeting")
  }

  /** Tier 3: the text mentions "contact" or the AI says `contact_info`. */
  ghost predicate AsksContact(text: string, intent: Option<string>)
  {
    Occurs(text, "contact") || intent == Some("contact_info")
  }

  /**
   * The routing decision on an already lower-cased text and the AI's
   * intent: the first tier whose condition holds wins, and the help text is
   * sent only when no tier holds.
   */
  function Route(text: string, intent: Option<string>): (r: Reply)
    ensures r == Gig <==> AsksGig(text, intent)
    ensures r == Schedule <==> !AsksGig(text, intent) && AsksSchedule(text, intent)
    ensures r == Contact <==> !AsksGig(text, intent) && !AsksSchedule(text, intent) && AsksContact(text, intent)
    ensures r == Help <==> !AsksGig(text, intent) && !AsksSchedule(text, intent) && !AsksContact(text, intent)
  {
    if Contains(text, "gig") || intent == Some("ask_about_gig") then Gig
    else if Contains(text, "schedule") || Contains(text, "appointment") || intent == Some("schedule_meeting") then Schedule
    else if Contains(text, "contact") || intent == Some("contact_info") then Contact
    else Help
  }

  /**
   * The whole handler: the lower-cased text goes both to the AI endpoint
   * (a parameter standing for the HTTP call) and to the router, which uses
   * only the intent; the AI's content is discarded.
   */
  function Handle(text: string, endpoint: string -> Response): (r: Reply)
    ensures endpoint(Lower(text)).status == 200 ==> r == Route(Lower(text), endpoint(Lower(text)).first.intent)
    ensures endpoint(Lower(text)).status != 200 ==> r == Route(Lower(text), None)
    ensures (exists i :: OccursAtIgnoringCase(text, "gig", i)) ==> r == Gig
    ensures r != Hello && r != About
  {
    ContainsAfterLower(text, "gig");
    Route(Lower(text), AiResult(endpoint(Lower(text))).1)
  }

  /** An `ask_about_gig` intent wins over every keyword of a lower tier. */
  lemma GigIntentOverridesKeywords(text: string)
    ensures Route(text, Some("ask_about_gig")) == Gig
  {
  }

  /** An intent other than the three the router knows changes nothing. */
  lemma UnknownIntentIgnored(text: string, intent: string)
    requires intent != "ask_about_gig" && intent != "schedule_meeting" && intent != "contact_info"
    ensures Route(text, Some(intent)) == Route(text, None)
  {
  }

  /** The intent is compared exactly: an upper-case spelling of a known intent is not recognised. */
  lemma IntentCaseSensitive()
    ensures Route("", Some("ASK_ABOUT_GIG")) == Help
    ensures Route("", Some("ask_about_gig")) == Gig
  {
  }

  /** Feeding the handler text that is already lower-case changes nothing. */
  lemma HandleIgnoresCase(text: string, endpoint: string -> Response)
    ensures Handle(Lower(text), endpoint) == Handle(text, endpoint)
  {
    LowerIdempotent(text);
  }

  /** Texts that agree up to letter case are handled alike, whatever the endpoint answers. */
  lemma HandleSameUpToCase(a: string, b: string, endpoint: string -> Response)
    requires |a| == |b|
    requires forall k :: 0 <= k < |a| ==> LowerChar(a[k]) == LowerChar(b[k])
    ensures Handle(a, endpoint) == Handle(b, endpoint)
  {
    assert Lower(a) == Lower(b);
  }

  /**
   * When the AI call fails, a keyword still routes: "Can I book an
   * appointment?" reaches the booking-link reply, not the help text.
   */
  lemma FailedAiKeepsKeywords(endpoint: string -> Response)
    requires endpoint(Lower("Can I book an appointment?")).status != 200
    ensures Handle("Can I book an appointment?", endpoint) == Schedule
  {
    var s := "Can I book an appointment?";
    var t := Lower(s);
    assert s[14..25] == "appointment";
    LowerSlice(s, 14, 25);
    assert Lower("appointment") == "appointment";
    assert OccursAt(t, "appointment", 14);
    LetterAbsentAfterLower(s, 'g');
    AbsentFirstChar(t, "gig");
  }

  /**
   * On a successful call the AI's intent routes a text without keywords:
   * "How do I reach you?" with intent `contact_info` gets the contact menu.
   */
  lemma ContactIntentRoutes(endpoint: string -> Response)
    requires endpoint(Lower("How do I reach you?")).status == 200
    requires endpoint(Lower("How do I reach you?")).first.intent == Some("contact_info")
    ensures Handle("How do I reach you?", endpoint) == Contact
  {
    var s := "How do I reach you?";
    var t := Lower(s);
    LetterAbsentAfterLower(s, 'g');
    AbsentFirstChar(t, "gig");
    LetterAbsentAfterLower(s, 's');
    AbsentFirstChar(t, "schedule");
    LetterAbsentAfterLower(s, 'p');
    AbsentAppointment(t);
  }

  /** A text without the letter 'p' does not contain "appointment". */
  lemma AbsentAppointment(t: string)
    requires forall k :: 0 <= k < |t| ==> t[k] != 'p'
    ensures !Occurs(t, "appointment")
  {
    forall i | 0 <= i && i + 11 <= |t|
      ensures !OccursAt(t, "appointment", i)
    {
      assert t[i..i + 11][1] == t[i + 1];
    }
  }

  /** A button and the matching keyword typed as text select the same reply. */
  lemma ButtonsAgreeWithKeywords(k: string)
    requires k == "gig" || k == "schedule" || k == "contact"
    ensures ButtonRoute(k) == Some(Route(k, None))
  {
    assert OccursAt(k, k, 0);
    if k != "gig" {
      AbsentFirstChar(k, "gig");
    }
    if k == "contact" {
      AbsentFirstChar(k, "schedule");
    }
  }
}
