/**
 * The bot's canned replies (one per reply function of main.py, plus the
 * inline help text of the free-text handler) and the dispatcher for
 * inline-button presses.
 */
module Replies {
  import opened Wrappers

  /** Which canned reply the bot sends. */
  datatype Reply =
    | Hello     // the "hello" button's greeting
    | About     // the "about" button's self-description
    | Contact   // the `contact` reply function: a contact menu
    | Gig       // the `gig` reply function: the sales pitch with the gig link
    | Schedule  // the `schedule` reply function: the booking-link prompt
    | Help      // the free-text handler's fallback hint

  const GigLink: string := "https://www.fiverr.com/fivernoob97/create-custom-telegram-and-whatsapp-bots"

  /**
   * The text of each reply; buttons and Markdown rendering are not modelled.
   * The sales pitch ends with a Markdown link to the gig.
   */
  function Text(r: Reply): (t: string)
    ensures r == Gig ==> |t| > |GigLink| && t[|t| - |GigLink| - 1..|t| - 1] == GigLink
  {
    match r
    case Hello => "Hello! How can I assist you?"
    case About => "I am a Fiverr demo bot. I can create custom bots for you!"
    case Contact => "How can I assist you? \U{1F447}"
    case Gig =>
      "\U{1F680} **Telegram & WhatsApp Bot Development** \U{1F680}\n"
      + "I build custom bots for automation, customer service, and more! \n\n"
      + "\U{2705} Features:\n"
      + "- Auto-replies & Commands\n"
      + "- Appointment Booking\n"
      + "- API Integrations\n"
      + "- Custom AI Responses\n\n"
      + "\U{1F4B0} Prices start from **$X**\n"
      + "\U{1F4CC} [Click Here to View My Gig](" + GigLink + ")"
    case Schedule => "Click below to schedule a call:"
    case Help =>
      "I'm here to assist you with specific tasks. You can ask about our gig, "
      + "schedule a meeting, or get contact information."
  }

  /** The callback identifiers the button handler recognises ... */
  const ButtonIds: seq<string> := ["hello", "about", "contact", "gig", "schedule"]
  /** ... and, position by position, the reply each one selects. */
  const ButtonReplies: seq<Reply> := [Hello, About, Contact, Gig, Schedule]

  /**
   * The button handler: the `callback_data` of a pressed inline button
   * selects one reply; an identifier it does not know selects none.
   */
  function ButtonRoute(data: string): (r: Option<Reply>)
    ensures r.Some? <==> data in ButtonIds
    ensures forall i :: 0 <= i < |ButtonIds| ==> (data == ButtonIds[i] <==> r == Some(ButtonReplies[i]))
    ensures r != Some(Help)
  {
    if data == "hello" then Some(Hello)
    else if data == "about" then Some(About)
    else if data == "contact" then Some(Contact)
    else if data == "gig" then Some(Gig)
    else if data == "schedule" then Some(Schedule)
    else None
  }

  /** Each reply a button can select is selected by exactly one identifier. */
  lemma ButtonRouteInjective(a: string, b: string)
    requires ButtonRoute(a).Some?
    ensures ButtonRoute(a) == ButtonRoute(b) ==> a == b
  {
  }
}
