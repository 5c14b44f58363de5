/** The chat widget's dialogue engine as a pure transition system over a
    snapshot of everything the page holds: the conversation state, the
    complaint record, the two input-enable flags, the text in the message
    field, the transcript (messages, option sets and download links), the
    queue of scheduled continuations and the reports saved so far. Each
    handler of the page is one function from snapshot to snapshot. */
module Dialogue {
  import opened Text
  import opened Tickets

  datatype Option<T> = None | Some(value: T)

  /** `chatState.current`. */
  datatype State =
    | Initial
    | MainMenu
    | InquiryTopic
    | ComplaintTopic
    | ComplaintDetailsPending
    | Ended

  /** `chatState.complaintData`. */
  datatype Complaint = Complaint(kind: string, details: string, ticket: string)

  const NoComplaint := Complaint("", "", "")

  datatype Button = Button(caption: string, disabled: bool)

  /** What the bot can say. A bot message is kept as the phrase it is;
      Words gives its exact wording. NotSure, MainMenuHint and InquiryHint
      are texts the script assigns but never shows: no transition, callback
      or log entry of the model produces them. */
  datatype Phrase =
    | Greeting                    // the first menu's question
    | AnythingElse                // the question of the menu offered again
    | WhichInquiry                // the inquiry menu's question
    | WhichComplaint              // the complaint menu's question
    | NotSure                     // the initial value of botResponse, never shown
    | MainMenuHint                // set for unmatched main-menu input, never shown
    | InquiryHint                 // set for unmatched inquiry input, never shown
    | Goodbye                     // the reply to "end chat"
    | ServicesAnswer
    | ContactAnswer
    | HoursAnswer
    | OtherAnswer
    | AskDetails(kind: string)    // the request for details of a complaint type
    | Registered(ticket: string)  // the confirmation carrying the ticket number
    | PdfMissing                  // the PDF library is not loaded

  /** One element of the message log, top to bottom. */
  datatype Entry =
    | UserSaid(text: string)
    | BotSaid(phrase: Phrase)
    | Offered(buttons: seq<Button>)
    | DownloadLink(link: Button)

  /** A saved complaint document: the record it was built from and the file
      name it was saved under. */
  datatype Report = Report(ticket: string, kind: string, details: string, fileName: string)

  /** A continuation handed to `setTimeout`. */
  datatype Deferred =
    | Greet                                             // the first processBotResponse("")
    | ShowOptions(prompt: Phrase, labels: seq<string>)  // re-present an option set
    | ShowDownload                                      // add the download button
    | Reply(response: Phrase, input: string)            // show the reply, then maybe schedule OfferMenu
    | OfferMenu                                         // offer the main menu again
    | Farewell(response: Phrase)                        // show the closing message

  datatype Chat = Chat(
    state: State,
    complaint: Complaint,
    inputDisabled: bool,
    sendDisabled: bool,
    draft: string,
    transcript: seq<Entry>,
    pending: seq<Deferred>,
    reports: seq<Report>)

  const ContactNumber := "1-800-555-0199"

  /** The wording of each phrase. */
  function Words(p: Phrase): string
  {
    match p
    case Greeting => "How can I assist you today?"
    case AnythingElse => "Is there anything else I can help you with?"
    case WhichInquiry => "What kind of inquiry do you have?"
    case WhichComplaint => "Please select the type of complaint:"
    case NotSure =>
      "I'm not sure how to respond to that. Please choose from the options or try rephrasing. " +
      "If you need further assistance, please call us at " + ContactNumber + "."
    case MainMenuHint =>
      "Please choose 'General Inquiry' or 'Complaint' from the options provided. " +
      "If you need further assistance, please call us at " + ContactNumber + "."
    case InquiryHint =>
      "Please choose a valid inquiry topic from the options. " +
      "If you need further assistance, please call us at " + ContactNumber + "."
    case Goodbye => "Thank you for using our chatbot! We're here to help if you need anything else."
    case ServicesAnswer =>
      "We offer a wide range of services including web development, mobile app creation, " +
      "and cloud solutions. Is there a specific service you'd like to know more about?"
    case ContactAnswer => "You can reach our support team at support@example.com or call us at 123-456-7890."
    case HoursAnswer => "Our business hours are Monday to Friday, 9 AM to 5 PM."
    case OtherAnswer =>
      "Please type your specific inquiry, and I'll do my best to help. " +
      "If I can't, please call us at " + ContactNumber + "."
    case AskDetails(kind) => "Understood. Please describe your " + Lower(kind) + " in detail."
    case Registered(ticket) =>
      "Thank you for providing the details. Your complaint has been registered. " +
      "Your ticket number is: " + ticket + "."
    case PdfMissing => "Error: PDF generation failed. jsPDF library not found or initialized."
  }

  const MainLabels := ["General Inquiry", "Complaint", "End Chat"]
  const InquiryLabels := ["About Services", "Contact Information", "Business Hours", "Other"]
  const ComplaintLabels := ["Product Issue", "Service Issue", "Billing Issue", "Other Complaint"]

  const DownloadCaption := "Download Complaint PDF"
  const DownloadedCaption := "PDF Downloaded"

  function FileName(ticket: string): string
  {
    "Complaint_" + ticket + ".pdf"
  }

  /** What a matched keyword does: either show a new option set and wait for
      a click, or set the reply and the next state and go on to the common
      tail of processBotResponse. */
  datatype Rule =
    | PresentMenu(prompt: Phrase, labels: seq<string>, next: State)
    | Answer(response: Phrase, next: State)

  /** The keyword rules of `main_menu`, in the order they are tried. */
  const MainMenuRules: seq<(string, Rule)> := [
    ("general inquiry", PresentMenu(WhichInquiry, InquiryLabels, InquiryTopic)),
    ("complaint", PresentMenu(WhichComplaint, ComplaintLabels, ComplaintTopic)),
    ("end chat", Answer(Goodbye, Ended))]

  /** The keyword rules of `inquiry_topic`, in the order they are tried. */
  const InquiryRules: seq<(string, Rule)> := [
    ("about services", Answer(ServicesAnswer, Initial)),
    ("contact information", Answer(ContactAnswer, Initial)),
    ("business hours", Answer(HoursAnswer, Initial)),
    ("other", Answer(OtherAnswer, Initial))]

  /** The first rule whose keyword the (lower-cased) text contains. */
  function FirstMatch(rules: seq<(string, Rule)>, text: string): Option<Rule>
  {
    if rules == [] then None
    else if Includes(text, rules[0].0) then Some(rules[0].1)
    else FirstMatch(rules[1..], text)
  }

  function Buttons(labels: seq<string>): seq<Button>
  {
    seq(|labels|, i requires 0 <= i < |labels| => Button(labels[i], false))
  }

  function Labels(buttons: seq<Button>): seq<string>
  {
    seq(|buttons|, i requires 0 <= i < |buttons| => buttons[i].caption)
  }

  function DisableAll(buttons: seq<Button>): seq<Button>
  {
    seq(|buttons|, i requires 0 <= i < |buttons| => buttons[i].(disabled := true))
  }

  /** What addOptionsMessage appends: the question, then its buttons. */
  function OptionsMessage(prompt: Phrase, labels: seq<string>): seq<Entry>
  {
    [BotSaid(prompt), Offered(Buttons(labels))]
  }

  function SetLock(v: Chat, locked: bool): Chat
  {
    v.(inputDisabled := locked, sendDisabled := locked)
  }

  /** Show an option set, move to `next` and wait for a click. */
  function Present(v: Chat, prompt: Phrase, labels: seq<string>, next: State): Chat
  {
    SetLock(v.(transcript := v.transcript + OptionsMessage(prompt, labels), state := next), true)
  }

  /** The common tail of processBotResponse: set the input lock from the new
      state, then schedule the reply (and, from it, the main menu) or the
      closing message. */
  function Settle(v: Chat, response: Phrase, input: string): Chat
  {
    var locked :=
      if v.state == Ended then true
      else if v.state == Initial || v.state == ComplaintDetailsPending then false
      else true;
    var later :=
      if v.state != MainMenu && v.state != InquiryTopic && v.state != ComplaintTopic && v.state != Ended
      then [Reply(response, input)]
      else if v.state == Ended then [Farewell(response)]
      else [];
    SetLock(v, locked).(pending := v.pending + later)
  }

  /** Act on the rule a keyword table chose; with none, schedule the same
      option set again and leave everything else as it is. */
  function Dispatch(v: Chat, rule: Option<Rule>, again: Deferred, input: string): Chat
  {
    match rule
    case None => v.(pending := v.pending + [again])
    case Some(PresentMenu(prompt, labels, next)) => Present(v, prompt, labels, next)
    case Some(Answer(response, next)) => Settle(v.(state := next), response, input)
  }

  /** processBotResponse(input), with `ticket` the value generateTicketNumber
      would return at that moment. */
  function Advance(v: Chat, input: string, ticket: string): Chat
  {
    var lowered := Lower(input);
    var u := SetLock(v, false);
    match v.state
    case Initial => Present(u, Greeting, MainLabels, MainMenu)
    case MainMenu => Dispatch(u, FirstMatch(MainMenuRules, lowered), ShowOptions(Greeting, MainLabels), input)
    case InquiryTopic => Dispatch(u, FirstMatch(InquiryRules, lowered), ShowOptions(WhichInquiry, InquiryLabels), input)
    case ComplaintTopic =>
      Settle(u.(state := ComplaintDetailsPending, complaint := u.complaint.(kind := input)),
             AskDetails(input), input)
    case ComplaintDetailsPending =>
      Settle(u.(state := Initial, complaint := NoComplaint,
                transcript := u.transcript + [BotSaid(Registered(ticket))],
                pending := u.pending + [ShowDownload]),
             Registered(ticket), input)
    case Ended => u
  }

  /** The guard of the reply continuation: skip the reply when a complaint
      has just been registered and its ticket is still on record. */
  predicate ReplySuppressed(v: Chat, input: string)
  {
    v.state == Initial && Includes(Lower(input), "complaint") && v.complaint.ticket != ""
  }

  /** `s` without its element at position `k`. */
  function RemoveAt<T>(s: seq<T>, k: nat): (r: seq<T>)
    requires k < |s|
    ensures |r| == |s| - 1
    ensures forall j :: 0 <= j < k ==> r[j] == s[j]
    ensures forall j :: k <= j < |r| ==> r[j] == s[j + 1]
  {
    s[..k] + s[k + 1..]
  }

  /** Run the scheduled continuation at position `k` of the queue. The
      browser runs them by deadline; any position may come due first. */
  function Fire(v: Chat, k: nat, ticket: string): Chat
    requires k < |v.pending|
  {
    var w := v.(pending := RemoveAt(v.pending, k));
    match v.pending[k]
    case Greet => Advance(w, "", ticket)
    case ShowOptions(prompt, labels) => w.(transcript := w.transcript + OptionsMessage(prompt, labels))
    case ShowDownload => w.(transcript := w.transcript + [DownloadLink(Button(DownloadCaption, false))])
    case Reply(response, input) =>
      var shown := if ReplySuppressed(w, input) then w else w.(transcript := w.transcript + [BotSaid(response)]);
      if shown.state == Initial then shown.(pending := shown.pending + [OfferMenu]) else shown
    case OfferMenu => Present(w, AnythingElse, MainLabels, MainMenu)
    case Farewell(response) => w.(transcript := w.transcript + [BotSaid(response)])
  }

  /** Button `b` of entry `i` is an option button that still takes clicks. */
  predicate Clickable(t: seq<Entry>, i: nat, b: nat)
  {
    i < |t| && t[i].Offered? && b < |t[i].buttons| && !t[i].buttons[b].disabled
  }

  /** A click on option button `b` of entry `i`: disable the whole set, echo
      the label as the user's message and process it. A disabled button does
      not receive the click. */
  function ClickOption(v: Chat, i: nat, b: nat, ticket: string): Chat
  {
    if Clickable(v.transcript, i, b) then
      var choice := v.transcript[i].buttons[b].caption;
      var t := v.transcript[i := Offered(DisableAll(v.transcript[i].buttons))];
      Advance(v.(transcript := t + [UserSaid(choice)]), choice, ticket)
    else
      v
  }

  function ReportOf(c: Complaint): Report
  {
    Report(c.ticket, c.kind, c.details, FileName(c.ticket))
  }

  /** Entry `i` is a download link that still takes clicks. */
  predicate LinkActive(t: seq<Entry>, i: nat)
  {
    i < |t| && t[i].DownloadLink? && !t[i].link.disabled
  }

  /** A click on the download link of entry `i`: build the report from the
      complaint record as it is now (or report that the PDF library is
      missing), then disable the link. */
  function ClickDownload(v: Chat, i: nat, pdfLoaded: bool): Chat
  {
    if LinkActive(v.transcript, i) then
      var w := if pdfLoaded then v.(reports := v.reports + [ReportOf(v.complaint)])
               else v.(transcript := v.transcript + [BotSaid(PdfMissing)]);
      w.(transcript := w.transcript[i := DownloadLink(Button(DownloadedCaption, true))])
    else
      v
  }

  /** The user replaces the text in the message field; a disabled field
      takes no typing. */
  function EditDraft(v: Chat, text: string): Chat
  {
    if v.inputDisabled then v else v.(draft := text)
  }

  /** A click on Send: send the trimmed field text when it is not empty and
      the field is enabled, and clear the field. A disabled button takes no
      click. */
  function ClickSend(v: Chat, ticket: string): Chat
  {
    if v.sendDisabled then v
    else
      var message := Trim(v.draft);
      if message != "" && !v.inputDisabled then
        Advance(v.(transcript := v.transcript + [UserSaid(message)], draft := ""), message, ticket)
      else
        v
  }

  /** A key press in the message field: Enter clicks Send. */
  function PressKey(v: Chat, key: string, ticket: string): Chat
  {
    if key == "Enter" && !v.inputDisabled then ClickSend(v, ticket) else v
  }

  /** The page right after loading: the greeting is scheduled and both input
      elements are enabled. */
  function Start(): Chat
  {
    Chat(Initial, NoComplaint, false, false, "", [], [Greet], [])
  }

  /** Everything that can happen to the page, with the clock reading and the
      random rendering the ticket generator would see. */
  datatype Event =
    | Edit(text: string)
    | Send(now: nat, random: string)
    | Key(key: string, now: nat, random: string)
    | Choose(entry: nat, button: nat, now: nat, random: string)
    | Download(entry: nat, pdfLoaded: bool)
    | Tick(index: nat, now: nat, random: string)

  function Step(v: Chat, e: Event): Chat
  {
    match e
    case Edit(text) => EditDraft(v, text)
    case Send(now, random) => ClickSend(v, Ticket(now, random))
    case Key(key, now, random) => PressKey(v, key, Ticket(now, random))
    case Choose(i, b, now, random) => ClickOption(v, i, b, Ticket(now, random))
    case Download(i, loaded) => ClickDownload(v, i, loaded)
    case Tick(k, now, random) => if k < |v.pending| then Fire(v, k, Ticket(now, random)) else v
  }

  function Run(v: Chat, events: seq<Event>): Chat
    decreases |events|
  {
    if events == [] then v else Run(Step(v, events[0]), events[1..])
  }

  /** A saved report built from a cleared record. */
  predicate BlankReport(r: Report)
  {
    r.ticket == "" && r.details == "" && r.fileName == "Complaint_.pdf"
  }

  /** What holds between any two events: the two input elements are locked
      together, the complaint record never keeps details or a ticket, and so
      every saved report is blank. */
  predicate Inv(v: Chat)
  {
    v.inputDisabled == v.sendDisabled &&
    v.complaint.details == "" && v.complaint.ticket == "" &&
    forall k :: 0 <= k < |v.reports| ==> BlankReport(v.reports[k])
  }

  /** An entry keeps what it shows: an option set keeps its labels and a
      disabled button stays disabled; a link stays a link, and a used link
      stays used. Only the enabled state of a button and the caption of a
      link may change. */
  predicate SameContent(a: Entry, b: Entry)
  {
    match a
    case Offered(buttons) =>
      b.Offered? && Labels(b.buttons) == Labels(buttons) &&
      forall j :: 0 <= j < |buttons| && buttons[j].disabled ==> b.buttons[j].disabled
    case DownloadLink(link) => b.DownloadLink? && (link.disabled ==> b.link.disabled)
    case _ => b == a
  }

  /** `u` is `t` with entries added at the end and buttons possibly changed. */
  predicate Extends(t: seq<Entry>, u: seq<Entry>)
  {
    |t| <= |u| && forall k :: 0 <= k < |t| ==> SameContent(t[k], u[k])
  }
}
