# Chat widget dialogue engine, modelled in Dafny

The page is a support chat box. A bot walks the user through a small menu
dialogue, takes complaints, issues ticket numbers and offers a PDF report of
the complaint. This project models the page's script (`script.js`) in four
layers:

- `text.dfy`, module `Text`: ASCII `toLowerCase`/`toUpperCase`,
  `String.prototype.includes` and `String.prototype.trim`. Trim uses
  ECMAScript's white-space and line-terminator set.
- `tickets.dfy`, module `Tickets`: `generateTicketNumber`. The clock reading
  and the rendering of `Math.random().toString(36)` are parameters. Decimal
  rendering, `slice(-6)` and `substr(2, 4)` are written out.
- `dialogue.dfy`, module `Dialogue`: the page as one value `Chat`. It holds:
  - the conversation state and the complaint record;
  - the two `disabled` flags, of the message field and of the Send button;
  - the field text;
  - the message log;
  - the queue of pending `setTimeout` callbacks;
  - the reports saved so far.

  Each handler is a transition function on `Chat`. `Advance` is
  `processBotResponse`. `Fire` runs one timer callback. The other handlers
  are `ClickOption`, `ClickDownload`, `ClickSend`, `PressKey` and
  `EditDraft`. `Step` and `Run` drive a page through any sequence of events.
  The keyword tests of `main_menu` and `inquiry_topic` are written as ordered
  rule tables (`MainMenuRules`, `InquiryRules`).
- `properties.dfy`, module `DialogueProperties`: what those functions
  guarantee.
- `widget.dfy`, module `Widget`: `class Engine`, the page as an object. Its
  methods update its fields statement by statement, as the script does:
  - the `switch` with its early `return`s and the common tail;
  - the loops that build and disable option buttons;
  - the timer callbacks that read the state when they run.

  Each method is proved to produce exactly the transition function's result.
  That is also where the `if`/`else if` keyword chains meet the rule tables.

The transition functions carry no contract of their own; the lemma rows
below state what they do: `Advance` (`processBotResponse`) through the
per-state lemmas from `InitialPresentsMenu` to `EndedIgnoresInput`, `Fire`
through `FireShowDownload`, `FireReplyShown` and the conversation lemmas,
`ClickOption` through `OptionSetIsOneShot`, `ClickSend` and `PressKey`
through `EnterIsSend`, `SendIgnored`, `SendDeliversTrimmedText` and
`OtherKeysIgnored`, `ClickDownload` through `DownloadReadsRecordAtClick`,
`FirstMatch` through `FirstMatchIsEarliest` and `FirstMatchNone`, `Words`
through `AskDetailsNamesKind` and `RegisteredShowsTicket`, `Tickets.Ticket`
(`generateTicketNumber`) through `TicketClockDigits`, `TicketRandomPart`
and `TicketShape`, and `Text.Includes` through `IncludesIffOccurs`.

A bot message is kept as the `Phrase` it is. `Words` gives its exact wording,
including the contact number `1-800-555-0199`.

Timers are a queue of `Deferred` callbacks. A `Tick` event may run any entry
of the queue, not only the first. The browser runs them by deadline, and
every deadline order is one of the orders the model allows. So the
invariants proved over `Run` hold however the timers interleave with the
user's clicks. Position 0 is the first-in, first-out order, and the
conversation lemmas use it.

Behaviour kept as the code has it:

- Input matching no keyword in `main_menu` or `inquiry_topic` shows no
  message. The error text is assigned to `botResponse`, but the branch
  returns before the tail that would show it. The same menu is scheduled
  again, and the field stays enabled.
- `ended` keeps its state, but `processBotResponse` enables both inputs
  before it returns. So any later call of `processBotResponse` unlocks an
  ended chat: the greeting timer if it is still pending
  (`GreetingUnlocksEndedChat`), or a click on an option set that is still
  enabled (`ClickUnlocksEndedChat`). An `OfferMenu` callback scheduled
  before "End Chat" was clicked still runs and puts the chat back in
  `main_menu` (`PendingOfferReopensEndedChat`).
- The reply guard tests `complaintData.ticket` after the record was cleared.
  It never suppresses anything (`ReplyNeverSuppressed`), so the ticket
  confirmation is shown twice.
- The download link reads `chatState.complaintData` when clicked. By then
  the record has been reset, so every report has an empty ticket, empty
  details and the file name `Complaint_.pdf`.
- A ticket is `TICKET-`, then the last up-to-six digits of the clock, then
  up to four upper-cased base-36 characters. It has the full
  `TICKET-` + 6 + 4 shape exactly when the clock is at least 100000 and
  the random rendering has at least four characters after `0.`.

## Model

| member | source | states |
|---|---|---|
| Text.Lower | script.js:201 | same length, each ASCII capital mapped to its small letter, no capital left |
| Text.Upper | script.js:125 | same length, each ASCII small letter mapped to its capital, no small letter left |
| Text.LowerIdempotent | script.js:201 | lower-casing an already lower-cased text changes nothing |
| Text.IncludesIffOccurs | script.js:217 | `includes` holds exactly when the word occurs at some position, both directions |
| Text.IncludedAt | script.js:217 | an `includes` that holds yields a position where the word occurs |
| Text.OccursIncluded | script.js:217 | an occurrence at any position makes `includes` hold |
| Text.LongerNotIncluded | script.js:217 | a word longer than the text is never included |
| Text.AbsentCharNotIncluded | script.js:217 | a word with a character the text lacks is not included |
| Text.TrimStart | script.js:353 | a suffix of the input; everything dropped is white space; it does not start with white space |
| Text.TrimEnd | script.js:353 | a prefix of the input; everything dropped is white space; it does not end with white space |
| Text.Trim | script.js:353 | a piece of the input with only white space around it; empty exactly when the input is all white space; otherwise no white space at either end |
| Tickets.Pow10 | script.js:125 | powers of ten are at least 1, and at least 10 from exponent 1 |
| Tickets.Decimal | script.js:125 | `toString()` of a whole number: digits only, no leading zero |
| Tickets.DecimalValue | script.js:125 | the digits denote the number: Value(Decimal(n)) == n |
| Tickets.ValueSuffix | script.js:125 | the last k characters of a digit string denote its value modulo 10^k |
| Tickets.DecimalSuffix | script.js:125 | the last k digits denote n modulo 10^k |
| Tickets.DecimalLength | script.js:125 | more than k digits exactly when k is 0 or n >= 10^k |
| Tickets.DecimalBelow | script.js:125 | a number is below 10 to the power of its digit count |
| Tickets.SliceFromEnd | script.js:125 | `slice(-k)` for k >= 1: the last min(k, length) characters |
| Tickets.Substr | script.js:125 | `substr(start, length)`: length and characters of the clipped piece |
| Tickets.TicketClockDigits | script.js:125 | a ticket starts with `TICKET-`, then min(6, digit count) digits denoting the clock modulo 1000000; six of them exactly when the clock is at least 100000 |
| Tickets.TicketRandomPart | script.js:125 | after the digits come min(4, length - 2) characters, each a digit or an ASCII capital |
| Tickets.TicketShape | script.js:125 | the ticket matches `TICKET-\d{6}[A-Z0-9]{4}` exactly when the clock is at least 100000 and the random rendering has six or more characters |
| Dialogue.RemoveAt | script.js:325-347 | a timer leaves the queue: every other entry stays, in order |
| DialogueProperties.FirstMatchIsEarliest | script.js:217-258 | the rule chosen is that of the earliest keyword that occurs |
| DialogueProperties.FirstMatchNone | script.js:234-257 | no rule is chosen exactly when no keyword occurs |
| DialogueProperties.MainMenuOrder | script.js:217-239 | the main-menu table is the chain "general inquiry", then "complaint", then "end chat" |
| DialogueProperties.InquiryOrder | script.js:243-257 | the inquiry table is the chain "about services", "contact information", "business hours", "other" |
| DialogueProperties.MainMenuLabel0 | script.js:210 | the button "General Inquiry" selects the inquiry menu |
| DialogueProperties.MainMenuLabel1 | script.js:210 | the button "Complaint" selects the complaint menu |
| DialogueProperties.MainMenuLabel2 | script.js:210 | the button "End Chat" selects ending the chat |
| DialogueProperties.InquiryLabel0 | script.js:218 | the button "About Services" selects the services answer |
| DialogueProperties.InquiryLabel1 | script.js:218 | the button "Contact Information" selects the contact answer |
| DialogueProperties.InquiryLabel2 | script.js:218 | the button "Business Hours" selects the hours answer |
| DialogueProperties.InquiryLabel3 | script.js:218 | the button "Other" selects the "type your inquiry" answer |
| DialogueProperties.InitialPresentsMenu | script.js:209-214 | from `initial` any input, the empty one included, shows the three-way menu, moves to `main_menu` and locks both inputs |
| DialogueProperties.MainMenuTransitions | script.js:216-241 | in `main_menu` each next state holds exactly under its keyword condition (first keyword wins); the option set shown, the lock and the scheduled farewell for each |
| DialogueProperties.UnmatchedReprompts | script.js:234-257 | the state stays exactly when no keyword occurs, and then nothing changes but the unlock and the re-presentation scheduled |
| DialogueProperties.InquiryShape | script.js:243-260 | in `inquiry_topic` every input either reprompts or returns to `initial` with one of the four answers scheduled |
| DialogueProperties.InquiryAnswered | script.js:243-260 | the first matching topic returns to `initial`, unlocks and schedules its fixed answer |
| DialogueProperties.InquiryRoundTrip | script.js:324-341 | after the two timers an answered inquiry has shown the answer and the "anything else" menu and is back in `main_menu`, locked |
| DialogueProperties.ComplaintTypeStored | script.js:262-267 | in `complaint_topic` the raw input becomes the complaint type, the state waits for details, the input is unlocked and the details request scheduled |
| DialogueProperties.ComplaintRegistered | script.js:269-296 | in `complaint_details_pending` the confirmation is shown at once, the link and the reply are scheduled, the state is `initial` and the record is cleared |
| DialogueProperties.TicketMessageShownTwice | script.js:326-331 | after both timers the log holds confirmation, download link, confirmation |
| DialogueProperties.AfterRegistration | script.js:280-341 | the link callback, then the reply callback, which is shown because the record is clear, then the menu scheduled |
| DialogueProperties.FireShowDownload | script.js:280-291 | the link callback shows an enabled download link and leaves the rest of the queue |
| DialogueProperties.FireReplyShown | script.js:325-341 | in `initial` with no ticket on record, the reply callback shows the reply and schedules the menu |
| DialogueProperties.ReplyNeverSuppressed | script.js:327 | on every reachable page the reply guard is false, whatever the input |
| DialogueProperties.EndedIgnoresInput | script.js:298-299 | `ended` keeps everything but enables both inputs |
| DialogueProperties.LockAfterAdvance | script.js:307-320 | after processBotResponse the two flags agree, and they are set exactly when the state changed to one other than `initial` and `complaint_details_pending` |
| DialogueProperties.AdvanceKeepsInv | script.js:200-349 | processBotResponse keeps the flags equal and the record free of details and ticket |
| DialogueProperties.FireKeepsInv | script.js:325-347 | so does every timer callback |
| DialogueProperties.SendKeepsInv | script.js:352-359 | so does Send |
| DialogueProperties.ClickKeepsInv | script.js:105-114 | so does an option click |
| DialogueProperties.StepKeepsInv | script.js:294 | so does every event of the page |
| DialogueProperties.RunKeepsInv | script.js:294 | so does every sequence of events |
| DialogueProperties.ReportsAreBlank | script.js:284-288 | on any page every saved report has an empty ticket, empty details and the file name `Complaint_.pdf` |
| DialogueProperties.InputsMoveTogether | script.js:205-206 | on any page the field and the Send button are locked together |
| DialogueProperties.AdvanceAppends | script.js:200-349 | processBotResponse only appends to the log and leaves the field text and the reports alone |
| DialogueProperties.FireAppends | script.js:325-347 | a timer callback only appends to the log |
| DialogueProperties.SendAppends | script.js:352-359 | Send only appends to the log |
| DialogueProperties.PrefixExtends | script.js:85 | a log with entries appended extends the old one |
| DialogueProperties.ExtendsTransitive | script.js:85 | extension is transitive |
| DialogueProperties.SendExtends | script.js:352-359 | Send extends the log |
| DialogueProperties.FireExtends | script.js:325-347 | a timer callback extends the log |
| DialogueProperties.ClickExtends | script.js:105-114 | an option click extends the log; the clicked set keeps its labels |
| DialogueProperties.DownloadExtends | script.js:284-288 | a download click extends the log |
| DialogueProperties.StepExtends | script.js:85 | no event removes or rewrites a logged entry; a button is only ever disabled, never enabled again, and a link only ever used |
| DialogueProperties.RunExtends | script.js:85 | the same for any sequence of events |
| DialogueProperties.OptionSetIsOneShot | script.js:105-114 | a click disables every button of its set, keeps the labels, echoes the label as the user's message, and the next click on the set changes nothing |
| DialogueProperties.SpentOptionsStaySpent | script.js:105-114 | a set whose buttons are all disabled ignores every click after any sequence of events |
| DialogueProperties.OptionSetStaysInert | script.js:105-114 | once an option is chosen, no click on its set does anything after any sequence of further events |
| DialogueProperties.EnterIsSend | script.js:362-366 | Enter in the field does what a click on Send does |
| DialogueProperties.OtherKeysIgnored | script.js:363 | any other key, or any key while the field is disabled, does nothing |
| DialogueProperties.SendIgnored | script.js:352-358 | Send does nothing while the field is disabled or holds only white space |
| DialogueProperties.SendDeliversTrimmedText | script.js:352-358 | otherwise Send logs the trimmed text as the user's message and clears the field; the text has no white space at either end |
| DialogueProperties.DownloadReadsRecordAtClick | script.js:284-288 | the report is built from the record as it is at the click, or the missing-library message is logged; the link is disabled and relabelled and ignores the next click |
| DialogueProperties.UsedLinkStaysUsed | script.js:284-288 | a used download link ignores every click after any sequence of events |
| DialogueProperties.DownloadIsOneShot | script.js:284-288 | once the link has been clicked, no click on it does anything after any sequence of further events |
| DialogueProperties.AskDetailsNamesKind | script.js:265 | the details request contains the lower-cased complaint type at position 33 |
| DialogueProperties.RegisteredShowsTicket | script.js:274 | the confirmation ends with the ticket number and a full stop |
| DialogueProperties.GreetingUnlocksEndedChat | script.js:205-206 | the greeting timer firing in `ended` keeps the state, shows nothing and enables both inputs |
| DialogueProperties.ClickUnlocksEndedChat | script.js:105-114 | a click on a still-enabled option set in `ended` echoes the label, keeps the state and enables both inputs |
| DialogueProperties.PageOpensWithMenu | script.js:369-371 | the greeting timer on a fresh page shows the three-way menu and locks the input |
| DialogueProperties.ComplaintConversation | script.js:262-294 | "Complaint", "Billing Issue", details: asks for the type, asks for the details, registers with a full-shape ticket and clears the record |
| DialogueProperties.EndChatConversation | script.js:229-233 | "End Chat" locks the page, schedules the farewell, and later input keeps `ended` |
| DialogueProperties.PendingOfferReopensEndedChat | script.js:335-340 | a pending "anything else" timer moves an ended chat back to `main_menu` |
| Widget.Engine.constructor | script.js:32-40 | a fresh page: state `initial`, empty record and log, inputs enabled, the greeting scheduled |
| Widget.Engine.AddMessage | script.js:57-87 | appends one entry to the log and changes nothing else |
| Widget.Engine.AddOptionsMessage | script.js:95-121 | appends the question and one enabled button per label, built in a loop |
| Widget.Engine.Lock | script.js:307-320 | sets both `disabled` flags to the same value |
| Widget.Engine.Advance | script.js:200-349 | the switch over the state, one case per state, leaves the page exactly as Dialogue.Advance says |
| Widget.Engine.RespondToMenu | script.js:216-242 | the main-menu keyword tests, made in the script's order, act on the rule the main-menu table picks |
| Widget.Engine.RespondToInquiry | script.js:243-261 | the inquiry keyword tests, made in the script's order, act on the rule the inquiry table picks |
| Widget.Engine.RegisterComplaint | script.js:269-297 | the details and a fresh ticket are recorded, the ticket is announced, the download link is scheduled and the record is cleared before the tail runs |
| Widget.Engine.Settle | script.js:307-348 | the common tail: lock from the new state, then schedule the reply or the farewell |
| Widget.Engine.Fire | script.js:325-347 | a timer callback, reading the state when it runs, leaves the page as Dialogue.Fire says |
| Widget.Engine.ClickOption | script.js:105-114 | the loop disables every button of the set, then the label is echoed and processed, as Dialogue.ClickOption says |
| Widget.Engine.GenerateReport | script.js:133-139 | with the PDF library, saves a report of the record passed in; without it, logs the error and saves nothing |
| Widget.Engine.ClickDownload | script.js:284-288 | reads the record at the click, then disables and relabels the link, as Dialogue.ClickDownload says |
| Widget.Engine.EditDraft | script.js:15-17 | typing changes the field only while it is enabled |
| Widget.Engine.ClickSend | script.js:352-359 | as Dialogue.ClickSend says |
| Widget.Engine.KeyPress | script.js:362-366 | as Dialogue.PressKey says |

## Left out

- Building the page, CSS class names, scrolling and the avatar images with their fallback (script.js:3-29, 57-87) are presentation; a log entry records only who said what.
- The PDF's layout, fonts and the date and time printed in it (script.js:140-192) belong to the jsPDF library. A saved report records the ticket, type, details and file name. The `console.error` call is left out.
- The `placeholder` text set on ending (script.js:311) is presentation.
- Timer durations are not modelled: any pending callback may run next, which includes every order the real deadlines allow.
- A clock reading before 1970 (a negative `Date.now()`, rendered with a leading `-`) is not modelled: the clock is a `nat`.
- `Date.now()`, `Math.random()` and the presence of jsPDF are parameters; `RandomText` states what `toString(36)` of a number in [0, 1) can look like.
- `lastOptionsElement` (script.js:39, 120) is stored but never read.
- Text.Lower: maps only the ASCII letters, not the full Unicode case mapping of `toLowerCase`.
- Text.Upper: maps only the ASCII letters, not the full Unicode case mapping of `toUpperCase`.
- The `default` branch of the switch (script.js:301-304) is unreachable: the state is always one of the six named ones.
- Option buttons and the download link are values inside the log rather than shared DOM nodes. No handler reaches a button other than through its own set, so no aliasing is lost.
