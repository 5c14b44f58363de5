/** What the dialogue engine guarantees, proved about the transition
    functions of module Dialogue. */
module DialogueProperties {
  import opened Text
  import opened Tickets
  import opened Dialogue

  // ---------------------------------------------------------------------
  // Keyword matching: first rule wins

  /** FirstMatch returns the rule of the earliest keyword that occurs. */
  lemma {:induction false} FirstMatchIsEarliest(rules: seq<(string, Rule)>, text: string, k: nat)
    requires k < |rules| && Includes(text, rules[k].0)
    requires forall j :: 0 <= j < k ==> !Includes(text, rules[j].0)
    ensures FirstMatch(rules, text) == Some(rules[k].1)
  {
    if k > 0 {
      assert !Includes(text, rules[0].0);
      forall j | 0 <= j < k - 1 ensures !Includes(text, rules[1..][j].0) {
        assert rules[1..][j] == rules[j + 1];
      }
      FirstMatchIsEarliest(rules[1..], text, k - 1);
    }
  }

  /** FirstMatch returns nothing exactly when no keyword occurs. */
  lemma {:induction false} FirstMatchNone(rules: seq<(string, Rule)>, text: string)
    ensures FirstMatch(rules, text) == None <==> forall j :: 0 <= j < |rules| ==> !Includes(text, rules[j].0)
  {
    if rules != [] {
      FirstMatchNone(rules[1..], text);
      assert forall j :: 1 <= j < |rules| ==> rules[j] == rules[1..][j - 1];
    }
  }

  /** The `main_menu` table is the if/else-if chain of the page: "general
      inquiry", then "complaint", then "end chat". */
  lemma MainMenuOrder(text: string)
    ensures FirstMatch(MainMenuRules, text) ==
      if Includes(text, "general inquiry") then Some(PresentMenu(WhichInquiry, InquiryLabels, InquiryTopic))
      else if Includes(text, "complaint") then Some(PresentMenu(WhichComplaint, ComplaintLabels, ComplaintTopic))
      else if Includes(text, "end chat") then Some(Answer(Goodbye, Ended))
      else None
  {
    var r0 := MainMenuRules;
    var r1 := [r0[1], r0[2]];
    var r2 := [r0[2]];
    assert r0[1..] == r1 && r1[1..] == r2 && r2[1..] == [];
    assert FirstMatch(r2, text) == if Includes(text, "end chat") then Some(r0[2].1) else None;
    assert FirstMatch(r1, text) == if Includes(text, "complaint") then Some(r0[1].1) else FirstMatch(r2, text);
  }

  /** The `inquiry_topic` table is the chain "about services", "contact
      information", "business hours", "other". */
  lemma InquiryOrder(text: string)
    ensures FirstMatch(InquiryRules, text) ==
      if Includes(text, "about services") then Some(Answer(ServicesAnswer, Initial))
      else if Includes(text, "contact information") then Some(Answer(ContactAnswer, Initial))
      else if Includes(text, "business hours") then Some(Answer(HoursAnswer, Initial))
      else if Includes(text, "other") then Some(Answer(OtherAnswer, Initial))
      else None
  {
    var r0 := InquiryRules;
    var r1 := [r0[1], r0[2], r0[3]];
    var r2 := [r0[2], r0[3]];
    var r3 := [r0[3]];
    assert r0[1..] == r1 && r1[1..] == r2 && r2[1..] == r3 && r3[1..] == [];
    assert FirstMatch(r3, text) == if Includes(text, "other") then Some(r0[3].1) else None;
    assert FirstMatch(r2, text) == if Includes(text, "business hours") then Some(r0[2].1) else FirstMatch(r3, text);
    assert FirstMatch(r1, text) == if Includes(text, "contact information") then Some(r0[1].1) else FirstMatch(r2, text);
  }

  /** Each button label of a menu, lower-cased, selects its own rule: a
      click on a current menu is never "unrecognised". */
  lemma MainMenuLabel0()
    ensures FirstMatch(MainMenuRules, Lower(MainLabels[0])) == Some(MainMenuRules[0].1)
  {
    assert Lower("General Inquiry") == "general inquiry";
    MainMenuOrder("general inquiry");
  }

  lemma MainMenuLabel1()
    ensures FirstMatch(MainMenuRules, Lower(MainLabels[1])) == Some(MainMenuRules[1].1)
  {
    assert Lower("Complaint") == "complaint";
    LongerNotIncluded("complaint", "general inquiry");
    MainMenuOrder("complaint");
  }

  lemma MainMenuLabel2()
    ensures FirstMatch(MainMenuRules, Lower(MainLabels[2])) == Some(MainMenuRules[2].1)
  {
    assert Lower("End Chat") == "end chat";
    LongerNotIncluded("end chat", "general inquiry");
    LongerNotIncluded("end chat", "complaint");
    MainMenuOrder("end chat");
  }

  lemma InquiryLabel0()
    ensures FirstMatch(InquiryRules, Lower(InquiryLabels[0])) == Some(InquiryRules[0].1)
  {
    assert Lower("About Services") == "about services";
    InquiryOrder("about services");
  }

  lemma InquiryLabel1()
    ensures FirstMatch(InquiryRules, Lower(InquiryLabels[1])) == Some(InquiryRules[1].1)
  {
    assert Lower("Contact Information") == "contact information";
    AbsentCharNotIncluded("contact information", "about services", 1);
    InquiryOrder("contact information");
  }

  lemma InquiryLabel2()
    ensures FirstMatch(InquiryRules, Lower(InquiryLabels[2])) == Some(InquiryRules[2].1)
  {
    assert Lower("Business Hours") == "business hours";
    AbsentCharNotIncluded("business hours", "about services", 0);
    LongerNotIncluded("business hours", "contact information");
    InquiryOrder("business hours");
  }

  lemma InquiryLabel3()
    ensures FirstMatch(InquiryRules, Lower(InquiryLabels[3])) == Some(InquiryRules[3].1)
  {
    assert Lower("Other") == "other";
    LongerNotIncluded("other", "about services");
    LongerNotIncluded("other", "contact information");
    LongerNotIncluded("other", "business hours");
    InquiryOrder("other");
  }

  // ---------------------------------------------------------------------
  // processBotResponse, state by state

  /** From `initial` any input, the empty one included, shows the three-way
      menu, moves to `main_menu` and locks the input. */
  lemma InitialPresentsMenu(v: Chat, input: string, ticket: string)
    requires v.state == Initial
    ensures Advance(v, input, ticket) ==
      v.(state := MainMenu, inputDisabled := true, sendDisabled := true,
         transcript := v.transcript + [BotSaid(Greeting), Offered(Buttons(MainLabels))])
  {
  }

  /** In `main_menu` the rules are tried in order and the first keyword
      found decides; with none found the state stays. */
  lemma MainMenuTransitions(v: Chat, input: string, ticket: string)
    requires v.state == MainMenu
    ensures var x, w := Lower(input), Advance(v, input, ticket);
      (w.state == InquiryTopic <==> Includes(x, "general inquiry")) &&
      (w.state == ComplaintTopic <==> !Includes(x, "general inquiry") && Includes(x, "complaint")) &&
      (w.state == Ended <==>
        !Includes(x, "general inquiry") && !Includes(x, "complaint") && Includes(x, "end chat")) &&
      (w.state == MainMenu <==>
        !Includes(x, "general inquiry") && !Includes(x, "complaint") && !Includes(x, "end chat")) &&
      (w.state == InquiryTopic ==>
        w.transcript == v.transcript + OptionsMessage(WhichInquiry, InquiryLabels) &&
        w.inputDisabled && w.pending == v.pending) &&
      (w.state == ComplaintTopic ==>
        w.transcript == v.transcript + OptionsMessage(WhichComplaint, ComplaintLabels) &&
        w.inputDisabled && w.pending == v.pending) &&
      (w.state == Ended ==>
        w.transcript == v.transcript && w.inputDisabled &&
        w.pending == v.pending + [Farewell(Goodbye)])
  {
    MainMenuOrder(Lower(input));
  }

  /** Input that matches no keyword of `main_menu` or `inquiry_topic` keeps
      the state, shows nothing, schedules the same option set again and
      leaves the input enabled; and only such input keeps the state. */
  lemma UnmatchedReprompts(v: Chat, input: string, ticket: string)
    requires v.state == MainMenu || v.state == InquiryTopic
    ensures var rules := if v.state == MainMenu then MainMenuRules else InquiryRules;
      var again := if v.state == MainMenu then ShowOptions(Greeting, MainLabels)
                   else ShowOptions(WhichInquiry, InquiryLabels);
      var w := Advance(v, input, ticket);
      (w.state == v.state <==> forall j :: 0 <= j < |rules| ==> !Includes(Lower(input), rules[j].0)) &&
      (w.state == v.state ==>
        w == v.(inputDisabled := false, sendDisabled := false, pending := v.pending + [again]))
  {
    MainMenuOrder(Lower(input));
    InquiryOrder(Lower(input));
    FirstMatchNone(MainMenuRules, Lower(input));
    FirstMatchNone(InquiryRules, Lower(input));
  }

  /** In `inquiry_topic` the first matching topic sets the state to
      `initial`, unlocks the input and schedules its fixed answer. */
  lemma InquiryAnswered(v: Chat, input: string, ticket: string, k: nat)
    requires v.state == InquiryTopic && k < |InquiryRules|
    requires Includes(Lower(input), InquiryRules[k].0)
    requires forall j :: 0 <= j < k ==> !Includes(Lower(input), InquiryRules[j].0)
    ensures Advance(v, input, ticket) ==
      v.(state := Initial, inputDisabled := false, sendDisabled := false,
         pending := v.pending + [Reply(InquiryRules[k].1.response, input)])
  {
    FirstMatchIsEarliest(InquiryRules, Lower(input), k);
  }

  /** In `inquiry_topic` every input either keeps the state and reprompts,
      or returns to `initial` with one of the four fixed answers scheduled. */
  lemma InquiryShape(v: Chat, input: string, ticket: string)
    requires v.state == InquiryTopic
    ensures var w := Advance(v, input, ticket);
      w == v.(inputDisabled := false, sendDisabled := false,
              pending := v.pending + [ShowOptions(WhichInquiry, InquiryLabels)]) ||
      exists k :: 0 <= k < |InquiryRules| &&
        w == v.(state := Initial, inputDisabled := false, sendDisabled := false,
                pending := v.pending + [Reply(InquiryRules[k].1.response, input)])
  {
    var x := Lower(input);
    InquiryOrder(x);
    if Includes(x, "about services") || Includes(x, "contact information") ||
       Includes(x, "business hours") || Includes(x, "other") {
      var k := if Includes(x, "about services") then 0
               else if Includes(x, "contact information") then 1
               else if Includes(x, "business hours") then 2 else 3;
      assert Advance(v, input, ticket) ==
        v.(state := Initial, inputDisabled := false, sendDisabled := false,
           pending := v.pending + [Reply(InquiryRules[k].1.response, input)]);
    }
  }

  /** An answered inquiry, once its two continuations have run, has shown
      the answer and the "anything else" menu and is back in `main_menu`. */
  lemma InquiryRoundTrip(v: Chat, input: string, ticket: string, k: nat, t2: string, t3: string)
    requires Inv(v) && v.state == InquiryTopic && v.pending == [] && k < |InquiryRules|
    requires Includes(Lower(input), InquiryRules[k].0)
    requires forall j :: 0 <= j < k ==> !Includes(Lower(input), InquiryRules[j].0)
    ensures var answer := InquiryRules[k].1.response;
      var w1 := Advance(v, input, ticket);
      w1.pending == [Reply(answer, input)] &&
      var w2 := Fire(w1, 0, t2);
      w2.pending == [OfferMenu] &&
      var w3 := Fire(w2, 0, t3);
      w3.state == MainMenu && w3.inputDisabled && w3.sendDisabled && w3.pending == [] &&
      w3.transcript == v.transcript + [BotSaid(answer)] + OptionsMessage(AnythingElse, MainLabels)
  {
    InquiryAnswered(v, input, ticket, k);
  }

  /** In `complaint_topic` the raw input becomes the complaint type, the
      state moves on to wait for details and the input is unlocked. */
  lemma ComplaintTypeStored(v: Chat, input: string, ticket: string)
    requires v.state == ComplaintTopic
    ensures var w := Advance(v, input, ticket);
      w == v.(state := ComplaintDetailsPending, complaint := v.complaint.(kind := input),
              inputDisabled := false, sendDisabled := false,
              pending := v.pending + [Reply(AskDetails(input), input)]) &&
      w.complaint.kind == input
  {
  }

  /** In `complaint_details_pending` the ticket message is shown at once, the
      download link and the reply are scheduled, the state returns to
      `initial` and the record is cleared. */
  lemma ComplaintRegistered(v: Chat, input: string, ticket: string)
    requires v.state == ComplaintDetailsPending
    ensures var m := Registered(ticket);
      Advance(v, input, ticket) ==
        v.(state := Initial, complaint := NoComplaint, inputDisabled := false, sendDisabled := false,
           transcript := v.transcript + [BotSaid(m)],
           pending := v.pending + [ShowDownload, Reply(m, input)])
  {
  }

  /** The reply guard never fires after a complaint, because the record was
      cleared before the reply runs: the ticket message is shown twice, with
      the download link between the two. */
  lemma TicketMessageShownTwice(v: Chat, input: string, ticket: string, t2: string, t3: string)
    requires v.state == ComplaintDetailsPending && v.pending == []
    ensures var m := Registered(ticket);
      var w1 := Advance(v, input, ticket);
      w1.pending == [ShowDownload, Reply(m, input)] &&
      var w2 := Fire(w1, 0, t2);
      w2.pending == [Reply(m, input)] &&
      var w3 := Fire(w2, 0, t3);
      w3.transcript == v.transcript + [BotSaid(m), DownloadLink(Button(DownloadCaption, false)), BotSaid(m)] &&
      w3.pending == [OfferMenu] && w3.complaint == NoComplaint
  {
    ComplaintRegistered(v, input, ticket);
    var w1 := Advance(v, input, ticket);
    AfterRegistration(w1, Registered(ticket), input, t2, t3);
  }

  /** The two callbacks a registration schedules, run in order: the link,
      then the reply, which is not suppressed because the record is clear. */
  lemma AfterRegistration(w1: Chat, m: Phrase, input: string, t2: string, t3: string)
    requires w1.pending == [ShowDownload, Reply(m, input)] && w1.state == Initial && w1.complaint == NoComplaint
    ensures var w2 := Fire(w1, 0, t2);
      w2.pending == [Reply(m, input)] &&
      var w3 := Fire(w2, 0, t3);
      w3.transcript == w1.transcript + [DownloadLink(Button(DownloadCaption, false)), BotSaid(m)] &&
      w3.pending == [OfferMenu] && w3.complaint == NoComplaint
  {
    assert w1.pending[1..] == [Reply(m, input)];
    FireShowDownload(w1, t2);
    var w2 := Fire(w1, 0, t2);
    assert w2.pending[1..] == [];
    FireReplyShown(w2, t3);
  }

  /** The download-link callback at the head of the queue shows the link. */
  lemma FireShowDownload(v: Chat, ticket: string)
    requires v.pending != [] && v.pending[0] == ShowDownload
    ensures Fire(v, 0, ticket) ==
      v.(pending := v.pending[1..], transcript := v.transcript + [DownloadLink(Button(DownloadCaption, false))])
  {
    assert RemoveAt(v.pending, 0) == v.pending[1..];
  }

  /** A reply callback at the head of the queue in `initial`, with no
      ticket on record, shows the reply and schedules the menu. */
  lemma FireReplyShown(v: Chat, ticket: string)
    requires v.pending != [] && v.pending[0].Reply? && v.state == Initial && v.complaint.ticket == ""
    ensures Fire(v, 0, ticket) ==
      v.(pending := v.pending[1..] + [OfferMenu], transcript := v.transcript + [BotSaid(v.pending[0].response)])
  {
    assert RemoveAt(v.pending, 0) == v.pending[1..];
  }

  /** `ended` keeps its state and shows nothing, but the input it had locked
      is enabled again. */
  lemma EndedIgnoresInput(v: Chat, input: string, ticket: string)
    requires v.state == Ended
    ensures Advance(v, input, ticket) == v.(inputDisabled := false, sendDisabled := false)
  {
  }

  /** After processBotResponse the two input elements agree, and they are
      locked exactly when the state changed to one that waits for a click or
      to `ended`. */
  lemma LockAfterAdvance(v: Chat, input: string, ticket: string)
    ensures var w := Advance(v, input, ticket);
      w.inputDisabled == w.sendDisabled &&
      (w.inputDisabled <==>
        w.state != v.state && w.state != Initial && w.state != ComplaintDetailsPending)
  {
    match v.state
    case Initial => InitialPresentsMenu(v, input, ticket);
    case MainMenu => MainMenuTransitions(v, input, ticket); UnmatchedReprompts(v, input, ticket);
    case InquiryTopic => InquiryShape(v, input, ticket);
    case ComplaintTopic => ComplaintTypeStored(v, input, ticket);
    case ComplaintDetailsPending => ComplaintRegistered(v, input, ticket);
    case Ended => EndedIgnoresInput(v, input, ticket);
  }

  // ---------------------------------------------------------------------
  // The invariant and what follows from it

  lemma AdvanceKeepsInv(v: Chat, input: string, ticket: string)
    requires Inv(v)
    ensures Inv(Advance(v, input, ticket))
  {
    match v.state
    case Initial => InitialPresentsMenu(v, input, ticket);
    case MainMenu => MainMenuTransitions(v, input, ticket); UnmatchedReprompts(v, input, ticket);
    case InquiryTopic => InquiryShape(v, input, ticket);
    case ComplaintTopic => ComplaintTypeStored(v, input, ticket);
    case ComplaintDetailsPending => ComplaintRegistered(v, input, ticket);
    case Ended => EndedIgnoresInput(v, input, ticket);
  }

  lemma FireKeepsInv(v: Chat, k: nat, ticket: string)
    requires Inv(v) && k < |v.pending|
    ensures Inv(Fire(v, k, ticket))
  {
    if v.pending[k].Greet? {
      AdvanceKeepsInv(v.(pending := RemoveAt(v.pending, k)), "", ticket);
    }
  }

  /** A message the user sends, by Send, Enter or an option button, is
      processed from a snapshot that still satisfies the invariant. */
  lemma SendKeepsInv(v: Chat, ticket: string)
    requires Inv(v)
    ensures Inv(ClickSend(v, ticket))
  {
    var m := Trim(v.draft);
    AdvanceKeepsInv(v.(transcript := v.transcript + [UserSaid(m)], draft := ""), m, ticket);
  }

  lemma ClickKeepsInv(v: Chat, i: nat, b: nat, ticket: string)
    requires Inv(v)
    ensures Inv(ClickOption(v, i, b, ticket))
  {
    if Clickable(v.transcript, i, b) {
      var choice := v.transcript[i].buttons[b].caption;
      var t := v.transcript[i := Offered(DisableAll(v.transcript[i].buttons))];
      AdvanceKeepsInv(v.(transcript := t + [UserSaid(choice)]), choice, ticket);
    }
  }

  lemma StepKeepsInv(v: Chat, e: Event)
    requires Inv(v)
    ensures Inv(Step(v, e))
  {
    match e
    case Edit(_) =>
    case Send(now, random) => SendKeepsInv(v, Ticket(now, random));
    case Key(_, now, random) => SendKeepsInv(v, Ticket(now, random));
    case Choose(i, b, now, random) => ClickKeepsInv(v, i, b, Ticket(now, random));
    case Download(i, loaded) =>
    case Tick(k, now, random) =>
      if k < |v.pending| {
        FireKeepsInv(v, k, Ticket(now, random));
      }
  }

  lemma {:induction false} RunKeepsInv(v: Chat, events: seq<Event>)
    requires Inv(v)
    ensures Inv(Run(v, events))
    decreases |events|
  {
    if events != [] {
      StepKeepsInv(v, events[0]);
      RunKeepsInv(Step(v, events[0]), events[1..]);
    }
  }

  /** Whatever happens on the page, in whatever order its timers fire,
      every saved report has an empty ticket, empty details and the file
      name "Complaint_.pdf": the download handler reads the complaint record
      when it is clicked, after it was cleared. */
  lemma ReportsAreBlank(events: seq<Event>)
    ensures var v := Run(Start(), events);
      forall k :: 0 <= k < |v.reports| ==>
        v.reports[k].ticket == "" && v.reports[k].details == "" && v.reports[k].fileName == "Complaint_.pdf"
  {
    RunKeepsInv(Start(), events);
  }

  /** On every page the two input elements are locked and unlocked together. */
  lemma InputsMoveTogether(events: seq<Event>)
    ensures Run(Start(), events).inputDisabled == Run(Start(), events).sendDisabled
  {
    RunKeepsInv(Start(), events);
  }

  // ---------------------------------------------------------------------
  // The transcript only grows

  /** processBotResponse only appends to the transcript, and leaves the
      message field and the saved reports alone. */
  lemma AdvanceAppends(v: Chat, input: string, ticket: string)
    ensures var w := Advance(v, input, ticket);
      v.transcript <= w.transcript && w.draft == v.draft && w.reports == v.reports
  {
    match v.state
    case Initial => InitialPresentsMenu(v, input, ticket);
    case MainMenu => MainMenuTransitions(v, input, ticket); UnmatchedReprompts(v, input, ticket);
    case InquiryTopic => InquiryShape(v, input, ticket);
    case ComplaintTopic => ComplaintTypeStored(v, input, ticket);
    case ComplaintDetailsPending => ComplaintRegistered(v, input, ticket);
    case Ended => EndedIgnoresInput(v, input, ticket);
  }

  lemma FireAppends(v: Chat, k: nat, ticket: string)
    requires k < |v.pending|
    ensures v.transcript <= Fire(v, k, ticket).transcript
  {
    if v.pending[k].Greet? {
      AdvanceAppends(v.(pending := RemoveAt(v.pending, k)), "", ticket);
    }
  }

  lemma PrefixExtends(t: seq<Entry>, u: seq<Entry>)
    requires t <= u
    ensures Extends(t, u)
  {
  }

  lemma ExtendsTransitive(t: seq<Entry>, u: seq<Entry>, w: seq<Entry>)
    requires Extends(t, u) && Extends(u, w)
    ensures Extends(t, w)
  {
    forall k | 0 <= k < |t| ensures SameContent(t[k], w[k]) {
      assert SameContent(t[k], u[k]) && SameContent(u[k], w[k]);
    }
  }

  lemma SendAppends(v: Chat, ticket: string)
    ensures v.transcript <= ClickSend(v, ticket).transcript
  {
    var m := Trim(v.draft);
    AdvanceAppends(v.(transcript := v.transcript + [UserSaid(m)], draft := ""), m, ticket);
  }

  lemma SendExtends(v: Chat, ticket: string)
    ensures Extends(v.transcript, ClickSend(v, ticket).transcript)
  {
    SendAppends(v, ticket);
    PrefixExtends(v.transcript, ClickSend(v, ticket).transcript);
  }

  lemma FireExtends(v: Chat, k: nat, ticket: string)
    requires k < |v.pending|
    ensures Extends(v.transcript, Fire(v, k, ticket).transcript)
  {
    FireAppends(v, k, ticket);
    PrefixExtends(v.transcript, Fire(v, k, ticket).transcript);
  }

  lemma ClickExtends(v: Chat, i: nat, b: nat, ticket: string)
    ensures Extends(v.transcript, ClickOption(v, i, b, ticket).transcript)
  {
    if Clickable(v.transcript, i, b) {
      var choice := v.transcript[i].buttons[b].caption;
      var t := v.transcript[i := Offered(DisableAll(v.transcript[i].buttons))];
      var u := v.(transcript := t + [UserSaid(choice)]);
      AdvanceAppends(u, choice, ticket);
      assert Extends(v.transcript, u.transcript) by {
        assert Labels(DisableAll(v.transcript[i].buttons)) == Labels(v.transcript[i].buttons);
      }
      ExtendsTransitive(v.transcript, u.transcript, ClickOption(v, i, b, ticket).transcript);
    }
  }

  lemma DownloadExtends(v: Chat, i: nat, pdfLoaded: bool)
    ensures Extends(v.transcript, ClickDownload(v, i, pdfLoaded).transcript)
  {
  }

  /** No event removes or rewrites an entry of the transcript: entries are
      only added at the end, and a button set or link only changes state. */
  lemma StepExtends(v: Chat, e: Event)
    ensures Extends(v.transcript, Step(v, e).transcript)
  {
    match e
    case Edit(_) =>
    case Send(now, random) => SendExtends(v, Ticket(now, random));
    case Key(key, now, random) =>
      if key == "Enter" && !v.inputDisabled {
        SendExtends(v, Ticket(now, random));
      }
    case Choose(i, b, now, random) => ClickExtends(v, i, b, Ticket(now, random));
    case Download(i, loaded) => DownloadExtends(v, i, loaded);
    case Tick(k, now, random) =>
      if k < |v.pending| {
        FireExtends(v, k, Ticket(now, random));
      }
  }

  lemma {:induction false} RunExtends(v: Chat, events: seq<Event>)
    ensures Extends(v.transcript, Run(v, events).transcript)
    decreases |events|
  {
    if events != [] {
      StepExtends(v, events[0]);
      RunExtends(Step(v, events[0]), events[1..]);
      ExtendsTransitive(v.transcript, Step(v, events[0]).transcript, Run(v, events).transcript);
    }
  }

  // ---------------------------------------------------------------------
  // Option sets, the send button and the download link

  /** A click on an enabled option disables every button of its set, echoes
      the label as the user's message, and makes the set inert: any later
      click on it changes nothing. */
  lemma OptionSetIsOneShot(v: Chat, i: nat, b: nat, ticket: string, b2: nat, ticket2: string)
    requires Clickable(v.transcript, i, b)
    ensures var w := ClickOption(v, i, b, ticket);
      Labels(w.transcript[i].buttons) == Labels(v.transcript[i].buttons) &&
      (forall j :: 0 <= j < |w.transcript[i].buttons| ==> w.transcript[i].buttons[j].disabled) &&
      |v.transcript| < |w.transcript| &&
      w.transcript[|v.transcript|] == UserSaid(v.transcript[i].buttons[b].caption) &&
      ClickOption(w, i, b2, ticket2) == w
  {
    var choice := v.transcript[i].buttons[b].caption;
    var t := v.transcript[i := Offered(DisableAll(v.transcript[i].buttons))];
    AdvanceAppends(v.(transcript := t + [UserSaid(choice)]), choice, ticket);
  }

  /** Enter in the message field is the same as a click on Send. */
  lemma EnterIsSend(v: Chat, ticket: string)
    ensures PressKey(v, "Enter", ticket) == ClickSend(v, ticket)
  {
  }

  /** Send does nothing while the field is disabled or holds only white
      space. */
  lemma SendIgnored(v: Chat, ticket: string)
    requires v.inputDisabled || Trim(v.draft) == ""
    ensures ClickSend(v, ticket) == v
  {
  }

  /** Otherwise Send delivers the trimmed field text, which neither starts
      nor ends with white space, as the user's message, and clears the
      field. */
  lemma SendDeliversTrimmedText(v: Chat, ticket: string)
    requires Inv(v) && !v.inputDisabled && Trim(v.draft) != ""
    ensures var w, m := ClickSend(v, ticket), Trim(v.draft);
      w.draft == "" && v.transcript + [UserSaid(m)] <= w.transcript &&
      !IsSpace(m[0]) && !IsSpace(m[|m| - 1])
  {
    var m := Trim(v.draft);
    var u := v.(transcript := v.transcript + [UserSaid(m)], draft := "");
    assert ClickSend(v, ticket) == Advance(u, m, ticket);
    AdvanceAppends(u, m, ticket);
  }

  /** Any key other than Enter, and any key while the field is disabled,
      does nothing. */
  lemma OtherKeysIgnored(v: Chat, key: string, ticket: string)
    requires key != "Enter" || v.inputDisabled
    ensures PressKey(v, key, ticket) == v
  {
  }

  /** The download link builds its report from the record as it is at the
      click, reports a missing PDF library in the transcript instead, and
      is disabled afterwards either way; the conversation is untouched. */
  lemma DownloadReadsRecordAtClick(v: Chat, i: nat, pdfLoaded: bool, again: bool)
    requires LinkActive(v.transcript, i)
    ensures var w := ClickDownload(v, i, pdfLoaded);
      w.transcript[i] == DownloadLink(Button(DownloadedCaption, true)) &&
      w.state == v.state && w.complaint == v.complaint && w.pending == v.pending &&
      (pdfLoaded ==>
        w.reports == v.reports + [Report(v.complaint.ticket, v.complaint.kind, v.complaint.details,
                                         "Complaint_" + v.complaint.ticket + ".pdf")] &&
        |w.transcript| == |v.transcript|) &&
      (!pdfLoaded ==>
        w.reports == v.reports && w.transcript == v.transcript[i := w.transcript[i]] + [BotSaid(PdfMissing)]) &&
      ClickDownload(w, i, again) == w
  {
  }

  /** A set whose buttons are all disabled stays that way whatever happens
      next, so no later click on it does anything. */
  lemma {:induction false} SpentOptionsStaySpent(v: Chat, events: seq<Event>, i: nat, b: nat, ticket: string)
    requires i < |v.transcript| && v.transcript[i].Offered?
    requires forall j :: 0 <= j < |v.transcript[i].buttons| ==> v.transcript[i].buttons[j].disabled
    ensures ClickOption(Run(v, events), i, b, ticket) == Run(v, events)
  {
    var w := Run(v, events);
    RunExtends(v, events);
    assert SameContent(v.transcript[i], w.transcript[i]);
    assert |Labels(w.transcript[i].buttons)| == |Labels(v.transcript[i].buttons)|;
    if b < |w.transcript[i].buttons| {
      assert v.transcript[i].buttons[b].disabled;
    }
  }

  /** A used download link stays used whatever happens next, so no later
      click on it does anything. */
  lemma {:induction false} UsedLinkStaysUsed(v: Chat, events: seq<Event>, i: nat, pdfLoaded: bool)
    requires i < |v.transcript| && v.transcript[i].DownloadLink? && v.transcript[i].link.disabled
    ensures ClickDownload(Run(v, events), i, pdfLoaded) == Run(v, events)
  {
    RunExtends(v, events);
    assert SameContent(v.transcript[i], Run(v, events).transcript[i]);
  }

  /** Once an option has been chosen, its set never takes another click,
      after any sequence of further events. */
  lemma OptionSetStaysInert(v: Chat, i: nat, b: nat, ticket: string, events: seq<Event>, b2: nat, ticket2: string)
    requires Clickable(v.transcript, i, b)
    ensures var w := Run(ClickOption(v, i, b, ticket), events);
      ClickOption(w, i, b2, ticket2) == w
  {
    OptionSetIsOneShot(v, i, b, ticket, b2, ticket2);
    SpentOptionsStaySpent(ClickOption(v, i, b, ticket), events, i, b2, ticket2);
  }

  /** Once the download link has been clicked, it never takes another
      click, after any sequence of further events. */
  lemma DownloadIsOneShot(v: Chat, i: nat, pdfLoaded: bool, events: seq<Event>, again: bool)
    requires LinkActive(v.transcript, i)
    ensures var w := Run(ClickDownload(v, i, pdfLoaded), events);
      ClickDownload(w, i, again) == w
  {
    DownloadReadsRecordAtClick(v, i, pdfLoaded, again);
    UsedLinkStaysUsed(ClickDownload(v, i, pdfLoaded), events, i, again);
  }

  /** The reply guard never fires on a reachable page: the record's ticket
      is cleared before any reply callback can read it. */
  lemma ReplyNeverSuppressed(events: seq<Event>, input: string)
    ensures !ReplySuppressed(Run(Start(), events), input)
  {
    RunKeepsInv(Start(), events);
  }

  // ---------------------------------------------------------------------
  // The wording of the two messages that carry user data

  /** The request for details names the complaint type, lower-cased. */
  lemma AskDetailsNamesKind(kind: string)
    ensures OccursAt(Words(AskDetails(kind)), Lower(kind), 33)
    ensures |Words(AskDetails(kind))| == 44 + |kind|
  {
  }

  /** The confirmation ends with the ticket number and a full stop. */
  lemma RegisteredShowsTicket(ticket: string)
    ensures OccursAt(Words(Registered(ticket)), ticket, 96)
    ensures |Words(Registered(ticket))| == 97 + |ticket|
    ensures Words(Registered(ticket))[96 + |ticket|] == '.'
  {
  }

  // ---------------------------------------------------------------------
  // Conversations

  /** The page opens with the greeting timer alone; when it fires, the
      three-way menu is shown and the input locked until a click. */
  lemma PageOpensWithMenu(t: string)
    ensures var w := Fire(Start(), 0, t);
      w.state == MainMenu && w.inputDisabled && w.sendDisabled && w.pending == [] &&
      w.transcript == OptionsMessage(Greeting, MainLabels) && w.complaint == NoComplaint
  {
    InitialPresentsMenu(Start().(pending := []), "", t);
  }

  /** Choosing "Complaint", then "Billing Issue", then typing the details
      asks for the type, asks for the details, and registers the complaint
      with a ticket of the full shape; the record is cleared afterwards. */
  lemma ComplaintConversation(v: Chat, now: nat, random: string, t: string)
    requires Inv(v) && v.state == MainMenu && v.pending == []
    requires now >= 100000 && RandomText(random) && |random| >= 6
    ensures var w1 := Advance(v, "Complaint", t);
      w1.state == ComplaintTopic &&
      w1.transcript == v.transcript + OptionsMessage(WhichComplaint, ComplaintLabels) &&
      var w2 := Advance(w1, "Billing Issue", t);
      w2.state == ComplaintDetailsPending && w2.complaint.kind == "Billing Issue" && !w2.inputDisabled &&
      w2.pending == [Reply(AskDetails("Billing Issue"), "Billing Issue")] &&
      var w3 := Fire(w2, 0, t);
      w3.transcript == w1.transcript + [BotSaid(AskDetails("Billing Issue"))] &&
      var ticket := Ticket(now, random);
      var w4 := Advance(w3, "Double charged in March", ticket);
      w4.state == Initial && w4.complaint == NoComplaint &&
      w4.transcript == w3.transcript + [BotSaid(Registered(ticket))] &&
      TicketPattern(ticket)
  {
    MainMenuLabel1();
    TicketShape(now, random);
  }

  /** "End Chat" ends the conversation: the input is locked and the closing
      message scheduled, and further input keeps the state `ended`. */
  lemma EndChatConversation(v: Chat, t: string, later: string, t2: string)
    requires v.state == MainMenu
    ensures var w := Advance(v, "End Chat", t);
      w.state == Ended && w.inputDisabled && w.sendDisabled &&
      w.transcript == v.transcript && w.pending == v.pending + [Farewell(Goodbye)] &&
      Advance(w, later, t2).state == Ended
  {
    MainMenuLabel2();
    MainMenuTransitions(v, "End Chat", t);
  }

  /** `ended` is not absorbing for the page as a whole: a main-menu offer
      scheduled before "End Chat" was clicked still runs and moves the chat
      back to `main_menu` with the input locked. */
  lemma PendingOfferReopensEndedChat(v: Chat, k: nat, t: string)
    requires v.state == Ended && k < |v.pending| && v.pending[k] == OfferMenu
    ensures var w := Fire(v, k, t);
      w.state == MainMenu && w.inputDisabled &&
      w.transcript == v.transcript + OptionsMessage(AnythingElse, MainLabels)
  {
  }

  /** The greeting timer, still pending when the chat ends, runs
      processBotResponse in `ended`: the state stays, the input is
      enabled again and nothing is shown. */
  lemma GreetingUnlocksEndedChat(v: Chat, k: nat, t: string)
    requires v.state == Ended && k < |v.pending| && v.pending[k] == Greet
    ensures Fire(v, k, t) ==
      v.(pending := RemoveAt(v.pending, k), inputDisabled := false, sendDisabled := false)
  {
    EndedIgnoresInput(v.(pending := RemoveAt(v.pending, k)), "", t);
  }

  /** A click on an option set still enabled after the chat ended does the
      same: the label is echoed, the state stays `ended`, and the input is
      enabled again. */
  lemma ClickUnlocksEndedChat(v: Chat, i: nat, b: nat, t: string)
    requires v.state == Ended && Clickable(v.transcript, i, b)
    ensures var w := ClickOption(v, i, b, t);
      w.state == Ended && !w.inputDisabled && !w.sendDisabled &&
      w.transcript == v.transcript[i := Offered(DisableAll(v.transcript[i].buttons))] +
                      [UserSaid(v.transcript[i].buttons[b].caption)]
  {
    var choice := v.transcript[i].buttons[b].caption;
    var u := v.(transcript := v.transcript[i := Offered(DisableAll(v.transcript[i].buttons))] + [UserSaid(choice)]);
    EndedIgnoresInput(u, choice, t);
  }
}
