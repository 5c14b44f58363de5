/** The chat page as an object whose handlers update its fields in place,
    statement by statement as the page's script does. Each handler is
    proved to leave the page in the state the matching transition function
    of module Dialogue computes, so everything proved about those functions
    holds for the page. */
module Widget {
  import opened Text
  import opened Tickets
  import opened Dialogue
  import opened DialogueProperties

  class Engine {
    var state: State
    var complaint: Complaint
    var inputDisabled: bool
    var sendDisabled: bool
    var draft: string
    var transcript: seq<Entry>
    var pending: seq<Deferred>
    var reports: seq<Report>

    /** The page as a value. */
    function View(): Chat
      reads this
    {
      Chat(state, complaint, inputDisabled, sendDisabled, draft, transcript, pending, reports)
    }

    /** Loading the page: empty log, enabled input, the greeting scheduled. */
    constructor ()
      ensures View() == Start()
    {
      state := Initial;
      complaint := NoComplaint;
      inputDisabled := false;
      sendDisabled := false;
      draft := "";
      transcript := [];
      pending := [Greet];
      reports := [];
    }

    /** addMessage: append one entry to the log. */
    method AddMessage(e: Entry)
      modifies this
      ensures View() == old(View()).(transcript := old(transcript) + [e])
    {
      transcript := transcript + [e];
    }

    /** addOptionsMessage: the question, then one enabled button per label,
        built one at a time. */
    method AddOptionsMessage(prompt: Phrase, labels: seq<string>)
      modifies this
      ensures View() == old(View()).(transcript := old(transcript) + OptionsMessage(prompt, labels))
    {
      AddMessage(BotSaid(prompt));
      var buttons: seq<Button> := [];
      var j := 0;
      while j < |labels|
        invariant 0 <= j <= |labels| && |buttons| == j
        invariant forall m :: 0 <= m < j ==> buttons[m] == Button(labels[m], false)
      {
        buttons := buttons + [Button(labels[j], false)];
        j := j + 1;
      }
      assert buttons == Buttons(labels);
      AddMessage(Offered(buttons));
    }

    method Lock(locked: bool)
      modifies this
      ensures View() == SetLock(old(View()), locked)
    {
      inputDisabled := locked;
      sendDisabled := locked;
    }

    /** processBotResponse(input); `now` and `random` are what Date.now()
        and Math.random().toString(36) would return if a ticket is made. */
    method Advance(input: string, now: nat, random: string)
      modifies this
      ensures View() == Dialogue.Advance(old(View()), input, Ticket(now, random))
    {
      var lowered := Lower(input);
      Lock(false);
      match state {
      case Initial =>
        AddOptionsMessage(Greeting, MainLabels);
        state := MainMenu;
        Lock(true);
      case MainMenu =>
        RespondToMenu(input, lowered);
      case InquiryTopic =>
        RespondToInquiry(input, lowered);
      case ComplaintTopic =>
        complaint := complaint.(kind := input);
        state := ComplaintDetailsPending;
        Settle(AskDetails(input), input);
      case ComplaintDetailsPending =>
        RegisterComplaint(input, now, random);
      case Ended =>
      }
    }

    /** The main-menu case of processBotResponse: the keyword tests in the
        order the script makes them. */
    method RespondToMenu(input: string, lowered: string)
      requires lowered == Lower(input)
      modifies this
      ensures View() == Dispatch(old(View()), FirstMatch(MainMenuRules, lowered),
                                 ShowOptions(Greeting, MainLabels), input)
    {
      MainMenuOrder(lowered);
      if Includes(lowered, "general inquiry") {
        AddOptionsMessage(WhichInquiry, InquiryLabels);
        state := InquiryTopic;
        Lock(true);
      } else if Includes(lowered, "complaint") {
        AddOptionsMessage(WhichComplaint, ComplaintLabels);
        state := ComplaintTopic;
        Lock(true);
      } else if Includes(lowered, "end chat") {
        state := Ended;
        Settle(Goodbye, input);
      } else {
        // the hint chosen here is never shown: only the menu is scheduled again
        pending := pending + [ShowOptions(Greeting, MainLabels)];
      }
    }

    /** The general-inquiry case of processBotResponse. */
    method RespondToInquiry(input: string, lowered: string)
      requires lowered == Lower(input)
      modifies this
      ensures View() == Dispatch(old(View()), FirstMatch(InquiryRules, lowered),
                                 ShowOptions(WhichInquiry, InquiryLabels), input)
    {
      InquiryOrder(lowered);
      var botResponse;
      if Includes(lowered, "about services") {
        botResponse := ServicesAnswer;
      } else if Includes(lowered, "contact information") {
        botResponse := ContactAnswer;
      } else if Includes(lowered, "business hours") {
        botResponse := HoursAnswer;
      } else if Includes(lowered, "other") {
        botResponse := OtherAnswer;
      } else {
        // as in the main menu, the hint is dropped and the options come again
        pending := pending + [ShowOptions(WhichInquiry, InquiryLabels)];
        return;
      }
      state := Initial;
      Settle(botResponse, input);
    }

    /** The complaint-details case of processBotResponse: record the details
        and a fresh ticket, announce it, schedule the download link, and
        clear the record. */
    method RegisterComplaint(input: string, now: nat, random: string)
      modifies this
      ensures var ticket := Ticket(now, random);
        View() == Dialogue.Settle(old(View()).(state := Initial, complaint := NoComplaint,
                                               transcript := old(transcript) + [BotSaid(Registered(ticket))],
                                               pending := old(pending) + [ShowDownload]),
                                  Registered(ticket), input)
    {
      complaint := complaint.(details := input);
      complaint := complaint.(ticket := Ticket(now, random));
      var botResponse := Registered(complaint.ticket);
      AddMessage(BotSaid(botResponse));
      pending := pending + [ShowDownload];
      state := Initial;
      complaint := NoComplaint;
      Settle(botResponse, input);
    }

    /** The common tail of processBotResponse. */
    method Settle(botResponse: Phrase, input: string)
      modifies this
      ensures View() == Dialogue.Settle(old(View()), botResponse, input)
    {
      if state == Ended {
        Lock(true);
      } else if state == Initial || state == ComplaintDetailsPending {
        Lock(false);
      } else {
        Lock(true);
      }
      if state != MainMenu && state != InquiryTopic && state != ComplaintTopic && state != Ended {
        pending := pending + [Reply(botResponse, input)];
      } else if state == Ended {
        pending := pending + [Farewell(botResponse)];
      }
    }

    /** The timer at position `k` of the queue comes due and its callback
        runs, reading the state as it is at that moment. */
    method Fire(k: nat, now: nat, random: string)
      requires k < |pending|
      modifies this
      ensures View() == Dialogue.Fire(old(View()), k, Ticket(now, random))
    {
      var job := pending[k];
      pending := RemoveAt(pending, k);
      match job
      case Greet =>
        Advance("", now, random);
      case ShowOptions(prompt, labels) =>
        AddOptionsMessage(prompt, labels);
      case ShowDownload =>
        AddMessage(DownloadLink(Button(DownloadCaption, false)));
      case Reply(response, input) =>
        if state == Initial && Includes(Lower(input), "complaint") && complaint.ticket != "" {
        } else {
          AddMessage(BotSaid(response));
        }
        if state == Initial {
          pending := pending + [OfferMenu];
        }
      case OfferMenu =>
        AddOptionsMessage(AnythingElse, MainLabels);
        state := MainMenu;
        Lock(true);
      case Farewell(response) =>
        AddMessage(BotSaid(response));
    }

    /** A click on button `b` of option set `i`: every button of the set is
        disabled, one after the other, the label is echoed as the user's
        message and processed. A disabled button receives no click. */
    method ClickOption(i: nat, b: nat, now: nat, random: string)
      modifies this
      ensures View() == Dialogue.ClickOption(old(View()), i, b, Ticket(now, random))
    {
      if !Clickable(transcript, i, b) {
        return;
      }
      var choice := transcript[i].buttons[b].caption;
      var original := transcript[i].buttons;
      var buttons := original;
      var j := 0;
      while j < |buttons|
        invariant 0 <= j <= |buttons| == |original|
        invariant forall m :: 0 <= m < j ==> buttons[m] == original[m].(disabled := true)
        invariant forall m :: j <= m < |buttons| ==> buttons[m] == original[m]
      {
        buttons := buttons[j := buttons[j].(disabled := true)];
        j := j + 1;
      }
      assert buttons == DisableAll(original);
      transcript := transcript[i := Offered(buttons)];
      AddMessage(UserSaid(choice));
      Advance(choice, now, random);
    }

    /** generateComplaintPdf(data): save a report of `data`, or log that the
        PDF library is missing. */
    method GenerateReport(data: Complaint, pdfLoaded: bool)
      modifies this
      ensures pdfLoaded ==> View() == old(View()).(reports := old(reports) + [ReportOf(data)])
      ensures !pdfLoaded ==> View() == old(View()).(transcript := old(transcript) + [BotSaid(PdfMissing)])
    {
      if !pdfLoaded {
        AddMessage(BotSaid(PdfMissing));
        return;
      }
      reports := reports + [Report(data.ticket, data.kind, data.details, FileName(data.ticket))];
    }

    /** A click on download link `i`: the report is built from the record
        as it is now, then the link is disabled and relabelled. */
    method ClickDownload(i: nat, pdfLoaded: bool)
      modifies this
      ensures View() == Dialogue.ClickDownload(old(View()), i, pdfLoaded)
    {
      if !LinkActive(transcript, i) {
        return;
      }
      GenerateReport(complaint, pdfLoaded);
      transcript := transcript[i := DownloadLink(Button(DownloadedCaption, true))];
    }

    /** Typing into the message field. */
    method EditDraft(text: string)
      modifies this
      ensures View() == Dialogue.EditDraft(old(View()), text)
    {
      if !inputDisabled {
        draft := text;
      }
    }

    /** The Send button's click handler. */
    method ClickSend(now: nat, random: string)
      modifies this
      ensures View() == Dialogue.ClickSend(old(View()), Ticket(now, random))
    {
      if sendDisabled {
        return;
      }
      ghost var before := View();
      var message := Trim(draft);
      if message != "" && !inputDisabled {
        AddMessage(UserSaid(message));
        draft := "";
        assert View() == before.(transcript := before.transcript + [UserSaid(message)], draft := "");
        Advance(message, now, random);
      }
    }

    /** The message field's key handler: Enter clicks Send. */
    method KeyPress(key: string, now: nat, random: string)
      modifies this
      ensures View() == PressKey(old(View()), key, Ticket(now, random))
    {
      if key == "Enter" && !inputDisabled {
        ClickSend(now, random);
      }
    }
  }
}
