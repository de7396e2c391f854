/** The events page (src/pages/Events.tsx): the all/upcoming/past filter
    over the events table, and the event-suggestion form whose submit
    handler hands the form to an e-mail service. */
module EventsPage {
  import opened Types
  import opened Seqs

  // ---------------------------------------------------------------------
  // The list filter

  /** The three filter buttons. */
  datatype EventFilter = All | Upcoming | Past

  /** `useState("all")`. */
  const InitialFilter := All

  /** The predicate handed to `events.filter`. */
  function Keeps(f: EventFilter): (r: Event -> bool)
    ensures f == All ==> forall e :: r(e)
    ensures f != All ==> forall e :: r(e) <==> (e.isUpcoming <==> f == Upcoming)
  {
    match f
    case All => (e: Event) => true
    case Upcoming => (e: Event) => e.isUpcoming
    case Past => (e: Event) => !e.isUpcoming
  }

  /** filteredEvents: the events the selected button admits, in table order;
      "all" shows the table as it is. */
  function FilteredEvents(events: seq<Event>, f: EventFilter): (r: seq<Event>)
    ensures IsSubsequence(r, events)
    ensures forall e :: e in r <==> e in events && Keeps(f)(e)
    ensures f == All ==> r == events
  {
    if f == All then
      FilterKeepsAll(events, Keeps(f));
      Filter(events, Keeps(f))
    else
      Filter(events, Keeps(f))
  }

  /** "upcoming" shows exactly the upcoming events, "past" exactly the
      others, each with the multiplicity it has in the table. */
  lemma FilteredEventsExact(events: seq<Event>, f: EventFilter)
    ensures forall e :: multiset(FilteredEvents(events, f))[e] == (if Keeps(f)(e) then multiset(events)[e] else 0)
  {
    FilterMultiset(events, Keeps(f));
  }

  /** The page opens on the unfiltered list. */
  lemma InitialShowsAllEvents(events: seq<Event>)
    ensures FilteredEvents(events, InitialFilter) == events
  {
  }

  /** The upcoming and past views split the table between them. */
  lemma UpcomingPastPartition(events: seq<Event>)
    ensures multiset(FilteredEvents(events, Upcoming)) + multiset(FilteredEvents(events, Past)) == multiset(events)
    ensures |FilteredEvents(events, Upcoming)| + |FilteredEvents(events, Past)| == |events|
  {
    FilterPartition(events, Keeps(Upcoming), Keeps(Past));
  }

  /** When the table lists its upcoming events before its past ones, the
      two views are the table cut in two at the first past event. */
  lemma UpcomingFirst(events: seq<Event>, k: nat)
    requires k <= |events|
    requires forall i :: 0 <= i < k ==> events[i].isUpcoming
    requires forall i :: k <= i < |events| ==> !events[i].isUpcoming
    ensures FilteredEvents(events, Upcoming) == events[..k]
    ensures FilteredEvents(events, Past) == events[k..]
  {
    assert forall i :: 0 <= i < |events| ==> Keeps(Upcoming)(events[i]) == events[i].isUpcoming;
    assert forall i :: 0 <= i < |events| ==> Keeps(Past)(events[i]) == !events[i].isUpcoming;
    FilterPrefix(events, Keeps(Upcoming), k);
    FilterSuffix(events, Keeps(Past), k);
  }

  /** The "No events to display." branch is taken exactly when the selected
      filter admits no event of the table. */
  function ShowsNoEvents(events: seq<Event>, f: EventFilter): (r: bool)
    ensures r <==> forall e :: e in events ==> !Keeps(f)(e)
    ensures r && f == All ==> events == []
  {
    |FilteredEvents(events, f)| == 0
  }

  // ---------------------------------------------------------------------
  // The event-suggestion form

  datatype MessageStatus = Idle | Success | Error

  /** The four named inputs of the form. */
  datatype SuggestionFields = SuggestionFields(
    fromName: string, fromEmail: string, eventTitle: string, eventDescription: string)

  /** What `form.reset()` leaves: the inputs have no default values. */
  const BlankFields := SuggestionFields("", "", "", "")

  /** `import.meta.env.X || ""`: an unset variable reads as the empty string. */
  function CredentialOrEmpty(v: Option<string>): (r: string)
    ensures r == "" <==> v == None || v == Some("")
    ensures r != "" ==> v == Some(r)
  {
    match v
    case None => ""
    case Some(s) => s
  }

  datatype Credentials = Credentials(serviceId: string, templateId: string, publicKey: string)

  /** The page reads its three e-mail credentials from the environment. */
  function CredentialsFrom(service: Option<string>, template: Option<string>, key: Option<string>): (r: Credentials)
    ensures r.serviceId == "" <==> service in {None, Some("")}
    ensures r.templateId == "" <==> template in {None, Some("")}
    ensures r.publicKey == "" <==> key in {None, Some("")}
  {
    Credentials(CredentialOrEmpty(service), CredentialOrEmpty(template), CredentialOrEmpty(key))
  }

  /** The credential guard passes only when no credential is empty. */
  predicate Configured(c: Credentials)
    ensures Configured(c) <==> |c.serviceId| > 0 && |c.templateId| > 0 && |c.publicKey| > 0
  {
    !(c.serviceId == "" || c.templateId == "" || c.publicKey == "")
  }

  /** A missing environment variable fails the guard as an empty one does. */
  lemma ConfiguredFromEnvironment(service: Option<string>, template: Option<string>, key: Option<string>)
    ensures Configured(CredentialsFrom(service, template, key)) <==>
      service !in {None, Some("")} && template !in {None, Some("")} && key !in {None, Some("")}
  {
  }

  /** The handler's state: the two state cells and the form, which is
      `None` while the form reference is null. */
  datatype SuggestionState = SuggestionState(isSending: bool, status: MessageStatus, form: Option<SuggestionFields>)

  /** The form element is mounted with empty inputs and no message shown. */
  const InitialSuggestionState := SuggestionState(false, Idle, Some(BlankFields))

  /** Both guards pass, so the handler goes on to call the e-mail service. */
  predicate Sends(s: SuggestionState, c: Credentials) {
    s.form.Some? && Configured(c)
  }

  /** The state sendEventSuggestion leaves behind. `delivered` is the
      outcome of the e-mail call and matters only when that call is made. */
  function AfterSubmit(s: SuggestionState, c: Credentials, delivered: bool): (r: SuggestionState)
    ensures r.status != Idle
    ensures Sends(s, c) ==> !r.isSending
    ensures r.form == s.form || r.form == Some(BlankFields)
  {
    if s.form.None? || !Configured(c) then s.(status := Error)
    else if delivered then SuggestionState(false, Success, Some(BlankFields))
    else SuggestionState(false, Error, s.form)
  }

  /** A guard that fails reports an error and touches nothing else: the
      button stays as it was and the inputs keep their contents. */
  lemma GuardFailureIsError(s: SuggestionState, c: Credentials, delivered: bool)
    requires !Sends(s, c)
    ensures AfterSubmit(s, c, delivered).status == Error
    ensures AfterSubmit(s, c, delivered).isSending == s.isSending
    ensures AfterSubmit(s, c, delivered).form == s.form
  {
  }

  /** An attempt that reaches the service ends with the button re-enabled,
      and its outcome alone decides the message and whether the inputs are
      cleared. */
  lemma AttemptOutcome(s: SuggestionState, c: Credentials, delivered: bool)
    requires Sends(s, c)
    ensures !AfterSubmit(s, c, delivered).isSending
    ensures AfterSubmit(s, c, delivered).status == Success <==> delivered
    ensures AfterSubmit(s, c, delivered).status == Error <==> !delivered
    ensures AfterSubmit(s, c, delivered).form == if delivered then Some(BlankFields) else s.form
  {
  }

  /** The success message and cleared inputs come only from a delivered send. */
  lemma SuccessOnlyFromDelivery(s: SuggestionState, c: Credentials, delivered: bool)
    ensures AfterSubmit(s, c, delivered).status == Success ==> Sends(s, c) && delivered
    ensures AfterSubmit(s, c, delivered).form != s.form ==> Sends(s, c) && delivered
  {
  }

  /** Between submissions the button is enabled: no completed handler
      leaves `isSending` set. */
  lemma SubmitKeepsButtonEnabled(s: SuggestionState, c: Credentials, delivered: bool)
    requires !s.isSending
    ensures !AfterSubmit(s, c, delivered).isSending
  {
  }

  /** The page's suggestion form with its handler. */
  class SuggestionForm {
    const credentials: Credentials
    var isSending: bool
    var messageStatus: MessageStatus
    var form: Option<SuggestionFields>

    function State(): SuggestionState
      reads this
    {
      SuggestionState(isSending, messageStatus, form)
    }

    /** No handler is running, so the submit button is enabled. */
    ghost predicate Valid()
      reads this
    {
      !isSending
    }

    constructor (service: Option<string>, template: Option<string>, key: Option<string>)
      ensures credentials == CredentialsFrom(service, template, key)
      ensures Valid() && State() == InitialSuggestionState
    {
      credentials := CredentialsFrom(service, template, key);
      isSending, messageStatus, form := false, Idle, Some(BlankFields);
    }

    /** The e-mail service call (`emailjs.sendForm`), whose outcome the
        model does not know. It is made only once both guards have passed
        and the handler has disabled the button and cleared the message. */
    method SendForm() returns (delivered: bool)
      requires isSending && messageStatus == Idle
      requires form.Some? && Configured(credentials)
      ensures isSending && messageStatus == Idle
    {
      delivered :| true;
    }

    /** The user types into the inputs: only their contents change. */
    method Fill(fields: SuggestionFields)
      modifies this
      ensures form == Some(fields)
      ensures isSending == old(isSending) && messageStatus == old(messageStatus)
    {
      form := Some(fields);
    }

    /** sendEventSuggestion. `sent` is `None` when a guard returned early,
        else the outcome of the one call to the service. */
    method SendEventSuggestion() returns (sent: Option<bool>)
      requires Valid()
      modifies this
      ensures Valid()
      ensures sent.Some? <==> Sends(old(State()), credentials)
      ensures State() == AfterSubmit(old(State()), credentials, sent == Some(true))
    {
      if form.None? {
        messageStatus := Error;
        return None;
      }
      if credentials.serviceId == "" || credentials.templateId == "" || credentials.publicKey == "" {
        messageStatus := Error;
        return None;
      }
      isSending := true;
      messageStatus := Idle;
      var delivered := SendForm();
      if delivered {
        messageStatus := Success;
        form := Some(BlankFields);
      } else {
        messageStatus := Error;
      }
      isSending := false;
      sent := Some(delivered);
    }
  }
}
