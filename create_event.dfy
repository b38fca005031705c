/**
 * The create-event wizard (pages/CreateEvent.tsx): step 1 picks the event
 * type, step 2 a template (premium templates are refused on the free tier),
 * step 3 the details, and submitting hands a new event to the event store.
 */
module CreateEvent {
  import opened Wrappers
  import opened Strings
  import opened Types
  import opened Seqs
  import opened EventContext
  import opened EventDetails

  /** `formData`; the type is unset (`''`) until step 1 is done, and the budget is kept as typed. */
  datatype FormData = FormData(
    eventType: Option<EventType>,
    template: string,
    name: string,
    date: string,
    budget: string,
    guests: string)

  const EMPTY_FORM := FormData(None, "", "", "", "", "")

  const EVENT_IMAGE := "https://images.unsplash.com/photo-1513151233558-d860c5398176?q=80&w=800"

  /** The ids of the template buttons on step 2: the basic one, the royal one, then the corporate ones. */
  const OFFERED_TEMPLATES: seq<string> := ["basic", "premium_royal", "conf", "retreat", "launch"]

  /** The monetisation check of handleTemplateSelect. */
  predicate TemplateGated(id: string, tier: SubscriptionTier) {
    StartsWith(id, "premium_") && tier == Free
  }

  /** handleTemplateSelect on (form, step): a gated template changes nothing; any other is recorded and the step advances. */
  function AfterTemplate(form: FormData, step: int, id: string, name: string, tier: SubscriptionTier)
    : (r: (FormData, int))
    ensures TemplateGated(id, tier) ==> r == (form, step)
    ensures !TemplateGated(id, tier) ==>
      r.0 == form.(template := id, name := name) && r.1 == step + 1
  {
    if StartsWith(id, "premium_") && tier == Free then (form, step)
    else (form.(template := id, name := name), step + 1)
  }

  /** On the Pro tier no template is refused. */
  lemma ProTierNeverGated(id: string)
    ensures !TemplateGated(id, Pro)
  {
  }

  /** On the free tier, of the offered templates only the royal one is refused. */
  lemma FreeTierGatesOnlyRoyal(i: nat)
    requires i < |OFFERED_TEMPLATES|
    ensures TemplateGated(OFFERED_TEMPLATES[i], Free) <==> i == 1
  {
    assert "premium_royal"[..8] == "premium_";
    assert "basic"[0] != 'p' && "conf"[0] != 'p' && "retreat"[0] != 'p' && "launch"[0] != 'p';
  }

  /** The event handleSubmit builds; `budget` is `parseInt` of the typed budget. */
  function SubmittedEvent(form: FormData, id: string, budget: real): (e: Event)
    requires form.eventType.Some?
    ensures e.id == id && e.name == form.name && e.eventType == form.eventType.value
    ensures e.date == form.date && e.budget == budget
  {
    Event(id, form.name, form.eventType.value, form.date, "TBD", budget, 0.0, None,
          [EventTask("t1", "Setup", false)], [], [], 0, EVENT_IMAGE)
  }

  /**
   * A new event starts empty: nothing spent and nothing listed as spent,
   * the single open task "Setup", no guests, no vendors, and a score of 0.
   */
  lemma SubmittedEventStartsEmpty(form: FormData, id: string, budget: real)
    requires form.eventType.Some?
    ensures var e := SubmittedEvent(form, id, budget);
      e.spent == ExpenseTotal(ExpensesOf(e)) == 0.0
      && PendingCount(e.tasks) == 1 && e.guests == [] && e.vendors == []
      && ScoreDocumented(e) && e.location == "TBD"
      && e.sustainabilityScore == 0 && e.tasks == [EventTask("t1", "Setup", false)]
  {
    var e := SubmittedEvent(form, id, budget);
    assert e.tasks[1..] == [];
  }

  class Wizard {
    var step: int
    var form: FormData

    /** Steps run 1 to 3, and from step 2 on the event type is chosen. */
    predicate Valid()
      reads this
    {
      1 <= step <= 3 && (step >= 2 ==> form.eventType.Some?)
    }

    constructor ()
      ensures Valid() && step == 1 && form == EMPTY_FORM
    {
      step := 1;
      form := EMPTY_FORM;
    }

    /** A type button on step 1. */
    method SelectType(t: EventType)
      requires Valid() && step == 1
      modifies this
      ensures Valid() && step == 2 && form == old(form).(eventType := Some(t))
    {
      form := form.(eventType := Some(t));
      step := 2;
    }

    /** A template button on step 2. */
    method SelectTemplate(id: string, name: string, tier: SubscriptionTier)
      requires Valid() && step == 2
      modifies this
      ensures Valid() && (form, step) == AfterTemplate(old(form), old(step), id, name, tier)
    {
      if StartsWith(id, "premium_") && tier == Free {
        return;
      }
      form := form.(template := id, name := name);
      step := step + 1;
    }

    /** The detail inputs of step 3. */
    method EditDetails(name: string, date: string, budget: string)
      requires Valid() && step == 3
      modifies this
      ensures Valid() && step == 3 && form == old(form).(name := name, date := date, budget := budget)
    {
      form := form.(name := name, date := date, budget := budget);
    }

    /** The Back button of step 3. */
    method Back()
      requires Valid() && step == 3
      modifies this
      ensures Valid() && step == 2 && form == old(form)
    {
      step := 2;
    }

    /** The Create button: the new event goes to the front of the store's list. */
    method Submit(store: EventStore, id: string, budget: real)
      requires Valid() && step == 3
      modifies store
      ensures store.events == [SubmittedEvent(form, id, budget)] + old(store.events)
      ensures store.vendors == old(store.vendors)
    {
      store.AddEvent(SubmittedEvent(form, id, budget));
    }
  }
}
