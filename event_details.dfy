/**
 * The list edits behind the event-details page (pages/EventDetails.tsx).
 * Each handler builds a new event from the current one and hands it to
 * `updateEvent`; here each handler is the function from the old event to
 * the new one. Ids drawn from `Date.now()` are parameters.
 */
module EventDetails {
  import opened Wrappers
  import opened Strings
  import opened Types
  import opened Seqs

  // ---------------------------------------------------------------------------
  // Tasks
  // ---------------------------------------------------------------------------

  /** The tasks with `completed` flipped on every task with that id. */
  function ToggledTasks(tasks: seq<EventTask>, taskId: string): (r: seq<EventTask>)
    ensures |r| == |tasks|
    ensures forall i :: 0 <= i < |tasks| ==>
      r[i] == if tasks[i].id == taskId then tasks[i].(completed := !tasks[i].completed) else tasks[i]
    decreases |tasks|
  {
    if tasks == [] then []
    else
      [if tasks[0].id == taskId then tasks[0].(completed := !tasks[0].completed) else tasks[0]]
        + ToggledTasks(tasks[1..], taskId)
  }

  /** toggleTask: only the completion of the tasks with that id flips; nothing else in the event changes. */
  function ToggleTask(e: Event, taskId: string): (r: Event)
    ensures r == e.(tasks := r.tasks) && |r.tasks| == |e.tasks|
    ensures forall i :: 0 <= i < |e.tasks| ==>
      && r.tasks[i].(completed := e.tasks[i].completed) == e.tasks[i]
      && (r.tasks[i].completed != e.tasks[i].completed <==> e.tasks[i].id == taskId)
  {
    e.(tasks := ToggledTasks(e.tasks, taskId))
  }

  /** Toggling the same task twice gives back the event. */
  lemma ToggleTaskTwice(e: Event, taskId: string)
    ensures ToggleTask(ToggleTask(e, taskId), taskId) == e
  {
    var twice := ToggledTasks(ToggledTasks(e.tasks, taskId), taskId);
    assert twice == e.tasks;
  }

  /** The number of tasks not yet completed (the "Pending Tasks" tile). */
  function PendingCount(tasks: seq<EventTask>): (n: nat)
    ensures n <= |tasks|
    ensures n == 0 <==> forall i :: 0 <= i < |tasks| ==> tasks[i].completed
    ensures n == |set i | 0 <= i < |tasks| && !tasks[i].completed|
  {
    var pending := Filter((t: EventTask) => !t.completed, tasks);
    FilterLength((t: EventTask) => !t.completed, tasks);
    assert PassingPositions((t: EventTask) => !t.completed, tasks)
        == set i | 0 <= i < |tasks| && !tasks[i].completed;
    assert pending != [] <== exists i :: 0 <= i < |tasks| && !tasks[i].completed by {
      if exists i :: 0 <= i < |tasks| && !tasks[i].completed {
        var i :| 0 <= i < |tasks| && !tasks[i].completed;
        assert tasks[i] in pending;
      }
    }
    |pending|
  }

  /** addTask: a whitespace-only title is ignored; otherwise one incomplete task is appended with the title as typed. */
  function AddTask(e: Event, id: string, title: string): (r: Event)
    ensures IsBlank(title) ==> r == e
    ensures !IsBlank(title) ==> r == e.(tasks := e.tasks + [EventTask(id, title, false)])
  {
    if IsBlank(title) then e else e.(tasks := e.tasks + [EventTask(id, title, false)])
  }

  /** An added task is one more pending task. */
  lemma AddTaskAddsPending(e: Event, id: string, title: string)
    requires !IsBlank(title)
    ensures PendingCount(AddTask(e, id, title).tasks) == PendingCount(e.tasks) + 1
  {
    FilterAppend((t: EventTask) => !t.completed, e.tasks, EventTask(id, title, false));
  }

  /** removeTask: exactly the tasks with that id are dropped, the rest keep their order. */
  function RemoveTask(e: Event, taskId: string): (r: Event)
    ensures r == e.(tasks := r.tasks)
    ensures forall t :: t in r.tasks <==> t in e.tasks && t.id != taskId
    ensures SubsequenceOf(r.tasks, e.tasks)
    ensures forall t :: multiset(r.tasks)[t] == if t.id != taskId then multiset(e.tasks)[t] else 0
  {
    FilterCounts((t: EventTask) => t.id != taskId, e.tasks);
    e.(tasks := Filter((t: EventTask) => t.id != taskId, e.tasks))
  }

  // ---------------------------------------------------------------------------
  // Guests
  // ---------------------------------------------------------------------------

  /** addGuest: a whitespace-only name is ignored; otherwise one pending guest is appended with the phone as typed. */
  function AddGuest(e: Event, id: string, name: string, phone: string): (r: Event)
    ensures IsBlank(name) ==> r == e
    ensures !IsBlank(name) ==> r == e.(guests := e.guests + [Guest(id, name, Pending, Some(phone), None)])
  {
    if IsBlank(name) then e
    else e.(guests := e.guests + [Guest(id, name, Pending, Some(phone), None)])
  }

  /** removeGuest: exactly the guests with that id are dropped, the rest keep their order. */
  function RemoveGuest(e: Event, guestId: string): (r: Event)
    ensures r == e.(guests := r.guests)
    ensures forall g :: g in r.guests <==> g in e.guests && g.id != guestId
    ensures SubsequenceOf(r.guests, e.guests)
    ensures forall g :: multiset(r.guests)[g] == if g.id != guestId then multiset(e.guests)[g] else 0
  {
    FilterCounts((g: Guest) => g.id != guestId, e.guests);
    e.(guests := Filter((g: Guest) => g.id != guestId, e.guests))
  }

  /** The guests with a badge set on every guest with that id. */
  function BadgedGuests(guests: seq<Guest>, guestId: string, badgeId: string): (r: seq<Guest>)
    ensures |r| == |guests|
    ensures forall i :: 0 <= i < |guests| ==>
      r[i] == if guests[i].id == guestId then guests[i].(nftBadgeId := Some(badgeId)) else guests[i]
    decreases |guests|
  {
    if guests == [] then []
    else
      [if guests[0].id == guestId then guests[0].(nftBadgeId := Some(badgeId)) else guests[0]]
        + BadgedGuests(guests[1..], guestId, badgeId)
  }

  /** mintNFT; `badgeId` stands for `nft_${Date.now()}`. Only the guest list changes, and it keeps its length. */
  function MintNft(e: Event, guestId: string, badgeId: string): (r: Event)
    ensures r == e.(guests := r.guests) && |r.guests| == |e.guests|
  {
    e.(guests := BadgedGuests(e.guests, guestId, badgeId))
  }

  /** Minting changes no guest's name, status or phone, and only the named guest gets the badge. */
  lemma MintNftOnlyBadges(e: Event, guestId: string, badgeId: string)
    ensures var r := MintNft(e, guestId, badgeId).guests;
      forall i :: 0 <= i < |r| ==>
        && r[i].(nftBadgeId := e.guests[i].nftBadgeId) == e.guests[i]
        && (r[i].nftBadgeId == Some(badgeId) <==> e.guests[i].id == guestId || e.guests[i].nftBadgeId == Some(badgeId))
  {
  }

  // ---------------------------------------------------------------------------
  // Expenses
  // ---------------------------------------------------------------------------

  /**
   * handleAddExpense. `amountText` is the typed amount and `amount` its
   * `parseFloat`; an empty title or amount text is ignored. The expense is
   * prepended and `spent` grows by its amount.
   */
  function AddExpense(e: Event, id: string, title: string, amountText: string, amount: real,
                      category: string, date: string): (r: Event)
    ensures title == "" || amountText == "" ==> r == e
    ensures title != "" && amountText != "" ==>
      && ExpensesOf(r) == [Expense(id, title, amount, category, date)] + ExpensesOf(e)
      && r.spent == e.spent + amount
      && r == e.(expenses := r.expenses, spent := r.spent)
  {
    if title == "" || amountText == "" then e
    else e.(expenses := Some([Expense(id, title, amount, category, date)] + ExpensesOf(e)),
            spent := e.spent + amount)
  }

  /** Logging an expense keeps `spent` minus the sum of the listed expenses unchanged. */
  lemma AddExpenseKeepsUnlistedSpend(e: Event, id: string, title: string, amountText: string,
                                     amount: real, category: string, date: string)
    ensures var r := AddExpense(e, id, title, amountText, amount, category, date);
      r.spent - ExpenseTotal(ExpensesOf(r)) == e.spent - ExpenseTotal(ExpensesOf(e))
  {
    var r := AddExpense(e, id, title, amountText, amount, category, date);
    if title != "" && amountText != "" {
      var xs := ExpensesOf(r);
      assert xs[1..] == ExpensesOf(e);
    }
  }

  // ---------------------------------------------------------------------------
  // Invitations and the vendor tab
  // ---------------------------------------------------------------------------

  /** The digits of a string, as the filter of its characters that are ASCII digits. */
  lemma {:induction false} DigitsOfIsFilter(s: string)
    ensures DigitsOf(s) == Filter((c: char) => IsDigit(c), s)
    decreases |s|
  {
    if s != [] {
      DigitsOfIsFilter(s[1..]);
    }
  }

  /**
   * handleIndividualInvite's number: None (the "No phone number" alert) for a
   * guest without a phone or with an empty one, otherwise the digits of the
   * phone in order.
   */
  function InvitePhone(g: Guest): (r: Option<string>)
    ensures r.None? <==> g.phone.None? || g.phone.value == ""
    ensures r.Some? ==> AllDigits(r.value) && SubsequenceOf(r.value, g.phone.value)
    ensures r.Some? ==> forall c :: c in r.value <==> c in g.phone.value && IsDigit(c)
    ensures r.Some? ==> r.value == Filter((c: char) => IsDigit(c), g.phone.value)
  {
    if g.phone.None? || g.phone.value == "" then None
    else
      DigitsOfIsFilter(g.phone.value);
      Some(DigitsOf(g.phone.value))
  }

  /** Normalising an already normalised number changes nothing. */
  lemma InvitePhoneIdempotent(g: Guest, digits: string)
    requires InvitePhone(g) == Some(digits) && digits != ""
    ensures InvitePhone(g.(phone := Some(digits))) == Some(digits)
  {
    DigitsOfDigits(digits);
  }

  /** An international number `+` followed by digits is dialled without the plus sign. */
  lemma InvitePhoneDropsPlus(g: Guest, digits: string)
    requires AllDigits(digits) && g.phone == Some("+" + digits)
    ensures InvitePhone(g) == Some(digits)
  {
    var s := "+" + digits;
    assert s[1..] == digits;
    DigitsOfDigits(digits);
  }

  /** eventVendors: the vendors whose id the event lists, in vendor-list order. */
  function EventVendors(e: Event, vendors: seq<Vendor>): (r: seq<Vendor>)
    ensures forall v :: v in r <==> v in vendors && v.id in e.vendors
    ensures SubsequenceOf(r, vendors)
    ensures forall v :: multiset(r)[v] == if v.id in e.vendors then multiset(vendors)[v] else 0
  {
    FilterCounts((v: Vendor) => v.id in e.vendors, vendors);
    Filter((v: Vendor) => v.id in e.vendors, vendors)
  }
}
