/**
 * Seed data of constants.ts: vendors, events and community posts. The clock
 * the module reads when it loads (`new Date()`) is a parameter: the current
 * year, the current month (1..12) and the ISO time stamp given to the seed
 * expenses.
 */
module Constants {
  import opened Wrappers
  import opened Strings
  import opened Types
  import opened Seqs
  import opened Dates

  // ---------------------------------------------------------------------------
  // The month after the current one
  // ---------------------------------------------------------------------------

  /** `((currentMonth % 12) + 1).toString().padStart(2, '0')` for a month 1..12. */
  function NextMonthStr(month: int): (s: string)
    requires 1 <= month <= 12
    ensures |s| == 2 && AllDigits(s)
    ensures ParseNat(s) == if month == 12 then 1 else month + 1
  {
    Pad2((month % 12) + 1)
  }

  /** The year of the next month: the following year exactly in December. */
  function YearForNextMonth(year: nat, month: int): (y: nat)
    requires 1 <= month <= 12
    ensures y == year + 1 <==> month == 12
    ensures y == year || y == year + 1
  {
    if month == 12 then year + 1 else year
  }

  // ---------------------------------------------------------------------------
  // Seed vendors and events
  // ---------------------------------------------------------------------------

  const MOCK_VENDORS: seq<Vendor> := [
    Vendor("v1", "Royal Heritage Banquet", Venue, 4.8, 3, false, "Mumbai, Andheri",
      "https://images.unsplash.com/photo-1519167758481-83f550bb49b3?q=80&w=800&auto=format&fit=crop",
      "Luxury banquet hall perfect for grand weddings.", None, None),
    Vendor("v2", "Green Leaf Catering", Catering, 4.6, 2, true, "Bangalore, Indiranagar",
      "https://images.unsplash.com/photo-1555244162-803834f70033?q=80&w=800&auto=format&fit=crop",
      "Organic, farm-to-table vegetarian catering with zero-waste policy.", None, None),
    Vendor("v3", "Shutter Bugs Photography", Photography, 4.5, 2, false, "Delhi, CP",
      "https://images.unsplash.com/photo-1537633552985-df8429e8048b?q=80&w=800&auto=format&fit=crop",
      "Capturing moments that last a lifetime. Drone shots available.", None, None),
    Vendor("v4", "Eco-Decor Solutions", Decor, 4.9, 2, true, "Pune, Koregaon Park",
      "https://images.unsplash.com/photo-1478146896981-b80fe463b330?q=80&w=800&auto=format&fit=crop",
      "Sustainable decor using recycled materials and local flowers.", None, None),
    Vendor("v5", "DJ Rakesh Beats", Entertainment, 4.2, 1, false, "Mumbai, Bandra",
      "https://images.unsplash.com/photo-1516450360452-9312f5e86fc7?q=80&w=800&auto=format&fit=crop",
      "Bollywood, EDM, and Punjabi hits to rock your party.", None, None)
  ]

  /** `${year}-${nextMonth}-15`, with the year of next month. */
  function NextMonthDate(year: nat, month: int): string
    requires 1 <= month <= 12
  {
    FormatDate(YearForNextMonth(year, month), (month % 12) + 1, 15)
  }

  /** MOCK_EVENTS for the clock at load time: the first in this month, the second in the next. */
  function MockEvents(year: nat, month: int, nowIso: string): (r: seq<Event>)
    requires 1 <= month <= 12
    ensures |r| == 2
  {
    [DiwaliBash(year, month, nowIso), AnnualMeet(year, month, nowIso)]
  }

  function DiwaliBash(year: nat, month: int, nowIso: string): Event
    requires 1 <= month <= 12
  {
    Event("e1", "Sharma's Diwali Bash", Festival, FormatDate(year, month, 5), "Home, Mumbai",
      50000.0, 12000.0,
      Some([Expense("ex1", "Eco Crackers Advance", 5000.0, "Entertainment", nowIso),
            Expense("ex2", "Sweet Box Order", 7000.0, "Food", nowIso)]),
      [EventTask("t1", "Buy Eco-friendly Crackers", true),
       EventTask("t2", "Order Sweets", false),
       EventTask("t3", "Send WhatsApp Invites", false)],
      [Guest("g1", "Rahul Verma", Confirmed, Some("+919876543210"), None),
       Guest("g2", "Priya Singh", Pending, Some("+919876543211"), None),
       Guest("g3", "Amit Patel", Declined, Some("+919876543212"), None)],
      ["v2", "v4"], 85,
      "https://images.unsplash.com/photo-1517457373958-b7bdd4587205?q=80&w=800&auto=format&fit=crop")
  }

  function AnnualMeet(year: nat, month: int, nowIso: string): Event
    requires 1 <= month <= 12
  {
    Event("e2", "Corporate Annual Meet", Corporate,
      NextMonthDate(year, month), "Royal Heritage Banquet",
      500000.0, 150000.0,
      Some([Expense("ex3", "Venue Booking", 150000.0, "Venue", nowIso)]),
      [EventTask("t4", "Book Venue", true),
       EventTask("t5", "Finalize Keynote Speaker", false)],
      [Guest("g4", "Vikram Malhotra", Confirmed, None, None),
       Guest("g5", "Sneha Gupta", Confirmed, None, None)],
      ["v1"], 40,
      "https://images.unsplash.com/photo-1511578314322-379afb476865?q=80&w=800&auto=format&fit=crop")
  }

  /** Each seed event's `spent` is the sum of its expenses, and its score is in 0..100. */
  lemma SeedEventsConsistent(year: nat, month: int, nowIso: string)
    requires 1 <= month <= 12
    ensures forall e :: e in MockEvents(year, month, nowIso) ==>
      e.spent == ExpenseTotal(ExpensesOf(e)) && ScoreDocumented(e)
  {
    var xs := ExpensesOf(DiwaliBash(year, month, nowIso));
    assert xs[1..][1..] == [];
    assert ExpenseTotal(xs[1..]) == 7000.0 + 0.0;
    assert ExpenseTotal(xs) == 5000.0 + (7000.0 + 0.0);
    var ys := ExpensesOf(AnnualMeet(year, month, nowIso));
    assert ys[1..] == [];
    assert ExpenseTotal(ys) == 150000.0 + 0.0;
  }

  /** Every vendor id a seed event references names a seed vendor. */
  lemma SeedVendorIdsResolve(year: nat, month: int, nowIso: string)
    requires 1 <= month <= 12
    ensures forall e, vid :: e in MockEvents(year, month, nowIso) && vid in e.vendors ==>
      exists v :: v in MOCK_VENDORS && v.id == vid
  {
    assert MOCK_VENDORS[0].id == "v1";
    assert MOCK_VENDORS[1].id == "v2";
    assert MOCK_VENDORS[3].id == "v4";
  }

  /** The seed events begin this month and next month. */
  lemma SeedEventDates(year: nat, month: int, nowIso: string)
    requires 1 <= month <= 12
    ensures ParseDate(MockEvents(year, month, nowIso)[0].date) == Some((year, month as nat, 5))
    ensures ParseDate(MockEvents(year, month, nowIso)[1].date)
         == Some((YearForNextMonth(year, month), if month == 12 then 1 else month + 1, 15))
  {
    var es := MockEvents(year, month, nowIso);
    assert es[0].date == FormatDate(year, month, 5);
    assert es[1].date == NextMonthDate(year, month);
    ParseFormatDate(year, month, 5);
    NextMonthDateParses(year, month);
  }

  /** The date of the second seed event reads back as the 15th of next month. */
  lemma NextMonthDateParses(year: nat, month: int)
    requires 1 <= month <= 12
    ensures ParseDate(NextMonthDate(year, month))
         == Some((YearForNextMonth(year, month), if month == 12 then 1 else month + 1, 15))
  {
    var nextMonth: nat := (month % 12) + 1;
    assert nextMonth == if month == 12 then 1 else month + 1;
    ParseFormatDate(YearForNextMonth(year, month), nextMonth, 15);
  }

  const MOCK_COMMUNITY_POSTS: seq<CommunityPost> := [
    CommunityPost("p1", "Anjali D.", "https://i.pravatar.cc/150?u=anjali",
      "5 Tips for a Sustainable Wedding in Delhi",
      "We managed to reduce our plastic waste by 90% using banana leaves and clay pots! Here is how we did it...",
      124, 45,
      Some("https://images.unsplash.com/photo-1525268323814-8878939a9c6a?q=80&w=400&auto=format&fit=crop"),
      ["Wedding", "Sustainability", "Delhi"], "2 hours ago"),
    CommunityPost("p2", "Rajesh K.", "https://i.pravatar.cc/150?u=rajesh",
      "Best budget caterers in Mumbai?",
      "Looking for vegetarian caterers for a small family gathering (50 pax). Budget is around 500/plate. Any leads?",
      12, 8, None, ["Catering", "Mumbai", "Budget"], "5 hours ago")
  ]
}
