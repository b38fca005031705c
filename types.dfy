/**
 * The records and enumerations of the application (types.ts). Amounts of
 * money and ratings are `real`; optional fields are `Option`s.
 */
module Types {
  import opened Wrappers

  datatype EventType = Wedding | Festival | Corporate | Birthday | OtherType

  function EventTypeName(t: EventType): string {
    match t
    case Wedding => "Wedding"
    case Festival => "Festival"
    case Corporate => "Corporate"
    case Birthday => "Birthday"
    case OtherType => "Other"
  }

  datatype VendorCategory = Venue | Catering | Decor | Photography | Entertainment

  /** The string value of each enum member, which is what pages compare against. */
  function CategoryName(c: VendorCategory): string {
    match c
    case Venue => "Venue"
    case Catering => "Catering"
    case Decor => "Decor"
    case Photography => "Photography"
    case Entertainment => "Entertainment"
  }

  datatype UserRole = Host | VendorRole | Admin
  datatype SubscriptionTier = Free | Pro
  datatype Currency = INR | USD | EUR
  datatype Language = En | Hi | Es

  datatype Privacy = Privacy(shareDataForCredits: bool, analyticsConsent: bool)

  /** The two flags `togglePrivacySetting` accepts (`keyof AppSettings['privacy']`). */
  datatype PrivacyKey = ShareDataForCredits | AnalyticsConsent

  datatype AppSettings = AppSettings(
    language: Language,
    currency: Currency,
    subscriptionTier: SubscriptionTier,
    privacy: Privacy)

  datatype User = User(
    id: string,
    name: string,
    email: string,
    role: UserRole,
    avatar: string,
    vendorProfileId: Option<string>)

  /** `1 | 2 | 3`, where 1 is Budget and 3 is Premium. */
  type PriceLevel = x: int | 1 <= x <= 3 witness 1

  datatype Vendor = Vendor(
    id: string,
    name: string,
    category: VendorCategory,
    rating: real,
    priceLevel: PriceLevel,
    isEcoFriendly: bool,
    location: string,
    imageUrl: string,
    description: string,
    verified: Option<bool>,
    ownerId: Option<string>)

  datatype EventTask = EventTask(id: string, title: string, completed: bool)

  datatype GuestStatus = Confirmed | Pending | Declined

  datatype Guest = Guest(
    id: string,
    name: string,
    status: GuestStatus,
    phone: Option<string>,
    nftBadgeId: Option<string>)

  datatype Expense = Expense(id: string, title: string, amount: real, category: string, date: string)

  datatype Event = Event(
    id: string,
    name: string,
    eventType: EventType,
    date: string,
    location: string,
    budget: real,
    spent: real,
    expenses: Option<seq<Expense>>,
    tasks: seq<EventTask>,
    guests: seq<Guest>,
    vendors: seq<string>,     // vendor ids
    sustainabilityScore: int,
    image: string)

  /** The documented range of `sustainabilityScore`; the type itself does not enforce it. */
  predicate ScoreDocumented(e: Event) {
    0 <= e.sustainabilityScore <= 100
  }

  datatype CommunityPost = CommunityPost(
    id: string,
    author: string,
    avatar: string,
    title: string,
    content: string,
    likes: int,
    comments: int,
    image: Option<string>,
    tags: seq<string>,
    timestamp: string)

  datatype CalendarKind = FestivalDay | Muhurat

  datatype CalendarEvent = CalendarEvent(
    id: string,
    name: string,
    date: string,
    kind: CalendarKind,
    description: string)

  /** The expense list an event shows (`event.expenses || []`). */
  function ExpensesOf(e: Event): seq<Expense> {
    e.expenses.GetOr([])
  }

  /** Sum of the amounts of a list of expenses. */
  function ExpenseTotal(xs: seq<Expense>): real
    decreases |xs|
  {
    if xs == [] then 0.0 else xs[0].amount + ExpenseTotal(xs[1..])
  }
}
