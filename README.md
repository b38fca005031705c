# FestPlan core, modelled and verified in Dafny

FestPlan is a client-side event-planning application for Indian festivals,
weddings and corporate events. Most of it is React rendering. Underneath
the UI sits a layer of sequential logic, and this project models that layer
and proves what it does:

- **Encrypted persistence.** `StorageService` holds the key slot and the
  `{iv, data}` AES-GCM envelope. `CommunityContext` is the only store that
  persists: it loads once and then saves under a guard.
- **In-memory stores** for events and vendors, settings, and the signed-in
  user. Each is a class whose methods replace a field with a pure update.
- **Pure helpers:**
  - translation lookup with English fallback;
  - the yearly cultural calendar and the upcoming-festival filter;
  - the calendar month grid and month navigation;
  - vendor search and the community feed filter;
  - budget sums, percentages and clamps;
  - eco-score colours;
  - weather-code labels and cache freshness;
  - the navigation "active link" predicate;
  - the list edits of the event-details page.
- **Small state machines:**
  - the create-event wizard, with its premium-template gate;
  - vendor onboarding;
  - the payment modal;
  - the subscription page.

Each source file of the core is one Dafny module with the file's own name,
except `constants.ts`, which is split into four: `Constants` (the seed
vendors, events and posts), `Dates` (formatting and reading `YYYY-MM-DD`),
`FestivalCalendar` (the calendar generated from any per-month table, and
`getUpcomingFestivals`) and `FestivalData` (the built-in table and the
calendar generated from it). Four helper modules support them:

- `Wrappers`: `Option`.
- `Strings`: decimal digits, zero padding, `trim`-emptiness, ASCII lower-casing and substrings.
- `Json`: JSON values with JavaScript truthiness and property access.
- `Seqs`: order-preserving filter, sub-lists and sums.

Where the source holds state that its handlers update, the model uses a
`class` with those fields and methods with `modifies` clauses:

- `LocalStorage`, `CommunityStore`, `EventStore`, `SettingsStore`, `AuthStore`;
- `Wizard`, `Onboarding`, `Modal` and `Page`.

Each method is specified by a function of the old state. Its `ensures`
ties the new state to that function, and lemmas state what the function
promises. Every React effect or timer callback is one method call; a
`setTimeout` firing, for example, is `Modal.ProcessingDone`. The month grid
(two `for` loops) and `generateYearlyEvents` (nested `forEach` pushes) are
methods with loops and invariants.

The browser's cryptography, JSON and text codecs are fields of a `Platform`
record. `StorageService.Lawful` lists the only laws the code relies on:

- parsing inverts serialising, and the empty text does not parse;
- decoding inverts encoding;
- importing a JWK export gives the key back;
- decryption inverts a successful encryption under the same key and nonce.

The round-trip lemmas assume `Lawful` and nothing more. Clock values,
`Date.now()` ids, `Math.random()` draws, parsed numbers and the random
nonce are all parameters.

## Model

| member | source | states |
|---|---|---|
| StorageService.KeyStep | services/storageService.ts:9-31 | a filled key slot leaves storage untouched; an empty one yields the freshly generated key and adds exactly the key slot, every other slot unchanged; when generating, exporting or storing the key throws, no key and storage untouched |
| StorageService.KeyStepFilledIgnoresGenerated | services/storageService.ts:12-20 | with the slot filled the outcome does not depend on the key `generateKey` would have produced, so nothing is generated |
| StorageService.KeyStepReusesStoredKey | services/storageService.ts:22-30 | after a key is created into the empty slot, the next call imports that same key and writes nothing |
| StorageService.KeyCreationFailureFallsBack | services/storageService.ts:22-51 | with the key slot empty and key creation failing, encryptData stores the plain serialisation and leaves storage as it was |
| StorageService.LocalStorage.GetOrCreateKey | services/storageService.ts:9-31 | reading then conditionally writing the slot gives exactly KeyStep's key and storage |
| StorageService.ToBytesOfBytesJson | services/storageService.ts:46-47 | `Array.from` of a byte array read back through `new Uint8Array` is the same bytes |
| StorageService.SealValue | services/storageService.ts:33-53 | the text is the serialised `{iv, data}` envelope when key and cipher succeed, else the plain serialisation of the value |
| StorageService.EncryptStep | services/storageService.ts:33-53 | with the key slot filled, or key creation failing, storage is untouched; in every case every slot but the key slot keeps its text |
| StorageService.EncryptStepShape | services/storageService.ts:36 | a successful result parses to an envelope whose `iv` is the 12 nonce bytes and whose `data` is the ciphertext; a failed one parses to the value itself; only the key slot may change |
| StorageService.LocalStorage.EncryptData | services/storageService.ts:33-53 | result and storage are those of the encrypt function, so the laws above apply to it |
| StorageService.Classify | services/storageService.ts:56-61 | null or empty text is Missing; a Legacy value parsed from the text, is non-null and lacks a truthy `iv` or `data`; a Sealed one has both truthy |
| StorageService.OpenSealed | services/storageService.ts:62-77 | when the key, both byte arrays, the decryption and the final parse all succeed, the parsed value; any result other than the default required all of them to succeed |
| StorageService.DecryptStep | services/storageService.ts:55-78 | null or empty text gives the default with storage untouched; otherwise storage is untouched or changed only by getOrCreateKey |
| StorageService.LegacyTextReturnedUnchanged | services/storageService.ts:59-60 | text parsing to a non-null value without a truthy `iv` or `data` is returned as parsed, touching no storage |
| StorageService.UnreadableTextGivesDefault | services/storageService.ts:58-59 | text that does not parse, or parses to null, gives the default instead of an exception |
| StorageService.EmptyEnvelopeTakesDecryptPath | services/storageService.ts:60 | `{"iv":[],"data":[]}` is classified as an envelope, not legacy data, and a rejecting cipher yields the default |
| StorageService.EncryptThenDecrypt | services/storageService.ts:33-73 | decrypting what encryptData produced returns the original value over any storage keeping the same key slot, and writes nothing |
| StorageService.FallbackReadAsLegacy | services/storageService.ts:49-52 | when encryption fails, the plaintext fallback is read back as the value through the legacy path, if the value is non-null without truthy `iv`/`data` |
| StorageService.FallbackOfNullIsLost | services/storageService.ts:51 | the fallback text for `null` reads back as the default, not as `null` |
| StorageService.LocalStorage.DecryptData | services/storageService.ts:55-78 | result and storage are those of DecryptStep, branch by branch |
| StorageService.LocalStorage.GetItem | services/storageService.ts:10 | returns the slot's text, or nothing when the slot is absent |
| StorageService.LocalStorage.SetItem | services/storageService.ts:29 | sets exactly one slot |
| CommunityContext.StringsRoundTrip | context/CommunityContext.tsx:57 | a tag list written as JSON reads back unchanged |
| CommunityContext.PostRoundTrip | context/CommunityContext.tsx:49-60 | a post written as JSON (optional image omitted when absent) reads back as the same post |
| CommunityContext.PostsRoundTrip | context/CommunityContext.tsx:41 | a post list written as JSON reads back as the same list |
| CommunityContext.LoadStep | context/CommunityContext.tsx:23-35 | an empty slot gives the seed posts with storage untouched; otherwise storage changes at most by getOrCreateKey |
| CommunityContext.SaveStep | context/CommunityContext.tsx:40-43 | the community slot holds encryptData of the list; every slot but it and the key slot is unchanged |
| CommunityContext.SaveThenLoad | context/CommunityContext.tsx:23-46 | what a save wrote is exactly what the next load reads, whether encryption succeeded or fell back |
| CommunityContext.CommunityStore.constructor | context/CommunityContext.tsx:19-20 | the provider starts with no posts and loading |
| CommunityContext.CommunityStore.Load | context/CommunityContext.tsx:23-35 | loading ends and the list is replaced wholesale by LoadStep's list, so posts added before the load are dropped |
| CommunityContext.CommunityStore.Save | context/CommunityContext.tsx:38-46 | nothing is written while loading or for an empty list; otherwise storage becomes SaveStep's |
| CommunityContext.CommunityStore.AddPost | context/CommunityContext.tsx:48-62 | prepends exactly one NewPost and keeps the loading flag |
| CommunityContext.Liked | context/CommunityContext.tsx:64-71 | same length and order; posts with the id gain exactly one like and nothing else; other posts unchanged |
| CommunityContext.LikedTotal | context/CommunityContext.tsx:64-71 | the total like count rises by the number of posts with that id, so an unknown id changes nothing |
| CommunityContext.LikeNewPost | context/CommunityContext.tsx:48-71 | a newly added post with a fresh id has exactly one like after it is liked, and the rest of the list is unchanged |
| CommunityContext.CommunityStore.LikePost | context/CommunityContext.tsx:64-71 | the list becomes Liked of the old list; loading flag unchanged |
| EventContext.EventStore.constructor | context/EventContext.tsx:20-21 | the store starts with the two seed events and the seed vendors |
| EventContext.EventStore.AddEvent | context/EventContext.tsx:23-25 | prepends the event, the count grows by exactly one, vendors unchanged |
| EventContext.EventStore.AddVendor | context/EventContext.tsx:27-29 | prepends the vendor, the rest in order, events unchanged |
| EventContext.WithVendor | context/EventContext.tsx:33-36 | the vendor ids become the old ones plus the new id, appended only when absent; nothing else in the event changes |
| EventContext.WithVendorKeepsNoDuplicates | context/EventContext.tsx:34-35 | a duplicate-free vendor list stays duplicate-free |
| EventContext.AddVendorTo | context/EventContext.tsx:31-40 | same length and order; only events with the id get the vendor |
| EventContext.AddVendorToIdempotent | context/EventContext.tsx:31-40 | adding the same vendor to an event twice equals adding it once |
| EventContext.AddVendorToUnknownEvent | context/EventContext.tsx:31-40 | an unknown event id changes nothing |
| EventContext.EventStore.AddVendorToEvent | context/EventContext.tsx:31-40 | events become AddVendorTo of the old events; vendors unchanged |
| EventContext.Replaced | context/EventContext.tsx:42-46 | same length and order; every event with the updated id is replaced, the others unchanged |
| EventContext.FindAfterReplace | context/EventContext.tsx:42-48 | after an update of an existing id, getEvent of that id finds the update |
| EventContext.EventStore.UpdateEvent | context/EventContext.tsx:42-46 | events become Replaced of the old events; vendors unchanged |
| EventContext.FindEvent | context/EventContext.tsx:48 | nothing exactly when no event has the id; otherwise the first event in the list with that id |
| EventContext.FindAfterAddEvent | context/EventContext.tsx:23-25 | a just-added event is found by its id |
| EventContext.EventStore.GetEvent | context/EventContext.tsx:48 | returns FindEvent of the current events: the first event with the id, or nothing |
| EventContext.FindVendor | context/EventContext.tsx:49 | nothing exactly when no vendor has the id; otherwise the first vendor in the list with that id |
| EventContext.EventStore.GetVendor | context/EventContext.tsx:49 | returns FindVendor of the current vendors: the first vendor with the id, or nothing |
| SettingsContext.SettingsStore.constructor | context/SettingsContext.tsx:17-25 | starts as en, INR, FREE, no data sharing, analytics consent given |
| SettingsContext.SettingsStore.SetLanguage | context/SettingsContext.tsx:27 | changes the language only |
| SettingsContext.SettingsStore.SetCurrency | context/SettingsContext.tsx:28 | changes the currency only |
| SettingsContext.SettingsStore.SetSubscriptionTier | context/SettingsContext.tsx:29 | changes the tier only |
| SettingsContext.Toggled | context/SettingsContext.tsx:31-36 | the named flag is negated; the other flag, language, currency and tier are kept |
| SettingsContext.ToggleTwice | context/SettingsContext.tsx:31-36 | toggling the same flag twice restores the settings |
| SettingsContext.TogglesCommute | context/SettingsContext.tsx:31-36 | toggles of two flags commute |
| SettingsContext.SettingsStore.TogglePrivacySetting | context/SettingsContext.tsx:31-36 | settings become Toggled of the old settings |
| SettingsContext.DeletedDiffersOnlyInAnalytics | context/SettingsContext.tsx:48-56 | the reset state is the initial state with analytics consent withdrawn, so it differs from it |
| SettingsContext.SettingsStore.DeleteUserData | context/SettingsContext.tsx:48-56 | settings become the reset state |
| AuthContext.LoginUser | context/AuthContext.tsx:37-43 | the vendor mock exactly for the VENDOR role, the host mock otherwise, ADMIN included |
| AuthContext.AuthStore.constructor | context/AuthContext.tsx:35 | starts signed in as the host mock, so authenticated |
| AuthContext.AuthStore.Login | context/AuthContext.tsx:37-43 | the user becomes LoginUser of the role and is authenticated |
| AuthContext.AuthStore.Logout | context/AuthContext.tsx:45-47 | no user, not authenticated |
| AuthContext.MergeOverridesExactlySuppliedFields | context/AuthContext.tsx:49-53 | an empty update changes nothing; for each of the six fields, a supplied value replaces it and an omitted one keeps it |
| AuthContext.MergeIdempotent | context/AuthContext.tsx:51 | applying the same update twice equals applying it once |
| AuthContext.MergeThen | context/AuthContext.tsx:51 | two successive updates equal one combined update in which the later fields win |
| AuthContext.AuthStore.UpdateUser | context/AuthContext.tsx:49-53 | a no-op when signed out; otherwise the user becomes the merge; authentication unchanged |
| Localization.Zip | utils/localization.ts:4-71 | a table's keys are exactly the key list and its values come from the value list |
| Localization.ZipAt | utils/localization.ts:4-71 | a key maps to the value at its last position |
| Localization.T | utils/localization.ts:97-99 | a found translation is non-empty or is the English entry; undefined only for keys absent from English |
| Localization.TablesAgreeOnKeys | utils/localization.ts:4-71 | all three tables define the same 20 keys with non-empty values, so the fallback never fires for a typed key |
| Localization.KeysDistinct | utils/localization.ts:5-25 | the key list has no repeats |
| Localization.TranslationUsesOwnTable | utils/localization.ts:97-99 | every known key translates to the language's own entry |
| Localization.UnknownKeyIsUndefined | utils/localization.ts:98 | a key absent from English yields undefined in every language |
| Localization.SampleTranslations | utils/localization.ts:6-50 | dashboard is Dashboard, डैशबोर्ड and Tablero; welcome is Namaste in English |
| Dates.ParseFormatDate | constants.ts:8-10 | a zero-padded YYYY-MM-DD string reads back as its year, month and day |
| Dates.FormatDateInjective | constants.ts:264 | distinct dates give distinct strings |
| Constants.NextMonthStr | constants.ts:9 | two digits denoting (m mod 12) + 1 |
| Constants.YearForNextMonth | constants.ts:10 | the year increments exactly in December |
| Constants.MockEvents | constants.ts:70-120 | there are two seed events |
| Constants.SeedEventsConsistent | constants.ts:77-82 | each seed event's spent is the sum of its expenses, and its score lies in 0..100 |
| Constants.SeedVendorIdsResolve | constants.ts:93 | every vendor id a seed event references belongs to a seed vendor |
| Constants.SeedEventDates | constants.ts:75 | the first seed is on the 5th of this month, the second on the 15th of next month, in the right year |
| Constants.NextMonthDateParses | constants.ts:8-9 | the second seed event's date reads back as the 15th of the next month, in the year of the next month |
| FestivalCalendar.CalIdInjective | constants.ts:262 | distinct (month, row) positions give distinct `cal-` ids |
| FestivalCalendar.MonthRows | constants.ts:260 | one position per row of a month, in row order |
| FestivalCalendar.RowsBefore | constants.ts:255 | positions of the months visited so far, all valid rows |
| FestivalCalendar.EntriesAt | constants.ts:260-268 | one entry per position |
| FestivalCalendar.GenerateEvents | constants.ts:255-271 | the nested loops over month keys and rows push exactly the entries of every table row, month by month |
| FestivalData.GenerateYearlyEvents | constants.ts:163-274 | run on YEARLY_DATA, the loops produce exactly YearlyEvents |
| FestivalCalendar.RowsBeforeDistinct | constants.ts:255-269 | no table row is visited twice |
| FestivalCalendar.TableIdsDistinct | constants.ts:262 | the generated ids are pairwise distinct, for any table |
| FestivalCalendar.TableEventsFollowTable | constants.ts:258-266 | for a table of at most twelve months, each entry carries its row's name, type and description and reads back as the date currentYear-(month+1)-day |
| FestivalCalendar.EntryFollowsRow | constants.ts:260-266 | one entry carries its row's fields and reads back as its date |
| FestivalCalendar.UpcomingFestivals | constants.ts:277-290 | an order-preserving sub-list holding exactly the festival entries of this or next month of this year; each kept element appears as often as in the input |
| FestivalCalendar.DecemberListsJanuaryOfSameYear | constants.ts:280-287 | in December, January festivals of the same year count as upcoming; in November they do not |
| FestivalCalendar.MuhuratNeverUpcoming | constants.ts:288 | muhurat entries are never listed |
| WeatherService.WeatherLabel | services/weatherService.ts:16-25 | each label exactly on its WMO code range, and Unknown exactly on the gaps, so the ranges are disjoint and total |
| WeatherService.ShowersAreUnknown | services/weatherService.ts:16-25 | shower and freezing-drizzle codes are Unknown |
| WeatherService.FromCache | services/weatherService.ts:33-35 | the cached record is used exactly when it is younger than 1,800,000 ms |
| WeatherService.FreshnessBoundary | services/weatherService.ts:5 | an entry exactly 30 minutes old is stale; one a millisecond younger is fresh |
| EventDetails.ToggledTasks | pages/EventDetails.tsx:38 | same length; only tasks with the id flip completion |
| EventDetails.ToggleTask | pages/EventDetails.tsx:37-40 | only the completion flag of the tasks with the id flips; every other task and every other field of the event is unchanged |
| EventDetails.ToggleTaskTwice | pages/EventDetails.tsx:37-40 | toggling the same task twice restores the event |
| EventDetails.AddTask | pages/EventDetails.tsx:41-45 | a whitespace-only title changes nothing; otherwise one incomplete task with the title as typed is appended |
| EventDetails.PendingCount | pages/EventDetails.tsx:157 | the number of positions holding an incomplete task; so at most the number of tasks, and 0 exactly when every task is completed |
| Seqs.FilterLength | pages/EventDetails.tsx:157 | a filtered list is as long as the number of positions whose element passes |
| EventDetails.AddTaskAddsPending | pages/EventDetails.tsx:157 | adding a task raises the pending count by one |
| EventDetails.RemoveTask | pages/EventDetails.tsx:46 | exactly the tasks with the id are dropped, the others kept in order and with their multiplicity; nothing else changes |
| EventDetails.AddGuest | pages/EventDetails.tsx:48-52 | a whitespace-only name changes nothing; otherwise one pending guest is appended |
| EventDetails.RemoveGuest | pages/EventDetails.tsx:53 | exactly the guests with the id are dropped, the others kept in order and with their multiplicity; nothing else changes |
| EventDetails.BadgedGuests | pages/EventDetails.tsx:73 | same length; only guests with the id get the badge |
| EventDetails.MintNft | pages/EventDetails.tsx:71-75 | only the guest list changes, and it keeps its length |
| EventDetails.MintNftOnlyBadges | pages/EventDetails.tsx:71-75 | minting changes no guest field but the badge, and gives the badge only to the matching guest |
| EventDetails.AddExpense | pages/EventDetails.tsx:55-69 | empty title or amount changes nothing; otherwise the expense is prepended, spent rises by exactly the amount, nothing else changes |
| EventDetails.AddExpenseKeepsUnlistedSpend | pages/EventDetails.tsx:66 | spent minus the listed expenses is preserved |
| EventDetails.InvitePhone | pages/EventDetails.tsx:83-90 | rejected exactly without a phone or with an empty one; otherwise exactly the filter of the phone's ASCII digits, in order and with repeats |
| EventDetails.InvitePhoneIdempotent | pages/EventDetails.tsx:89 | normalising a normalised number changes nothing |
| EventDetails.InvitePhoneDropsPlus | pages/EventDetails.tsx:89 | a `+`-prefixed number loses only the plus |
| EventDetails.EventVendors | pages/EventDetails.tsx:34 | exactly the vendors whose id the event lists, in vendor-list order; each kept element appears as often as in the input |
| CalendarModal.DaysInMonth | components/CalendarModal.tsx:39 | 28 to 31 days; February has 29 exactly in leap years |
| CalendarModal.YearLength | components/CalendarModal.tsx:39 | the months add up to 365 days, or 366 in a leap year |
| CalendarModal.StartDay | components/CalendarModal.tsx:40 | a weekday in 0..6 |
| CalendarModal.LeapStep | components/CalendarModal.tsx:40 | a year shifts the weekday by one, a leap year by two |
| CalendarModal.StartDayOfNextMonth | components/CalendarModal.tsx:39-40 | the next month starts the length of this month later in the week |
| CalendarModal.StartDayAnchor | components/CalendarModal.tsx:40 | 1 January 2024 is a Monday |
| CalendarModal.FirstOfMonth | components/CalendarModal.tsx:25-31 | an out-of-range month rolls into the year; the result is day 1 of that month |
| CalendarModal.PrevMonth | components/CalendarModal.tsx:25-27 | one month back, day 1, January rolling to December of the year before |
| CalendarModal.NextMonth | components/CalendarModal.tsx:29-31 | one month on, day 1, December rolling to January of the next year |
| CalendarModal.PrevNextInverse | components/CalendarModal.tsx:25-31 | next after previous, and previous after next, return to the same month and year |
| CalendarModal.BuildGrid | components/CalendarModal.tsx:43-49 | startDay blanks followed by 1..daysInMonth, length startDay + daysInMonth |
| CalendarModal.MonthGrid | components/CalendarModal.tsx:39-49 | the viewed month's grid: blanks exactly before its first weekday, then cell StartDay + d - 1 holds day d for every day of the month |
| CalendarModal.EventsForDay | components/CalendarModal.tsx:51-55 | exactly the events dated the zero-padded YYYY-MM-DD, in order; each kept element appears as often as in the input |
| CalendarModal.DayKey | components/CalendarModal.tsx:52-53 | for a non-negative year and a day below 100, the key reads back as the viewed year, the 1-based month and the day |
| CalendarModal.DatedEventShowsOnItsDay | components/CalendarModal.tsx:51-55 | an event dated in the viewed year shows on a cell exactly when month and day match |
| CalendarModal.TodayAtMostOnce | components/CalendarModal.tsx:107 | at most one cell of a grid is today |
| CalendarModal.ShowToday | components/CalendarModal.tsx:33-35 | the view moves to the current month and year, so today's day is highlighted |
| CalendarModal.ShowTodayHighlightsToday | components/CalendarModal.tsx:33-35 | in the grid of that month, the cell at StartDay + day - 1 holds today's day and is highlighted |
| VendorMarketplace.FilteredVendors | pages/VendorMarketplace.tsx:17-21 | an order-preserving sub-list holding exactly the matching vendors, each as often as listed; with the eco flag all are eco-friendly |
| VendorMarketplace.EmptyTermMatches | pages/VendorMarketplace.tsx:18 | an empty search term matches every vendor |
| VendorMarketplace.NoFilterShowsAll | pages/VendorMarketplace.tsx:17-21 | no term, category All and no eco flag show the whole list |
| VendorMarketplace.CategoryButtonSelectsCategory | pages/VendorMarketplace.tsx:19 | a category button shows only vendors of that category |
| VendorMarketplace.ToLowerIdempotent | pages/VendorMarketplace.tsx:18 | lower-casing twice equals lower-casing once |
| VendorMarketplace.SearchIgnoresTermCase | pages/VendorMarketplace.tsx:18 | the search does not depend on the case of the term |
| VendorMarketplace.PriceLabel | pages/VendorMarketplace.tsx:53 | Budget, Standard and Premium exactly for levels 1, 2 and 3 |
| Community.DisplayPosts | pages/Community.tsx:13-15 | Challenge keeps exactly posts tagged Challenge or GreenDiwali2024, in order and as often as listed; any other filter shows the feed unchanged |
| Community.HandlePost | pages/Community.tsx:17-21 | blank input does nothing; otherwise one post with the text, tag Community, no likes and no image is prepended and the box cleared |
| Community.PostingChangesFeedIffEnabled | pages/Community.tsx:17-21 | the feed changes exactly when the Post button is enabled |
| Community.NewPostOutsideChallenge | pages/Community.tsx:13-19 | a new post never appears under the Challenge filter |
| CreateEvent.AfterTemplate | pages/CreateEvent.tsx:16-24 | a `premium_` template on the FREE tier changes nothing; any other selection records template and name and advances one step |
| CreateEvent.ProTierNeverGated | pages/CreateEvent.tsx:18 | no template is gated for PRO |
| CreateEvent.FreeTierGatesOnlyRoyal | pages/CreateEvent.tsx:67-70 | of the offered templates, FREE blocks exactly the royal wedding |
| CreateEvent.SubmittedEvent | pages/CreateEvent.tsx:28-41 | the event takes the id, name, type, date and budget from the form |
| CreateEvent.SubmittedEventStartsEmpty | pages/CreateEvent.tsx:33-39 | a new event has nothing spent or listed as spent, location TBD, exactly the one open task Setup, no guests or vendors, and a sustainability score of 0 |
| CreateEvent.Wizard.constructor | pages/CreateEvent.tsx:13-14 | step 1 with an empty form |
| CreateEvent.Wizard.SelectType | pages/CreateEvent.tsx:53 | records the type and moves to step 2 |
| CreateEvent.Wizard.SelectTemplate | pages/CreateEvent.tsx:16-24 | form and step become AfterTemplate's |
| CreateEvent.Wizard.EditDetails | pages/CreateEvent.tsx:87-89 | records name, date and budget text and stays on step 3 |
| CreateEvent.Wizard.Back | pages/CreateEvent.tsx:91 | step 3 returns to step 2 with the form kept |
| CreateEvent.Wizard.Submit | pages/CreateEvent.tsx:26-43 | prepends the submitted event to the event store |
| VendorOnboarding.OrDefault | pages/VendorOnboarding.tsx:25-27 | the fallback exactly for a missing or empty entry (or one equal to it); otherwise the entry |
| VendorOnboarding.NewVendor | pages/VendorOnboarding.tsx:18-30 | the form's name, category, price level and eco flag, rating 5.0, verified, location default Mumbai, description default New vendor |
| VendorOnboarding.OnboardedVendorsAreInMumbai | pages/VendorOnboarding.tsx:25 | the form never sets a location, so every onboarded vendor is in Mumbai and matches a search for it |
| VendorOnboarding.NewVendorFoundByName | pages/VendorOnboarding.tsx:18-30 | an onboarded vendor appears in the marketplace when searched by name in its category |
| VendorOnboarding.Onboarding.constructor | pages/VendorOnboarding.tsx:11-13 | step 1, initial form, not verifying |
| VendorOnboarding.Onboarding.EditBusiness | pages/VendorOnboarding.tsx:43-44 | records name and category on step 1; the submitted form is kept |
| VendorOnboarding.Onboarding.EditDetails | pages/VendorOnboarding.tsx:52-53 | records description and eco flag on step 2; the submitted form is kept |
| VendorOnboarding.Onboarding.Next | pages/VendorOnboarding.tsx:47-54 | steps 1→2 and 2→3, form kept |
| VendorOnboarding.Onboarding.Back | pages/VendorOnboarding.tsx:54-63 | steps 2→1 and 3→2, form kept |
| VendorOnboarding.Onboarding.Submit | pages/VendorOnboarding.tsx:63 | only when not already verifying: starts verifying on step 3 and records the form as submitted |
| VendorOnboarding.Onboarding.VerificationDone | pages/VendorOnboarding.tsx:17-33 | prepends exactly NewVendor of the form as it was at Submit, whatever was edited since, then reaches step 4 and stops verifying |
| PaymentModal.ModalView | components/PaymentModal.tsx:18-36 | nothing exactly when closed; the pay form exactly when open and idle; spinner and confirmation likewise |
| PaymentModal.NextStatus | components/PaymentModal.tsx:20-30 | every transition changes the status |
| PaymentModal.PaymentCycle | components/PaymentModal.tsx:20-30 | three transitions return to the start after visiting idle, processing and success |
| PaymentModal.Modal.constructor | components/PaymentModal.tsx:16 | the modal starts idle |
| PaymentModal.Modal.HandlePay | components/PaymentModal.tsx:72-77 | pay, offered only in idle, moves to processing |
| PaymentModal.Modal.ProcessingDone | components/PaymentModal.tsx:22-23 | the first timer moves to success |
| PaymentModal.Modal.Reset | components/PaymentModal.tsx:24-27 | the second timer returns to idle |
| Subscription.ProPrice | pages/Subscription.tsx:12-19 | 399 for INR, 4.99 for USD and EUR, always positive |
| Subscription.Plans | pages/Subscription.tsx:23-37 | FREE at 0 then PRO at the Pro price, PRO recommended |
| Subscription.ButtonFor | pages/Subscription.tsx:95-108 | Current Plan exactly for the current tier; Downgrade exactly for a free plan that is not current |
| Subscription.PlanButtons | pages/Subscription.tsx:95-108 | exactly one plan is current; Downgrade shows exactly on FREE for a PRO user |
| Subscription.Page.HandleUpgrade | pages/Subscription.tsx:39-41 | every non-current button opens the payment modal |
| Subscription.Page.Pay | components/PaymentModal.tsx:20-21 | paying from the open idle modal starts processing |
| Subscription.Page.FirstTimer | components/PaymentModal.tsx:22-23 | processing becomes success |
| Subscription.Page.SecondTimer | pages/Subscription.tsx:43-45 | on completion the tier becomes PRO, whatever it was, and the modal closes idle |
| Subscription.Page.Close | components/PaymentModal.tsx:40 | closing the idle modal hides it |
| Layout.NavItems | components/Layout.tsx:18-31 | exactly the vendor links (3 items) for a vendor, exactly the host links (4 items, with the root link) for any other role or no user |
| Layout.LabelsAreTranslated | components/Layout.tsx:19-28 | every nav label has text in every language |
| Layout.ActiveExamples | components/Layout.tsx:56 | `/` is active only on an exact match; `/events` is active under `/events/e1` |
| Layout.BothActiveMeansPrefix | components/Layout.tsx:56 | two links active at once means the shorter is a non-root prefix of the longer |
| Layout.Diverge | components/Layout.tsx:56 | paths differing at a shared position are not prefixes of each other |
| Layout.HostNavPrefixFree | components/Layout.tsx:18-23 | no host path other than `/` prefixes another |
| Layout.VendorNavPrefixFree | components/Layout.tsx:25-29 | no vendor path prefixes another |
| Layout.NavItemsPrefixFree | components/Layout.tsx:31 | whichever nav is shown is prefix-free |
| Layout.AtMostOneActive | components/Layout.tsx:140 | at most one link is highlighted on any path |
| Layout.SwitchTarget | components/Layout.tsx:106 | HOST switches to VENDOR; anyone else, logged out included, to HOST; never ADMIN |
| Layout.SwitchTwice | components/Layout.tsx:106 | switching twice from the host returns to the host; a vendor or no user switches to the host |
| Dashboard.SumOfAppend | pages/Dashboard.tsx:17-18 | sums split over concatenated lists |
| Dashboard.TotalBudget | pages/Dashboard.tsx:17 | the budgets added up; non-negative when every budget is |
| Dashboard.TotalSpent | pages/Dashboard.tsx:18 | the spends added up; non-negative when every spend is |
| Dashboard.AddEventRaisesTotals | pages/Dashboard.tsx:17-18 | prepending an event raises the totals by exactly its budget and spent |
| Dashboard.TotalsWithinBudget | pages/Dashboard.tsx:17-18 | if no event overspends, total spent stays within total budget |
| Dashboard.Utilisation | pages/Dashboard.tsx:51 | at most 100; exactly 100 when spent reaches the budget; otherwise the exact share; non-negative for non-negative spend |
| Dashboard.UtilisationMonotone | pages/Dashboard.tsx:51 | spending more never shrinks the bar |
| Dashboard.Preview | pages/Dashboard.tsx:63 | the first three calendar entries, or all if fewer |
| MyEvents.Round | pages/MyEvents.tsx:73 | the integer nearest the value, halves rounding up |
| MyEvents.ShownPercent | pages/MyEvents.tsx:73 | the utilisation rounded to the nearest integer: 100 once the budget is reached, otherwise within half a unit of 100·spent/budget; at most 100, non-negative for non-negative spend |
| MyEvents.RedIffNineTenthsSpent | pages/MyEvents.tsx:77 | the bar is red exactly when more than nine tenths of the budget is spent |
| MyEvents.ShareAboveNinety | pages/MyEvents.tsx:77 | a share above 90 per cent means more than nine tenths spent, and back |
| MyEvents.AddedEventEndsEmptyState | pages/MyEvents.tsx:28 | after an event is added the empty state is gone |
| BudgetChart.Remaining | components/BudgetChart.tsx:14 | max(0, total − spent): never negative, and either 0 or the difference |
| BudgetChart.Slices | components/BudgetChart.tsx:15-18 | exactly the Spent slice with the spend, then the Remaining slice with max(0, total - spent) |
| BudgetChart.SlicesCoverTotal | components/BudgetChart.tsx:14-18 | within budget the slices add up to the total; overspent, nothing remains |
| BudgetChart.Percentage | components/BudgetChart.tsx:21 | 0 for a non-positive total, otherwise the rounded share |
| BudgetChart.PercentageBounds | components/BudgetChart.tsx:21 | 250 of 1000 is 25 per cent, and within budget the percentage lies in 0..100 |
| SustainabilityBadge.ColourFor | components/SustainabilityBadge.tsx:9-11 | green exactly from 80, yellow exactly on 50..79, red exactly below 50 |
| SustainabilityBadge.ColourMonotone | components/SustainabilityBadge.tsx:9-11 | a higher score never gets a worse colour |
| SustainabilityBadge.SizeOf | components/SustainabilityBadge.tsx:8 | the size defaults to md |
| LiveAnalysis.Point | components/LiveAnalysis.tsx:22-23 | sentiment in [60, 90) and energy in [50, 90) |
| LiveAnalysis.GenerateData | components/LiveAnalysis.tsx:6-12 | ten points labelled 0m, 10m, …, 90m, all in range |
| LiveAnalysis.GeneratedLabelsDistinct | components/LiveAnalysis.tsx:8 | the ten labels are distinct |
| LiveAnalysis.Tick | components/LiveAnalysis.tsx:18-26 | the first point is dropped, the others shift down by one, and a point labelled Now in range is appended |
| LiveAnalysis.TickKeepsRanges | components/LiveAnalysis.tsx:22-25 | a window in range stays in range |
| LiveAnalysis.TicksSlide | components/LiveAnalysis.tsx:18-27 | many ticks keep the window length, and the last ticks' points are all labelled Now |
| LiveAnalysis.TicksKeepSuffixMoving | components/LiveAnalysis.tsx:25 | after k ticks, point i is the old point i + k |

## Left out

- AES-GCM, JWK import and export, `getRandomValues`, `JSON.stringify`/`JSON.parse` and `TextEncoder`/`TextDecoder` are not modelled as algorithms. They are the functions of a `Platform`, and the proofs rely only on the laws in `Lawful`. A 256-bit AES-GCM key per section 7 of NIST SP 800-38D is an opaque `Key`; the 12-byte nonce is a parameter.
- StorageService.ToBytes: `new Uint8Array(x)` for a value that is not an array of numbers (a string, an object, an array with non-numbers) does not throw in JavaScript but builds some array. The model reports it as a failure, so decryption gives the default. Only JSON numbers are integers here, and they are taken modulo 256.
- JSON numbers are modelled as integers. Fractional numbers in stored posts (likes and comments) are not represented.
- CommunityContext.LoadStep: `decryptData<CommunityPost[]>` casts whatever parsed, unchecked. The model keeps only values shaped like a post list and reads any other shape as the seed posts. The application would instead hold the foreign value in `posts`.
- CommunityContext.CommunityStore.Save: the save effect is asynchronous. Two overlapping saves may finish in either order; the model runs each save to completion in one step.
- CommunityContext.PostOf reads a post only in the member order that CommunityContext.PostJson writes, with `image` last. A stored post whose members come in another order is not read back, and the load then falls back to the seed posts.
- Timers (`setTimeout` in the payment modal and onboarding, `setInterval` in the live analysis chart) are one method or function call per firing. The interval cleanup on unmount is not modelled.
- `Date.now()` ids, `new Date()` for today, `parseFloat`/`parseInt` of form text and `Math.random()` values are parameters. Ids are not proved unique, because two calls within one millisecond collide.
- Money and percentages are `real`, not IEEE doubles; rounding error is not modelled.
- Dashboard.Utilisation, MyEvents.ShownPercent and MyEvents.IsRed require a positive budget. A zero budget makes the source's percentage NaN or Infinity, which the model does not represent.
- Time zones are not modelled, nor are `toLocaleDateString` and the `getDate` of the dashboard preview. `new Date("YYYY-MM-DD")` reads the text as UTC midnight, while `getMonth` and `getFullYear` use local time. FestivalCalendar.UpcomingFestivals compares the month and year written in the text, which agrees with the source at UTC and east of it.
- CalendarModal.StartDay and CalendarModal.DaysInMonth use the proleptic Gregorian calendar for every year. `new Date(y, m, d)` maps years 0 to 99 to 1900 to 1999, which is not modelled.
- `formatCurrency` (exchange rates and `Intl.NumberFormat`) is not modelled.
- Strings.ToLower lower-cases ASCII letters only; JavaScript's `toLowerCase` also folds other scripts.
- The weather fetch, its offline fallback and the cache write are network and storage I/O, and are not modelled; only the labels and the freshness test are. The cache is plain JSON.
- The premium-template alert, the onboarding `basePrice` property (not part of the `Vendor` type) and the template lists of other event types are not modelled. CreateEvent.FreeTierGatesOnlyRoyal covers the list the page actually renders.
- AuthContext.Merge: `Partial<User>` with an explicitly `undefined` field overwrites that field with `undefined` in the spread; the model treats such a field as not supplied.
- pages/Login.tsx, pages/Settings.tsx, pages/VendorDetails.tsx, components/ImmersiveTech.tsx, components/ChatAssistant.tsx, services/geminiService.ts and `exportUserData` are UI, SDK or DOM code and are not part of this model.
