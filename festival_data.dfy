/**
 * The festival and muhurat table of constants.ts and the calendar
 * generateYearlyEvents builds from it.
 */
module FestivalData {
  import opened Wrappers
  import opened Types
  import opened FestivalCalendar

  /** The table, indexed by month 0 (January) .. 11 (December). */
  const YEARLY_DATA: seq<seq<CalendarRow>> := [
    [ CalendarRow("New Year", FestivalDay, 1, "Global Celebration"),
      CalendarRow("Lohri", FestivalDay, 13, "Punjabi Folk Festival"),
      CalendarRow("Makar Sankranti", FestivalDay, 14, "Harvest Festival"),
      CalendarRow("Pongal", FestivalDay, 15, "Tamil Harvest Festival"),
      CalendarRow("Guru Gobind Singh Jayanti", FestivalDay, 17, "Sikh Festival"),
      CalendarRow("Wedding Muhurat", Muhurat, 22, "Auspicious Date"),
      CalendarRow("Republic Day", FestivalDay, 26, "National Holiday") ],
    [ CalendarRow("Vasant Panchami", FestivalDay, 10, "Worship of Goddess Saraswati"),
      CalendarRow("Wedding Muhurat", Muhurat, 14, "Valentine Wedding Special"),
      CalendarRow("Chhatrapati Shivaji Maharaj Jayanti", FestivalDay, 19, "Maratha Warrior King"),
      CalendarRow("Wedding Muhurat", Muhurat, 28, "End of month auspicious date") ],
    [ CalendarRow("Maha Shivratri", FestivalDay, 8, "Night of Lord Shiva"),
      CalendarRow("Holika Dahan", FestivalDay, 24, "Bonfire Night"),
      CalendarRow("Holi", FestivalDay, 25, "Festival of Colors"),
      CalendarRow("Good Friday", FestivalDay, 29, "Religious Holiday"),
      CalendarRow("Easter", FestivalDay, 31, "Resurrection Sunday") ],
    [ CalendarRow("Ugadi / Gudi Padwa", FestivalDay, 9, "New Year"),
      CalendarRow("Eid al-Fitr", FestivalDay, 11, "End of Ramadan"),
      CalendarRow("Baisakhi", FestivalDay, 13, "Punjabi New Year"),
      CalendarRow("Ambedkar Jayanti", FestivalDay, 14, "Equality Day"),
      CalendarRow("Ram Navami", FestivalDay, 17, "Birth of Lord Rama"),
      CalendarRow("Mahavir Jayanti", FestivalDay, 21, "Jain Festival"),
      CalendarRow("Wedding Muhurat", Muhurat, 22, "Auspicious Date") ],
    [ CalendarRow("Labour Day", FestivalDay, 1, "International Workers Day"),
      CalendarRow("Akshaya Tritiya", Muhurat, 10, "Most Auspicious Day"),
      CalendarRow("Mothers Day", FestivalDay, 12, "Celebration of Mothers"),
      CalendarRow("Buddha Purnima", FestivalDay, 23, "Birth of Gautam Buddha") ],
    [ CalendarRow("World Environment Day", FestivalDay, 5, "Sustainability Awareness"),
      CalendarRow("Eid al-Adha", FestivalDay, 17, "Festival of Sacrifice"),
      CalendarRow("International Yoga Day", FestivalDay, 21, "Wellness & Yoga"),
      CalendarRow("Wedding Muhurat", Muhurat, 29, "Summer Wedding Date") ],
    [ CalendarRow("Rath Yatra", FestivalDay, 7, "Chariot Festival"),
      CalendarRow("Wedding Muhurat", Muhurat, 11, "Auspicious Date"),
      CalendarRow("Muharram", FestivalDay, 17, "Islamic New Year"),
      CalendarRow("Guru Purnima", FestivalDay, 21, "Honoring Teachers") ],
    [ CalendarRow("Friendship Day", FestivalDay, 4, "Celebration of friends"),
      CalendarRow("Independence Day", FestivalDay, 15, "National Holiday"),
      CalendarRow("Parsi New Year", FestivalDay, 16, "Navroz"),
      CalendarRow("Raksha Bandhan", FestivalDay, 19, "Bond of protection"),
      CalendarRow("Janmashtami", FestivalDay, 26, "Birth of Lord Krishna") ],
    [ CalendarRow("Teachers Day", FestivalDay, 5, "Honoring Educators"),
      CalendarRow("Ganesh Chaturthi", FestivalDay, 7, "Festival of Ganesh"),
      CalendarRow("Onam", FestivalDay, 15, "Harvest Festival of Kerala"),
      CalendarRow("Eid-e-Milad", FestivalDay, 16, "Birth of Prophet") ],
    [ CalendarRow("Gandhi Jayanti", FestivalDay, 2, "Birth of Mahatma Gandhi"),
      CalendarRow("Navratri Begins", FestivalDay, 3, "9 Nights of Goddess"),
      CalendarRow("Durga Puja", FestivalDay, 9, "Worship of Goddess Durga"),
      CalendarRow("Dussehra", FestivalDay, 12, "Victory of Good over Evil"),
      CalendarRow("Karwa Chauth", FestivalDay, 20, "Fasting for husbands"),
      CalendarRow("Dhanteras", FestivalDay, 29, "Festival of Wealth"),
      CalendarRow("Diwali", FestivalDay, 31, "Festival of Lights") ],
    [ CalendarRow("Govardhan Puja", FestivalDay, 2, "Day after Diwali"),
      CalendarRow("Bhai Dooj", FestivalDay, 3, "Brother-Sister Festival"),
      CalendarRow("Chhath Puja", FestivalDay, 7, "Sun God Worship"),
      CalendarRow("Childrens Day", FestivalDay, 14, "Birthday of Nehru"),
      CalendarRow("Guru Nanak Jayanti", FestivalDay, 15, "Gurpurab"),
      CalendarRow("Wedding Muhurat", Muhurat, 22, "Wedding Season Begins") ],
    [ CalendarRow("Wedding Muhurat", Muhurat, 4, "Peak Wedding Date"),
      CalendarRow("Wedding Muhurat", Muhurat, 14, "Last Muhurat of Year"),
      CalendarRow("Christmas", FestivalDay, 25, "Birth of Jesus"),
      CalendarRow("New Year Eve", FestivalDay, 31, "Party Time") ]
  ]

  /** MOCK_CALENDAR_EVENTS, for the year read when the module loads. */
  function YearlyEvents(year: nat): seq<CalendarEvent> {
    TableEvents(YEARLY_DATA, year)
  }

  /** generateYearlyEvents: the months of YEARLY_DATA in key order. */
  method GenerateYearlyEvents(year: nat) returns (events: seq<CalendarEvent>)
    ensures events == YearlyEvents(year)
  {
    events := GenerateEvents(YEARLY_DATA, year);
  }
}
