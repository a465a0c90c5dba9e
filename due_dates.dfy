/** Due-date classification (`dueBadge` in `src/components/DashboardComponents.jsx`,
    copied into `src/Dashboard.jsx`) and the dashboard's aggregate counts.

    Dates are whole local calendar days numbered consecutively: `startOfDay(d)`
    is `Some(day)` for a parseable date and `None` otherwise, and midnight of a
    day is `day * OneDay` milliseconds. */
module DueDates {
  import opened Results
  import opened Api

  const OneDay: int := 24 * 60 * 60 * 1000

  /** The five badges and the label and style each one shows. */
  datatype Badge = NoDueDate | Overdue | DueToday | DueSoon | AwaitingResponse {
    function Label(): string {
      match this
      case NoDueDate => "No due date"
      case Overdue => "Overdue"
      case DueToday => "Due today"
      case DueSoon => "Due soon"
      case AwaitingResponse => "Awaiting response"
    }

    function ClassName(): string {
      match this
      case NoDueDate => "bg-muted text-muted-foreground"
      case Overdue => "bg-destructive text-destructive-foreground"
      case DueToday => "bg-amber-500 text-white"
      case DueSoon => "bg-emerald-600 text-white"
      case AwaitingResponse => "bg-secondary text-secondary-foreground"
    }
  }

  /** Midnight of a day, in milliseconds. */
  function Midnight(day: int): int {
    day * OneDay
  }

  /** `dueBadge`: `due` is `startOfDay(dueDate)`, `today` today's day number;
      the comparisons are on the millisecond difference, as in the source. */
  function DueBadge(due: Option<int>, today: int): Badge {
    match due
    case None => NoDueDate
    case Some(day) =>
      var diff := Midnight(day) - Midnight(today);
      if diff < 0 then Overdue
      else if diff == 0 then DueToday
      else if diff <= 7 * OneDay then DueSoon
      else AwaitingResponse
  }

  /** The classification stated on whole days. */
  function BadgeForDays(days: int): Badge {
    if days < 0 then Overdue
    else if days == 0 then DueToday
    else if days <= 7 then DueSoon
    else AwaitingResponse
  }

  /** `dueBadge` depends only on the number of calendar days between today and
      the due date, with the bucket boundaries before, on, 1 to 7 after, and
      more than 7 after today. */
  lemma DueBadgeByDays(day: int, today: int)
    ensures DueBadge(Some(day), today) == BadgeForDays(day - today)
  {
    var d := day - today;
    assert Midnight(day) - Midnight(today) == d * OneDay;
  }

  /** An unparseable date has no due date; every other date gets one of the
      four dated badges, and the five labels are distinct. */
  lemma DueBadgeTotal(due: Option<int>, today: int)
    ensures DueBadge(due, today) == NoDueDate <==> due == None
    ensures var b := DueBadge(due, today);
      b.Label() in {"No due date", "Overdue", "Due today", "Due soon", "Awaiting response"}
    ensures forall b1: Badge, b2: Badge :: b1.Label() == b2.Label() ==> b1 == b2
  {
  }

  // ----- Aggregate counts over the consultation list -----

  /** How the page reads a due-date string: `startOfDay(dueDate)` as a day
      number (`new Date(s)` and the local midnight are left abstract). */
  datatype Calendar = Calendar(today: int, dayOf: string -> Option<int>)

  function BadgeOf(c: Consultation, cal: Calendar): Badge {
    DueBadge(cal.dayOf(c.dueDate), cal.today)
  }

  /** `due && due < t` */
  predicate IsOverdue(c: Consultation, cal: Calendar) {
    var due := cal.dayOf(c.dueDate);
    due.Some? && Midnight(due.value) < Midnight(cal.today)
  }

  /** `due && due >= t && due <= next7` with `next7` seven days after `t`. */
  predicate IsDueSoon(c: Consultation, cal: Calendar) {
    var due := cal.dayOf(c.dueDate);
    due.Some? && Midnight(due.value) >= Midnight(cal.today)
      && Midnight(due.value) <= Midnight(cal.today) + 7 * 24 * 60 * 60 * 1000
  }

  /** `consultations.filter(overdue).length` */
  function OverdueCount(cs: seq<Consultation>, cal: Calendar): nat {
    if cs == [] then 0 else OverdueCount(cs[..|cs| - 1], cal) + (if IsOverdue(cs[|cs| - 1], cal) then 1 else 0)
  }

  /** `consultations.filter(dueSoon).length` */
  function DueSoonCount(cs: seq<Consultation>, cal: Calendar): nat {
    if cs == [] then 0 else DueSoonCount(cs[..|cs| - 1], cal) + (if IsDueSoon(cs[|cs| - 1], cal) then 1 else 0)
  }

  /** The number of consultations whose badge is one of `bs`. */
  function CountBadges(cs: seq<Consultation>, cal: Calendar, bs: set<Badge>): nat {
    if cs == [] then 0 else CountBadges(cs[..|cs| - 1], cal, bs) + (if BadgeOf(cs[|cs| - 1], cal) in bs then 1 else 0)
  }

  /** One consultation is counted overdue exactly when its badge says
      "Overdue", and due soon exactly when its badge says "Due today" or
      "Due soon": the counts and the badges use the same boundaries. */
  lemma ItemCountsAgreeWithBadge(c: Consultation, cal: Calendar)
    ensures IsOverdue(c, cal) <==> BadgeOf(c, cal) == Overdue
    ensures IsDueSoon(c, cal) <==> BadgeOf(c, cal) in {DueToday, DueSoon}
  {
    var due := cal.dayOf(c.dueDate);
    if due.Some? {
      DueBadgeByDays(due.value, cal.today);
      assert Midnight(due.value) - Midnight(cal.today) == (due.value - cal.today) * OneDay;
    }
  }

  /** The overdue count is the number of "Overdue" badges, and the due-soon
      count the number of "Due today" and "Due soon" badges; so a consultation
      due today is counted as due soon. */
  lemma {:induction false} CountsAgreeWithBadges(cs: seq<Consultation>, cal: Calendar)
    ensures OverdueCount(cs, cal) == CountBadges(cs, cal, {Overdue})
    ensures DueSoonCount(cs, cal) == CountBadges(cs, cal, {DueToday, DueSoon})
  {
    if cs != [] {
      CountsAgreeWithBadges(cs[..|cs| - 1], cal);
      ItemCountsAgreeWithBadge(cs[|cs| - 1], cal);
    }
  }

  /** Counting by badge splits the list: badges in disjoint sets add up. */
  lemma {:induction false} CountBadgesSplit(cs: seq<Consultation>, cal: Calendar, a: set<Badge>, b: set<Badge>)
    requires a !! b
    ensures CountBadges(cs, cal, a + b) == CountBadges(cs, cal, a) + CountBadges(cs, cal, b)
  {
    if cs != [] {
      CountBadgesSplit(cs[..|cs| - 1], cal, a, b);
    }
  }

  /** Every consultation has some badge, so counting all five gives the total. */
  lemma {:induction false} CountAllBadges(cs: seq<Consultation>, cal: Calendar)
    ensures CountBadges(cs, cal, {NoDueDate, Overdue, DueToday, DueSoon, AwaitingResponse}) == |cs|
  {
    if cs != [] {
      CountAllBadges(cs[..|cs| - 1], cal);
      var b := BadgeOf(cs[|cs| - 1], cal);
      assert b in {NoDueDate, Overdue, DueToday, DueSoon, AwaitingResponse};
    }
  }

  /** The total splits into overdue, due soon (today included), awaiting a
      response and without a due date. */
  lemma StatsPartition(cs: seq<Consultation>, cal: Calendar)
    ensures |cs| == OverdueCount(cs, cal) + DueSoonCount(cs, cal)
                    + CountBadges(cs, cal, {AwaitingResponse}) + CountBadges(cs, cal, {NoDueDate})
  {
    CountsAgreeWithBadges(cs, cal);
    CountAllBadges(cs, cal);
    CountBadgesSplit(cs, cal, {Overdue}, {DueToday, DueSoon});
    CountBadgesSplit(cs, cal, {Overdue, DueToday, DueSoon}, {AwaitingResponse});
    CountBadgesSplit(cs, cal, {Overdue, DueToday, DueSoon, AwaitingResponse}, {NoDueDate});
    assert {Overdue} + {DueToday, DueSoon} == {Overdue, DueToday, DueSoon};
    assert {Overdue, DueToday, DueSoon} + {AwaitingResponse} == {Overdue, DueToday, DueSoon, AwaitingResponse};
    assert {Overdue, DueToday, DueSoon, AwaitingResponse} + {NoDueDate}
        == {NoDueDate, Overdue, DueToday, DueSoon, AwaitingResponse};
  }
}
