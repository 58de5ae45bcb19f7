/**
 * The data-access layer over an in-memory store: one sequence of rows per table.
 * Reads (authenticateUser, getUserLocations, getLocationDetails) are functions of
 * the tables; get-or-create of a week and the two single-row updates are methods
 * that change the weekly and daily tables in place.
 */
module Db {
  import opened Wrappers
  import opened Seqs
  import opened Calendar

  // ---------------------------------------------------------------- rows

  /** A row of `users`. */
  datatype UserRow = UserRow(id: int, username: string, email: string, passwordHash: string, role: string, isActive: bool)

  /** The columns `authenticateUser` selects: a user without the password hash. */
  datatype User = User(id: int, username: string, email: string, role: string, isActive: bool)

  /** A row of `locations`. */
  datatype Location = Location(id: int, name: string, code: string, weeklySalesTarget: real, foodCostTarget: real, foodSalesRatio: real)

  /** A row of `user_locations`: one user's grant on one location. */
  datatype Grant = Grant(userId: int, locationId: int, canView: bool, canEdit: bool)

  /** A row of `sales_distribution` or `purchasing_distribution`. */
  datatype DistributionRow = DistributionRow(locationId: int, dayOfWeek: string, percentage: real)

  /** The columns selected from a distribution table. */
  datatype DistributionEntry = DistributionEntry(dayOfWeek: string, percentage: real)

  /** A row of `vendor_config`; `isActive` is the soft-delete flag. */
  datatype VendorRow = VendorRow(locationId: int, vendorName: string, percentage: real, isActive: bool)

  /** The columns selected from `vendor_config`. */
  datatype VendorEntry = VendorEntry(vendorName: string, percentage: real)

  /** A row of `weekly_data`. */
  datatype WeeklyRow = WeeklyRow(id: int, locationId: int, weekStart: Date, weeklySalesForecast: real, createdBy: int)

  /** A row of `daily_actuals`; the actual figures and `updatedBy` are NULL until entered. */
  datatype DailyRow = DailyRow(
    id: int, weeklyDataId: int, dayOfWeek: string, date: Date,
    actualSales: Option<real>, actualPurchasing: Option<real>, updatedBy: Option<int>)

  /** What `getLocationDetails` returns: the location row and its three lists. */
  datatype LocationDetails = LocationDetails(
    location: Location,
    salesDistribution: seq<DistributionEntry>,
    purchasingDistribution: seq<DistributionEntry>,
    vendors: seq<VendorEntry>)

  /** What `getOrCreateWeeklyData` returns: the weekly row with its daily rows attached. */
  datatype WeeklyView = WeeklyView(weekly: WeeklyRow, dailyActuals: seq<DailyRow>)

  datatype DbError =
    | AccessDenied       // 'Access denied'
    | LocationNotFound   // 'Location not found'
    | LocationMissing    // the TypeError from reading weekly_sales_target of a location row that is not there

  // ---------------------------------------------------------------- weekdays

  const Days: seq<string> := ["Monday", "Tuesday", "Wednesday", "Thursday", "Friday", "Saturday", "Sunday"]

  /**
   * The ORDER BY CASE key of the distribution queries: Monday = 1 … Sunday = 7.
   * Any other name gets NULL, which an ascending ORDER BY puts after every number: 8 here.
   */
  function DayRank(name: string): (r: int)
    ensures 1 <= r <= 8
    ensures r <= 7 <==> name in Days
    ensures r <= 7 ==> Days[r - 1] == name
  {
    if name == "Monday" then 1
    else if name == "Tuesday" then 2
    else if name == "Wednesday" then 3
    else if name == "Thursday" then 4
    else if name == "Friday" then 5
    else if name == "Saturday" then 6
    else if name == "Sunday" then 7
    else 8
  }

  predicate RankLe(a: DistributionEntry, b: DistributionEntry) {
    DayRank(a.dayOfWeek) <= DayRank(b.dayOfWeek)
  }

  lemma RankOrder()
    ensures IsTotalPreorder(RankLe)
  {
  }

  // ---------------------------------------------------------------- queries over rows

  /** WHERE username = $1 AND is_active = true */
  function ActiveUsersNamed(users: seq<UserRow>, username: string): (r: seq<UserRow>)
    ensures forall u :: u in r <==> u in users && u.username == username && u.isActive
  {
    var named := (u: UserRow) => u.username == username && u.isActive;
    FilterMembers(users, named);
    Filter(users, named)
  }

  function Profile(u: UserRow): User {
    User(u.id, u.username, u.email, u.role, u.isActive)
  }

  /** The selected columns leave the password hash out: rows that differ only in it give the same user. */
  lemma ProfileOmitsHash(u: UserRow, hash: string)
    ensures Profile(u.(passwordHash := hash)) == Profile(u)
    ensures Profile(u).id == u.id && Profile(u).username == u.username && Profile(u).isActive == u.isActive
    ensures Profile(u).email == u.email && Profile(u).role == u.role
  {
  }

  function HasId(id: int): Location -> bool {
    (l: Location) => l.id == id
  }

  /** SELECT * FROM locations WHERE id = $1, first row. */
  function FindLocation(locations: seq<Location>, id: int): (r: Option<Location>)
    ensures r.Some? ==> r.value in locations && r.value.id == id
    ensures r.None? <==> forall l :: l in locations ==> l.id != id
  {
    FilterMembers(locations, HasId(id));
    var rows := Filter(locations, HasId(id));
    if rows == [] then None
    else
      assert rows[0] in rows;
      Some(rows[0])
  }

  /** The grant row for (user, location), first row. */
  function FindGrant(grants: seq<Grant>, userId: int, locationId: int): (r: Option<Grant>)
    ensures r.Some? ==> r.value in grants && r.value.userId == userId && r.value.locationId == locationId
    ensures r.None? <==> forall g :: g in grants ==> !(g.userId == userId && g.locationId == locationId)
  {
    var pair := (g: Grant) => g.userId == userId && g.locationId == locationId;
    FilterMembers(grants, pair);
    var rows := Filter(grants, pair);
    if rows == [] then None
    else
      assert rows[0] in rows;
      Some(rows[0])
  }

  /** The access check of getLocationDetails: a grant row exists and its can_view is set. */
  predicate MayView(grants: seq<Grant>, userId: int, locationId: int) {
    var g := FindGrant(grants, userId, locationId);
    g.Some? && g.value.canView
  }

  predicate ViewsLocation(g: Grant, userId: int, locationId: int) {
    g.userId == userId && g.locationId == locationId && g.canView
  }

  /**
   * The access check passes only on a viewing grant, never without a grant row; when the
   * user's grant rows for the location agree on can_view it passes exactly when one views.
   */
  lemma MayViewMeans(grants: seq<Grant>, userId: int, locationId: int)
    ensures MayView(grants, userId, locationId) ==> exists g :: g in grants && ViewsLocation(g, userId, locationId)
    ensures (forall g :: g in grants ==> !(g.userId == userId && g.locationId == locationId)) ==> !MayView(grants, userId, locationId)
    ensures (forall g, h :: g in grants && h in grants && g.userId == h.userId == userId && g.locationId == h.locationId == locationId ==> g.canView == h.canView) ==>
      (MayView(grants, userId, locationId) <==> exists g :: g in grants && ViewsLocation(g, userId, locationId))
  {
  }

  /** The location rows with that id, in storage order. */
  function LocationsWithId(locations: seq<Location>, id: int): (r: seq<Location>)
    ensures forall l :: l in r <==> l in locations && l.id == id
  {
    FilterMembers(locations, HasId(id));
    Filter(locations, HasId(id))
  }

  /** locations JOIN user_locations WHERE user_id = $1 AND can_view: one location row per viewing grant. */
  function ViewableJoin(grants: seq<Grant>, locations: seq<Location>, userId: int): seq<Location>
  {
    if grants == [] then []
    else
      (if grants[0].userId == userId && grants[0].canView then LocationsWithId(locations, grants[0].locationId) else [])
      + ViewableJoin(grants[1..], locations, userId)
  }

  lemma {:induction false} ViewableJoinSound(grants: seq<Grant>, locations: seq<Location>, userId: int, l: Location)
    requires l in ViewableJoin(grants, locations, userId)
    ensures l in locations && exists g :: g in grants && ViewsLocation(g, userId, l.id)
  {
    if grants != [] {
      var g := grants[0];
      var here := if g.userId == userId && g.canView then LocationsWithId(locations, g.locationId) else [];
      var rest := ViewableJoin(grants[1..], locations, userId);
      assert ViewableJoin(grants, locations, userId) == here + rest;
      if l in here {
        assert ViewsLocation(g, userId, l.id);
      } else {
        ViewableJoinSound(grants[1..], locations, userId, l);
        var h :| h in grants[1..] && ViewsLocation(h, userId, l.id);
        assert h in grants;
      }
    }
  }

  lemma {:induction false} ViewableJoinComplete(grants: seq<Grant>, locations: seq<Location>, userId: int, l: Location, g: Grant)
    requires l in locations && g in grants && ViewsLocation(g, userId, l.id)
    ensures l in ViewableJoin(grants, locations, userId)
  {
    var here := if grants[0].userId == userId && grants[0].canView then LocationsWithId(locations, grants[0].locationId) else [];
    var rest := ViewableJoin(grants[1..], locations, userId);
    assert ViewableJoin(grants, locations, userId) == here + rest;
    if g == grants[0] {
      assert l in here;
    } else {
      assert g in grants[1..];
      ViewableJoinComplete(grants[1..], locations, userId, l, g);
    }
  }

  /** A location is in the join exactly when the user holds a viewing grant on its id. */
  lemma ViewableJoinMembers(grants: seq<Grant>, locations: seq<Location>, userId: int, l: Location)
    ensures l in ViewableJoin(grants, locations, userId) <==> l in locations && exists g :: g in grants && ViewsLocation(g, userId, l.id)
  {
    if l in ViewableJoin(grants, locations, userId) {
      ViewableJoinSound(grants, locations, userId, l);
    }
    if l in locations && exists g :: g in grants && ViewsLocation(g, userId, l.id) {
      var g :| g in grants && ViewsLocation(g, userId, l.id);
      ViewableJoinComplete(grants, locations, userId, l, g);
    }
  }

  predicate NameLe(a: Location, b: Location) {
    LexLe(a.name, b.name)
  }

  lemma NameOrder()
    ensures IsTotalPreorder(NameLe)
  {
    forall a: Location, b: Location
      ensures NameLe(a, b) || NameLe(b, a)
    {
      LexLeTotal(a.name, b.name);
    }
    forall a: Location, b: Location, c: Location | NameLe(a, b) && NameLe(b, c)
      ensures NameLe(a, c)
    {
      LexLeTransitive(a.name, b.name, c.name);
    }
  }

  function Entry(row: DistributionRow): DistributionEntry {
    DistributionEntry(row.dayOfWeek, row.percentage)
  }

  /** SELECT day_of_week, percentage FROM … WHERE location_id = $1, in storage order. */
  function DistributionOf(rows: seq<DistributionRow>, locationId: int): (r: seq<DistributionEntry>)
    ensures forall e :: e in r <==> exists row :: row in rows && row.locationId == locationId && Entry(row) == e
  {
    if rows == [] then []
    else
      var rest := DistributionOf(rows[1..], locationId);
      assert forall h :: h in rows <==> h == rows[0] || h in rows[1..];
      (if rows[0].locationId == locationId then [Entry(rows[0])] else []) + rest
  }

  /** SELECT vendor_name, percentage FROM vendor_config WHERE location_id = $1 AND is_active = true */
  function ActiveVendorsOf(rows: seq<VendorRow>, locationId: int): (r: seq<VendorEntry>)
    ensures forall v :: v in r <==> exists row :: row in rows && row.locationId == locationId && row.isActive && VendorEntry(row.vendorName, row.percentage) == v
  {
    if rows == [] then []
    else
      var rest := ActiveVendorsOf(rows[1..], locationId);
      assert forall h :: h in rows <==> h == rows[0] || h in rows[1..];
      (if rows[0].locationId == locationId && rows[0].isActive then [VendorEntry(rows[0].vendorName, rows[0].percentage)] else []) + rest
  }

  /** ORDER BY the weekday rank. */
  function SortByRank(entries: seq<DistributionEntry>): (r: seq<DistributionEntry>)
    ensures SortedBy(r, RankLe)
    ensures multiset(r) == multiset(entries)
  {
    RankOrder();
    Sort(entries, RankLe)
  }

  // ---------------------------------------------------------------- weekly tables

  function WeekKey(locationId: int, weekStart: Date): WeeklyRow -> bool {
    (w: WeeklyRow) => w.locationId == locationId && w.weekStart == weekStart
  }

  /** SELECT * FROM weekly_data WHERE location_id = $1 AND week_start = $2, first row. */
  function FindWeek(rows: seq<WeeklyRow>, locationId: int, weekStart: Date): (r: Option<WeeklyRow>)
    ensures r.Some? ==> r.value in rows && r.value.locationId == locationId && r.value.weekStart == weekStart
    ensures r.None? <==> forall w :: w in rows ==> !(w.locationId == locationId && w.weekStart == weekStart)
  {
    FilterMembers(rows, WeekKey(locationId, weekStart));
    var m := Filter(rows, WeekKey(locationId, weekStart));
    if m == [] then None
    else
      assert m[0] in m;
      Some(m[0])
  }

  function WeeklyHasId(id: int): WeeklyRow -> bool {
    (w: WeeklyRow) => w.id == id
  }

  /** SELECT * FROM weekly_data WHERE id = $1, first row. */
  function FindWeekById(rows: seq<WeeklyRow>, id: int): (r: Option<WeeklyRow>)
    ensures r.Some? ==> r.value in rows && r.value.id == id
    ensures r.None? <==> forall w :: w in rows ==> w.id != id
  {
    FilterMembers(rows, WeeklyHasId(id));
    var m := Filter(rows, WeeklyHasId(id));
    if m == [] then None
    else
      assert m[0] in m;
      Some(m[0])
  }

  function BelongsTo(weeklyDataId: int): DailyRow -> bool {
    (d: DailyRow) => d.weeklyDataId == weeklyDataId
  }

  /** SELECT * FROM daily_actuals WHERE weekly_data_id = $1, in storage order. */
  function DailiesOf(rows: seq<DailyRow>, weeklyDataId: int): seq<DailyRow> {
    Filter(rows, BelongsTo(weeklyDataId))
  }

  /** A week's daily rows are exactly the stored rows that point at it. */
  lemma DailiesOfMembers(rows: seq<DailyRow>, weeklyDataId: int)
    ensures forall d :: d in DailiesOf(rows, weeklyDataId) <==> d in rows && d.weeklyDataId == weeklyDataId
  {
    FilterMembers(rows, BelongsTo(weeklyDataId));
  }

  predicate DateLe(a: DailyRow, b: DailyRow) {
    OnOrBefore(a.date, b.date)
  }

  lemma DateOrder()
    ensures IsTotalPreorder(DateLe)
  {
  }

  /** ORDER BY date. */
  function SortByDate(rows: seq<DailyRow>): (r: seq<DailyRow>)
    ensures SortedBy(r, DateLe)
    ensures multiset(r) == multiset(rows)
  {
    DateOrder();
    Sort(rows, DateLe)
  }

  /** The (day name, date) columns of a list of daily rows. */
  function Shape(rows: seq<DailyRow>): seq<(string, Date)> {
    seq(|rows|, i requires 0 <= i < |rows| => (rows[i].dayOfWeek, rows[i].date))
  }

  /** What a week's daily rows must hold: Days[i] on weekStart + i days, Monday first. */
  function WeekPlan(weekStart: Date): (p: seq<(string, Date)>)
    ensures |p| == 7
  {
    seq(7, i requires 0 <= i < 7 => (Days[i], AddDays(weekStart, i)))
  }

  /** When the week starts on a Monday, each planned day name is the weekday of its date. */
  lemma WeekPlanNamesWeekdays(weekStart: Date, i: nat)
    requires WeekdayIndex(weekStart) == 0
    requires i < 7
    ensures WeekPlan(weekStart)[i].0 == Days[WeekdayIndex(WeekPlan(weekStart)[i].1)]
  {
    WeekFromMonday(weekStart, i);
  }

  /** The seven rows the creation loop inserts, with ids firstId .. firstId + 6. */
  function NewWeekRows(weeklyDataId: int, firstId: int, weekStart: Date): seq<DailyRow> {
    seq(7, i requires 0 <= i < 7 => DailyRow(firstId + i, weeklyDataId, Days[i], AddDays(weekStart, i), None, None, None))
  }

  /**
   * The invariant of the two weekly tables: SERIAL ids strictly increasing in
   * insertion order and below the next value, every daily row pointing at an id
   * already handed out, one weekly row per (location, week start), and every week
   * holding exactly its seven days.
   */
  ghost predicate WeekTablesValid(weekly: seq<WeeklyRow>, daily: seq<DailyRow>, nextWeeklyId: int, nextDailyId: int) {
    && (forall i, j :: 0 <= i < j < |weekly| ==> weekly[i].id < weekly[j].id)
    && (forall w :: w in weekly ==> w.id < nextWeeklyId)
    && (forall i, j :: 0 <= i < j < |weekly| ==> !(weekly[i].locationId == weekly[j].locationId && weekly[i].weekStart == weekly[j].weekStart))
    && (forall i, j :: 0 <= i < j < |daily| ==> daily[i].id < daily[j].id)
    && (forall d :: d in daily ==> d.id < nextDailyId && d.weeklyDataId < nextWeeklyId)
    && (forall w :: w in weekly ==> Shape(DailiesOf(daily, w.id)) == WeekPlan(w.weekStart))
  }

  /** Seven rows laid out from one start date are in date order. */
  lemma {:induction false} WeekPlanIsDateOrdered(rows: seq<DailyRow>, weekStart: Date)
    requires Shape(rows) == WeekPlan(weekStart)
    ensures |rows| == 7
    ensures SortedBy(rows, DateLe)
  {
    assert |rows| == |Shape(rows)|;
    forall i, j | 0 <= i < j < |rows|
      ensures DateLe(rows[i], rows[j])
    {
      assert rows[i].date == Shape(rows)[i].1 == AddDays(weekStart, i);
      assert rows[j].date == Shape(rows)[j].1 == AddDays(weekStart, j);
      AddDaysIncreasing(weekStart, i, j);
    }
  }

  /** The daily rows of a valid week, sorted by date, are exactly its rows in storage order. */
  lemma WeekRowsAlreadySorted(weekly: seq<WeeklyRow>, daily: seq<DailyRow>, nextWeeklyId: int, nextDailyId: int, w: WeeklyRow)
    requires WeekTablesValid(weekly, daily, nextWeeklyId, nextDailyId)
    requires w in weekly
    ensures SortByDate(DailiesOf(daily, w.id)) == DailiesOf(daily, w.id)
    ensures |DailiesOf(daily, w.id)| == 7
  {
    WeekPlanIsDateOrdered(DailiesOf(daily, w.id), w.weekStart);
    DateOrder();
    SortOfSorted(DailiesOf(daily, w.id), DateLe);
  }

  /** Rows for other weeks do not change a week's daily rows. */
  lemma {:induction false} DailiesOfAppendOther(daily: seq<DailyRow>, added: seq<DailyRow>, weeklyDataId: int)
    requires forall k :: 0 <= k < |added| ==> added[k].weeklyDataId != weeklyDataId
    ensures DailiesOf(daily + added, weeklyDataId) == DailiesOf(daily, weeklyDataId)
  {
    FilterAppend(daily, added, BelongsTo(weeklyDataId));
    FilterNone(added, BelongsTo(weeklyDataId));
  }

  /** A week id not used before has, after the append, exactly the appended rows. */
  lemma {:induction false} DailiesOfAppendFresh(daily: seq<DailyRow>, added: seq<DailyRow>, weeklyDataId: int)
    requires forall k :: 0 <= k < |daily| ==> daily[k].weeklyDataId < weeklyDataId
    requires forall k :: 0 <= k < |added| ==> added[k].weeklyDataId == weeklyDataId
    ensures DailiesOf(daily + added, weeklyDataId) == added
  {
    FilterAppend(daily, added, BelongsTo(weeklyDataId));
    FilterNone(daily, BelongsTo(weeklyDataId));
    FilterAll(added, BelongsTo(weeklyDataId));
  }

  /** After the append, every week (old or new) still has exactly its seven days. */
  lemma CreateKeepsShapes(weekly: seq<WeeklyRow>, daily: seq<DailyRow>, nextWeeklyId: int, nextDailyId: int, row: WeeklyRow)
    requires WeekTablesValid(weekly, daily, nextWeeklyId, nextDailyId)
    requires row.id == nextWeeklyId
    ensures forall w :: w in weekly + [row] ==>
      Shape(DailiesOf(daily + NewWeekRows(row.id, nextDailyId, row.weekStart), w.id)) == WeekPlan(w.weekStart)
    ensures DailiesOf(daily + NewWeekRows(row.id, nextDailyId, row.weekStart), row.id) == NewWeekRows(row.id, nextDailyId, row.weekStart)
  {
    var added := NewWeekRows(row.id, nextDailyId, row.weekStart);
    assert forall k :: 0 <= k < |added| ==> added[k].weeklyDataId == row.id;
    assert forall k :: 0 <= k < |daily| ==> daily[k].weeklyDataId < row.id by {
      forall k | 0 <= k < |daily| ensures daily[k].weeklyDataId < row.id {
        assert daily[k] in daily;
      }
    }
    DailiesOfAppendFresh(daily, added, row.id);
    forall w | w in weekly + [row]
      ensures Shape(DailiesOf(daily + added, w.id)) == WeekPlan(w.weekStart)
    {
      if w != row {
        assert w in weekly;
        DailiesOfAppendOther(daily, added, w.id);
      }
    }
  }

  /** Appending a week whose (location, week start) has no row keeps one row per key. */
  lemma CreateKeepsKeys(weekly: seq<WeeklyRow>, row: WeeklyRow)
    requires forall i, j :: 0 <= i < j < |weekly| ==> !(weekly[i].locationId == weekly[j].locationId && weekly[i].weekStart == weekly[j].weekStart)
    requires FindWeek(weekly, row.locationId, row.weekStart).None?
    ensures var weekly' := weekly + [row];
      forall i, j :: 0 <= i < j < |weekly'| ==> !(weekly'[i].locationId == weekly'[j].locationId && weekly'[i].weekStart == weekly'[j].weekStart)
  {
    var weekly' := weekly + [row];
    forall i, j | 0 <= i < j < |weekly'|
      ensures !(weekly'[i].locationId == weekly'[j].locationId && weekly'[i].weekStart == weekly'[j].weekStart)
    {
      if j == |weekly| {
        assert weekly'[i] in weekly;
      }
    }
  }

  /** After the append, ids are still increasing and below the next SERIAL values. */
  lemma CreateKeepsIds(weekly: seq<WeeklyRow>, daily: seq<DailyRow>, nextWeeklyId: int, nextDailyId: int, row: WeeklyRow)
    requires WeekTablesValid(weekly, daily, nextWeeklyId, nextDailyId)
    requires row.id == nextWeeklyId
    ensures var weekly', daily' := weekly + [row], daily + NewWeekRows(row.id, nextDailyId, row.weekStart);
      && (forall i, j :: 0 <= i < j < |weekly'| ==> weekly'[i].id < weekly'[j].id)
      && (forall w :: w in weekly' ==> w.id < nextWeeklyId + 1)
      && (forall i, j :: 0 <= i < j < |daily'| ==> daily'[i].id < daily'[j].id)
      && (forall d :: d in daily' ==> d.id < nextDailyId + 7 && d.weeklyDataId < nextWeeklyId + 1)
  {
    var added := NewWeekRows(row.id, nextDailyId, row.weekStart);
    var weekly', daily' := weekly + [row], daily + added;
    forall i, j | 0 <= i < j < |daily'|
      ensures daily'[i].id < daily'[j].id
    {
      if j >= |daily| {
        assert daily'[j] == added[j - |daily|];
        if i < |daily| {
          assert daily'[i] in daily;
        } else {
          assert daily'[i] == added[i - |daily|];
        }
      }
    }
    forall d | d in daily'
      ensures d.id < nextDailyId + 7 && d.weeklyDataId < nextWeeklyId + 1
    {
      if d !in daily {
        var k :| 0 <= k < |daily'| && daily'[k] == d;
        assert d == added[k - |daily|];
      }
    }
    forall i, j | 0 <= i < j < |weekly'|
      ensures weekly'[i].id < weekly'[j].id
    {
      if j == |weekly| {
        assert weekly'[i] in weekly;
      }
    }
  }

  /**
   * Creating a week that did not exist: the tables stay valid, the week is now the
   * first match of its (location, week start) and of its id, and its daily rows in
   * date order are the seven rows just inserted.
   */
  lemma CreatedWeek(weekly: seq<WeeklyRow>, daily: seq<DailyRow>, nextWeeklyId: int, nextDailyId: int, row: WeeklyRow)
    requires WeekTablesValid(weekly, daily, nextWeeklyId, nextDailyId)
    requires row.id == nextWeeklyId
    requires FindWeek(weekly, row.locationId, row.weekStart).None?
    ensures WeekTablesValid(weekly + [row], daily + NewWeekRows(row.id, nextDailyId, row.weekStart), nextWeeklyId + 1, nextDailyId + 7)
    ensures FindWeekById(weekly + [row], row.id) == Some(row)
    ensures FindWeek(weekly + [row], row.locationId, row.weekStart) == Some(row)
    ensures DailiesOf(daily + NewWeekRows(row.id, nextDailyId, row.weekStart), row.id) == NewWeekRows(row.id, nextDailyId, row.weekStart)
    ensures SortByDate(DailiesOf(daily + NewWeekRows(row.id, nextDailyId, row.weekStart), row.id))
         == NewWeekRows(row.id, nextDailyId, row.weekStart)
  {
    CreateKeepsShapes(weekly, daily, nextWeeklyId, nextDailyId, row);
    CreateKeepsIds(weekly, daily, nextWeeklyId, nextDailyId, row);
    CreateKeepsKeys(weekly, row);
    assert forall i :: 0 <= i < |weekly| ==> !WeeklyHasId(row.id)(weekly[i]) by {
      assert forall w :: w in weekly ==> w.id < row.id;
    }
    FilterNone(weekly, WeeklyHasId(row.id));
    FilterAppendOne(weekly, row, WeeklyHasId(row.id));
    FilterAppendOne(weekly, row, WeekKey(row.locationId, row.weekStart));
    var added := NewWeekRows(row.id, nextDailyId, row.weekStart);
    WeekPlanIsDateOrdered(added, row.weekStart);
    DateOrder();
    SortOfSorted(added, DateLe);
  }

  // ---------------------------------------------------------------- single-row updates

  /** UPDATE weekly_data SET weekly_sales_forecast = $2 WHERE id = $1 */
  function SetForecast(rows: seq<WeeklyRow>, id: int, forecast: real): (r: seq<WeeklyRow>)
    ensures |r| == |rows|
    ensures forall i :: 0 <= i < |rows| ==> r[i].(weeklySalesForecast := rows[i].weeklySalesForecast) == rows[i]
    ensures forall i :: 0 <= i < |rows| ==> r[i].weeklySalesForecast == if rows[i].id == id then forecast else rows[i].weeklySalesForecast
  {
    seq(|rows|, i requires 0 <= i < |rows| => if rows[i].id == id then rows[i].(weeklySalesForecast := forecast) else rows[i])
  }

  /** UPDATE daily_actuals SET actual_sales = $2, actual_purchasing = $3, updated_by = $4 WHERE id = $1 */
  function SetActuals(rows: seq<DailyRow>, id: int, sales: Option<real>, purchasing: Option<real>, userId: int): (r: seq<DailyRow>)
    ensures |r| == |rows|
    ensures forall i :: 0 <= i < |rows| ==>
      r[i].(actualSales := rows[i].actualSales, actualPurchasing := rows[i].actualPurchasing, updatedBy := rows[i].updatedBy) == rows[i]
    ensures forall i :: 0 <= i < |rows| && rows[i].id == id ==>
      r[i].actualSales == sales && r[i].actualPurchasing == purchasing && r[i].updatedBy == Some(userId)
    ensures forall i :: 0 <= i < |rows| && rows[i].id != id ==> r[i] == rows[i]
  {
    seq(|rows|, i requires 0 <= i < |rows| =>
      if rows[i].id == id then rows[i].(actualSales := sales, actualPurchasing := purchasing, updatedBy := Some(userId)) else rows[i])
  }

  /** An id that no row carries leaves the table as it was. */
  lemma SetForecastAbsentId(rows: seq<WeeklyRow>, id: int, forecast: real)
    requires forall w :: w in rows ==> w.id != id
    ensures SetForecast(rows, id, forecast) == rows
  {
  }

  lemma SetActualsAbsentId(rows: seq<DailyRow>, id: int, sales: Option<real>, purchasing: Option<real>, userId: int)
    requires forall d :: d in rows ==> d.id != id
    ensures SetActuals(rows, id, sales, purchasing, userId) == rows
  {
  }

  /** With distinct ids the update touches one row at most. */
  lemma SetActualsOneRow(rows: seq<DailyRow>, id: int, sales: Option<real>, purchasing: Option<real>, userId: int, i: int, j: int)
    requires forall a, b :: 0 <= a < b < |rows| ==> rows[a].id < rows[b].id
    requires 0 <= i < |rows| && 0 <= j < |rows| && i != j
    requires SetActuals(rows, id, sales, purchasing, userId)[i] != rows[i]
    ensures SetActuals(rows, id, sales, purchasing, userId)[j] == rows[j]
  {
  }

  lemma SetForecastOneRow(rows: seq<WeeklyRow>, id: int, forecast: real, i: int, j: int)
    requires forall a, b :: 0 <= a < b < |rows| ==> rows[a].id < rows[b].id
    requires 0 <= i < |rows| && 0 <= j < |rows| && i != j
    requires SetForecast(rows, id, forecast)[i] != rows[i]
    ensures SetForecast(rows, id, forecast)[j] == rows[j]
  {
  }

  /** Rows that agree on weekly id, day and date give every week the same shape. */
  lemma {:induction false} SameKeysSameShape(s: seq<DailyRow>, t: seq<DailyRow>, weeklyDataId: int)
    requires |s| == |t|
    requires forall i :: 0 <= i < |s| ==> s[i].weeklyDataId == t[i].weeklyDataId && s[i].dayOfWeek == t[i].dayOfWeek && s[i].date == t[i].date
    ensures Shape(DailiesOf(s, weeklyDataId)) == Shape(DailiesOf(t, weeklyDataId))
  {
    if s != [] {
      SameKeysSameShape(s[1..], t[1..], weeklyDataId);
      var a, b := DailiesOf(s[1..], weeklyDataId), DailiesOf(t[1..], weeklyDataId);
      assert s == [s[0]] + s[1..] && t == [t[0]] + t[1..];
      if s[0].weeklyDataId == weeklyDataId {
        assert DailiesOf(s, weeklyDataId) == [s[0]] + a;
        assert DailiesOf(t, weeklyDataId) == [t[0]] + b;
        assert |a| == |Shape(a)| == |Shape(b)| == |b|;
        forall k | 0 <= k < |a| + 1
          ensures Shape([s[0]] + a)[k] == Shape([t[0]] + b)[k]
        {
          if k > 0 {
            assert Shape(a)[k - 1] == Shape(b)[k - 1];
          }
        }
      }
    }
  }

  lemma SetActualsKeepsValid(weekly: seq<WeeklyRow>, daily: seq<DailyRow>, nextWeeklyId: int, nextDailyId: int,
                             id: int, sales: Option<real>, purchasing: Option<real>, userId: int)
    requires WeekTablesValid(weekly, daily, nextWeeklyId, nextDailyId)
    ensures WeekTablesValid(weekly, SetActuals(daily, id, sales, purchasing, userId), nextWeeklyId, nextDailyId)
  {
    var daily' := SetActuals(daily, id, sales, purchasing, userId);
    forall w | w in weekly
      ensures Shape(DailiesOf(daily', w.id)) == WeekPlan(w.weekStart)
    {
      SameKeysSameShape(daily, daily', w.id);
    }
    forall d | d in daily'
      ensures d.id < nextDailyId && d.weeklyDataId < nextWeeklyId
    {
      var k :| 0 <= k < |daily'| && daily'[k] == d;
      assert daily[k] in daily;
    }
  }

  lemma SetForecastKeepsValid(weekly: seq<WeeklyRow>, daily: seq<DailyRow>, nextWeeklyId: int, nextDailyId: int,
                              id: int, forecast: real)
    requires WeekTablesValid(weekly, daily, nextWeeklyId, nextDailyId)
    ensures WeekTablesValid(SetForecast(weekly, id, forecast), daily, nextWeeklyId, nextDailyId)
  {
    var weekly' := SetForecast(weekly, id, forecast);
    forall w | w in weekly'
      ensures w.id < nextWeeklyId && Shape(DailiesOf(daily, w.id)) == WeekPlan(w.weekStart)
    {
      var k :| 0 <= k < |weekly'| && weekly'[k] == w;
      assert weekly[k] in weekly;
    }
  }

  // ---------------------------------------------------------------- the store

  class Store {
    var users: seq<UserRow>
    var locations: seq<Location>
    var userLocations: seq<Grant>
    var salesDistribution: seq<DistributionRow>
    var purchasingDistribution: seq<DistributionRow>
    var vendorConfig: seq<VendorRow>
    var weeklyData: seq<WeeklyRow>
    var dailyActuals: seq<DailyRow>
    // the next values of the SERIAL ids of weekly_data and daily_actuals
    var nextWeeklyId: int
    var nextDailyId: int

    ghost predicate Valid()
      reads this
    {
      WeekTablesValid(weeklyData, dailyActuals, nextWeeklyId, nextDailyId)
    }

    /** A store with provisioned reference data and no weeks yet. */
    constructor (users: seq<UserRow>, locations: seq<Location>, userLocations: seq<Grant>,
                 salesDistribution: seq<DistributionRow>, purchasingDistribution: seq<DistributionRow>,
                 vendorConfig: seq<VendorRow>)
      ensures Valid()
      ensures this.users == users && this.locations == locations && this.userLocations == userLocations
      ensures this.salesDistribution == salesDistribution && this.purchasingDistribution == purchasingDistribution
      ensures this.vendorConfig == vendorConfig
      ensures weeklyData == [] && dailyActuals == [] && nextWeeklyId == 1 && nextDailyId == 1
    {
      this.users := users;
      this.locations := locations;
      this.userLocations := userLocations;
      this.salesDistribution := salesDistribution;
      this.purchasingDistribution := purchasingDistribution;
      this.vendorConfig := vendorConfig;
      weeklyData, dailyActuals := [], [];
      nextWeeklyId, nextDailyId := 1, 1;
    }

    /**
     * authenticateUser: the active user with that name, if any; the password is not looked
     * at. `queryFails` says the SELECT threw, which the function turns into a null answer.
     */
    function AuthenticateUser(username: string, password: string, queryFails: bool): (r: Option<User>)
      reads this
      ensures queryFails ==> r == None
      ensures r.Some? <==> !queryFails && exists u :: u in users && u.username == username && u.isActive
      ensures r.Some? ==> exists u :: u in users && u.username == username && u.isActive && Profile(u) == r.value
    {
      if queryFails then None
      else
        var rows := ActiveUsersNamed(users, username);
        if rows == [] then None
        else
          assert rows[0] in rows;
          Some(Profile(rows[0]))
    }

    lemma AuthenticateIgnoresPassword(username: string, password1: string, password2: string, queryFails: bool)
      ensures AuthenticateUser(username, password1, queryFails) == AuthenticateUser(username, password2, queryFails)
    {
    }

    /**
     * getUserLocations: the locations the user may view, ordered by name. `queryFails`
     * says the SELECT threw, which the function turns into an empty list.
     */
    function GetUserLocations(userId: int, queryFails: bool): (r: seq<Location>)
      reads this
      ensures queryFails ==> r == []
      ensures SortedBy(r, NameLe)
      ensures !queryFails ==> multiset(r) == multiset(ViewableJoin(userLocations, locations, userId))
      ensures !queryFails ==> forall l :: l in r <==> l in locations && exists g :: g in userLocations && ViewsLocation(g, userId, l.id)
    {
      if queryFails then []
      else
        NameOrder();
        var joined := ViewableJoin(userLocations, locations, userId);
        var r := Sort(joined, NameLe);
        assert forall l :: l in r <==> l in multiset(joined);
        assert forall l :: l in joined <==> l in locations && exists g :: g in userLocations && ViewsLocation(g, userId, l.id) by {
          forall l {
            ViewableJoinMembers(userLocations, locations, userId, l);
          }
        }
        r
    }

    /** getLocationDetails: the grant check first, then the location, its two distributions and its active vendors. */
    function GetLocationDetails(locationId: int, userId: int): (r: Result<LocationDetails, DbError>)
      reads this
      ensures r == Failure(AccessDenied) <==> !MayView(userLocations, userId, locationId)
      ensures r == Failure(LocationNotFound) <==> MayView(userLocations, userId, locationId) && FindLocation(locations, locationId).None?
      ensures r.Failure? ==> r.error != LocationMissing
      ensures r.Success? ==> r.value.location in locations && r.value.location.id == locationId
      ensures r.Success? ==> SortedBy(r.value.salesDistribution, RankLe)
      ensures r.Success? ==> multiset(r.value.salesDistribution) == multiset(DistributionOf(salesDistribution, locationId))
      ensures r.Success? ==> SortedBy(r.value.purchasingDistribution, RankLe)
      ensures r.Success? ==> multiset(r.value.purchasingDistribution) == multiset(DistributionOf(purchasingDistribution, locationId))
      ensures r.Success? ==> forall v :: v in r.value.vendors <==>
        exists row :: row in vendorConfig && row.locationId == locationId && row.isActive && VendorEntry(row.vendorName, row.percentage) == v
    {
      if !MayView(userLocations, userId, locationId) then Failure(AccessDenied)
      else
        var location := FindLocation(locations, locationId);
        if location.None? then Failure(LocationNotFound)
        else Success(LocationDetails(
          location.value,
          SortByRank(DistributionOf(salesDistribution, locationId)),
          SortByRank(DistributionOf(purchasingDistribution, locationId)),
          ActiveVendorsOf(vendorConfig, locationId)))
    }

    /**
     * getOrCreateWeeklyData: the week of (locationId, weekStart) with its daily rows in
     * date order; when there is none, one weekly row seeded from the location's target and
     * then, one per loop step, its seven daily rows are inserted first.
     */
    method GetOrCreateWeeklyData(locationId: int, weekStart: Date, userId: int) returns (r: Result<WeeklyView, DbError>)
      requires Valid()
      modifies this`weeklyData, this`dailyActuals, this`nextWeeklyId, this`nextDailyId
      ensures Valid()
      ensures r.Success? ==> FindWeek(weeklyData, locationId, weekStart) == Some(r.value.weekly)
      ensures r.Success? ==> r.value.dailyActuals == DailiesOf(dailyActuals, r.value.weekly.id)
      ensures r.Success? ==> Shape(r.value.dailyActuals) == WeekPlan(weekStart)
      ensures r.Failure? ==> r.error == LocationMissing
      // found: that row, and nothing is inserted
      ensures FindWeek(old(weeklyData), locationId, weekStart).Some? ==>
        && r == Success(WeeklyView(FindWeek(old(weeklyData), locationId, weekStart).value,
                                   DailiesOf(dailyActuals, FindWeek(old(weeklyData), locationId, weekStart).value.id)))
        && weeklyData == old(weeklyData) && dailyActuals == old(dailyActuals)
        && nextWeeklyId == old(nextWeeklyId) && nextDailyId == old(nextDailyId)
      // not found and no such location: the call fails before inserting anything
      ensures FindWeek(old(weeklyData), locationId, weekStart).None? && FindLocation(locations, locationId).None? ==>
        && r == Failure(LocationMissing)
        && weeklyData == old(weeklyData) && dailyActuals == old(dailyActuals)
        && nextWeeklyId == old(nextWeeklyId) && nextDailyId == old(nextDailyId)
      // not found: one weekly row, then seven daily rows
      ensures FindWeek(old(weeklyData), locationId, weekStart).None? && FindLocation(locations, locationId).Some? ==>
        && weeklyData == old(weeklyData) + [WeeklyRow(old(nextWeeklyId), locationId, weekStart,
                                                      FindLocation(locations, locationId).value.weeklySalesTarget, userId)]
        && dailyActuals == old(dailyActuals) + NewWeekRows(old(nextWeeklyId), old(nextDailyId), weekStart)
        && nextWeeklyId == old(nextWeeklyId) + 1 && nextDailyId == old(nextDailyId) + 7
        && r == Success(WeeklyView(weeklyData[|weeklyData| - 1], NewWeekRows(old(nextWeeklyId), old(nextDailyId), weekStart)))
    {
      var result := FindWeek(weeklyData, locationId, weekStart);
      if result.None? {
        var created := CreateWeek(locationId, weekStart, userId);
        if created.Failure? {
          return Failure(created.error);
        }
        result := Some(created.value);
      }
      var row := result.value;
      WeekRowsAlreadySorted(weeklyData, dailyActuals, nextWeeklyId, nextDailyId, row);
      r := Success(WeeklyView(row, SortByDate(DailiesOf(dailyActuals, row.id))));
    }

    /**
     * The creation branch of getOrCreateWeeklyData: read the location's weekly target,
     * insert the weekly row, insert its seven daily rows, and read the new row back by id.
     */
    method CreateWeek(locationId: int, weekStart: Date, userId: int) returns (r: Result<WeeklyRow, DbError>)
      requires Valid()
      requires FindWeek(weeklyData, locationId, weekStart).None?
      modifies this`weeklyData, this`dailyActuals, this`nextWeeklyId, this`nextDailyId
      ensures Valid()
      ensures FindLocation(locations, locationId).None? ==>
        && r == Failure(LocationMissing)
        && weeklyData == old(weeklyData) && dailyActuals == old(dailyActuals)
        && nextWeeklyId == old(nextWeeklyId) && nextDailyId == old(nextDailyId)
      ensures FindLocation(locations, locationId).Some? ==>
        && r == Success(WeeklyRow(old(nextWeeklyId), locationId, weekStart,
                                  FindLocation(locations, locationId).value.weeklySalesTarget, userId))
        && weeklyData == old(weeklyData) + [r.value]
        && dailyActuals == old(dailyActuals) + NewWeekRows(old(nextWeeklyId), old(nextDailyId), weekStart)
        && nextWeeklyId == old(nextWeeklyId) + 1 && nextDailyId == old(nextDailyId) + 7
      ensures r.Success? ==> FindWeek(weeklyData, locationId, weekStart) == Some(r.value)
      ensures r.Success? ==> SortByDate(DailiesOf(dailyActuals, r.value.id)) == NewWeekRows(old(nextWeeklyId), old(nextDailyId), weekStart)
    {
      var location := FindLocation(locations, locationId);
      if location.None? {
        return Failure(LocationMissing);
      }
      var weeklyDataId := nextWeeklyId;
      InsertWeek(WeeklyRow(weeklyDataId, locationId, weekStart, location.value.weeklySalesTarget, userId));
      var reread := FindWeekById(weeklyData, weeklyDataId);
      r := Success(reread.value);
    }

    /**
     * The two writes of the creation branch: the weekly row with the next SERIAL id,
     * then its seven daily rows. The tables stay valid, and the new row is the match
     * of its id and of its (location, week start).
     */
    method InsertWeek(inserted: WeeklyRow)
      requires Valid()
      requires inserted.id == nextWeeklyId
      requires FindWeek(weeklyData, inserted.locationId, inserted.weekStart).None?
      modifies this`weeklyData, this`dailyActuals, this`nextWeeklyId, this`nextDailyId
      ensures Valid()
      ensures weeklyData == old(weeklyData) + [inserted]
      ensures dailyActuals == old(dailyActuals) + NewWeekRows(inserted.id, old(nextDailyId), inserted.weekStart)
      ensures nextWeeklyId == old(nextWeeklyId) + 1 && nextDailyId == old(nextDailyId) + 7
      ensures FindWeekById(weeklyData, inserted.id) == Some(inserted)
      ensures FindWeek(weeklyData, inserted.locationId, inserted.weekStart) == Some(inserted)
      ensures SortByDate(DailiesOf(dailyActuals, inserted.id)) == NewWeekRows(inserted.id, old(nextDailyId), inserted.weekStart)
    {
      ghost var weekly0, daily0, firstDailyId := weeklyData, dailyActuals, nextDailyId;
      weeklyData := weeklyData + [inserted];
      nextWeeklyId := nextWeeklyId + 1;
      InsertWeekDays(inserted.id, inserted.weekStart);
      CreatedWeek(weekly0, daily0, inserted.id, firstDailyId, inserted);
    }

    /** The creation loop: inserts the daily row of day i, dated weekStart + i days, for i = 0 .. 6. */
    method InsertWeekDays(weeklyDataId: int, weekStart: Date)
      modifies this`dailyActuals, this`nextDailyId
      ensures dailyActuals == old(dailyActuals) + NewWeekRows(weeklyDataId, old(nextDailyId), weekStart)
      ensures nextDailyId == old(nextDailyId) + 7
    {
      ghost var plan := NewWeekRows(weeklyDataId, nextDailyId, weekStart);
      for i := 0 to 7
        invariant dailyActuals == old(dailyActuals) + plan[..i]
        invariant nextDailyId == old(nextDailyId) + i
      {
        assert plan[..i + 1] == plan[..i] + [plan[i]];
        dailyActuals := dailyActuals + [DailyRow(nextDailyId, weeklyDataId, Days[i], AddDays(weekStart, i), None, None, None)];
        nextDailyId := nextDailyId + 1;
      }
      assert plan[..7] == plan;
    }

    /** updateWeeklyForecast: overwrite the forecast of the row with that id; `userId` is not used. */
    method UpdateWeeklyForecast(weeklyDataId: int, forecast: real, userId: int)
      requires Valid()
      modifies this`weeklyData
      ensures Valid()
      ensures weeklyData == SetForecast(old(weeklyData), weeklyDataId, forecast)
    {
      SetForecastKeepsValid(weeklyData, dailyActuals, nextWeeklyId, nextDailyId, weeklyDataId, forecast);
      weeklyData := SetForecast(weeklyData, weeklyDataId, forecast);
    }

    /** updateDailyActual: overwrite both figures and the last writer of the row with that id. */
    method UpdateDailyActual(dailyActualId: int, actualSales: Option<real>, actualPurchasing: Option<real>, userId: int)
      requires Valid()
      modifies this`dailyActuals
      ensures Valid()
      ensures dailyActuals == SetActuals(old(dailyActuals), dailyActualId, actualSales, actualPurchasing, userId)
    {
      SetActualsKeepsValid(weeklyData, dailyActuals, nextWeeklyId, nextDailyId, dailyActualId, actualSales, actualPurchasing, userId);
      dailyActuals := SetActuals(dailyActuals, dailyActualId, actualSales, actualPurchasing, userId);
    }
  }

  /**
   * Bootstrapping the same week twice: the second call finds what the first created (or
   * fails as the first did), returns the same row and the same seven daily rows, and
   * inserts nothing: the two calls together leave the tables as one call does.
   */
  method GetOrCreateTwice(store: Store, locationId: int, weekStart: Date, user1: int, user2: int)
      returns (r1: Result<WeeklyView, DbError>, r2: Result<WeeklyView, DbError>)
    requires store.Valid()
    modifies store`weeklyData, store`dailyActuals, store`nextWeeklyId, store`nextDailyId
    ensures store.Valid()
    ensures r2 == r1
    ensures r1.Success? ==> |r1.value.dailyActuals| == 7 && Shape(r1.value.dailyActuals) == WeekPlan(weekStart)
    // the week existed, or its location does not: nothing changes
    ensures FindWeek(old(store.weeklyData), locationId, weekStart).Some? || FindLocation(store.locations, locationId).None? ==>
      && store.weeklyData == old(store.weeklyData) && store.dailyActuals == old(store.dailyActuals)
      && store.nextWeeklyId == old(store.nextWeeklyId) && store.nextDailyId == old(store.nextDailyId)
    // the week is created once: one weekly row and seven daily rows, not two sets
    ensures FindWeek(old(store.weeklyData), locationId, weekStart).None? && FindLocation(store.locations, locationId).Some? ==>
      && store.weeklyData == old(store.weeklyData) + [WeeklyRow(old(store.nextWeeklyId), locationId, weekStart,
                                                                FindLocation(store.locations, locationId).value.weeklySalesTarget, user1)]
      && store.dailyActuals == old(store.dailyActuals) + NewWeekRows(old(store.nextWeeklyId), old(store.nextDailyId), weekStart)
      && store.nextWeeklyId == old(store.nextWeeklyId) + 1 && store.nextDailyId == old(store.nextDailyId) + 7
  {
    r1 := store.GetOrCreateWeeklyData(locationId, weekStart, user1);
    r2 := store.GetOrCreateWeeklyData(locationId, weekStart, user2);
  }
}
