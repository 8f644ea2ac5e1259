// The XP aggregation of the data-connect queries: the three item tables are
// filtered to the user's completed days by the query, each category is summed
// with missing or zero xp counting as nothing, and the total is the sum of the
// three categories. The query engine is modelled as a filter over stored rows.
module XpQueries {
  import opened Wrappers
  import DataTypes

  /** An XP-carrying item as stored: the owner of its plan, the status of its day, and its xp (null when unset). */
  datatype XpRow = XpRow(ownerUid: string, dayStatus: DataTypes.CompletionStatus, xp: Option<int>)

  /** The three item tables the XP queries read. */
  datatype XpTables = XpTables(mainContentItems: seq<XpRow>, actionTaskItems: seq<XpRow>, contentBlockItems: seq<XpRow>)

  datatype UserXPBreakdown = UserXPBreakdown(mainContent: int, actionTasks: int, exercises: int, total: int)

  /** The rows the query's `where` clause keeps: the user's, on a day whose status is COMPLETED, in stored order. */
  function Selected(rows: seq<XpRow>, uid: string): (r: seq<XpRow>)
    ensures forall x :: x in r ==> x in rows && x.ownerUid == uid && x.dayStatus == DataTypes.Completed
    ensures forall x :: x in rows && x.ownerUid == uid && x.dayStatus == DataTypes.Completed ==> x in r
    ensures |r| <= |rows|
  {
    if |rows| == 0 then []
    else if rows[0].ownerUid == uid && rows[0].dayStatus == DataTypes.Completed then [rows[0]] + Selected(rows[1..], uid)
    else Selected(rows[1..], uid)
  }

  /** `item.xp || 0`: a null, undefined or zero xp adds nothing. */
  function ItemXP(row: XpRow): int
  {
    row.xp.GetOr(0)
  }

  /** The `reduce` over one category, front to back from 0. */
  function SumXP(rows: seq<XpRow>): int
  {
    if |rows| == 0 then 0 else ItemXP(rows[0]) + SumXP(rows[1..])
  }

  lemma {:induction false} SumXPAppend(a: seq<XpRow>, b: seq<XpRow>)
    ensures SumXP(a + b) == SumXP(a) + SumXP(b)
    decreases |a|
  {
    if |a| == 0 {
      assert a + b == b;
    } else {
      assert (a + b)[1..] == a[1..] + b;
      SumXPAppend(a[1..], b);
    }
  }

  /** The breakdown built from the three query results (a missing list counts as 0). */
  function Breakdown(main: Option<seq<XpRow>>, action: Option<seq<XpRow>>, blocks: Option<seq<XpRow>>): (b: UserXPBreakdown)
    ensures b.total == b.mainContent + b.actionTasks + b.exercises
    ensures main.None? ==> b.mainContent == 0
    ensures action.None? ==> b.actionTasks == 0
    ensures blocks.None? ==> b.exercises == 0
  {
    var m := if main.Some? then SumXP(main.value) else 0;
    var a := if action.Some? then SumXP(action.value) else 0;
    var e := if blocks.Some? then SumXP(blocks.value) else 0;
    UserXPBreakdown(m, a, e, m + a + e)
  }

  /** `calculateUserXP`: the breakdown over the user's completed items. */
  function CalculateUserXP(tables: XpTables, uid: string): (b: UserXPBreakdown)
    ensures b.mainContent == SumXP(Selected(tables.mainContentItems, uid))
    ensures b.actionTasks == SumXP(Selected(tables.actionTaskItems, uid))
    ensures b.exercises == SumXP(Selected(tables.contentBlockItems, uid))
    ensures b.total == b.mainContent + b.actionTasks + b.exercises
  {
    Breakdown(Some(Selected(tables.mainContentItems, uid)), Some(Selected(tables.actionTaskItems, uid)),
              Some(Selected(tables.contentBlockItems, uid)))
  }

  /** `getUserXPBreakdown` sends the same query and folds it the same way. */
  function GetUserXPBreakdown(tables: XpTables, uid: string): (b: UserXPBreakdown)
    ensures b == CalculateUserXP(tables, uid)
  {
    CalculateUserXP(tables, uid)
  }

  /** Rows of other users, or on days not completed, never count. */
  lemma {:induction false} SelectedIgnoresOthers(rows: seq<XpRow>, extra: XpRow, uid: string)
    requires extra.ownerUid != uid || extra.dayStatus != DataTypes.Completed
    ensures SumXP(Selected(rows + [extra], uid)) == SumXP(Selected(rows, uid))
    decreases |rows|
  {
    if |rows| == 0 {
      assert rows + [extra] == [extra];
      assert [extra][1..] == [];
    } else {
      assert (rows + [extra])[1..] == rows[1..] + [extra];
      SelectedIgnoresOthers(rows[1..], extra, uid);
    }
  }

  /** A user with no completed item anywhere has a total of 0. */
  lemma {:induction false} NoCompletedNoXP(tables: XpTables, uid: string)
    requires forall x :: x in tables.mainContentItems + tables.actionTaskItems + tables.contentBlockItems ==>
               x.ownerUid != uid || x.dayStatus != DataTypes.Completed
    ensures CalculateUserXP(tables, uid).total == 0
  {
    NothingSelected(tables.mainContentItems, uid);
    NothingSelected(tables.actionTaskItems, uid);
    NothingSelected(tables.contentBlockItems, uid);
  }

  lemma {:induction false} NothingSelected(rows: seq<XpRow>, uid: string)
    requires forall x :: x in rows ==> x.ownerUid != uid || x.dayStatus != DataTypes.Completed
    ensures Selected(rows, uid) == []
    decreases |rows|
  {
    if |rows| > 0 {
      assert rows[0] in rows;
      assert forall x :: x in rows[1..] ==> x in rows;
      NothingSelected(rows[1..], uid);
    }
  }

  /** With non-negative stored xp every category, and so the total, is non-negative. */
  lemma {:induction false} SumXPNonNegative(rows: seq<XpRow>)
    requires forall x :: x in rows ==> x.xp.GetOr(0) >= 0
    ensures SumXP(rows) >= 0
    decreases |rows|
  {
    if |rows| > 0 {
      assert rows[0] in rows;
      assert forall x :: x in rows[1..] ==> x in rows;
      SumXPNonNegative(rows[1..]);
    }
  }

  /** A user's streak record as the query returns it; every field may be null. */
  datatype StreakData = StreakData(currentStreak: Option<int>, longestStreak: Option<int>, lastContributionDate: Option<string>)

  /** An active enrollment as the progress query returns it. */
  datatype ActiveEnrollment = ActiveEnrollment(id: string, status: string, enrollmentDate: string,
                                               planId: string, skillName: string, totalDurationWeeks: int)

  datatype UserProgress = UserProgress(enrollments: seq<ActiveEnrollment>, streakData: Option<StreakData>)

  /** `getUserProgress`: null enrollments become [] and a null streak stays null. */
  function GetUserProgress(enrollments: Option<seq<ActiveEnrollment>>, streakData: Option<StreakData>): (r: UserProgress)
    ensures enrollments.None? ==> r.enrollments == []
    ensures enrollments.Some? ==> r.enrollments == enrollments.value
    ensures r.streakData == streakData
  {
    UserProgress(enrollments.GetOr([]), streakData)
  }
}
