/** Which threads a plan settles and which it returns, in the fields of threads, rows, pull requests and settings. */
module AutoSettleLaws {
  import opened Common
  import opened Threads
  import opened ThreadTree
  import opened Lifecycle
  import opened AutoSettle

  // ---- one thread ----

  ghost predicate LastActiveBefore(t: Thread, at: int) { t.createdAt < at && t.updatedAt < at && t.latestAttentionAt < at }

  /** Quiet past the days set. */
  ghost predicate QuietPast(t: Thread, settings: Settings, now: int) {
    settings.settleQuietThreads && LastActiveBefore(t, now - settings.daysBeforeAutoSettle * 86_400_000)
  }

  /** A pull request that is over: closed, or merged where the settings say so. */
  ghost predicate IsOver(status: PullRequestStatus, settings: Settings) {
    status.Available? && (status.state.Closed? || (status.state == Merged && settings.settleMergedPullRequests))
  }

  /** Nothing is known against going by quiet: no open pull request, none that is over at an unknown time, no failed lookup. */
  ghost predicate QuietCounts(status: PullRequestStatus, settings: Settings) {
    && status != Unknown
    && (status.Available? ==> status.state != Open && status.state != Draft)
    && (IsOver(status, settings) ==> status.updatedAt.Some?)
  }

  ghost predicate HasCause(t: Thread, status: PullRequestStatus, settings: Settings, now: int) {
    || (IsOver(status, settings) && status.updatedAt.Some? && LastActiveBefore(t, status.updatedAt.value))
    || (QuietCounts(status, settings) && QuietPast(t, settings, now))
  }

  /** The user has not settled it, made it active or left a settle waiting on it. */
  ghost predicate NotTheUsers(row: Option<Row>) {
    row.Some? ==> row.value.settledKind != Some(Manual) && !row.value.activeOverride && row.value.waitingSettleAt.None?
  }

  /** Neither pinned, at work, parked nor snoozed. */
  ghost predicate IsFree(t: Thread, row: Option<Row>) {
    t.pinnedAt.None? && AtRest(t) && (row.Some? ==> row.value.parkedAt.None? && row.value.snoozeUntil.None?)
  }

  /** Settled, with no attention since but what is held. */
  ghost predicate OnShelf(row: Option<Row>, t: Thread) {
    && row.Some? && row.value.settledAt.Some?
    && (t.latestAttentionAt <= row.value.settledAt.value
        || (row.value.heldAttentionAt.Some? && t.latestAttentionAt <= row.value.heldAttentionAt.value))
  }

  ghost predicate OnShelfByAuto(row: Option<Row>, t: Thread) { OnShelf(row, t) && row.value.settledKind == Some(Auto) }

  lemma StaleIsOff(row: Option<Row>, t: Thread)
    requires row.Some? ==> RowOk(row.value)
    ensures OnShelf(row, t) <==> row.Some? && row.value.settledAt.Some? && Stale(row, t.latestAttentionAt).None?
  {
  }

  lemma DecidesToSettle(t: Thread, row: Option<Row>, status: PullRequestStatus, settings: Settings, now: int)
    requires row.Some? ==> RowOk(row.value)
    ensures Decide(t, row, status, settings, now) == Settle <==>
      NotTheUsers(row) && IsFree(t, row) && !OnShelfByAuto(row, t) && HasCause(t, status, settings, now)
  {
    StaleIsOff(row, t);
  }

  /** Reasons of its own to give an automatic settle back. */
  ghost predicate IsDue(t: Thread, row: Option<Row>, status: PullRequestStatus, settings: Settings, now: int) {
    || !IsFree(t, row)
    || (&& status != Unknown && status != NoLookup && !HasCause(t, status, settings, now)
        && (IsOver(status, settings) ==> status.updatedAt.Some?))
  }

  lemma DecidesToReturn(t: Thread, row: Option<Row>, status: PullRequestStatus, settings: Settings, now: int)
    requires row.Some? ==> RowOk(row.value)
    ensures Decide(t, row, status, settings, now) == Unsettle <==>
      NotTheUsers(row) && OnShelfByAuto(row, t) && IsDue(t, row, status, settings, now)
  {
    StaleIsOff(row, t);
  }

  // ---- a plan ----

  ghost predicate GivenStatus(input: Input, t: Thread, status: PullRequestStatus) {
    match t.environmentId
    case None => status == Absent
    case Some(e) => status == if e in input.pullRequests then input.pullRequests[e] else Unknown
  }

  /** A listed thread that does not hold up the settle of one above it: a helper at rest, or a thread that is or will be settled. */
  ghost predicate IsOutOfTheWay(input: Input, settle: set<string>, unsettle: set<string>, t: Thread) {
    if t.hidden then AtRest(t)
    else t.id in settle || (OnShelf(Get(input.rows, t.id), t) && t.id !in unsettle)
  }

  ghost predicate TreeOutOfTheWay(input: Input, settle: set<string>, unsettle: set<string>, id: string) {
    forall t :: t in input.threads && Below(input.threads, id, t.id) ==> IsOutOfTheWay(input, settle, unsettle, t)
  }

  lemma WholeIsOutOfTheWay(input: Input, id: string)
    requires UniqueIds(input.threads) && RowsOk(input.rows)
    ensures var start := StartOf(input);
      WholeTree(input.threads, Standing(start), id) <==> TreeOutOfTheWay(input, PlanSettle(start), PlanUnsettle(start), id)
  {
    var start := StartOf(input);
    StartIsApart(input);
    StandingIsCounted(start);
    ByIdFinds(input.threads);
    forall t | t in input.threads
      ensures Fine(input.threads, Standing(start), t.id) <==> IsOutOfTheWay(input, PlanSettle(start), PlanUnsettle(start), t)
    {
      FineIsOutOfTheWay(input, t);
    }
    forall d | Below(input.threads, id, d) ensures exists t :: t in input.threads && t.id == d {
      BelowIsListed(input.threads, id, d);
    }
  }

  lemma FineIsOutOfTheWay(input: Input, t: Thread)
    requires UniqueIds(input.threads) && RowsOk(input.rows) && t in input.threads
    ensures var start := StartOf(input);
      Fine(input.threads, Standing(start), t.id) <==> IsOutOfTheWay(input, PlanSettle(start), PlanUnsettle(start), t)
  {
    ByIdFinds(input.threads);
    SettledOnShelf(input, t);
    StandsIff(input, t);
  }

  lemma StandsIff(input: Input, t: Thread)
    requires UniqueIds(input.threads) && RowsOk(input.rows) && t in input.threads
    ensures var start := StartOf(input);
      t.id in Standing(start) <==> t.id in PlanSettle(start) || (IsSettled(input, t) && t.id !in PlanUnsettle(start))
  {
    var start := StartOf(input);
    StartIsApart(input);
    StandingIsCounted(start);
    StartSorts(input, t);
  }

  lemma SettledOnShelf(input: Input, t: Thread)
    requires RowsOk(input.rows) && t in input.threads
    ensures !t.hidden ==> (IsSettled(input, t) <==> OnShelf(Get(input.rows, t.id), t))
  {
    if t.id in input.rows { assert RowOk(input.rows[t.id]); }
    StaleIsOff(Get(input.rows, t.id), t);
  }

  /** What is to settle stands exactly when its whole tree does. */
  lemma StandsIffWhole(start: Start, id: string)
    requires id in start.toSettle
    ensures id in Standing(start) <==> WholeTree(start.threads, Standing(start), id)
  {
    StandingIsGreatest(start);
    if WholeTree(start.threads, Standing(start), id) {
      StandsWithTree(start, id);
    }
  }

  /**
   * A plan settles a thread exactly when it is visible and not held back, the
   * user has set nothing on it, it is neither pinned, at work, parked nor
   * snoozed, not settled already, has a cause, and every thread below it is
   * out of the way. An open or draft pull request leaves no cause.
   */
  lemma PlanSettlesIff(input: Input, t: Thread, status: PullRequestStatus)
    requires UniqueIds(input.threads) && RowsOk(input.rows) && t in input.threads && GivenStatus(input, t, status)
    ensures var start := StartOf(input);
      var row := Get(input.rows, t.id);
      t.id in PlanSettle(start) <==>
        && !t.hidden && t.id !in input.heldBack
        && NotTheUsers(row) && IsFree(t, row) && !OnShelfByAuto(row, t) && HasCause(t, status, input.settings, input.now)
        && TreeOutOfTheWay(input, PlanSettle(start), PlanUnsettle(start), t.id)
  {
    StartSorts(input, t);
    if t.id in input.rows { assert RowOk(input.rows[t.id]); }
    DecidesToSettle(t, Get(input.rows, t.id), status, input.settings, input.now);
    WholeIsOutOfTheWay(input, t.id);
    if t.id in StartOf(input).toSettle { StandsIffWhole(StartOf(input), t.id); }
  }

  /**
   * A plan returns a thread exactly when it is visible, was settled by
   * auto-settle with no attention since, has nothing of the user's on it, and
   * either is due for itself or some thread below it is in the way.
   */
  lemma PlanReturnsIff(input: Input, t: Thread, status: PullRequestStatus)
    requires UniqueIds(input.threads) && RowsOk(input.rows) && t in input.threads && GivenStatus(input, t, status)
    ensures var start := StartOf(input);
      var row := Get(input.rows, t.id);
      t.id in PlanUnsettle(start) <==>
        && !t.hidden && NotTheUsers(row) && OnShelfByAuto(row, t)
        && (IsDue(t, row, status, input.settings, input.now) || !TreeOutOfTheWay(input, PlanSettle(start), PlanUnsettle(start), t.id))
  {
    var start := StartOf(input);
    StartSorts(input, t);
    StartIsApart(input);
    if t.id in input.rows { assert RowOk(input.rows[t.id]); }
    StaleIsOff(Get(input.rows, t.id), t);
    DecidesToReturn(t, Get(input.rows, t.id), status, input.settings, input.now);
    WholeIsOutOfTheWay(input, t.id);
    if t.id in start.returnable - start.toUnsettle { ReturnableStandsIffWhole(start, t.id); }
  }

  lemma ReturnableStandsIffWhole(start: Start, id: string)
    requires Apart(start) && id in start.returnable - start.toUnsettle
    ensures id in Standing(start) <==> WholeTree(start.threads, Standing(start), id)
  {
    StandingIsGreatest(start);
    if WholeTree(start.threads, Standing(start), id) {
      StandsWithTree(start, id);
    }
  }

  /** An open or draft pull request keeps a thread out of the settle list, and brings a free thread settled by auto-settle back. */
  lemma OpenRequestBlocks(input: Input, t: Thread, status: PullRequestStatus)
    requires UniqueIds(input.threads) && RowsOk(input.rows) && t in input.threads && GivenStatus(input, t, status)
    requires status.Available? && (status.state == Open || status.state == Draft)
    ensures t.id !in PlanSettle(StartOf(input))
    ensures !t.hidden && NotTheUsers(Get(input.rows, t.id)) && OnShelfByAuto(Get(input.rows, t.id), t) ==> t.id in PlanUnsettle(StartOf(input))
  {
    PlanSettlesIff(input, t, status);
    PlanReturnsIff(input, t, status);
  }

  /** The planner walks below no thread that its own decision returns already. */
  lemma ReturnedAreNotWalked(input: Input, t: Thread)
    requires UniqueIds(input.threads) && RowsOk(input.rows) && t in input.threads && t.id in StartOf(input).toUnsettle
    ensures t.id !in Withdrawable(StartOf(input))
  {
    StartIsApart(input);
  }

  // ---- what a pass writes ----

  /** A thread the plan settles has an automatic settle of that time and nothing else, one it returns has no row, and no other row moves. */
  lemma PassWrites(input: Input, settle: set<string>, unsettle: set<string>, id: string)
    requires settle !! unsettle
    ensures var after := Get(RowsAfter(input, settle, unsettle), id);
      && (id in settle ==> after == Some(Row(Some(input.now), Some(Auto), None, None, None, false, None, None)))
      && (id in unsettle ==> after == None)
      && (id !in settle && id !in unsettle ==> after == Get(input.rows, id))
  {
  }
}
