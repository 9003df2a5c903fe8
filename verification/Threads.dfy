/**
 * bb's threads as a plugin sees them: what is in flight, when one is busy, and
 * which of a listing are visible. A listing is a sequence; the contracts that
 * need one thread for each id say so. Whether a thread is busy is one
 * expression over what bb reports of it, used alike by the actions, the
 * planner and the shelves.
 */
module Threads {
  import opened Common

  /** The execution statuses the rules name; bb adds others over time. */
  datatype ExecutionStatus = Pending | Starting | Active | Stopping | OtherStatus(name: string)

  /** The runtime display statuses the rules name. */
  datatype RuntimeStatus = Provisioning | RuntimeStarting | RuntimeActive | OtherRuntime(name: string)

  datatype QueuedWork = NothingQueued | WaitingToSend | FailedToSend

  /** Live work counts; all zero means nothing is running. */
  datatype Activity = Activity(workflows: int, backgroundAgents: int, backgroundCommands: int, planMode: int, goals: int)

  /** A listed thread. It is pinned exactly when it has a pin time. */
  datatype Thread = Thread(
    id: string,
    parentThreadId: Option<string>,
    environmentId: Option<string>,
    hidden: bool,
    pinnedAt: Option<int>,
    hasPendingInteraction: bool,
    queuedWork: QueuedWork,
    status: ExecutionStatus,
    runtimeStatus: RuntimeStatus,
    activity: Activity,
    createdAt: int,
    updatedAt: int,
    latestAttentionAt: int)

  predicate IsPinned(thread: Thread) { thread.pinnedAt.Some? }

  predicate PinnedAfter(thread: Thread, at: int) { thread.pinnedAt.Some? && thread.pinnedAt.value > at }

  predicate IsTurnInFlight(thread: Thread) {
    thread.status.Starting? || thread.status.Active? || thread.status.Stopping?
  }

  predicate HasActivity(activity: Activity) {
    || activity.workflows > 0
    || activity.backgroundAgents > 0
    || activity.backgroundCommands > 0
    || activity.planMode > 0
    || activity.goals > 0
  }

  predicate IsWorking(thread: Thread) {
    || IsTurnInFlight(thread)
    || thread.runtimeStatus.Provisioning? || thread.runtimeStatus.RuntimeStarting? || thread.runtimeStatus.RuntimeActive?
    || HasActivity(thread.activity)
  }

  predicate HasQueuedMessage(thread: Thread) { thread.queuedWork.WaitingToSend? || thread.queuedWork.FailedToSend? }

  /** A pending question or approval, a queued or failed message, or work. */
  predicate IsBusy(thread: Thread) {
    thread.hasPendingInteraction || HasQueuedMessage(thread) || IsWorking(thread)
  }

  /** In bb's own terms: nothing is asked of the user, queued, in flight, starting up or counted as running. */
  ghost predicate AtRest(t: Thread) {
    && !t.hasPendingInteraction && t.queuedWork == NothingQueued
    && t.status != Starting && t.status != Active && t.status != Stopping
    && t.runtimeStatus != Provisioning && t.runtimeStatus != RuntimeStarting && t.runtimeStatus != RuntimeActive
    && t.activity.workflows <= 0 && t.activity.backgroundAgents <= 0 && t.activity.backgroundCommands <= 0
    && t.activity.planMode <= 0 && t.activity.goals <= 0
  }

  predicate AnyBusy(threads: seq<Thread>) { exists t :: t in threads && IsBusy(t) }

  /** The latest of created, updated and latest attention. */
  function LastActivityAt(thread: Thread): int {
    Max(Max(thread.createdAt, thread.updatedAt), thread.latestAttentionAt)
  }

  function Ids(threads: seq<Thread>): set<string> {
    set t | t in threads :: t.id
  }

  function IdsOf(threads: seq<Thread>): seq<string> {
    seq(|threads|, i requires 0 <= i < |threads| => threads[i].id)
  }

  /** bb's listing is keyed by id, so it names each thread once. */
  predicate UniqueIds(threads: seq<Thread>) {
    forall i, j :: 0 <= i < j < |threads| ==> threads[i].id != threads[j].id
  }

  /** The threads a user can answer for. */
  function Visible(listing: seq<Thread>): seq<Thread> {
    if listing == [] then []
    else
      var last := listing[|listing| - 1];
      Visible(listing[..|listing| - 1]) + if last.hidden then [] else [last]
  }

  lemma {:induction false} VisibleIs(listing: seq<Thread>)
    ensures forall t :: t in Visible(listing) <==> t in listing && !t.hidden
    ensures UniqueIds(listing) ==> UniqueIds(Visible(listing))
  {
    if listing != [] {
      var rest, last := listing[..|listing| - 1], listing[|listing| - 1];
      VisibleIs(rest);
      assert listing == rest + [last];
      var before := Visible(rest);
      assert forall i :: 0 <= i < |before| ==> before[i] in before;
    }
  }

  /** The listing by id; a later thread replaces an earlier one. */
  function ById(threads: seq<Thread>): (byId: map<string, Thread>)
    ensures forall id :: id in byId <==> exists i :: 0 <= i < |threads| && threads[i].id == id
    ensures forall id :: id in byId ==> byId[id] in threads && byId[id].id == id
  {
    if threads == [] then map[]
    else
      var last := threads[|threads| - 1];
      var rest := threads[..|threads| - 1];
      assert forall i :: 0 <= i < |rest| ==> rest[i] == threads[i];
      ById(rest)[last.id := last]
  }

  lemma ByIdFinds(threads: seq<Thread>)
    requires UniqueIds(threads)
    ensures forall i :: 0 <= i < |threads| ==> threads[i].id in ById(threads) && ById(threads)[threads[i].id] == threads[i]
    ensures ById(threads).Keys == Ids(threads)
  {
    var byId := ById(threads);
    forall i | 0 <= i < |threads|
      ensures threads[i].id in byId && byId[threads[i].id] == threads[i]
    {
      var found := byId[threads[i].id];
      var j :| 0 <= j < |threads| && threads[j] == found;
      assert i == j || i < j || j < i;
    }
    assert forall id :: id in Ids(threads) ==> id in byId;
    assert forall id :: id in byId ==> byId[id].id in Ids(threads);
  }
}
