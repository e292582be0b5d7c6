/**
 * The browser application: the feed, the stats bar, the upload drawer and the processing record
 * that the upload flow advances. Every asynchronous continuation of the flow (a reply, a timer, an
 * interval tick) is one method of `AppState`, which the environment may call in any order as long
 * as the continuation is pending.
 */
module App {
  import opened Wrappers
  import opened FeedTypes
  import opened Gateway

  const PROGRESS_STEP: int := 10
  const PROGRESS_CAP: int := 90
  const PROGRESS_DONE: int := 100
  const MAX_ATTEMPTS: nat := 60

  /** The record the upload drawer renders. */
  datatype ProcessingState = ProcessingState(
    isProcessing: bool,
    step: int,
    uploadProgress: int,
    finalStatus: Option<string>,
    reason: Option<string>)

  /** The record before any upload, and after the drawer's reset timer fires. */
  const INITIAL: ProcessingState := ProcessingState(false, 1, 0, None, None)

  /** The well-formed processing records: steps 1 to 5, progress a multiple of 10 up to 100. */
  predicate ProcessingValid(p: ProcessingState)
  {
    && 1 <= p.step <= 5
    && 0 <= p.uploadProgress <= PROGRESS_DONE
    && p.uploadProgress % PROGRESS_STEP == 0
    && (p.finalStatus.None? || IsTerminal(p.finalStatus))
  }

  // ---------------------------------------------------------------------------------------
  // The state updaters: each is one `prev => next` function of the upload flow.
  // ---------------------------------------------------------------------------------------

  /** Starting an upload: processing, step 1, no progress; the last verdict is kept. */
  function Begin(p: ProcessingState): ProcessingState
  {
    p.(isProcessing := true, step := 1, uploadProgress := 0)
  }

  /** One tick of the simulated progress bar: +10 while below 90, else nothing. */
  function Tick(p: ProcessingState): ProcessingState
  {
    if p.uploadProgress >= PROGRESS_CAP then p else p.(uploadProgress := p.uploadProgress + PROGRESS_STEP)
  }

  /** The transfer finished: the bar is full and the flow is at step 2. */
  function TransferDone(p: ProcessingState): ProcessingState
  {
    p.(uploadProgress := PROGRESS_DONE, step := 2)
  }

  /** The cosmetic step-3 or step-4 timer: moves to `target` unless a verdict is recorded. */
  function StepTimer(p: ProcessingState, target: int): ProcessingState
  {
    if Truthy(p.finalStatus) then p else p.(step := target)
  }

  /** A terminal status arrived: step 5 with the reported verdict. */
  function Resolve(p: ProcessingState, item: FeedItem): ProcessingState
  {
    p.(step := 5, finalStatus := item.status, reason := item.reason)
  }

  /** The slot request or the transfer failed: processing stops, nothing else moves. */
  function Fail(p: ProcessingState): ProcessingState
  {
    p.(isProcessing := false)
  }

  /** `n` progress ticks in a row. */
  function Ticks(p: ProcessingState, n: nat): ProcessingState
  {
    if n == 0 then p else Tick(Ticks(p, n - 1))
  }

  /** The step timers in `targets`, fired in that order. */
  function StepTimers(p: ProcessingState, targets: seq<int>): ProcessingState
    decreases |targets|
  {
    if targets == [] then p else StepTimers(StepTimer(p, targets[0]), targets[1..])
  }

  function Min(a: int, b: int): int
  {
    if a <= b then a else b
  }

  /** A tick adds exactly 10 below the cap and leaves the record unchanged at or above it. */
  lemma TickCapped(p: ProcessingState)
    ensures p.uploadProgress < PROGRESS_CAP ==> Tick(p) == p.(uploadProgress := p.uploadProgress + PROGRESS_STEP)
    ensures p.uploadProgress >= PROGRESS_CAP ==> Tick(p) == p
    ensures Tick(p).uploadProgress >= p.uploadProgress
  {
  }

  /** From an empty bar, `n` ticks show min(10n, 90): non-decreasing and never above 90. */
  lemma {:induction false} TicksFromZero(p: ProcessingState, n: nat)
    requires p.uploadProgress == 0
    ensures Ticks(p, n).uploadProgress == Min(PROGRESS_STEP * n, PROGRESS_CAP)
    ensures Ticks(p, n) == p.(uploadProgress := Min(PROGRESS_STEP * n, PROGRESS_CAP))
  {
    if n > 0 {
      TicksFromZero(p, n - 1);
    }
  }

  /** Ticking never lowers the bar: more ticks show at least as much. */
  lemma {:induction false} TicksMonotone(p: ProcessingState, m: nat, n: nat)
    requires m <= n
    ensures Ticks(p, m).uploadProgress <= Ticks(p, n).uploadProgress
    decreases n
  {
    if m < n {
      TicksMonotone(p, m, n - 1);
    }
  }

  /** Once a verdict is recorded, any number of late step timers change nothing. */
  lemma {:induction false} LateTimersIgnored(p: ProcessingState, targets: seq<int>)
    requires Truthy(p.finalStatus)
    ensures StepTimers(p, targets) == p
    decreases |targets|
  {
    if targets != [] {
      LateTimersIgnored(StepTimer(p, targets[0]), targets[1..]);
    }
  }

  /** With no verdict recorded, the last of the timers decides the step and nothing else moves. */
  lemma {:induction false} TimersWithoutVerdict(p: ProcessingState, targets: seq<int>)
    requires !Truthy(p.finalStatus) && targets != []
    ensures StepTimers(p, targets) == p.(step := targets[|targets| - 1])
    decreases |targets|
  {
    if |targets| > 1 {
      TimersWithoutVerdict(StepTimer(p, targets[0]), targets[1..]);
    }
  }

  /** A terminal verdict stays at step 5 whatever timers fire afterwards. */
  lemma ResolvedStaysAtFive(p: ProcessingState, item: FeedItem, targets: seq<int>)
    requires IsTerminal(item.status)
    ensures StepTimers(Resolve(p, item), targets) == Resolve(p, item)
    ensures StepTimers(Resolve(p, item), targets).step == 5
  {
    LateTimersIgnored(Resolve(p, item), targets);
  }

  /**
   * Starting a new upload keeps the previous verdict, so unless the drawer's reset ran in
   * between, the new upload's step-3 and step-4 timers are ignored and the tracker stays at 2.
   */
  lemma StaleVerdictFreezesSteps(p: ProcessingState)
    requires Truthy(p.finalStatus)
    ensures StepTimers(TransferDone(Begin(p)), [3, 4]).step == 2
  {
    LateTimersIgnored(TransferDone(Begin(p)), [3, 4]);
  }

  /** A failure turns processing off and keeps the step, the bar and the verdict. */
  lemma FailOnlyStopsProcessing(p: ProcessingState)
    ensures !Fail(p).isProcessing
    ensures Fail(p).(isProcessing := p.isProcessing) == p
  {
  }

  /** Every updater keeps the record well-formed. */
  lemma UpdatersPreserveValid(p: ProcessingState, item: FeedItem, target: int)
    requires ProcessingValid(p)
    ensures ProcessingValid(Begin(p)) && ProcessingValid(Tick(p)) && ProcessingValid(TransferDone(p))
    ensures ProcessingValid(Fail(p)) && ProcessingValid(INITIAL)
    ensures 1 <= target <= 5 ==> ProcessingValid(StepTimer(p, target))
    ensures IsTerminal(item.status) ==> ProcessingValid(Resolve(p, item))
  {
  }

  // ---------------------------------------------------------------------------------------
  // The bounded status poll.
  // ---------------------------------------------------------------------------------------

  /** What one poll attempt decides. */
  datatype PollDecision = Resolved(item: FeedItem) | TimedOut | KeepPolling

  /**
   * One attempt, numbered `attempts` (already incremented): a thrown lookup keeps polling and
   * skips the cap; a terminal status resolves; otherwise the cap of 60 ends the poll.
   */
  function Decide(attempts: nat, reply: Result<StatusReply>): (d: PollDecision)
    ensures d.Resolved? <==> reply.Success? && reply.value.Reported? && IsTerminal(reply.value.item.status)
    ensures d.Resolved? ==> d.item == reply.value.item
    ensures d.TimedOut? <==> reply.Success? && !d.Resolved? && attempts >= MAX_ATTEMPTS
  {
    if reply.Failure? then KeepPolling
    else if reply.value.Reported? && Truthy(reply.value.item.status) && IsTerminal(reply.value.item.status) then
      Resolved(reply.value.item)
    else if attempts >= MAX_ATTEMPTS then TimedOut
    else KeepPolling
  }

  /** A poll that ended, and the number of attempts it took; `KeepPolling` if replies ran out. */
  datatype PollRun = PollRun(decision: PollDecision, attempts: nat)

  /** Feeding the replies in order to a poll that has made `attempts` attempts so far. */
  function RunPoll(attempts: nat, replies: seq<Result<StatusReply>>): PollRun
    decreases |replies|
  {
    if replies == [] then PollRun(KeepPolling, attempts)
    else
      var d := Decide(attempts + 1, replies[0]);
      if d.KeepPolling? then RunPoll(attempts + 1, replies[1..]) else PollRun(d, attempts + 1)
  }

  /** A reply that neither throws nor reports a terminal status. */
  predicate Pending(reply: Result<StatusReply>)
  {
    reply.Success? && !(reply.value.Reported? && IsTerminal(reply.value.item.status))
  }

  /** Without a terminal reply and without a throw, the poll ends by timeout at exactly attempt 60. */
  lemma {:induction false} TimesOutAtCap(attempts: nat, replies: seq<Result<StatusReply>>)
    requires attempts < MAX_ATTEMPTS && attempts + |replies| >= MAX_ATTEMPTS
    requires forall k :: 0 <= k < |replies| ==> Pending(replies[k])
    ensures RunPoll(attempts, replies) == PollRun(TimedOut, MAX_ATTEMPTS)
    decreases |replies|
  {
    assert Pending(replies[0]);
    if attempts + 1 < MAX_ATTEMPTS {
      TimesOutAtCap(attempts + 1, replies[1..]);
    }
  }

  /** The first terminal reply within the first 60 attempts wins, and nothing before it ended the poll. */
  lemma {:induction false} FirstTerminalWins(attempts: nat, replies: seq<Result<StatusReply>>, k: nat)
    requires k < |replies| && attempts + k < MAX_ATTEMPTS
    requires replies[k].Success? && replies[k].value.Reported? && IsTerminal(replies[k].value.item.status)
    requires forall j :: 0 <= j < k ==> !(replies[j].Success? && replies[j].value.Reported? && IsTerminal(replies[j].value.item.status))
    ensures RunPoll(attempts, replies) == PollRun(Resolved(replies[k].value.item), attempts + k + 1)
    decreases k
  {
    if k > 0 {
      assert !(replies[0].Success? && replies[0].value.Reported? && IsTerminal(replies[0].value.item.status));
      FirstTerminalWins(attempts + 1, replies[1..], k - 1);
    }
  }

  /** Attempts that throw never reach the cap: the poll goes on however many there are. */
  lemma {:induction false} ThrowsNeverTimeOut(attempts: nat, replies: seq<Result<StatusReply>>)
    requires forall k :: 0 <= k < |replies| ==> replies[k].Failure?
    ensures RunPoll(attempts, replies) == PollRun(KeepPolling, attempts + |replies|)
    decreases |replies|
  {
    if replies != [] {
      ThrowsNeverTimeOut(attempts + 1, replies[1..]);
    }
  }

  /** A poll never resolves to a non-terminal status, so the feed never gets a PROCESSING item from it. */
  lemma {:induction false} ResolvedIsTerminal(attempts: nat, replies: seq<Result<StatusReply>>)
    ensures RunPoll(attempts, replies).decision.Resolved? ==> IsTerminal(RunPoll(attempts, replies).decision.item.status)
    ensures RunPoll(attempts, replies).attempts <= attempts + |replies|
    decreases |replies|
  {
    if replies != [] && Decide(attempts + 1, replies[0]).KeepPolling? {
      ResolvedIsTerminal(attempts + 1, replies[1..]);
    }
  }

  // ---------------------------------------------------------------------------------------
  // The feed sync.
  // ---------------------------------------------------------------------------------------

  /** The sync cursor: the newest item's timestamp, or null for an empty feed. */
  function SyncCursor(images: seq<FeedItem>): (c: Option<int>)
    ensures c.None? <==> images == []
    ensures c.Some? ==> c.value == images[0].timestamp
  {
    if |images| > 0 then Some(images[0].timestamp) else None
  }

  /** An empty feed, or one whose newest timestamp is 0, makes the sync ask for the whole feed. */
  lemma SyncAsksForWholeFeed(base: string, images: seq<FeedItem>)
    requires images == [] || images[0].timestamp == 0
    ensures ListImagesUrl(base, SyncCursor(images)).query == []
  {
  }

  /** A non-empty feed with a non-zero newest timestamp asks only for items after it. */
  lemma SyncAsksAfterNewest(base: string, images: seq<FeedItem>)
    requires images != [] && images[0].timestamp != 0
    ensures ListImagesUrl(base, SyncCursor(images)).query == [("after", Plain(images[0].timestamp))]
  {
  }

  /** The feed after a sync reply: the reply's images in front on success, unchanged on failure. */
  function SyncedFeed(images: seq<FeedItem>, reply: Result<ListReply>): (feed: seq<FeedItem>)
    ensures reply.Success? ==> |feed| == |reply.value.images| + |images|
    ensures reply.Success? ==> feed[..|reply.value.images|] == reply.value.images && feed[|reply.value.images|..] == images
    ensures reply.Failure? ==> feed == images
  {
    if reply.Success? then reply.value.images + images else images
  }

  /**
   * Syncing does not look at ids: an id already in the feed appears twice after a reply that
   * carries it again, and the same reply applied twice is prepended twice.
   */
  lemma SyncKeepsDuplicates(images: seq<FeedItem>, reply: Result<ListReply>, i: nat, j: nat)
    requires reply.Success? && i < |reply.value.images| && j < |images| && reply.value.images[i].id == images[j].id
    ensures var feed := SyncedFeed(images, reply);
      i != |reply.value.images| + j && feed[i].id == feed[|reply.value.images| + j].id
    ensures |SyncedFeed(SyncedFeed(images, reply), reply)| == |images| + 2 * |reply.value.images|
  {
  }

  // ---------------------------------------------------------------------------------------
  // The application state.
  // ---------------------------------------------------------------------------------------

  /** An active status poll: the key it asks about and the attempts made so far. */
  datatype Poller = Poller(fileId: string, attempts: nat)

  /**
   * The continuations that are pending: the mount-time load, slot requests in flight, progress
   * intervals still running (a failed transfer leaves its own running), transfers in flight,
   * step timers, status polls, stats refreshes and drawer resets.
   */
  datatype Continuations = Continuations(
    initialLoad: bool,
    slotRequests: nat,
    progressTickers: nat,
    transfers: seq<string>,
    step3Timers: nat,
    step4Timers: nat,
    pollers: seq<Poller>,
    statsRefreshes: nat,
    resetTimers: nat)

  /** The sequence with its `i`th element taken out. */
  function RemoveAt<T>(s: seq<T>, i: nat): (r: seq<T>)
    requires i < |s|
    ensures |r| == |s| - 1
    ensures forall k :: 0 <= k < i ==> r[k] == s[k]
    ensures forall k :: i <= k < |r| ==> r[k] == s[k + 1]
  {
    s[..i] + s[i + 1..]
  }

  class AppState {
    var images: seq<FeedItem>
    var stats: Stats
    var loadError: Option<string>
    var drawerOpen: bool
    var proc: ProcessingState
    var pending: Continuations

    /** Every running transfer owns a progress interval; the record is well-formed. */
    predicate Valid()
      reads this
    {
      ProcessingValid(proc) && pending.progressTickers >= |pending.transfers|
    }

    /** Mounting: empty feed, zero counters, closed drawer, idle record, the first load in flight. */
    constructor ()
      ensures Valid()
      ensures images == [] && stats == Stats(0, 0, 0, 0, 0) && loadError == None && !drawerOpen
      ensures proc == INITIAL
      ensures pending == Continuations(true, 0, 0, [], 0, 0, [], 0, 0)
    {
      images := [];
      stats := Stats(0, 0, 0, 0, 0);
      loadError := None;
      drawerOpen := false;
      proc := INITIAL;
      pending := Continuations(true, 0, 0, [], 0, 0, [], 0, 0);
    }

    /** The mount-time load: replace the feed, or clear it and record the error. */
    method InitialLoad(reply: Result<ListReply>)
      requires Valid() && pending.initialLoad
      modifies this
      ensures Valid()
      ensures pending == old(pending).(initialLoad := false)
      ensures reply.Success? ==> images == reply.value.images && loadError == None
      ensures reply.Success? && reply.value.stats.Some? ==> stats == reply.value.stats.value
      ensures reply.Failure? ==> images == [] && loadError == Some(reply.error)
      ensures (reply.Failure? || reply.value.stats.None?) ==> stats == old(stats)
      ensures proc == old(proc) && drawerOpen == old(drawerOpen)
    {
      pending := pending.(initialLoad := false);
      loadError := None;
      match reply
      case Success(r) =>
        images := r.images;
        if r.stats.Some? {
          stats := r.stats.value;
        }
      case Failure(e) =>
        loadError := Some(e);
        images := [];
    }

    /**
     * One tick of the one-second feed sync, issued with the returned cursor: new items go in
     * front in server order, the stats are replaced when present, and an error changes nothing.
     */
    method SyncTick(reply: Result<ListReply>) returns (cursor: Option<int>)
      requires Valid()
      modifies this
      ensures Valid()
      ensures cursor == SyncCursor(old(images))
      ensures images == SyncedFeed(old(images), reply)
      ensures reply.Success? && reply.value.stats.Some? ==> stats == reply.value.stats.value
      ensures (reply.Failure? || reply.value.stats.None?) ==> stats == old(stats)
      ensures proc == old(proc) && pending == old(pending)
      ensures loadError == old(loadError) && drawerOpen == old(drawerOpen)
    {
      cursor := if |images| > 0 then Some(images[0].timestamp) else None;
      if reply.Success? {
        if |reply.value.images| > 0 {
          images := reply.value.images + images;
        }
        if reply.value.stats.Some? {
          stats := reply.value.stats.value;
        }
      }
    }

    /** The upload button: opens the drawer. */
    method OpenDrawer()
      requires Valid()
      modifies this
      ensures Valid() && drawerOpen
      ensures images == old(images) && stats == old(stats) && loadError == old(loadError)
      ensures proc == old(proc) && pending == old(pending)
    {
      drawerOpen := true;
    }

    /** `onClose`: the drawer shuts at once and the record is reset by a timer later. */
    method CloseDrawer()
      requires Valid()
      modifies this
      ensures Valid() && !drawerOpen
      ensures pending == old(pending).(resetTimers := old(pending).resetTimers + 1)
      ensures images == old(images) && stats == old(stats) && loadError == old(loadError)
      ensures proc == old(proc)
    {
      drawerOpen := false;
      pending := pending.(resetTimers := pending.resetTimers + 1);
    }

    /** The reset timer of `onClose`: all five processing fields go back to their initial values. */
    method ResetFires()
      requires Valid() && pending.resetTimers > 0
      modifies this
      ensures Valid()
      ensures proc == INITIAL
      ensures pending == old(pending).(resetTimers := old(pending).resetTimers - 1)
      ensures images == old(images) && stats == old(stats) && loadError == old(loadError)
      ensures drawerOpen == old(drawerOpen)
    {
      proc := INITIAL;
      pending := pending.(resetTimers := pending.resetTimers - 1);
    }

    /** `handleUpload` starts: processing at step 1 with an empty bar, and the slot is requested. */
    method StartUpload()
      requires Valid()
      modifies this
      ensures Valid()
      ensures proc == Begin(old(proc))
      ensures proc.finalStatus == old(proc).finalStatus && proc.reason == old(proc).reason
      ensures pending == old(pending).(slotRequests := old(pending).slotRequests + 1)
      ensures images == old(images) && stats == old(stats) && loadError == old(loadError)
      ensures drawerOpen == old(drawerOpen)
    {
      proc := proc.(isProcessing := true, step := 1, uploadProgress := 0);
      pending := pending.(slotRequests := pending.slotRequests + 1);
    }

    /**
     * The slot reply: on failure processing stops; on success the progress interval starts and
     * the transfer to the granted URL begins.
     */
    method SlotReplied(reply: Result<SlotGrant>)
      requires Valid() && pending.slotRequests > 0
      modifies this
      ensures Valid()
      ensures reply.Failure? ==> proc == Fail(old(proc))
      ensures reply.Failure? ==> pending == old(pending).(slotRequests := old(pending).slotRequests - 1)
      ensures reply.Success? ==> proc == old(proc)
      ensures reply.Success? ==> pending == old(pending).(
        slotRequests := old(pending).slotRequests - 1,
        progressTickers := old(pending).progressTickers + 1,
        transfers := old(pending).transfers + [reply.value.fileId])
      ensures images == old(images) && stats == old(stats) && loadError == old(loadError)
      ensures drawerOpen == old(drawerOpen)
    {
      pending := pending.(slotRequests := pending.slotRequests - 1);
      match reply
      case Failure(_) =>
        proc := proc.(isProcessing := false);
      case Success(grant) =>
        pending := pending.(
          progressTickers := pending.progressTickers + 1,
          transfers := pending.transfers + [grant.fileId]);
    }

    /** One tick of a running progress interval. */
    method ProgressTick()
      requires Valid() && pending.progressTickers > 0
      modifies this
      ensures Valid()
      ensures proc == Tick(old(proc))
      ensures old(proc).uploadProgress < PROGRESS_CAP ==> proc.uploadProgress == old(proc).uploadProgress + PROGRESS_STEP
      ensures old(proc).uploadProgress >= PROGRESS_CAP ==> proc == old(proc)
      ensures images == old(images) && stats == old(stats) && loadError == old(loadError)
      ensures drawerOpen == old(drawerOpen) && pending == old(pending)
    {
      if proc.uploadProgress < PROGRESS_CAP {
        proc := proc.(uploadProgress := proc.uploadProgress + PROGRESS_STEP);
      }
    }

    /**
     * The transfer with index `i` finished. On failure processing stops and its progress interval
     * keeps running. On success the interval stops, the bar is full at step 2, both step timers
     * are set and the status poll for the key starts.
     */
    method TransferFinished(i: nat, outcome: Result<()>)
      requires Valid() && i < |pending.transfers|
      modifies this
      ensures Valid()
      ensures outcome.Failure? ==> proc == Fail(old(proc))
      ensures outcome.Failure? ==> pending == old(pending).(transfers := RemoveAt(old(pending).transfers, i))
      ensures outcome.Success? ==> proc == TransferDone(old(proc))
      ensures outcome.Success? ==> proc.uploadProgress == PROGRESS_DONE && proc.step == 2
      ensures outcome.Success? ==> pending == old(pending).(
        progressTickers := old(pending).progressTickers - 1,
        transfers := RemoveAt(old(pending).transfers, i),
        step3Timers := old(pending).step3Timers + 1,
        step4Timers := old(pending).step4Timers + 1,
        pollers := old(pending).pollers + [Poller(old(pending).transfers[i], 0)])
      ensures images == old(images) && stats == old(stats) && loadError == old(loadError)
      ensures drawerOpen == old(drawerOpen)
    {
      var fileId := pending.transfers[i];
      pending := pending.(transfers := RemoveAt(pending.transfers, i));
      match outcome
      case Failure(_) =>
        proc := proc.(isProcessing := false);
      case Success(_) =>
        proc := proc.(uploadProgress := PROGRESS_DONE, step := 2);
        pending := pending.(
          progressTickers := pending.progressTickers - 1,
          step3Timers := pending.step3Timers + 1,
          step4Timers := pending.step4Timers + 1,
          pollers := pending.pollers + [Poller(fileId, 0)]);
    }

    /** The step-3 timer: ignored once a verdict is recorded. */
    method Step3Fires()
      requires Valid() && pending.step3Timers > 0
      modifies this
      ensures Valid()
      ensures proc == StepTimer(old(proc), 3)
      ensures Truthy(old(proc).finalStatus) ==> proc == old(proc)
      ensures pending == old(pending).(step3Timers := old(pending).step3Timers - 1)
      ensures images == old(images) && stats == old(stats) && loadError == old(loadError)
      ensures drawerOpen == old(drawerOpen)
    {
      if !Truthy(proc.finalStatus) {
        proc := proc.(step := 3);
      }
      pending := pending.(step3Timers := pending.step3Timers - 1);
    }

    /** The step-4 timer: ignored once a verdict is recorded. */
    method Step4Fires()
      requires Valid() && pending.step4Timers > 0
      modifies this
      ensures Valid()
      ensures proc == StepTimer(old(proc), 4)
      ensures Truthy(old(proc).finalStatus) ==> proc == old(proc)
      ensures pending == old(pending).(step4Timers := old(pending).step4Timers - 1)
      ensures images == old(images) && stats == old(stats) && loadError == old(loadError)
      ensures drawerOpen == old(drawerOpen)
    {
      if !Truthy(proc.finalStatus) {
        proc := proc.(step := 4);
      }
      pending := pending.(step4Timers := pending.step4Timers - 1);
    }

    /**
     * One attempt of poll `i`, whose lookup replied `reply`. A terminal status stops the poll,
     * puts the item in front of the feed unless it is BLOCKED, asks for new stats and records
     * the verdict at step 5. The 60th attempt that returns normally without one stops the poll
     * and changes nothing else. Otherwise the poll goes on with one more attempt counted.
     */
    method PollAttempt(i: nat, reply: Result<StatusReply>) returns (d: PollDecision)
      requires Valid() && i < |pending.pollers|
      modifies this
      ensures Valid()
      ensures d == Decide(old(pending).pollers[i].attempts + 1, reply)
      ensures d.Resolved? ==> proc == Resolve(old(proc), d.item) && proc.step == 5 && proc.finalStatus == d.item.status
      ensures d.Resolved? && d.item.status != Some(BLOCKED) ==> images == [d.item] + old(images)
      ensures d.Resolved? ==> pending == old(pending).(
        pollers := RemoveAt(old(pending).pollers, i),
        statsRefreshes := old(pending).statsRefreshes + 1)
      ensures !d.Resolved? ==> proc == old(proc)
      ensures !(d.Resolved? && d.item.status != Some(BLOCKED)) ==> images == old(images)
      ensures d.TimedOut? ==> pending == old(pending).(pollers := RemoveAt(old(pending).pollers, i))
      ensures d.KeepPolling? ==> pending == old(pending).(
        pollers := old(pending).pollers[i := Poller(old(pending).pollers[i].fileId, old(pending).pollers[i].attempts + 1)])
      ensures NoBlocked(old(images)) ==> NoBlocked(images)
      ensures stats == old(stats) && loadError == old(loadError) && drawerOpen == old(drawerOpen)
    {
      var poller := pending.pollers[i];
      var attempts := poller.attempts + 1;
      d := Decide(attempts, reply);
      match d
      case Resolved(item) =>
        pending := pending.(pollers := RemoveAt(pending.pollers, i));
        if item.status != Some(BLOCKED) {
          NoBlockedAppend([item], images);
          images := [item] + images;
        }
        pending := pending.(statsRefreshes := pending.statsRefreshes + 1);
        proc := proc.(step := 5, finalStatus := item.status, reason := item.reason);
      case TimedOut =>
        pending := pending.(pollers := RemoveAt(pending.pollers, i));
      case KeepPolling =>
        pending := pending.(pollers := pending.pollers[i := Poller(poller.fileId, attempts)]);
    }

    /** The stats refresh that follows a verdict: new stats when the reply has them. */
    method StatsRefreshed(reply: Result<ListReply>)
      requires Valid() && pending.statsRefreshes > 0
      modifies this
      ensures Valid()
      ensures reply.Success? && reply.value.stats.Some? ==> stats == reply.value.stats.value
      ensures (reply.Failure? || reply.value.stats.None?) ==> stats == old(stats)
      ensures pending == old(pending).(statsRefreshes := old(pending).statsRefreshes - 1)
      ensures images == old(images) && proc == old(proc) && loadError == old(loadError)
      ensures drawerOpen == old(drawerOpen)
    {
      pending := pending.(statsRefreshes := pending.statsRefreshes - 1);
      if reply.Success? && reply.value.stats.Some? {
        stats := reply.value.stats.value;
      }
    }
  }
}
