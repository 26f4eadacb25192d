/** The conditional-stream monitor: a list of money streams, each gated on the
    receiver's recorded exercise, checked against a rolling time window. The
    clock (`now`, in milliseconds) and every answer from the chain are passed
    in; the list of streams is an object whose methods replace it the way
    the component's `setStreams` updates do. */
module ConditionalStreams {
  import opened Common
  import opened Text

  /** Only the last five checks are kept for display. */
  const MaxHistory: nat := 5
  const MsPerSecond: nat := 1000
  const MsPerMinute: nat := 60000
  /** Base mainnet, the only chain on which streams are created. */
  const BaseChainId: int := 8453

  const ConnectWalletMessage := "Please connect your wallet first"
  const SwitchNetworkMessage := "Please switch to Base Mainnet network"
  const CreateFailedMessage := "Failed to create stream. Please try again."
  const FlowRateZeroMessage := "Stream was not created successfully. Flow rate is 0."
  const CreatedMessage := "Conditional stream created successfully!"

  /** The latest score the fitness contract holds for a user; `timestamp` is
      in seconds. */
  datatype FitnessScore = FitnessScore(user: string, pushups: nat, squats: nat, timestamp: nat)

  datatype Conditions = Conditions(requiredExerciseUnits: nat, timeframeInMinutes: nat)

  /** One evaluation of the conditions; `timestamp` is in milliseconds. */
  datatype ActivityCheck = ActivityCheck(timestamp: nat, completed: bool)

  /** A tracked stream. `isStoppingStream` is absent (so false) until a stop
      is requested. */
  datatype ConditionalStream = ConditionalStream(
    id: string,
    token: string,
    receiver: string,
    flowRate: string,
    tokenSymbol: string,
    lastActivity: Option<FitnessScore>,
    isActive: bool,
    conditions: Conditions,
    activityHistory: seq<ActivityCheck>,
    missedCount: nat,
    isStoppingStream: bool)

  function TimeframeMs(c: Conditions): nat {
    c.timeframeInMinutes * MsPerMinute
  }

  function ExerciseTotal(score: FitnessScore): nat {
    score.pushups + score.squats
  }

  // ---------------------------------------------------------------------------
  // The activity-window rule

  /** `checkRequirements`: a score exists, it was recorded after the start of
      the window that ends now, and it holds enough exercise. */
  predicate CheckRequirements(score: Option<FitnessScore>, conditions: Conditions, now: nat) {
    match score
    case None => false
    case Some(s) =>
      && s.timestamp * MsPerSecond > now - TimeframeMs(conditions)
      && ExerciseTotal(s) >= conditions.requiredExerciseUnits
  }

  /** The instant (exclusive) until which a score keeps the conditions met. */
  function Deadline(score: FitnessScore, conditions: Conditions): nat {
    score.timestamp * MsPerSecond + TimeframeMs(conditions)
  }

  /** The window rule read the other way round: a recorded score meets the
      conditions exactly while the clock is before its deadline, provided it
      holds enough exercise; a missing score never does. */
  lemma RequirementsUntilDeadline(score: Option<FitnessScore>, conditions: Conditions, now: nat)
    ensures score.None? ==> !CheckRequirements(score, conditions, now)
    ensures score.Some? ==>
      (CheckRequirements(score, conditions, now) <==>
        now < Deadline(score.value, conditions) &&
        ExerciseTotal(score.value) >= conditions.requiredExerciseUnits)
  {
  }

  /** Once met, the conditions stay met at every earlier instant, and once
      lapsed they stay lapsed until a new score arrives. */
  lemma RequirementsLapseOnce(score: Option<FitnessScore>, conditions: Conditions, early: nat, late: nat)
    requires early <= late
    ensures CheckRequirements(score, conditions, late) ==> CheckRequirements(score, conditions, early)
  {
  }

  // ---------------------------------------------------------------------------
  // The countdown shown under a stream

  /** The milliseconds left in the window opened by the last activity, never
      below zero. */
  function RemainingMs(timeframeInMinutes: nat, lastActivityTimestamp: nat, now: nat): nat {
    var timeframeMs := timeframeInMinutes * MsPerMinute;
    var timeSinceLastActivity := now - lastActivityTimestamp * MsPerSecond;
    if timeframeMs - timeSinceLastActivity > 0 then timeframeMs - timeSinceLastActivity else 0
  }

  datatype Countdown = Countdown(minutes: nat, seconds: nat)

  /** The minutes and seconds of `formatTimeRemaining`: whole minutes, then the
      whole seconds left over, so that together they are the remaining time
      cut to the second. */
  function TimeRemaining(timeframeInMinutes: nat, lastActivityTimestamp: nat, now: nat): (c: Countdown)
    ensures c.seconds < 60
    ensures c.minutes * 60 + c.seconds == RemainingMs(timeframeInMinutes, lastActivityTimestamp, now) / MsPerSecond
  {
    var rem := RemainingMs(timeframeInMinutes, lastActivityTimestamp, now);
    var c := Countdown(rem / MsPerMinute, (rem % MsPerMinute) / MsPerSecond);
    SplitMinutes(rem);
    c
  }

  lemma SplitMinutes(rem: nat)
    ensures (rem % MsPerMinute) / MsPerSecond < 60
    ensures (rem / MsPerMinute) * 60 + (rem % MsPerMinute) / MsPerSecond == rem / MsPerSecond
  {
    var m, r := rem / 60000, rem % 60000;
    assert rem == m * 60000 + r;
    var s, q := r / 1000, r % 1000;
    assert r == s * 1000 + q;
    assert rem == (m * 60 + s) * 1000 + q;
  }

  /** `${minutes}m ${seconds}s`. */
  function FormatTimeRemaining(timeframeInMinutes: nat, lastActivityTimestamp: nat, now: nat): string {
    var c := TimeRemaining(timeframeInMinutes, lastActivityTimestamp, now);
    NatToDecimal(c.minutes) + "m " + NatToDecimal(c.seconds) + "s"
  }

  /** Once the window has run out the countdown reads "0m 0s". */
  lemma CountdownStopsAtZero(timeframeInMinutes: nat, lastActivityTimestamp: nat, now: nat)
    requires now >= lastActivityTimestamp * MsPerSecond + timeframeInMinutes * MsPerMinute
    ensures FormatTimeRemaining(timeframeInMinutes, lastActivityTimestamp, now) == "0m 0s"
  {
    assert RemainingMs(timeframeInMinutes, lastActivityTimestamp, now) == 0;
    assert NatToDecimal(0) == "0";
  }

  /** The countdown and the window rule agree: time is left on the countdown
      exactly while a sufficient score still meets the conditions. */
  lemma CountdownMatchesRequirements(score: FitnessScore, conditions: Conditions, now: nat)
    requires ExerciseTotal(score) >= conditions.requiredExerciseUnits
    ensures CheckRequirements(Some(score), conditions, now) <==>
            RemainingMs(conditions.timeframeInMinutes, score.timestamp, now) > 0
  {
  }

  // ---------------------------------------------------------------------------
  // The activity history

  /** The time of the latest check, or 0 when there is none. */
  function LastCheckTime(history: seq<ActivityCheck>): nat {
    if |history| == 0 then 0 else history[|history| - 1].timestamp
  }

  /** `history.filter((h) => !h.completed)`. */
  function Missed(history: seq<ActivityCheck>): seq<ActivityCheck> {
    if |history| == 0 then []
    else if history[0].completed then Missed(history[1..])
    else [history[0]] + Missed(history[1..])
  }

  /** Appending a check adds one miss exactly when that check failed. */
  lemma {:induction false} MissedAppend(history: seq<ActivityCheck>, check: ActivityCheck)
    ensures |Missed(history + [check])| == |Missed(history)| + (if check.completed then 0 else 1)
    decreases |history|
  {
    if |history| > 0 {
      assert (history + [check])[1..] == history[1..] + [check];
      MissedAppend(history[1..], check);
    }
  }

  lemma {:induction false} MissedBound(history: seq<ActivityCheck>)
    ensures |Missed(history)| <= |history|
    decreases |history|
  {
    if |history| > 0 {
      MissedBound(history[1..]);
    }
  }

  /** `history.slice(-n)` for n > 0: the last `n` entries, or all of them. */
  function KeepLast(history: seq<ActivityCheck>, n: nat): (kept: seq<ActivityCheck>)
    ensures |kept| == if |history| <= n then |history| else n
    ensures kept == history[|history| - |kept|..]
  {
    if |history| <= n then history else history[|history| - n..]
  }

  /** `updateActivityHistory`: if a whole timeframe has passed since the last
      check, record one more check, keep the last five, and recount misses
      over the history before it was cut. */
  function UpdateActivityHistory(stream: ConditionalStream, now: nat): ConditionalStream {
    if now - LastCheckTime(stream.activityHistory) < TimeframeMs(stream.conditions) then stream
    else
      var completed := CheckRequirements(stream.lastActivity, stream.conditions, now);
      var newHistory := stream.activityHistory + [ActivityCheck(now, completed)];
      stream.(activityHistory := KeepLast(newHistory, MaxHistory),
              missedCount := |Missed(newHistory)|)
  }

  /** A stream whose last check is less than a timeframe old is left as it is. */
  lemma UpdateWaitsForTimeframe(stream: ConditionalStream, now: nat)
    requires now - LastCheckTime(stream.activityHistory) < TimeframeMs(stream.conditions)
    ensures UpdateActivityHistory(stream, now) == stream
  {
  }

  /** Otherwise exactly one check is recorded, at `now`, holding the verdict of
      the window rule; it comes last, the entries before it are the newest of
      the old history, at most five entries remain, the miss count covers the
      old history and the new check, and nothing else about the stream
      changes. */
  lemma UpdateRecordsOneCheck(stream: ConditionalStream, now: nat)
    requires now - LastCheckTime(stream.activityHistory) >= TimeframeMs(stream.conditions)
    ensures var r := UpdateActivityHistory(stream, now);
      var old_h := stream.activityHistory;
      var h := r.activityHistory;
      var completed := CheckRequirements(stream.lastActivity, stream.conditions, now);
      && |h| == (if |old_h| + 1 <= MaxHistory then |old_h| + 1 else MaxHistory)
      && h[|h| - 1] == ActivityCheck(now, completed)
      && h[..|h| - 1] == old_h[|old_h| - (|h| - 1)..]
      && r.missedCount == |Missed(old_h)| + (if completed then 0 else 1)
      && r == stream.(activityHistory := h, missedCount := r.missedCount)
  {
    var old_h := stream.activityHistory;
    var completed := CheckRequirements(stream.lastActivity, stream.conditions, now);
    var newHistory := old_h + [ActivityCheck(now, completed)];
    MissedAppend(old_h, ActivityCheck(now, completed));
    var h := KeepLast(newHistory, MaxHistory);
    assert h[..|h| - 1] == old_h[|old_h| - (|h| - 1)..];
  }

  /** Successive checks are at least `gap` milliseconds apart. */
  ghost predicate SpacedBy(history: seq<ActivityCheck>, gap: nat) {
    forall i | 0 <= i < |history| - 1 :: history[i].timestamp + gap <= history[i + 1].timestamp
  }

  lemma SpacedAppend(history: seq<ActivityCheck>, gap: nat, check: ActivityCheck)
    requires SpacedBy(history, gap)
    requires check.timestamp - LastCheckTime(history) >= gap
    ensures SpacedBy(history + [check], gap)
  {
  }

  lemma SpacedSuffix(history: seq<ActivityCheck>, gap: nat, d: nat)
    requires SpacedBy(history, gap) && d <= |history|
    ensures SpacedBy(history[d..], gap)
  {
    var h := history[d..];
    forall i | 0 <= i < |h| - 1
      ensures h[i].timestamp + gap <= h[i + 1].timestamp
    {
      assert h[i] == history[d + i];
    }
  }

  /** What every stream the list holds satisfies: the history is capped, the
      miss count is bounded by what the history can have held, and successive
      checks are at least a timeframe apart, so in time order. */
  ghost predicate WellFormed(stream: ConditionalStream) {
    && |stream.activityHistory| <= MaxHistory
    && stream.missedCount <= MaxHistory + 1
    && SpacedBy(stream.activityHistory, TimeframeMs(stream.conditions))
  }

  lemma UpdatePreservesWellFormed(stream: ConditionalStream, now: nat)
    requires WellFormed(stream)
    ensures WellFormed(UpdateActivityHistory(stream, now))
  {
    var old_h := stream.activityHistory;
    var tf := TimeframeMs(stream.conditions);
    if now - LastCheckTime(old_h) >= tf {
      var completed := CheckRequirements(stream.lastActivity, stream.conditions, now);
      var newHistory := old_h + [ActivityCheck(now, completed)];
      MissedBound(newHistory);
      SpacedAppend(old_h, tf, ActivityCheck(now, completed));
      SpacedSuffix(newHistory, tf, |newHistory| - |KeepLast(newHistory, MaxHistory)|);
    }
  }

  // ---------------------------------------------------------------------------
  // What the list shows for a stream

  /** The red banner: "Recipient has missed N checks". */
  predicate ShowsMissedWarning(stream: ConditionalStream) {
    stream.missedCount >= 2
  }

  /** The yellow banner: "Conditions not met - Stream may be stopped". */
  predicate ShowsConditionsNotMet(stream: ConditionalStream, now: nat) {
    stream.isActive && !CheckRequirements(stream.lastActivity, stream.conditions, now)
  }

  /** The stop button is shown for an active stream and greyed out while its
      stop is in flight. */
  predicate ShowsStopButton(stream: ConditionalStream) {
    stream.isActive
  }

  predicate StopButtonDisabled(stream: ConditionalStream) {
    stream.isStoppingStream
  }

  /** When the banner says the conditions are not met and a check is due, the
      check records a miss. */
  lemma UnmetConditionsRecordMiss(stream: ConditionalStream, now: nat)
    requires ShowsConditionsNotMet(stream, now)
    requires now - LastCheckTime(stream.activityHistory) >= TimeframeMs(stream.conditions)
    ensures var r := UpdateActivityHistory(stream, now);
      && r.activityHistory[|r.activityHistory| - 1] == ActivityCheck(now, false)
      && r.missedCount >= 1
  {
    UpdateRecordsOneCheck(stream, now);
  }

  /** A miss on top of a history whose newest check was a miss raises the red
      banner. */
  lemma SecondMissRaisesWarning(stream: ConditionalStream, now: nat)
    requires |stream.activityHistory| > 0 && !stream.activityHistory[|stream.activityHistory| - 1].completed
    requires now - LastCheckTime(stream.activityHistory) >= TimeframeMs(stream.conditions)
    requires !CheckRequirements(stream.lastActivity, stream.conditions, now)
    ensures ShowsMissedWarning(UpdateActivityHistory(stream, now))
  {
    var h := stream.activityHistory;
    assert h == h[..|h| - 1] + [h[|h| - 1]];
    MissedAppend(h[..|h| - 1], h[|h| - 1]);
    UpdateRecordsOneCheck(stream, now);
  }

  /** The banner counts every miss in the history, not only consecutive ones:
      a miss, a success and then a miss raise it too. */
  lemma WarningCountsSeparatedMisses(stream: ConditionalStream, now: nat)
    requires |stream.activityHistory| == 2
    requires !stream.activityHistory[0].completed && stream.activityHistory[1].completed
    requires now - LastCheckTime(stream.activityHistory) >= TimeframeMs(stream.conditions)
    requires !CheckRequirements(stream.lastActivity, stream.conditions, now)
    ensures ShowsMissedWarning(UpdateActivityHistory(stream, now))
  {
    var h := stream.activityHistory;
    assert Missed(h) == [h[0]] + Missed(h[1..]);
    UpdateRecordsOneCheck(stream, now);
  }

  // ---------------------------------------------------------------------------
  // The two ScoreAdded listeners

  /** The first listener: every stream to this user (addresses compared
      without case) gets the new score. */
  function RecordScore(streams: seq<ConditionalStream>, score: FitnessScore): (r: seq<ConditionalStream>)
    ensures |r| == |streams|
    ensures forall i | 0 <= i < |r| ::
      r[i] == if SameIgnoringCase(streams[i].receiver, score.user)
              then streams[i].(lastActivity := Some(score)) else streams[i]
  {
    seq(|streams|, i requires 0 <= i < |streams| =>
      if SameIgnoringCase(streams[i].receiver, score.user)
      then streams[i].(lastActivity := Some(score)) else streams[i])
  }

  /** The second listener: the same streams get the new score and are checked
      at once. */
  function RecordAndCheck(streams: seq<ConditionalStream>, score: FitnessScore, now: nat): (r: seq<ConditionalStream>)
    ensures |r| == |streams|
    ensures forall i | 0 <= i < |r| ::
      r[i] == if SameIgnoringCase(streams[i].receiver, score.user)
              then UpdateActivityHistory(streams[i].(lastActivity := Some(score)), now) else streams[i]
  {
    seq(|streams|, i requires 0 <= i < |streams| =>
      if SameIgnoringCase(streams[i].receiver, score.user)
      then UpdateActivityHistory(streams[i].(lastActivity := Some(score)), now) else streams[i])
  }

  /** Both listeners hear the same event, the first one first; what the first
      does is subsumed by the second, so the pair acts as the second alone. */
  lemma ListenersCompose(streams: seq<ConditionalStream>, score: FitnessScore, now: nat)
    ensures RecordAndCheck(RecordScore(streams, score), score, now) == RecordAndCheck(streams, score, now)
  {
    var a := RecordAndCheck(RecordScore(streams, score), score, now);
    var b := RecordAndCheck(streams, score, now);
    assert forall i | 0 <= i < |a| :: a[i] == b[i];
  }

  /** The listener leaves alone every stream to another receiver, and changes
      neither the order nor the identity of the streams. */
  lemma ScoreTouchesOnlyItsReceiver(streams: seq<ConditionalStream>, score: FitnessScore, now: nat, i: nat)
    requires i < |streams|
    ensures var r := RecordAndCheck(streams, score, now);
      && (!SameIgnoringCase(streams[i].receiver, score.user) ==> r[i] == streams[i])
      && r[i].id == streams[i].id && r[i].receiver == streams[i].receiver
      && r[i].isActive == streams[i].isActive
  {
  }

  // ---------------------------------------------------------------------------
  // The periodic check

  /** One tick of the one-minute timer: active streams are checked, stopped
      ones are left alone. */
  function TickAll(streams: seq<ConditionalStream>, now: nat): (r: seq<ConditionalStream>)
    ensures |r| == |streams|
    ensures forall i | 0 <= i < |r| ::
      r[i] == if streams[i].isActive then UpdateActivityHistory(streams[i], now) else streams[i]
  {
    seq(|streams|, i requires 0 <= i < |streams| =>
      if streams[i].isActive then UpdateActivityHistory(streams[i], now) else streams[i])
  }

  /** A tick keeps every stream's identity, receiver, conditions and state, so
      the list keeps its order. */
  lemma TickKeepsStreams(streams: seq<ConditionalStream>, now: nat, i: nat)
    requires i < |streams|
    ensures var r := TickAll(streams, now);
      && r[i].id == streams[i].id && r[i].receiver == streams[i].receiver
      && r[i].conditions == streams[i].conditions && r[i].isActive == streams[i].isActive
      && r[i].lastActivity == streams[i].lastActivity
      && (!streams[i].isActive ==> r[i] == streams[i])
  {
  }

  // ---------------------------------------------------------------------------
  // Stopping and creating

  /** `s.id === id ? f(s) : s` over the list, for the three updates of a stop. */
  function SetStopping(streams: seq<ConditionalStream>, id: string, stopping: bool): (r: seq<ConditionalStream>)
    ensures |r| == |streams|
    ensures forall i | 0 <= i < |r| ::
      r[i] == if streams[i].id == id then streams[i].(isStoppingStream := stopping) else streams[i]
  {
    seq(|streams|, i requires 0 <= i < |streams| =>
      if streams[i].id == id then streams[i].(isStoppingStream := stopping) else streams[i])
  }

  function MarkStopped(streams: seq<ConditionalStream>, id: string): (r: seq<ConditionalStream>)
    ensures |r| == |streams|
    ensures forall i | 0 <= i < |r| ::
      r[i] == if streams[i].id == id then streams[i].(isActive := false, isStoppingStream := false) else streams[i]
  {
    seq(|streams|, i requires 0 <= i < |streams| =>
      if streams[i].id == id then streams[i].(isActive := false, isStoppingStream := false) else streams[i])
  }

  /** No stream with this id has a stop in flight. */
  predicate NoneStopping(streams: seq<ConditionalStream>, id: string) {
    forall i | 0 <= i < |streams| :: streams[i].id == id ==> !streams[i].isStoppingStream
  }

  /** A stop that fails releases the stream: when no stream with this id was
      already stopping, marking and then releasing it leaves the list as it
      was. */
  lemma FailedStopRestores(streams: seq<ConditionalStream>, id: string)
    requires NoneStopping(streams, id)
    ensures SetStopping(SetStopping(streams, id, true), id, false) == streams
  {
    var r := SetStopping(SetStopping(streams, id, true), id, false);
    assert forall i | 0 <= i < |r| :: r[i] == streams[i];
  }

  /** A stop that succeeds ends in the same list whether or not the stream was
      first marked as stopping, and stopping twice changes nothing more. */
  lemma MarkStoppedAbsorbs(streams: seq<ConditionalStream>, id: string)
    ensures MarkStopped(SetStopping(streams, id, true), id) == MarkStopped(streams, id)
    ensures MarkStopped(MarkStopped(streams, id), id) == MarkStopped(streams, id)
  {
    var a := MarkStopped(SetStopping(streams, id, true), id);
    var b := MarkStopped(streams, id);
    var c := MarkStopped(b, id);
    assert forall i | 0 <= i < |a| :: a[i] == b[i];
    assert forall i | 0 <= i < |c| :: c[i] == b[i];
  }

  /** A stopped stream is no longer checked: later ticks leave it as it is,
      its stop button is gone, and the other streams are unchanged. */
  lemma StoppedStreamIsLeftAlone(streams: seq<ConditionalStream>, id: string, now: nat, i: nat)
    requires i < |streams|
    ensures var m := MarkStopped(streams, id);
      && (streams[i].id == id ==>
            !ShowsStopButton(m[i]) && !StopButtonDisabled(m[i]) && TickAll(m, now)[i] == m[i])
      && (streams[i].id != id ==> m[i] == streams[i])
  {
  }

  /** `${Date.now()}-${token}-${receiver}`. */
  function StreamId(now: nat, token: string, receiver: string): string {
    NatToDecimal(now) + "-" + token + "-" + receiver
  }

  /** The record appended once a stream is confirmed on chain. */
  function NewConditionalStream(
    now: nat, receiver: string, token: string, flowRate: string, tokenSymbol: string,
    activity: Option<FitnessScore>, conditions: Conditions): (s: ConditionalStream)
    ensures s.isActive && s.activityHistory == [] && s.missedCount == 0 && !s.isStoppingStream
    ensures s.receiver == receiver && s.token == token && s.flowRate == flowRate
    ensures s.conditions == conditions && s.lastActivity == activity
    ensures WellFormed(s)
  {
    ConditionalStream(StreamId(now, token, receiver), token, receiver, flowRate, tokenSymbol,
                      activity, true, conditions, [], 0, false)
  }

  /** What the chain answered while a stream was being opened: either one of
      the calls (framework set-up, balance, approval, authorisation, creation)
      threw, or the flow was read back with this rate. */
  datatype CreateOutcome =
    | SetupFailed(error: JsError)
    | FlowReadBack(tokenSymbol: string, verifiedFlowRate: string)

  // ---------------------------------------------------------------------------
  // The retry policy for rate-limited calls

  /** What one call of an operation did. */
  datatype CallOutcome<T> = Returned(value: T) | Raised(error: JsError)

  /** What `withRetry` settles to. `Rejected(None)` is the `undefined` thrown
      when no attempt is allowed at all. */
  datatype RetryResult<T> = Resolved(value: T) | Rejected(error: Option<JsError>)

  /** A rate-limit error: its message, or its nested error's message, holds "429". */
  predicate IsRateLimit(e: JsError) {
    Contains(e.message, "429") || Contains(e.innerMessage, "429")
  }

  predicate RateLimited<T>(o: CallOutcome<T>) {
    o.Raised? && IsRateLimit(o.error)
  }

  /** `withRetry`: call the operation (whose n-th call does `call(n)`) until it
      returns, until it throws anything but a rate-limit error, or until
      `maxAttempts` calls have been made. `attempts` is the number of calls. */
  method WithRetry<T>(call: nat -> CallOutcome<T>, maxAttempts: int) returns (r: RetryResult<T>, attempts: nat)
    ensures maxAttempts < 1 ==> r == Rejected(None) && attempts == 0
    ensures maxAttempts >= 1 ==> 1 <= attempts <= maxAttempts
    ensures forall n | 1 <= n < attempts :: RateLimited(call(n))
    ensures r.Resolved? ==> call(attempts) == Returned(r.value)
    ensures r.Rejected? && maxAttempts >= 1 ==>
      && call(attempts).Raised? && r.error == Some(call(attempts).error)
      && (IsRateLimit(call(attempts).error) ==> attempts == maxAttempts)
  {
    var lastError: Option<JsError> := None;
    attempts := 0;
    var attempt := 1;
    while attempt <= maxAttempts
      invariant 1 <= attempt && attempts == attempt - 1
      invariant maxAttempts >= 1 ==> attempt <= maxAttempts + 1
      invariant maxAttempts < 1 ==> attempt == 1
      invariant forall n | 1 <= n < attempt :: RateLimited(call(n))
      invariant lastError == if attempt == 1 then None else Some(call(attempt - 1).error)
    {
      attempts := attempt;
      match call(attempt)
      case Returned(v) =>
        r := Resolved(v);
        return;
      case Raised(e) =>
        lastError := Some(e);
        if !IsRateLimit(e) {
          r := Rejected(lastError);
          return;
        }
      attempt := attempt + 1;
    }
    r := Rejected(lastError);
  }

  // ---------------------------------------------------------------------------
  // The component's state

  class ConditionalStreamList {
    var streams: seq<ConditionalStream>
    var loading: bool
    var message: string

    ghost predicate Valid()
      reads this
    {
      forall i | 0 <= i < |streams| :: WellFormed(streams[i])
    }

    constructor ()
      ensures Valid() && streams == [] && !loading && message == ""
    {
      streams := [];
      loading := false;
      message := "";
    }

    /** The one-minute timer fires. */
    method Tick(now: nat)
      requires Valid()
      modifies this`streams
      ensures Valid()
      ensures streams == TickAll(old(streams), now)
    {
      var current := streams;
      forall i | 0 <= i < |current| ensures WellFormed(TickAll(current, now)[i]) {
        UpdatePreservesWellFormed(current[i], now);
      }
      streams := TickAll(current, now);
    }

    /** The fitness contract emits ScoreAdded: the first listener records the
        score, then the second records it again and checks the streams. Each
        listener acts only when some stream goes to this user. */
    method OnScoreAdded(user: string, pushups: nat, squats: nat, timestamp: nat, now: nat)
      requires Valid()
      modifies this`streams
      ensures Valid()
      ensures streams == RecordAndCheck(old(streams), FitnessScore(user, pushups, squats, timestamp), now)
    {
      var score := FitnessScore(user, pushups, squats, timestamp);
      var tracked := exists i | 0 <= i < |streams| :: SameIgnoringCase(streams[i].receiver, user);
      if tracked {
        streams := RecordScore(streams, score);
      }
      tracked := exists i | 0 <= i < |streams| :: SameIgnoringCase(streams[i].receiver, user);
      if tracked {
        var current := streams;
        forall i | 0 <= i < |current| ensures WellFormed(RecordAndCheck(current, score, now)[i]) {
          UpdatePreservesWellFormed(current[i].(lastActivity := Some(score)), now);
        }
        streams := RecordAndCheck(current, score, now);
      }
      ListenersCompose(old(streams), score, now);
      if !tracked {
        assert forall i | 0 <= i < |streams| :: RecordAndCheck(old(streams), score, now)[i] == streams[i];
      }
    }

    /** The user confirmed a stop: the stream's button turns to "Stopping...". */
    method BeginStop(id: string)
      requires Valid()
      modifies this`streams
      ensures Valid()
      ensures streams == SetStopping(old(streams), id, true)
      ensures forall i | 0 <= i < |streams| :: streams[i].id == id ==> StopButtonDisabled(streams[i])
    {
      streams := SetStopping(streams, id, true);
    }

    /** The delete transaction was mined (`deleted`) or something on the way
        threw. */
    method FinishStop(id: string, deleted: bool)
      requires Valid()
      modifies this`streams
      ensures Valid()
      ensures streams == if deleted then MarkStopped(old(streams), id) else SetStopping(old(streams), id, false)
      ensures forall i | 0 <= i < |streams| :: streams[i].id == id ==>
        !StopButtonDisabled(streams[i]) && (deleted ==> !ShowsStopButton(streams[i]))
    {
      if deleted {
        streams := MarkStopped(streams, id);
      } else {
        streams := SetStopping(streams, id, false);
      }
    }

    /** The stop button's handler: nothing happens without a wallet or without
        the user's confirmation; otherwise the stream is marked as stopping and
        then either stopped or released. */
    method StopStream(id: string, hasWalletClient: bool, confirmed: bool, deleted: bool)
      requires Valid()
      modifies this`streams
      ensures Valid()
      ensures !hasWalletClient || !confirmed ==> streams == old(streams)
      ensures hasWalletClient && confirmed ==>
        streams == if deleted then MarkStopped(SetStopping(old(streams), id, true), id)
                   else SetStopping(SetStopping(old(streams), id, true), id, false)
      ensures hasWalletClient && confirmed && deleted ==> streams == MarkStopped(old(streams), id)
      ensures hasWalletClient && confirmed && !deleted && NoneStopping(old(streams), id) ==>
        streams == old(streams)
    {
      if !hasWalletClient || !confirmed {
        return;
      }
      MarkStoppedAbsorbs(streams, id);
      if NoneStopping(streams, id) {
        FailedStopRestores(streams, id);
      }
      BeginStop(id);
      FinishStop(id, deleted);
    }

    /** `createConditionalStream`, with the chain's answers as parameters:
        `activity` is the receiver's score read after the flow was confirmed
        (None when that read failed) and `now` the time the id is made from. */
    method CreateConditionalStream(
      receiver: string, token: string, flowRate: string, conditions: Conditions,
      isConnected: bool, hasWalletClient: bool, chainId: int,
      outcome: CreateOutcome, activity: Option<FitnessScore>, now: nat)
      requires Valid()
      modifies this
      ensures Valid()
      ensures !isConnected || !hasWalletClient ==>
        streams == old(streams) && message == ConnectWalletMessage && loading == old(loading)
      ensures isConnected && hasWalletClient ==> !loading
      ensures isConnected && hasWalletClient && chainId != BaseChainId ==>
        streams == old(streams) && message == SwitchNetworkMessage
      ensures isConnected && hasWalletClient && chainId == BaseChainId ==>
        match outcome
        case SetupFailed(e) =>
          streams == old(streams) && message == ErrorText(e, CreateFailedMessage)
        case FlowReadBack(symbol, rate) =>
          if rate == "0" then streams == old(streams) && message == FlowRateZeroMessage
          else streams == old(streams) + [NewConditionalStream(now, receiver, token, flowRate, symbol, activity, conditions)]
               && message == CreatedMessage
    {
      if !isConnected || !hasWalletClient {
        message := ConnectWalletMessage;
        return;
      }
      loading := true;
      if chainId != BaseChainId {
        message := SwitchNetworkMessage;
        loading := false;
        return;
      }
      match outcome {
        case SetupFailed(e) =>
          message := ErrorText(e, CreateFailedMessage);
        case FlowReadBack(symbol, rate) =>
          if rate == "0" {
            message := ErrorText(ErrorWithMessage(FlowRateZeroMessage), CreateFailedMessage);
          } else {
            streams := streams + [NewConditionalStream(now, receiver, token, flowRate, symbol, activity, conditions)];
            message := CreatedMessage;
          }
      }
      loading := false;
    }
  }
}
