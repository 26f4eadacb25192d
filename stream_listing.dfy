/** The list of the connected account's outgoing streams: reading them from
    the Superfluid subgraph, naming their receivers through a one-hour cache,
    the amount streamed so far, and stopping one. Network replies, receipts
    and the clock are parameters. */
module StreamListing {
  import opened Common
  import opened Text

  /** Cached names stay valid for one hour. */
  const CacheDurationMs: nat := 3600000
  const MsPerSecond: nat := 1000

  const FetchFailedMessage := "Failed to fetch streams. Please try again."
  const ConnectWalletMessage := "Please connect your wallet first."
  const TxFailedMessage := "Transaction failed. Check the explorer for more details."
  const StopFailedMessage := "Failed to stop stream. Please try again."

  // ---------------------------------------------------------------------------
  // Naming receivers: the module-level cache

  /** A cache entry; a failed lookup is cached with neither field. */
  datatype CacheEntry = CacheEntry(displayName: Option<string>, avatar: Option<string>, timestamp: nat)

  datatype ResolvedName = ResolvedName(displayName: Option<string>, avatar: Option<string>)

  /** One element of the web3.bio answer; "" stands for a missing or empty field. */
  datatype NameRecord = NameRecord(displayName: string, avatar: string)

  /** What the web3.bio lookup did: threw (network failure, body not JSON),
      answered with a non-2xx status, or answered with a body that is a list
      (`Some`) or something else (`None`). */
  datatype NameReply = LookupThrew | LookupNotOk | LookupOk(data: Option<seq<NameRecord>>)

  /** `value || undefined`. */
  function Truthy(s: string): Option<string> {
    if s == "" then None else Some(s)
  }

  /** `data?.[0]?.displayName || undefined` and the same for the avatar. */
  function NameFromBody(data: Option<seq<NameRecord>>): ResolvedName {
    if data.Some? && |data.value| > 0
    then ResolvedName(Truthy(data.value[0].displayName), Truthy(data.value[0].avatar))
    else ResolvedName(None, None)
  }

  function NameOf(e: CacheEntry): ResolvedName {
    ResolvedName(e.displayName, e.avatar)
  }

  /** A cached entry for `address` that is younger than an hour. */
  predicate IsFresh(cache: map<string, CacheEntry>, address: string, now: nat) {
    address in cache && now - cache[address].timestamp < CacheDurationMs
  }

  datatype Resolution = Resolution(name: ResolvedName, cache: map<string, CacheEntry>)

  /** `resolveAddress`: a fresh entry answers without a lookup; otherwise the
      lookup's outcome is both returned and cached at `now`. */
  function ResolveAddress(cache: map<string, CacheEntry>, address: string, now: nat, reply: NameReply): (r: Resolution)
    ensures IsFresh(cache, address, now) ==> r == Resolution(NameOf(cache[address]), cache)
    ensures !IsFresh(cache, address, now) ==>
      && r.cache == cache[address := CacheEntry(r.name.displayName, r.name.avatar, now)]
      && (reply.LookupOk? ==> r.name == NameFromBody(reply.data))
      && (!reply.LookupOk? ==> r.name == ResolvedName(None, None))
  {
    if IsFresh(cache, address, now) then Resolution(NameOf(cache[address]), cache)
    else
      match reply
      case LookupOk(data) =>
        var name := NameFromBody(data);
        Resolution(name, cache[address := CacheEntry(name.displayName, name.avatar, now)])
      case _ =>
        Resolution(ResolvedName(None, None), cache[address := CacheEntry(None, None, now)])
  }

  /** Whatever a resolution answered is answered again, from the cache and
      whatever the service would say, until its entry is an hour old; a failed
      lookup is thus not retried for an hour. */
  lemma ResolutionIsRepeatedWithinHour(
    cache: map<string, CacheEntry>, address: string, now: nat, reply: NameReply, later: nat, laterReply: NameReply)
    ensures address in ResolveAddress(cache, address, now, reply).cache
    ensures var first := ResolveAddress(cache, address, now, reply);
      later - first.cache[address].timestamp < CacheDurationMs ==>
        ResolveAddress(first.cache, address, later, laterReply) == first
  {
  }

  /** The cache the page holds, shared by every refresh. */
  class EnsCache {
    var entries: map<string, CacheEntry>

    constructor ()
      ensures entries == map[]
    {
      entries := map[];
    }

    /** `reply` is what the lookup would answer; it is consulted only when the
        cache has no fresh entry. */
    method Resolve(address: string, now: nat, reply: NameReply) returns (name: ResolvedName)
      modifies this
      ensures Resolution(name, entries) == ResolveAddress(old(entries), address, now, reply)
    {
      if address in entries && now - entries[address].timestamp < CacheDurationMs {
        name := NameOf(entries[address]);
        return;
      }
      match reply {
        case LookupOk(data) =>
          name := NameFromBody(data);
        case _ =>
          name := ResolvedName(None, None);
      }
      entries := entries[address := CacheEntry(name.displayName, name.avatar, now)];
    }
  }

  // ---------------------------------------------------------------------------
  // The amount streamed so far

  /** `streamedUntilUpdatedAt + currentFlowRate * floor((now - updatedAt*1000) / 1000)`,
      in wei; `now` is in milliseconds and `updatedAtTimestamp` in seconds. */
  function TotalStreamed(streamedUntilUpdatedAt: nat, currentFlowRate: nat, updatedAtTimestamp: nat, now: nat): int {
    streamedUntilUpdatedAt + currentFlowRate * ((now - updatedAtTimestamp * MsPerSecond) / MsPerSecond)
  }

  /** The accrual counts the whole seconds elapsed since the last update:
      the current second minus the update's second. */
  lemma TotalStreamedBySeconds(streamedUntilUpdatedAt: nat, currentFlowRate: nat, updatedAtTimestamp: nat, now: nat)
    ensures TotalStreamed(streamedUntilUpdatedAt, currentFlowRate, updatedAtTimestamp, now)
         == streamedUntilUpdatedAt + currentFlowRate * (now / MsPerSecond - updatedAtTimestamp)
  {
    var q := now / 1000;
    assert now == q * 1000 + now % 1000;
    assert now - updatedAtTimestamp * 1000 == (q - updatedAtTimestamp) * 1000 + now % 1000;
  }

  /** The amount never decreases as time passes, and is at least the settled
      amount from the moment of the update on. */
  lemma TotalStreamedGrows(streamedUntilUpdatedAt: nat, currentFlowRate: nat, updatedAtTimestamp: nat, early: nat, late: nat)
    requires early <= late
    ensures TotalStreamed(streamedUntilUpdatedAt, currentFlowRate, updatedAtTimestamp, early)
         <= TotalStreamed(streamedUntilUpdatedAt, currentFlowRate, updatedAtTimestamp, late)
    ensures early >= updatedAtTimestamp * MsPerSecond ==>
      TotalStreamed(streamedUntilUpdatedAt, currentFlowRate, updatedAtTimestamp, early) >= streamedUntilUpdatedAt
  {
    TotalStreamedBySeconds(streamedUntilUpdatedAt, currentFlowRate, updatedAtTimestamp, early);
    TotalStreamedBySeconds(streamedUntilUpdatedAt, currentFlowRate, updatedAtTimestamp, late);
    var a, b := early / 1000 - updatedAtTimestamp, late / 1000 - updatedAtTimestamp;
    assert a <= b;
    assert currentFlowRate * a <= currentFlowRate * b by {
      assert currentFlowRate * (b - a) >= 0;
    }
  }

  // ---------------------------------------------------------------------------
  // Reading the subgraph

  /** A stream as the subgraph lists it; the decimal strings of the reply
      are given by their values. */
  datatype SubgraphStream = SubgraphStream(
    tokenId: string,
    tokenSymbol: string,
    receiverId: string,
    currentFlowRate: nat,
    streamedUntilUpdatedAt: nat,
    createdAtTimestamp: nat,
    updatedAtTimestamp: nat)

  datatype GraphData = GraphData(streams: Option<seq<SubgraphStream>>)

  /** The JSON body: its `errors` (their messages) and its `data`, each
      possibly absent. */
  datatype GraphBody = GraphBody(errors: Option<seq<string>>, data: Option<GraphData>)

  datatype SubgraphReply = QueryThrew | QueryNotOk | QueryOk(body: GraphBody) | QueryOkNotJson

  datatype FetchError =
    | NetworkFailure        // fetch rejected, or the body was not JSON
    | HttpFailure           // "Failed to fetch streams from subgraph"
    | GraphError(message: string)
    | MalformedBody         // reading a field of something absent threw

  /** `fetchStreams`: a non-2xx reply fails; a body with `errors` fails with
      the first error's message; otherwise the listed streams, or none. */
  function FetchStreams(reply: SubgraphReply): (r: Result<seq<SubgraphStream>, FetchError>)
    ensures r.Ok? <==> reply.QueryOk? && reply.body.errors.None? && reply.body.data.Some?
    ensures reply.QueryNotOk? ==> r == Err(HttpFailure)
    ensures reply.QueryOk? && reply.body.errors.Some? && |reply.body.errors.value| > 0 ==>
      r == Err(GraphError(reply.body.errors.value[0]))
    ensures r.Ok? ==> r.value == reply.body.data.value.streams.GetOr([])
  {
    match reply
    case QueryThrew => Err(NetworkFailure)
    case QueryOkNotJson => Err(NetworkFailure)
    case QueryNotOk => Err(HttpFailure)
    case QueryOk(body) =>
      if body.errors.Some? then
        if |body.errors.value| > 0 then Err(GraphError(body.errors.value[0])) else Err(MalformedBody)
      else if body.data.None? then Err(MalformedBody)
      else Ok(body.data.value.streams.GetOr([]))
  }

  // ---------------------------------------------------------------------------
  // Building the list

  /** A card of the list; amounts are in wei and times in milliseconds. */
  datatype Stream = Stream(
    token: string,
    receiver: string,
    receiverEns: Option<string>,
    receiverAvatar: Option<string>,
    flowRate: nat,
    tokenSymbol: string,
    totalAmountStreamed: Option<int>,
    streamedSince: Option<nat>,
    isResolvingEns: bool)

  /** The card for one subgraph stream once its receiver has been named. */
  function StreamEntry(s: SubgraphStream, name: ResolvedName, now: nat): Stream {
    Stream(s.tokenId, s.receiverId, name.displayName, name.avatar, s.currentFlowRate, s.tokenSymbol,
           Some(TotalStreamed(s.streamedUntilUpdatedAt, s.currentFlowRate, s.updatedAtTimestamp, now)),
           Some(s.createdAtTimestamp * MsPerSecond), false)
  }

  datatype Built = Built(entries: seq<Stream>, cache: map<string, CacheEntry>)

  /** The loop of `fetchStreamData`: one card per subgraph stream, in order,
      naming each receiver through the cache as it goes; `lookup` is what
      web3.bio answers for an address. */
  function BuildStreams(source: seq<SubgraphStream>, cache: map<string, CacheEntry>, lookup: string -> NameReply, now: nat): (b: Built)
    ensures |b.entries| == |source|
    decreases |source|
  {
    if |source| == 0 then Built([], cache)
    else
      var before := BuildStreams(source[..|source| - 1], cache, lookup, now);
      var s := source[|source| - 1];
      var res := ResolveAddress(before.cache, s.receiverId, now, lookup(s.receiverId));
      Built(before.entries + [StreamEntry(s, res.name, now)], res.cache)
  }

  /** The list has one card per subgraph stream, in the subgraph's order,
      with its token, receiver, rate and symbol copied, its accrued amount,
      and no name still resolving. */
  lemma {:induction false} BuildStreamsCopies(source: seq<SubgraphStream>, cache: map<string, CacheEntry>, lookup: string -> NameReply, now: nat)
    ensures var b := BuildStreams(source, cache, lookup, now).entries;
      && |b| == |source|
      && forall i | 0 <= i < |b| ::
        && b[i].token == source[i].tokenId
        && b[i].receiver == source[i].receiverId
        && b[i].flowRate == source[i].currentFlowRate
        && b[i].tokenSymbol == source[i].tokenSymbol
        && !b[i].isResolvingEns
        && b[i].totalAmountStreamed == Some(TotalStreamed(source[i].streamedUntilUpdatedAt,
             source[i].currentFlowRate, source[i].updatedAtTimestamp, now))
    decreases |source|
  {
    if |source| > 0 {
      BuildStreamsCopies(source[..|source| - 1], cache, lookup, now);
    }
  }

  /** After a refresh every receiver listed has a fresh cache entry whose name
      is the one its cards show. */
  ghost predicate NamesCached(source: seq<SubgraphStream>, b: Built, now: nat) {
    |b.entries| == |source| &&
    forall i | 0 <= i < |source| ::
      IsFresh(b.cache, source[i].receiverId, now) &&
      NameOf(b.cache[source[i].receiverId]) == ResolvedName(b.entries[i].receiverEns, b.entries[i].receiverAvatar)
  }

  lemma {:induction false} BuildStreamsCachesNames(source: seq<SubgraphStream>, cache: map<string, CacheEntry>, lookup: string -> NameReply, now: nat)
    ensures NamesCached(source, BuildStreams(source, cache, lookup, now), now)
    decreases |source|
  {
    if |source| > 0 {
      var prefix := source[..|source| - 1];
      var before := BuildStreams(prefix, cache, lookup, now);
      BuildStreamsCachesNames(prefix, cache, lookup, now);
      var s := source[|source| - 1];
      var res := ResolveAddress(before.cache, s.receiverId, now, lookup(s.receiverId));
      var b := BuildStreams(source, cache, lookup, now);
      assert b == Built(before.entries + [StreamEntry(s, res.name, now)], res.cache);
      forall i | 0 <= i < |source|
        ensures IsFresh(b.cache, source[i].receiverId, now)
        ensures NameOf(b.cache[source[i].receiverId]) == ResolvedName(b.entries[i].receiverEns, b.entries[i].receiverAvatar)
      {
        if i < |prefix| {
          assert source[i] == prefix[i];
          assert b.entries[i] == before.entries[i];
        }
      }
    }
  }

  /** Within one refresh, cards to the same receiver show the same name: the
      first lookup is cached and answers the later ones. */
  lemma SameReceiverSameName(source: seq<SubgraphStream>, cache: map<string, CacheEntry>, lookup: string -> NameReply, now: nat, i: nat, j: nat)
    requires i < |source| && j < |source| && source[i].receiverId == source[j].receiverId
    ensures var b := BuildStreams(source, cache, lookup, now).entries;
      b[i].receiverEns == b[j].receiverEns && b[i].receiverAvatar == b[j].receiverAvatar
  {
    BuildStreamsCachesNames(source, cache, lookup, now);
  }

  /** The list the page shows after a successful read, as written: the loop
      only ever stores the list it has built so far, so when the subgraph
      lists no stream the previous list stays on screen. */
  function ShownAfterRefreshAsWritten(previous: seq<Stream>, built: seq<Stream>): seq<Stream> {
    if |built| == 0 then previous else built
  }

  /** A stream that has since been stopped elsewhere stays listed after a
      refresh that finds no stream at all. */
  lemma StaleListAfterEmptyRefresh(stale: Stream)
    ensures ShownAfterRefreshAsWritten([stale], []) == [stale]
    ensures ShownAfterRefreshAsWritten([stale], []) != []
  {
  }

  /** The list the page shows after a successful read, as intended: exactly
      the cards built from this read. */
  function ShownAfterRefresh(previous: seq<Stream>, built: seq<Stream>): seq<Stream> {
    built
  }

  /** The two rules differ only on a read that lists no stream. */
  lemma RulesAgreeOnNonEmptyRead(previous: seq<Stream>, built: seq<Stream>)
    ensures ShownAfterRefreshAsWritten(previous, built) == ShownAfterRefresh(previous, built) <==>
      |built| > 0 || previous == []
  {
  }

  /** With the intended rule the list after a refresh is the subgraph's list,
      card for card, whatever was shown before. */
  lemma RefreshShowsSubgraph(previous: seq<Stream>, source: seq<SubgraphStream>, cache: map<string, CacheEntry>, lookup: string -> NameReply, now: nat)
    ensures var shown := ShownAfterRefresh(previous, BuildStreams(source, cache, lookup, now).entries);
      && |shown| == |source|
      && forall i | 0 <= i < |shown| :: shown[i].token == source[i].tokenId && shown[i].receiver == source[i].receiverId
  {
    BuildStreamsCopies(source, cache, lookup, now);
  }

  // ---------------------------------------------------------------------------
  // Stopping a stream

  /** The stream a card stands for: the same token to the same receiver. */
  predicate SamePair(s: Stream, token: string, receiver: string) {
    s.token == token && s.receiver == receiver
  }

  /** `streams.filter((s) => s.token !== token || s.receiver !== receiver)`. */
  function WithoutStream(streams: seq<Stream>, token: string, receiver: string): seq<Stream> {
    if |streams| == 0 then []
    else if SamePair(streams[0], token, receiver) then WithoutStream(streams[1..], token, receiver)
    else [streams[0]] + WithoutStream(streams[1..], token, receiver)
  }

  /** A card stays exactly when it is not the stopped pair. */
  lemma {:induction false} WithoutStreamMembers(streams: seq<Stream>, token: string, receiver: string, s: Stream)
    ensures s in WithoutStream(streams, token, receiver) <==> s in streams && !SamePair(s, token, receiver)
    decreases |streams|
  {
    if |streams| > 0 {
      WithoutStreamMembers(streams[1..], token, receiver, s);
      assert streams == [streams[0]] + streams[1..];
    }
  }

  /** Removal works piece by piece, so the cards that stay keep their order. */
  lemma {:induction false} WithoutStreamAppend(a: seq<Stream>, b: seq<Stream>, token: string, receiver: string)
    ensures WithoutStream(a + b, token, receiver) == WithoutStream(a, token, receiver) + WithoutStream(b, token, receiver)
    decreases |a|
  {
    if |a| > 0 {
      assert (a + b)[1..] == a[1..] + b;
      WithoutStreamAppend(a[1..], b, token, receiver);
    } else {
      assert a + b == b;
    }
  }

  /** Stopping the same stream twice removes nothing more. */
  lemma {:induction false} WithoutStreamIdempotent(streams: seq<Stream>, token: string, receiver: string)
    ensures WithoutStream(WithoutStream(streams, token, receiver), token, receiver) == WithoutStream(streams, token, receiver)
    decreases |streams|
  {
    if |streams| > 0 {
      WithoutStreamIdempotent(streams[1..], token, receiver);
    }
  }

  /** `${token}-${receiver}`, the key of the stream being stopped. */
  function StreamKey(s: Stream): string {
    s.token + "-" + s.receiver
  }

  /** How the stop transaction went: it threw, or it was mined with this status. */
  datatype TxOutcome = TxThrew(error: JsError) | TxMined(status: nat)

  // ---------------------------------------------------------------------------
  // Silencing known RPC noise

  const IgnoredErrors: seq<string> := ["missing revert data", "Internal JSON-RPC error", "pelagus_healthCheck"]

  /** The replaced `console.error` drops a message whose arguments, joined by
      spaces, mention one of the known harmless RPC errors. */
  predicate SuppressConsoleError(args: seq<string>) {
    var text := Join(args, " ");
    Contains(text, IgnoredErrors[0]) || Contains(text, IgnoredErrors[1]) || Contains(text, IgnoredErrors[2])
  }

  /** One argument that mentions a known error is enough to drop the message,
      whatever the other arguments say. */
  lemma {:induction false} ArgumentMentionSuppresses(args: seq<string>, k: nat, m: nat)
    requires k < |args| && m < |IgnoredErrors|
    requires Contains(args[k], IgnoredErrors[m])
    ensures SuppressConsoleError(args)
  {
    var before, after := JoinHasPart(args, " ", k);
    ContainsInside(before, args[k], after, IgnoredErrors[m]);
  }

  /** The message is matched after joining: a phrase split across two
      arguments is dropped although neither argument holds it. */
  lemma SplitPhraseSuppressed()
    ensures SuppressConsoleError(["missing revert", "data"])
    ensures !Contains("missing revert", IgnoredErrors[0]) && !Contains("data", IgnoredErrors[0])
  {
    var args := ["missing revert", "data"];
    assert Join(args, " ") == "missing revert data" by {
      assert Join(args[1..], " ") == "data";
    }
    assert OccursAt(Join(args, " "), IgnoredErrors[0], 0);
  }

  // ---------------------------------------------------------------------------
  // The component's state

  class StreamList {
    var streams: seq<Stream>
    var message: string
    var loading: bool
    var refreshing: bool
    var stoppingStream: Option<string>
    var streamToStop: Option<Stream>
    const cache: EnsCache

    constructor (cache: EnsCache)
      ensures this.cache == cache
      ensures streams == [] && message == "" && !loading && !refreshing
      ensures stoppingStream == None && streamToStop == None
    {
      this.cache := cache;
      streams := [];
      message := "";
      loading := false;
      refreshing := false;
      stoppingStream := None;
      streamToStop := None;
    }

    /** The stop button of a card is greyed out while that stream is stopping. */
    predicate CardStopDisabled(s: Stream)
      reads this
    {
      stoppingStream == Some(StreamKey(s))
    }

    /** The refresh button. */
    predicate RefreshDisabled()
      reads this
    {
      loading || refreshing
    }

    /** `fetchStreamData`, with the subgraph's reply, web3.bio's answers and the
        clock as parameters. The list is stored as the code stores it: a read
        that lists no stream leaves the previous list in place. */
    method FetchStreamData(isConnected: bool, hasAddress: bool, reply: SubgraphReply, lookup: string -> NameReply, now: nat)
      modifies this, cache
      ensures !isConnected || !hasAddress ==>
        unchanged(this) && cache.entries == old(cache.entries)
      ensures isConnected && hasAddress ==>
        && !loading && !refreshing && !RefreshDisabled()
        && stoppingStream == old(stoppingStream) && streamToStop == old(streamToStop)
        && match FetchStreams(reply)
           case Err(_) =>
             streams == old(streams) && message == FetchFailedMessage && cache.entries == old(cache.entries)
           case Ok(source) =>
             var b := BuildStreams(source, old(cache.entries), lookup, now);
             streams == ShownAfterRefreshAsWritten(old(streams), b.entries) && message == "" && cache.entries == b.cache
    {
      if !isConnected || !hasAddress {
        return;
      }
      loading := true;
      var fetched := FetchStreams(reply);
      match fetched {
        case Err(_) =>
          message := FetchFailedMessage;
        case Ok(source) =>
          var built := BuildList(source, lookup, now);
          streams := ShownAfterRefreshAsWritten(streams, built);
          message := "";
      }
      loading := false;
      refreshing := false;
    }

    /** The loop of `fetchStreamData`: push a card per subgraph stream, naming
        its receiver through the shared cache. */
    method BuildList(source: seq<SubgraphStream>, lookup: string -> NameReply, now: nat) returns (built: seq<Stream>)
      modifies cache
      ensures Built(built, cache.entries) == BuildStreams(source, old(cache.entries), lookup, now)
    {
      built := [];
      var i := 0;
      while i < |source|
        invariant 0 <= i <= |source|
        invariant Built(built, cache.entries) == BuildStreams(source[..i], old(cache.entries), lookup, now)
      {
        var s := source[i];
        var name := cache.Resolve(s.receiverId, now, lookup(s.receiverId));
        built := built + [StreamEntry(s, name, now)];
        assert source[..i + 1][..i] == source[..i];
        i := i + 1;
      }
      assert source[..i] == source;
    }

    /** The refresh button: mark refreshing, then read again. */
    method HandleRefresh(isConnected: bool, hasAddress: bool, reply: SubgraphReply, lookup: string -> NameReply, now: nat)
      modifies this, cache
      ensures !isConnected || !hasAddress ==>
        && refreshing && streams == old(streams) && message == old(message) && loading == old(loading)
        && cache.entries == old(cache.entries)
      ensures stoppingStream == old(stoppingStream) && streamToStop == old(streamToStop)
      ensures isConnected && hasAddress ==>
        && !loading && !refreshing && !RefreshDisabled()
        && match FetchStreams(reply)
           case Err(_) =>
             streams == old(streams) && message == FetchFailedMessage && cache.entries == old(cache.entries)
           case Ok(source) =>
             var b := BuildStreams(source, old(cache.entries), lookup, now);
             streams == ShownAfterRefreshAsWritten(old(streams), b.entries) && message == "" && cache.entries == b.cache
    {
      refreshing := true;
      FetchStreamData(isConnected, hasAddress, reply, lookup, now);
    }

    /** A card's stop button opens the confirmation dialog for that stream. */
    method AskToStop(s: Stream)
      modifies this`streamToStop
      ensures streamToStop == Some(s)
    {
      streamToStop := Some(s);
    }

    /** The dialog's cancel button. */
    method CancelStop()
      modifies this`streamToStop
      ensures streamToStop == None
    {
      streamToStop := None;
    }

    /** `stopStream`, with the transaction's outcome as a parameter. Without a
        wallet only the message changes; otherwise the stream is removed when
        its transaction succeeds, and the stopping state is cleared whatever
        happened. */
    method StopStream(s: Stream, isConnected: bool, hasWalletClient: bool, tx: TxOutcome)
      modifies this`streams, this`message, this`stoppingStream, this`streamToStop
      ensures !isConnected || !hasWalletClient ==>
        && message == ConnectWalletMessage && streams == old(streams)
        && stoppingStream == old(stoppingStream) && streamToStop == old(streamToStop)
      ensures isConnected && hasWalletClient ==>
        && stoppingStream == None && streamToStop == None && !CardStopDisabled(s)
        && match tx
           case TxMined(status) =>
             if status == 0 then streams == old(streams) && message == TxFailedMessage
             else streams == WithoutStream(old(streams), s.token, s.receiver)
                  && message == s.tokenSymbol + " stream has been stopped successfully!"
           case TxThrew(e) =>
             streams == old(streams) && message == ErrorText(e, StopFailedMessage)
    {
      if !isConnected || !hasWalletClient {
        message := ConnectWalletMessage;
        return;
      }
      stoppingStream := Some(StreamKey(s));
      message := "Stopping " + s.tokenSymbol + " stream...";
      match tx {
        case TxThrew(e) =>
          message := ErrorText(e, StopFailedMessage);
        case TxMined(status) =>
          if status == 0 {
            message := ErrorText(ErrorWithMessage(TxFailedMessage), StopFailedMessage);
          } else {
            streams := WithoutStream(streams, s.token, s.receiver);
            message := s.tokenSymbol + " stream has been stopped successfully!";
          }
      }
      stoppingStream := None;
      streamToStop := None;
    }
  }
}
