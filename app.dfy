/** The reconciler of the full recorder: the per-channel status table, its
    reload from the streams file, the polling step that turns one API
    observation into a status update and a start or stop request, the
    handlers of the supervisor's events, and shutdown. */
module Reconciler {
  import opened Js
  import opened ApiManager
  import opened Streams

  datatype Status = Offline | Live | Recording | Error

  /** One entry of `streamStates`; `None` fields have not been set. */
  datatype StreamState = StreamState(
    status: Status,
    name: string,
    channelId: ChannelId,
    listenerCount: Option<int>,
    startTime: Option<int>)

  /** The app's fields together with the supervisor it owns. `exitStatus` is
      the code passed to `process.exit`, once shutdown has reached it. */
  datatype AppState = AppState(
    channelIds: seq<ChannelId>,
    streamStates: map<ChannelId, StreamState>,
    pollingIntervalId: Option<nat>,
    uiUpdateIntervalId: Option<nat>,
    exitStatus: Option<int>,
    sup: Supervisor)

  /** What the environment answers while one channel is polled: the API
      request's outcome, whether spawning yt-dlp works, and the clock. */
  datatype Observation = Observation(outcome: FetchOutcome, spawn: SpawnOutcome, iso: string, now: int)

  /** The result of reading and parsing the streams file. */
  datatype LoadOutcome = LoadFailed | Parsed(ids: seq<ChannelId>)

  /** The table has an entry for exactly the listed channels. */
  ghost predicate AppInv(a: AppState) {
    Inv(a.sup) && a.streamStates.Keys == set ch | ch in a.channelIds
  }

  function Fresh(ch: ChannelId): StreamState {
    StreamState(Offline, ch, ch, None, None)
  }

  function InitialApp(): AppState {
    AppState([], map[], None, None, None, Initial())
  }

  // ---------------------------------------------------------------------------
  // bindEvents

  /** The channel an event is about, if any. */
  function Subject(e: Event): Option<ChannelId> {
    if e.Log? then None else Some(e.channelId)
  }

  /** The `stream:started` / `stream:stopped` / `stream:error` handlers at
      time `now`; `log` only reaches the screen. */
  function OnEvent(states: map<ChannelId, StreamState>, e: Event, now: int): (r: map<ChannelId, StreamState>)
    ensures r.Keys == states.Keys
    ensures forall ch :: ch in states && Subject(e) != Some(ch) ==> r[ch] == states[ch]
    ensures forall ch :: ch in states ==> r[ch].name == states[ch].name && r[ch].listenerCount == states[ch].listenerCount
    ensures e.Started? && e.channelId in states ==> r[e.channelId].status == Recording && r[e.channelId].startTime == Some(now)
    ensures e.Stopped? && e.channelId in states ==>
      r[e.channelId] == states[e.channelId].(status := Offline)
    ensures e.Error? && e.channelId in states ==>
      r[e.channelId] == states[e.channelId].(status := Status.Error)
  {
    match e
    case Log(_) => states
    case Started(ch) =>
      if ch in states then states[ch := states[ch].(status := Recording, startTime := Some(now))] else states
    case Stopped(ch) =>
      if ch in states then states[ch := states[ch].(status := Offline)] else states
    case Error(ch, _) =>
      if ch in states then states[ch := states[ch].(status := Status.Error)] else states
  }

  /** The events emitted during one call, handled in emission order. */
  function Deliver(states: map<ChannelId, StreamState>, es: seq<Event>, now: int): (r: map<ChannelId, StreamState>)
    ensures r.Keys == states.Keys
    ensures forall ch :: ch in states ==> r[ch].name == states[ch].name && r[ch].listenerCount == states[ch].listenerCount
    ensures forall ch :: ch in states && (forall k :: 0 <= k < |es| ==> Subject(es[k]) != Some(ch)) ==> r[ch] == states[ch]
    decreases |es|
  {
    if es == [] then states
    else
      var r := Deliver(OnEvent(states, es[0], now), es[1..], now);
      assert forall ch, k :: 0 <= k < |es| - 1 && Subject(es[1..][k]) == Some(ch) ==> Subject(es[k + 1]) == Some(ch);
      r
  }

  /** After a run of events, a known channel's status is the one its last
      event sets, or unchanged when no event was about it. */
  function StatusAfter(status: Status, es: seq<Event>, ch: ChannelId): Status
    decreases |es|
  {
    if es == [] then status
    else
      var e := es[|es| - 1];
      if Subject(e) == Some(ch) then
        (match e case Started(_) => Recording case Stopped(_) => Offline case _ => Status.Error)
      else StatusAfter(status, es[..|es| - 1], ch)
  }

  lemma {:induction false} DeliverStatus(states: map<ChannelId, StreamState>, es: seq<Event>, now: int, ch: ChannelId)
    requires ch in states
    ensures Deliver(states, es, now)[ch].status == StatusAfter(states[ch].status, es, ch)
    decreases |es|
  {
    if es != [] {
      var s1 := OnEvent(states, es[0], now);
      DeliverStatus(s1, es[1..], now, ch);
      StatusAfterCons(states[ch].status, s1[ch].status, es, ch);
    }
  }

  /** Peeling the first event off a run. */
  lemma {:induction false} StatusAfterCons(status: Status, status1: Status, es: seq<Event>, ch: ChannelId)
    requires es != []
    requires Subject(es[0]) != Some(ch) ==> status1 == status
    requires Subject(es[0]) == Some(ch) ==> status1 == StatusAfter(status, [es[0]], ch)
    ensures StatusAfter(status1, es[1..], ch) == StatusAfter(status, es, ch)
    decreases |es|
  {
    if |es| > 1 {
      var pre := es[..|es| - 1];
      StatusAfterCons(status, status1, pre, ch);
      assert es[1..][..|es[1..]| - 1] == pre[1..];
    }
  }

  // ---------------------------------------------------------------------------
  // loadChannelIds

  /** The keys of `order` that the new list no longer has, in the order met. */
  function Stale(order: seq<ChannelId>, ids: seq<ChannelId>): (r: seq<ChannelId>)
    ensures forall ch :: ch in r <==> ch in order && ch !in ids
    decreases |order|
  {
    if order == [] then []
    else
      var pre := Stale(order[..|order| - 1], ids);
      var last := order[|order| - 1];
      assert forall ch :: ch in order <==> ch in order[..|order| - 1] || ch == last;
      pre + (if last in ids then [] else [last])
  }

  /** Stale keys of an enumeration are listed once each. */
  lemma {:induction false} StaleDistinct(order: seq<ChannelId>, ids: seq<ChannelId>)
    requires forall i, j :: 0 <= i < j < |order| ==> order[i] != order[j]
    ensures var r := Stale(order, ids); forall i, j :: 0 <= i < j < |r| ==> r[i] != r[j]
    decreases |order|
  {
    if order != [] {
      var pre := order[..|order| - 1];
      StaleDistinct(pre, ids);
      var last := order[|order| - 1];
      assert forall k :: 0 <= k < |pre| ==> pre[k] == order[k];
      assert last !in pre;
      assert last !in Stale(pre, ids);
      assert Stale(order, ids) == Stale(pre, ids) + (if last in ids then [] else [last]);
    }
  }

  lemma StaleSnoc(order: seq<ChannelId>, ch: ChannelId, ids: seq<ChannelId>)
    ensures Stale(order + [ch], ids) == Stale(order, ids) + (if ch in ids then [] else [ch])
  {
    assert (order + [ch])[..|order|] == order;
  }

  /** The table after the stale entries are deleted. */
  function Retained(states: map<ChannelId, StreamState>, ids: seq<ChannelId>): map<ChannelId, StreamState> {
    map ch | ch in states && ch in ids :: states[ch]
  }

  /** The table once the entries of `chs` are deleted, one after another. */
  function Without(states: map<ChannelId, StreamState>, chs: seq<ChannelId>): (r: map<ChannelId, StreamState>)
    ensures forall ch :: ch in r <==> ch in states && ch !in chs
    ensures forall ch :: ch in r ==> r[ch] == states[ch]
    decreases |chs|
  {
    if chs == [] then states
    else
      var pre := chs[..|chs| - 1];
      assert forall ch :: ch in chs <==> ch in pre || ch == chs[|chs| - 1];
      Without(states, pre) - {chs[|chs| - 1]}
  }

  lemma WithoutSnoc(states: map<ChannelId, StreamState>, chs: seq<ChannelId>, ch: ChannelId)
    ensures Without(states, chs + [ch]) == Without(states, chs) - {ch}
  {
    assert (chs + [ch])[..|chs|] == chs;
  }

  /** Deleting every stale key of an enumeration of the table keeps exactly
      the entries the new list names. */
  lemma WithoutStaleIsRetained(states: map<ChannelId, StreamState>, order: seq<ChannelId>, ids: seq<ChannelId>)
    requires Enumerates(order, states.Keys)
    ensures Without(states, Stale(order, ids)) == Retained(states, ids)
  {
  }

  /** The table after each listed id without an entry gets a fresh one. */
  function AddNew(states: map<ChannelId, StreamState>, ids: seq<ChannelId>): map<ChannelId, StreamState> {
    map ch | ch in states.Keys + (set c | c in ids) :: if ch in states then states[ch] else Fresh(ch)
  }

  /** `loadChannelIds()` with the file's outcome; the stale entries are
      stopped in the order of `order`, an enumeration of the table's keys.
      `stop` emits only `log` events here, which leave the table alone. */
  function LoadStep(a: AppState, outcome: LoadOutcome, order: seq<ChannelId>, now: int): (r: AppState)
    requires AppInv(a) && Enumerates(order, a.streamStates.Keys)
    ensures AppInv(r)
    ensures outcome.LoadFailed? ==> r == a
    ensures outcome.Parsed? ==>
      && r.channelIds == outcome.ids
      && (forall ch :: ch in r.streamStates <==> ch in outcome.ids)
      && (forall ch :: ch in outcome.ids && ch in a.streamStates ==> r.streamStates[ch] == a.streamStates[ch])
      && (forall ch :: ch in outcome.ids && ch !in a.streamStates ==> r.streamStates[ch] == Fresh(ch))
      && r.sup == StopEach(a.sup, Stale(order, outcome.ids), now)
    ensures r.pollingIntervalId == a.pollingIntervalId && r.uiUpdateIntervalId == a.uiUpdateIntervalId
    ensures r.exitStatus == a.exitStatus
  {
    match outcome
    case LoadFailed => a
    case Parsed(ids) =>
      a.(channelIds := ids, streamStates := AddNew(Retained(a.streamStates, ids), ids),
         sup := StopEach(a.sup, Stale(order, ids), now))
  }

  /** Every previous channel missing from the new list has been passed to
      `stop` once, and none that is still listed. */
  lemma LoadStopsStale(a: AppState, ids: seq<ChannelId>, order: seq<ChannelId>, now: int)
    requires AppInv(a) && Enumerates(order, a.streamStates.Keys)
    ensures var stale := Stale(order, ids);
      && (forall ch :: ch in stale <==> ch in a.streamStates && ch !in ids)
      && (forall i, j :: 0 <= i < j < |stale| ==> stale[i] != stale[j])
      && LoadStep(a, Parsed(ids), order, now).sup.nextTicket == a.sup.nextTicket + |stale|
  {
    StaleDistinct(order, ids);
  }

  // ---------------------------------------------------------------------------
  // pollStreams

  /** `if (info.error)`: an error string is acted on only when non-empty. */
  predicate HasError(info: Info) {
    info.error.Some? && info.error.value != ""
  }

  /** The events one supervisor call emitted. */
  function Emitted(before: Supervisor, after: Supervisor): seq<Event>
    requires |before.events| <= |after.events|
  {
    after.events[|before.events|..]
  }

  /** The `info.live` branch, with the guard as written: the status has just
      been set to live, so the first conjunct never fails. */
  function LiveBranch(a: AppState, cfg: Config, ch: ChannelId, st: StreamState, info: Info, ob: Observation): (r: AppState)
    requires AppInv(a) && ch in a.streamStates
    ensures AppInv(r) && r.channelIds == a.channelIds && r.streamStates.Keys == a.streamStates.Keys
    ensures forall other :: other in a.streamStates && other != ch ==> r.streamStates[other] == a.streamStates[other]
  {
    var st1 := st.(status := Live, listenerCount := Some(info.listenerCount.GetOr(0)));
    var a1 := a.(streamStates := a.streamStates[ch := st1]);
    assert a1.streamStates.Keys == a.streamStates.Keys;
    if st1.status != Recording && ch !in a.sup.processes then
      var sup1 := StartStep(a.sup, cfg, ch, st1.name, info.url.GetOr(""), ob.iso, ob.spawn);
      StartTouchesOnly(a1.streamStates, a.sup, cfg, ch, st1.name, info.url.GetOr(""), ob.iso, ob.spawn, ob.now);
      a1.(streamStates := Deliver(a1.streamStates, Emitted(a.sup, sup1), ob.now), sup := sup1)
    else a1
  }

  /** The offline branch: stop the recording if there is one. */
  function OfflineBranch(a: AppState, ch: ChannelId, st: StreamState, ob: Observation): (r: AppState)
    requires AppInv(a) && ch in a.streamStates
    ensures AppInv(r) && r.channelIds == a.channelIds && r.streamStates.Keys == a.streamStates.Keys
    ensures forall other :: other in a.streamStates && other != ch ==> r.streamStates[other] == a.streamStates[other]
  {
    var st1 := st.(status := Offline, listenerCount := Some(0));
    var a1 := a.(streamStates := a.streamStates[ch := st1]);
    assert a1.streamStates.Keys == a.streamStates.Keys;
    if ch in a.sup.processes then
      var sup1 := StopStep(a.sup, ch, ob.now);
      StopTouchesOnly(a1.streamStates, a.sup, ch, ob.now);
      a1.(streamStates := Deliver(a1.streamStates, Emitted(a.sup, sup1), ob.now), sup := sup1)
    else a1
  }

  /** One iteration of the `pollStreams` loop for channel `ch`. */
  function PollChannelStep(a: AppState, cfg: Config, ch: ChannelId, ob: Observation): (r: AppState)
    requires AppInv(a) && ch in a.streamStates
    ensures AppInv(r)
    ensures r.channelIds == a.channelIds && r.streamStates.Keys == a.streamStates.Keys
    ensures r.pollingIntervalId == a.pollingIntervalId && r.uiUpdateIntervalId == a.uiUpdateIntervalId
    ensures r.exitStatus == a.exitStatus
    ensures r.streamStates[ch].name == GetStreamInfo(ch, ob.outcome).name
    ensures HasError(GetStreamInfo(ch, ob.outcome)) ==> r.streamStates[ch].status == Status.Error
    ensures forall other :: other in a.streamStates && other != ch ==> r.streamStates[other] == a.streamStates[other]
  {
    var info := GetStreamInfo(ch, ob.outcome);
    var st := a.streamStates[ch].(name := info.name);
    var b := if info.live then LiveBranch(a, cfg, ch, st, info, ob) else OfflineBranch(a, ch, st, ob);
    if HasError(info) then b.(streamStates := b.streamStates[ch := b.streamStates[ch].(status := Status.Error)])
    else b
  }

  /** A whole pass over the list `chs`, one observation per channel. */
  function PollPass(a: AppState, cfg: Config, chs: seq<ChannelId>, obs: seq<Observation>): (r: AppState)
    requires AppInv(a) && |obs| == |chs| && forall i :: 0 <= i < |chs| ==> chs[i] in a.streamStates
    ensures AppInv(r)
    ensures r.channelIds == a.channelIds && r.streamStates.Keys == a.streamStates.Keys
    ensures r.exitStatus == a.exitStatus
    decreases |chs|
  {
    if chs == [] then a
    else
      var n := |chs| - 1;
      PollChannelStep(PollPass(a, cfg, chs[..n], obs[..n]), cfg, chs[n], obs[n])
  }

  lemma PollPassSnoc(a: AppState, cfg: Config, chs: seq<ChannelId>, obs: seq<Observation>, i: nat)
    requires AppInv(a) && |obs| == |chs| && i < |chs| && forall j :: 0 <= j < |chs| ==> chs[j] in a.streamStates
    ensures PollPass(a, cfg, chs[..i + 1], obs[..i + 1]) == PollChannelStep(PollPass(a, cfg, chs[..i], obs[..i]), cfg, chs[i], obs[i])
  {
    assert chs[..i + 1][..i] == chs[..i] && obs[..i + 1][..i] == obs[..i];
  }

  /** The guard of the live branch reduces to `!isActive(channelId)`: a live
      observation starts a recording exactly when none is registered, and
      otherwise leaves the supervisor alone. */
  lemma LiveStartsExactlyWhenInactive(a: AppState, cfg: Config, ch: ChannelId, ob: Observation)
    requires AppInv(a) && ch in a.streamStates && GetStreamInfo(ch, ob.outcome).live
    ensures var info := GetStreamInfo(ch, ob.outcome);
      var r := PollChannelStep(a, cfg, ch, ob);
      && (ch in a.sup.processes ==> r.sup == a.sup && r.streamStates[ch].status == Live)
      && (ch !in a.sup.processes ==>
            r.sup == StartStep(a.sup, cfg, ch, info.name, info.url.value, ob.iso, ob.spawn))
      && r.streamStates[ch].listenerCount == Some(info.listenerCount.GetOr(0))
  {
  }

  /** The events `start` emits for a channel without a recording. */
  lemma StartEmits(s: Supervisor, cfg: Config, ch: ChannelId, name: string, url: string, iso: string, spawn: SpawnOutcome)
    requires Inv(s) && ch !in s.processes
    ensures Emitted(s, StartStep(s, cfg, ch, name, url, iso, spawn)) ==
      if spawn.Spawned? then [Log(StartingRecording(name)), Started(ch)]
      else [Log(StartingRecording(name)), Streams.Error(ch, EXEC_ERROR_PREFIX + spawn.message), Log(ConnectionLost(name))]
  {
    var r := StartStep(s, cfg, ch, name, url, iso, spawn);
    assert r.events == s.events + Emitted(s, r);
  }

  /** The events of one `start` concern only the started channel. */
  lemma StartTouchesOnly(states: map<ChannelId, StreamState>, s: Supervisor, cfg: Config, ch: ChannelId,
                         name: string, url: string, iso: string, spawn: SpawnOutcome, now: int)
    requires Inv(s) && ch !in s.processes
    ensures var d := Deliver(states, Emitted(s, StartStep(s, cfg, ch, name, url, iso, spawn)), now);
      forall other :: other in states && other != ch ==> d[other] == states[other]
  {
    StartEmits(s, cfg, ch, name, url, iso, spawn);
  }

  /** The events of one `stop` concern only the stopped channel. */
  lemma StopTouchesOnly(states: map<ChannelId, StreamState>, s: Supervisor, ch: ChannelId, now: int)
    requires Inv(s) && ch in s.processes
    ensures var d := Deliver(states, Emitted(s, StopStep(s, ch, now)), now);
      forall other :: other in states && other != ch ==> d[other] == states[other]
  {
    StopEmits(s, ch, now);
  }

  /** The events `stop` emits for a channel with a recording. */
  lemma StopEmits(s: Supervisor, ch: ChannelId, now: int)
    requires Inv(s) && ch in s.processes
    ensures Emitted(s, StopStep(s, ch, now)) == [Log(StoppingRecording(ch))]
  {
    var r := StopStep(s, ch, now);
    assert r.events == s.events + Emitted(s, r);
  }

  /** What the events of one `start` do to the channel's state: a spawned
      recording shows as recording from `now`, a failed spawn as an error. */
  lemma StartDelivered(states: map<ChannelId, StreamState>, s: Supervisor, cfg: Config, ch: ChannelId,
                       name: string, url: string, iso: string, spawn: SpawnOutcome, now: int)
    requires Inv(s) && ch !in s.processes && ch in states
    ensures var d := Deliver(states, Emitted(s, StartStep(s, cfg, ch, name, url, iso, spawn)), now);
      && (spawn.Spawned? ==> d[ch].status == Recording && d[ch].startTime == Some(now))
      && (spawn.SpawnThrows? ==> d[ch].status == Status.Error)
  {
    StartEmits(s, cfg, ch, name, url, iso, spawn);
    if spawn.Spawned? {
      var es := [Log(StartingRecording(name)), Started(ch)];
      DeliverStatus(states, es, now, ch);
      assert StatusAfter(states[ch].status, es, ch) == Recording;
      DeliverStartTime(states, es, now, ch);
    } else {
      var es := [Log(StartingRecording(name)), Streams.Error(ch, EXEC_ERROR_PREFIX + spawn.message), Log(ConnectionLost(name))];
      DeliverStatus(states, es, now, ch);
      assert StatusAfter(states[ch].status, es, ch) == Status.Error;
    }
  }

  /** A live channel whose recording starts is shown as recording at once,
      because `stream:started` is handled during `start`. */
  lemma LiveStartRecords(a: AppState, cfg: Config, ch: ChannelId, ob: Observation)
    requires AppInv(a) && ch in a.streamStates && ch !in a.sup.processes
    requires GetStreamInfo(ch, ob.outcome).live && ob.spawn.Spawned?
    ensures var r := PollChannelStep(a, cfg, ch, ob);
      && r.streamStates[ch].status == Recording && r.streamStates[ch].startTime == Some(ob.now)
      && ch in r.sup.processes
  {
    var info := GetStreamInfo(ch, ob.outcome);
    var states1 := a.streamStates[ch := a.streamStates[ch].(name := info.name, status := Live,
                                                            listenerCount := Some(info.listenerCount.GetOr(0)))];
    StartDelivered(states1, a.sup, cfg, ch, info.name, info.url.GetOr(""), ob.iso, ob.spawn, ob.now);
    LiveStartDelivers(a, cfg, ch, ob);
  }

  /** A live channel whose spawn throws ends in error, with no entry. */
  lemma LiveStartFails(a: AppState, cfg: Config, ch: ChannelId, ob: Observation)
    requires AppInv(a) && ch in a.streamStates && ch !in a.sup.processes
    requires GetStreamInfo(ch, ob.outcome).live && ob.spawn.SpawnThrows?
    ensures var r := PollChannelStep(a, cfg, ch, ob);
      r.streamStates[ch].status == Status.Error && ch !in r.sup.processes
  {
    var info := GetStreamInfo(ch, ob.outcome);
    var states1 := a.streamStates[ch := a.streamStates[ch].(name := info.name, status := Live,
                                                            listenerCount := Some(info.listenerCount.GetOr(0)))];
    StartDelivered(states1, a.sup, cfg, ch, info.name, info.url.GetOr(""), ob.iso, ob.spawn, ob.now);
    LiveStartDelivers(a, cfg, ch, ob);
  }

  /** The live branch of an inactive channel: the new states are the events
      of `start` delivered to the states with the channel marked live. */
  lemma LiveStartDelivers(a: AppState, cfg: Config, ch: ChannelId, ob: Observation)
    requires AppInv(a) && ch in a.streamStates && ch !in a.sup.processes
    requires GetStreamInfo(ch, ob.outcome).live
    ensures var info := GetStreamInfo(ch, ob.outcome);
      var states1 := a.streamStates[ch := a.streamStates[ch].(name := info.name, status := Live,
                                                              listenerCount := Some(info.listenerCount.GetOr(0)))];
      var sup1 := StartStep(a.sup, cfg, ch, info.name, info.url.GetOr(""), ob.iso, ob.spawn);
      && PollChannelStep(a, cfg, ch, ob).streamStates == Deliver(states1, Emitted(a.sup, sup1), ob.now)
      && PollChannelStep(a, cfg, ch, ob).sup == sup1
  {
  }

  lemma DeliverStartTime(states: map<ChannelId, StreamState>, es: seq<Event>, now: int, ch: ChannelId)
    requires ch in states && |es| == 2 && es[0].Log? && es[1] == Started(ch)
    ensures Deliver(states, es, now)[ch].startTime == Some(now)
  {
    assert es[1..][1..] == [];
  }

  /** A non-live observation requests `stop` exactly when a recording is registered. */
  lemma OfflineStopsExactlyWhenActive(a: AppState, cfg: Config, ch: ChannelId, ob: Observation)
    requires AppInv(a) && ch in a.streamStates && !GetStreamInfo(ch, ob.outcome).live
    ensures var r := PollChannelStep(a, cfg, ch, ob);
      && r.sup == (if ch in a.sup.processes then StopStep(a.sup, ch, ob.now) else a.sup)
      && r.streamStates[ch].listenerCount == Some(0)
      && r.streamStates[ch].status == (if HasError(GetStreamInfo(ch, ob.outcome)) then Status.Error else Offline)
  {
    var info := GetStreamInfo(ch, ob.outcome);
    var st1 := a.streamStates[ch].(name := info.name, status := Offline, listenerCount := Some(0));
    var states1 := a.streamStates[ch := st1];
    if ch in a.sup.processes {
      StopEmits(a.sup, ch, ob.now);
    }
  }

  /** A failed API request reads as "not live": it stops an active recording
      first, and only then is the channel marked as in error. */
  lemma ApiErrorStopsRecording(a: AppState, cfg: Config, ch: ChannelId, ob: Observation)
    requires AppInv(a) && ch in a.streamStates && ch in a.sup.processes
    requires ob.outcome.NotOk? || (ob.outcome.Threw? && ob.outcome.message != "")
    ensures var r := PollChannelStep(a, cfg, ch, ob);
      && r.sup == StopStep(a.sup, ch, ob.now)
      && r.sup.procs[a.sup.processes[ch]].signals == a.sup.procs[a.sup.processes[ch]].signals + [SigInt]
      && r.streamStates[ch].status == Status.Error
      && r.streamStates[ch].name == ch
  {
    OfflineStopsExactlyWhenActive(a, cfg, ch, ob);
  }

  // ---------------------------------------------------------------------------
  // shutdown

  /** `shutdown(exitCode)`: clear both intervals, stop every recording (in the
      order `order`), and exit with 1 if stopping threw, else `exitCode`. */
  function ShutdownStep(a: AppState, exitCode: int, stopThrows: bool, order: seq<ChannelId>, now: int): (r: AppState)
    requires AppInv(a) && Enumerates(order, a.sup.processes.Keys)
    ensures AppInv(r)
    ensures r.sup == StopAllStep(a.sup, order, now)
    ensures r.pollingIntervalId == None && r.uiUpdateIntervalId == None
    ensures r.exitStatus == Some(if stopThrows then 1 else exitCode)
    ensures r.channelIds == a.channelIds && r.streamStates == a.streamStates
    ensures r.sup.processes == a.sup.processes
  {
    a.(pollingIntervalId := None, uiUpdateIntervalId := None,
       sup := StopAllStep(a.sup, order, now),
       exitStatus := Some(if stopThrows then 1 else exitCode))
  }

  /** Shutdown stops every recording: each process is then being stopped, and
      once all of them have closed no process entry is left and every stop
      promise `stopAll` awaited has resolved. */
  lemma ShutdownStopsAll(a: AppState, exitCode: int, stopThrows: bool, order: seq<ChannelId>, now: int,
                         closing: seq<ChannelId>)
    requires AppInv(a) && Enumerates(order, a.sup.processes.Keys) && Enumerates(closing, a.sup.processes.Keys)
    ensures AllStopping(ShutdownStep(a, exitCode, stopThrows, order, now).sup)
    ensures var s1 := ShutdownStep(a, exitCode, stopThrows, order, now).sup;
      var r := CloseEach(s1, HandlesOf(s1.processes, closing));
      r.processes == map[] && forall t :: a.sup.nextTicket <= t < a.sup.nextTicket + |order| ==> t in r.resolved
  {
    StopAllWiresAll(a.sup, order, now);
    StopAllThenCloseAll(a.sup, order, now, closing);
    StopAllThenResolved(a.sup, order, now, closing);
  }

  // ---------------------------------------------------------------------------
  // The imperative app

  class App {
    const sm: StreamManager
    var channelIds: seq<ChannelId>
    var streamStates: map<ChannelId, StreamState>
    var pollingIntervalId: Option<nat>
    var uiUpdateIntervalId: Option<nat>
    var exitStatus: Option<int>

    function State(): AppState
      reads this, sm
    {
      AppState(channelIds, streamStates, pollingIntervalId, uiUpdateIntervalId, exitStatus, sm.State())
    }

    ghost predicate Valid()
      reads this, sm
    {
      AppInv(State())
    }

    constructor (outputDir: string, ytdlpArgs: seq<string>)
      ensures Valid() && State() == InitialApp()
      ensures fresh(sm) && sm.Settings() == Config(outputDir, ytdlpArgs)
    {
      sm := new StreamManager(outputDir, ytdlpArgs);
      channelIds, streamStates := [], map[];
      pollingIntervalId, uiUpdateIntervalId, exitStatus := None, None, None;
    }

    /** The two `setInterval` calls of `start()`. */
    method ArmTimers(pollingId: nat, uiId: nat)
      requires Valid()
      modifies this
      ensures Valid()
      ensures State() == old(State()).(pollingIntervalId := Some(pollingId), uiUpdateIntervalId := Some(uiId))
    {
      pollingIntervalId := Some(pollingId);
      uiUpdateIntervalId := Some(uiId);
    }

    /** `loadChannelIds()`; `order` is the order in which the old keys were visited. */
    method LoadChannelIds(outcome: LoadOutcome, now: int) returns (ghost order: seq<ChannelId>)
      requires Valid()
      modifies this, sm
      ensures Valid()
      ensures Enumerates(order, old(streamStates).Keys)
      ensures State() == LoadStep(old(State()), outcome, order, now)
    {
      if outcome.LoadFailed? {
        order := SomeOrder(streamStates.Keys);
        return;
      }
      var ids := outcome.ids;
      order := RemoveStale(ids, now);
      AddNewIds(ids);
      channelIds := ids;
    }

    /** The first `forEach` of `loadChannelIds`: stop and delete each entry
        whose channel the new list `ids` lacks. */
    method RemoveStale(ids: seq<ChannelId>, now: int) returns (ghost order: seq<ChannelId>)
      requires sm.Valid()
      modifies this, sm
      ensures sm.Valid()
      ensures Enumerates(order, old(streamStates).Keys)
      ensures streamStates == Retained(old(streamStates), ids)
      ensures sm.State() == StopEach(old(sm.State()), Stale(order, ids), now)
      ensures channelIds == old(channelIds) && pollingIntervalId == old(pollingIntervalId)
      ensures uiUpdateIntervalId == old(uiUpdateIntervalId) && exitStatus == old(exitStatus)
    {
      var keys := KeyList(streamStates.Keys);
      order := keys;
      WithoutStaleIsRetained(streamStates, keys, ids);
      DropEach(keys, ids, now);
    }

    /** `keys.forEach(...)` with the body of `DropIfStale`. */
    method DropEach(keys: seq<ChannelId>, ids: seq<ChannelId>, now: int)
      requires sm.Valid()
      modifies this, sm
      ensures sm.Valid()
      ensures streamStates == Without(old(streamStates), Stale(keys, ids))
      ensures sm.State() == StopEach(old(sm.State()), Stale(keys, ids), now)
      ensures channelIds == old(channelIds) && pollingIntervalId == old(pollingIntervalId)
      ensures uiUpdateIntervalId == old(uiUpdateIntervalId) && exitStatus == old(exitStatus)
    {
      ghost var states0 := streamStates;
      ghost var sup0 := sm.State();
      ghost var done: seq<ChannelId> := [];
      assert Stale(done, ids) == [];
      assert Without(states0, []) == states0;
      for i := 0 to |keys|
        invariant |done| == i && forall k :: 0 <= k < i ==> done[k] == keys[k]
        invariant streamStates == Without(states0, Stale(done, ids))
        invariant sm.State() == StopEach(sup0, Stale(done, ids), now)
        invariant channelIds == old(channelIds) && pollingIntervalId == old(pollingIntervalId)
        invariant uiUpdateIntervalId == old(uiUpdateIntervalId) && exitStatus == old(exitStatus)
      {
        var ch := keys[i];
        DropNext(states0, sup0, done, ch, ids, now);
        done := done + [ch];
      }
      assert done == keys;
    }

    /** One iteration of that `forEach` extends both folds by one key. */
    method DropNext(ghost states0: map<ChannelId, StreamState>, ghost sup0: Supervisor, ghost done: seq<ChannelId>,
                    ch: ChannelId, ids: seq<ChannelId>, now: int)
      requires Inv(sup0) && sm.Valid()
      requires streamStates == Without(states0, Stale(done, ids))
      requires sm.State() == StopEach(sup0, Stale(done, ids), now)
      modifies this, sm
      ensures sm.Valid()
      ensures streamStates == Without(states0, Stale(done + [ch], ids))
      ensures sm.State() == StopEach(sup0, Stale(done + [ch], ids), now)
      ensures channelIds == old(channelIds) && pollingIntervalId == old(pollingIntervalId)
      ensures uiUpdateIntervalId == old(uiUpdateIntervalId) && exitStatus == old(exitStatus)
    {
      ghost var stale := Stale(done, ids);
      StaleSnoc(done, ch, ids);
      if ch in ids {
        assert Stale(done + [ch], ids) == stale;
      } else {
        assert Stale(done + [ch], ids) == stale + [ch];
        StopEachSnoc(sup0, stale, ch, now);
        WithoutSnoc(states0, stale, ch);
      }
      DropIfStale(ch, ids, now);
    }

    /** One iteration of that `forEach`. */
    method DropIfStale(ch: ChannelId, ids: seq<ChannelId>, now: int)
      requires sm.Valid()
      modifies this, sm
      ensures sm.Valid()
      ensures sm.State() == if ch in ids then old(sm.State()) else StopStep(old(sm.State()), ch, now)
      ensures streamStates == if ch in ids then old(streamStates) else old(streamStates) - {ch}
      ensures channelIds == old(channelIds) && pollingIntervalId == old(pollingIntervalId)
      ensures uiUpdateIntervalId == old(uiUpdateIntervalId) && exitStatus == old(exitStatus)
    {
      if ch !in ids {
        var _ := sm.Stop(ch, now);
        streamStates := streamStates - {ch};
      }
    }

    /** The second `forEach` of `loadChannelIds`: a fresh offline entry for
        each listed channel that has none. */
    method AddNewIds(ids: seq<ChannelId>)
      modifies this
      ensures streamStates == AddNew(old(streamStates), ids)
      ensures channelIds == old(channelIds) && pollingIntervalId == old(pollingIntervalId)
      ensures uiUpdateIntervalId == old(uiUpdateIntervalId) && exitStatus == old(exitStatus)
    {
      ghost var states0 := streamStates;
      var i := 0;
      while i < |ids|
        invariant 0 <= i <= |ids|
        invariant streamStates == AddNew(states0, ids[..i])
        invariant channelIds == old(channelIds) && pollingIntervalId == old(pollingIntervalId)
        invariant uiUpdateIntervalId == old(uiUpdateIntervalId) && exitStatus == old(exitStatus)
        decreases |ids| - i
      {
        assert ids[..i + 1] == ids[..i] + [ids[i]];
        if ids[i] !in streamStates {
          streamStates := streamStates[ids[i] := Fresh(ids[i])];
        }
        i := i + 1;
      }
      assert ids[..|ids|] == ids;
    }

    /** One pass of `pollStreams()` over the current list, with the
        environment's answer for each channel. */
    method PollStreams(obs: seq<Observation>)
      requires Valid() && |obs| == |channelIds|
      modifies this, sm
      ensures Valid()
      ensures State() == PollPass(old(State()), sm.Settings(), old(channelIds), obs)
    {
      ghost var a0 := State();
      ghost var cfg := sm.Settings();
      var chs := channelIds;
      assert forall j :: 0 <= j < |chs| ==> chs[j] in a0.streamStates;
      var i := 0;
      while i < |chs|
        invariant 0 <= i <= |chs|
        invariant State() == PollPass(a0, cfg, chs[..i], obs[..i])
        invariant channelIds == chs && streamStates.Keys == a0.streamStates.Keys
        decreases |chs| - i
      {
        PollPassSnoc(a0, cfg, chs, obs, i);
        PollChannel(chs[i], obs[i]);
        i := i + 1;
      }
      assert chs[..|chs|] == chs && obs[..|obs|] == obs;
    }

    /** The body of the `pollStreams` loop for one channel. */
    method PollChannel(ch: ChannelId, ob: Observation)
      requires Valid() && ch in streamStates
      modifies this, sm
      ensures Valid()
      ensures State() == PollChannelStep(old(State()), sm.Settings(), ch, ob)
    {
      ghost var r := PollChannelStep(State(), sm.Settings(), ch, ob);
      var info := GetStreamInfo(ch, ob.outcome);
      var state := streamStates[ch].(name := info.name);
      if info.live {
        state := state.(status := Live, listenerCount := Some(info.listenerCount.GetOr(0)));
        streamStates := streamStates[ch := state];
        if state.status != Recording && !sm.IsActive(ch) {
          var n := |sm.events|;
          sm.Start(ch, state.name, info.url.GetOr(""), ob.iso, ob.spawn);
          streamStates := Deliver(streamStates, sm.events[n..], ob.now);
        }
      } else {
        state := state.(status := Offline, listenerCount := Some(0));
        streamStates := streamStates[ch := state];
        if sm.IsActive(ch) {
          var n := |sm.events|;
          var _ := sm.Stop(ch, ob.now);
          streamStates := Deliver(streamStates, sm.events[n..], ob.now);
        }
      }
      if HasError(info) {
        streamStates := streamStates[ch := streamStates[ch].(status := Status.Error)];
      }
      assert AppInv(r) && State() == r;
    }

    /** A recording process exits; its `close` listener runs and the events it
        emits are handled at time `now`. */
    method ProcessClosed(h: nat, code: Option<int>, now: int)
      requires Valid()
      modifies this, sm
      ensures Valid()
      ensures State() == old(State()).(sup := CloseStep(old(sm.State()), h, code),
                                       streamStates := Deliver(old(streamStates), Emitted(old(sm.State()), CloseStep(old(sm.State()), h, code)), now))
    {
      var n := |sm.events|;
      sm.OnClose(h, code);
      streamStates := Deliver(streamStates, sm.events[n..], now);
    }

    /** A recording process emits `error`. */
    method ProcessError(h: nat, message: string, now: int)
      requires Valid()
      modifies this, sm
      ensures Valid()
      ensures State() == old(State()).(sup := ErrorStep(old(sm.State()), h, message),
                                       streamStates := Deliver(old(streamStates), Emitted(old(sm.State()), ErrorStep(old(sm.State()), h, message)), now))
    {
      var n := |sm.events|;
      sm.OnError(h, message);
      streamStates := Deliver(streamStates, sm.events[n..], now);
    }

    /** The oldest failsafe timer of a `stop` may fire (it only logs). */
    method FailsafeTimer(now: int)
      requires Valid()
      modifies sm
      ensures Valid()
      ensures State() == old(State()).(sup := FailsafeStep(old(sm.State()), now))
    {
      sm.OnFailsafe(now);
    }

    /** `shutdown(exitCode)`; `stopThrows` says whether awaiting `stopAll` threw. */
    method Shutdown(exitCode: int, stopThrows: bool, now: int) returns (tickets: seq<nat>, ghost order: seq<ChannelId>)
      requires Valid()
      modifies this, sm
      ensures Valid()
      ensures Enumerates(order, old(sm.processes).Keys)
      ensures State() == ShutdownStep(old(State()), exitCode, stopThrows, order, now)
      ensures |tickets| == |order| && Consecutive(tickets, old(sm.nextTicket))
    {
      if pollingIntervalId.Some? {
        pollingIntervalId := None;
      }
      if uiUpdateIntervalId.Some? {
        uiUpdateIntervalId := None;
      }
      tickets, order := sm.StopAll(now);
      var code := exitCode;
      if stopThrows {
        code := 1;
      }
      exitStatus := Some(code);
    }
  }
}
