/** The single-file recorder: it polls a fixed list of channels, records each
    live stage with one yt-dlp process kept in the `runningProcesses` table,
    kills recordings whose file stops growing, and shuts down by interrupting
    every process and exiting once all have closed. Processes are addressed by
    a handle; file sizes, the clock and API answers are inputs. */
module SimpleRecorder {
  import opened Js
  import ApiManager

  const RECORDINGS_DIR := "recordings"
  const STALLED_TIMEOUT_MS := 60 * 1000

  const CHANNELS: seq<string> := [
    "defqon-1-magenta", "defqon1purple", "defqon1white", "defqon-1-brown", "defqon1pink",
    "defqon1blue", "defqon1indigo", "defqon1yellow", "defqon1orange", "defqon1silver",
    "defqon1green", "defqon1gold", "defqon1black", "defqon1uv"]

  const YTDLP_OPTIONS: seq<string> :=
    ["--no-part", "-f", "bestaudio", "--extract-audio", "--audio-format", "mp3", "--live-from-start"]

  /** TypeErrors `findLiveBroadcast` can throw (V8 wording). */
  const FIND_NOT_A_FUNCTION := "data.included.find is not a function"
  const UNDEFINED_ATTRIBUTES := "Cannot read properties of undefined (reading 'username')"
  const NULL_ATTRIBUTES := "Cannot read properties of null (reading 'username')"

  /** A key of `runningProcesses`: a username, or `undefined` (`None`). */
  type Stage = Option<string>

  function StageOf(v: Option<Json>): Stage {
    if v.Some? && v.value.JStr? then Some(v.value.s) else None
  }

  /** `${stage}` */
  function StageText(stage: Stage): string {
    if stage.Some? then stage.value else "undefined"
  }

  // ---------------------------------------------------------------------------
  // findLiveBroadcast

  datatype LiveBroadcast = LiveBroadcast(stage: Stage, streamUrl: string)

  /** The `find` callback: `item.type === 'broadcast' && item.id === currentBroadcastId`. */
  function IsCurrentBroadcast(id: Option<Json>): Json -> bool {
    item => Get(Some(item), "type") == Some(JStr("broadcast")) && StrictEquals(Get(Some(item), "id"), id)
  }

  function CurrentBroadcastRef(data: Json): Option<Json> {
    Path(Some(data), ["data", "relationships", "current_broadcast", "data"])
  }

  function StreamUrl(broadcast: Option<Json>): Option<string> {
    TruthyString(Path(broadcast, ["attributes", "progressive_stream_url"]))
  }

  function FindLiveBroadcast(data: Json): (r: Completion<Option<LiveBroadcast>>)
    ensures !Truthy(CurrentBroadcastRef(data)) || !Truthy(Get(Some(data), "included")) ==> r == Normal(None)
    ensures r.Throw? ==> r.message == FIND_NOT_A_FUNCTION || r.message == NULL_ITEM_TYPE
                         || r.message == UNDEFINED_ATTRIBUTES || r.message == NULL_ATTRIBUTES
  {
    var current := CurrentBroadcastRef(data);
    var included := Get(Some(data), "included");
    if !Truthy(current) || !Truthy(included) then Normal(None)
    else if !included.value.JArr? then Throw(FIND_NOT_A_FUNCTION)
    else
      match Find(included.value.items, IsCurrentBroadcast(Get(current, "id")))
      case Throw(message) => Throw(message)
      case Normal(broadcast) =>
        if Truthy(Path(broadcast, ["attributes", "live"])) && StreamUrl(broadcast).Some? then
          var attributes := Path(Some(data), ["data", "attributes"]);
          if attributes.None? then Throw(UNDEFINED_ATTRIBUTES)
          else if attributes.value.JNull? then Throw(NULL_ATTRIBUTES)
          else Normal(Some(LiveBroadcast(StageOf(Get(attributes, "username")), StreamUrl(broadcast).value)))
        else Normal(None)
  }

  /** A broadcast is found only when the response references a current
      broadcast, some included item of type broadcast carries that id, is
      live and has a stream url; the result holds that url and the username. */
  lemma FindLiveBroadcastSound(data: Json)
    requires FindLiveBroadcast(data).Normal? && FindLiveBroadcast(data).value.Some?
    ensures var b := FindLiveBroadcast(data).value.value;
      var included := Get(Some(data), "included");
      && Truthy(CurrentBroadcastRef(data)) && included.Some? && included.value.JArr?
      && exists i :: 0 <= i < |included.value.items|
           && IsCurrentBroadcast(Get(CurrentBroadcastRef(data), "id"))(included.value.items[i])
           && Truthy(Path(Some(included.value.items[i]), ["attributes", "live"]))
           && StreamUrl(Some(included.value.items[i])) == Some(b.streamUrl)
    ensures FindLiveBroadcast(data).value.value.stage == StageOf(Path(Some(data), ["data", "attributes", "username"]))
  {
    var included := Get(Some(data), "included");
    var accept := IsCurrentBroadcast(Get(CurrentBroadcastRef(data), "id"));
    FindSpec(included.value.items, accept);
    var x := Find(included.value.items, accept).value.value;
    var i :| FirstDecisive(included.value.items, accept, i) && included.value.items[i] != JNull
             && included.value.items[i] == x;
  }

  /** Conversely: when the first item the search stops at is such a live
      broadcast and the channel's attributes exist, it is found. */
  lemma FindLiveBroadcastComplete(data: Json, i: nat)
    requires Truthy(CurrentBroadcastRef(data))
    requires var included := Get(Some(data), "included");
      && included.Some? && included.value.JArr?
      && FirstDecisive(included.value.items, IsCurrentBroadcast(Get(CurrentBroadcastRef(data), "id")), i)
      && included.value.items[i] != JNull
      && Truthy(Path(Some(included.value.items[i]), ["attributes", "live"]))
      && StreamUrl(Some(included.value.items[i])).Some?
    requires !Nullish(Path(Some(data), ["data", "attributes"]))
    ensures FindLiveBroadcast(data) ==
      Normal(Some(LiveBroadcast(StageOf(Path(Some(data), ["data", "attributes", "username"])),
                                StreamUrl(Some(Get(Some(data), "included").value.items[i])).value)))
  {
    var included := Get(Some(data), "included");
    var accept := IsCurrentBroadcast(Get(CurrentBroadcastRef(data), "id"));
    FindSpec(included.value.items, accept);
    assert Truthy(included);
  }

  // ---------------------------------------------------------------------------
  // State

  datatype Signal = SigInt | SigTerm | SigKill

  /** A spawned yt-dlp process: the stage its listeners delete, its arguments,
      the signals sent to it, and whether it has closed. */
  datatype Proc = Proc(stage: Stage, args: seq<string>, signals: seq<Signal>, closed: bool)

  /** A value of `runningProcesses`. */
  datatype RunInfo = RunInfo(handle: nat, path: string, lastSize: int, lastCheck: int, fileName: string)

  /** `awaiting` holds the processes whose `close` the shutdown's `Promise.all`
      still waits for; `exitCode` is set once `process.exit` is called. */
  datatype Simple = Simple(
    running: map<Stage, RunInfo>,
    procs: map<nat, Proc>,
    nextHandle: nat,
    isShuttingDown: bool,
    intervalsCleared: bool,
    awaiting: set<nat>,
    exitCode: Option<int>)

  function Initial(): Simple {
    Simple(map[], map[], 0, false, false, {}, None)
  }

  /** Every entry names an open process of its own stage (so no two entries
      share a process); the shutdown exits exactly when nothing is awaited. */
  ghost predicate Inv(s: Simple) {
    && (forall st :: st in s.running ==>
          s.running[st].handle in s.procs && s.procs[s.running[st].handle].stage == st
          && !s.procs[s.running[st].handle].closed)
    && (forall h :: h in s.procs ==> h < s.nextHandle)
    && (forall h :: h in s.awaiting ==> h in s.procs && !s.procs[h].closed)
    && (s.isShuttingDown ==> (s.exitCode.Some? <==> s.awaiting == {}))
    && (!s.isShuttingDown ==> s.exitCode.None? && s.awaiting == {})
  }

  lemma InitialInv()
    ensures Inv(Initial()) && !Initial().isShuttingDown
  {
  }

  // ---------------------------------------------------------------------------
  // recordStream

  /** The time part of the file name: `iso.replace(/[\/:]/g, '-')`. */
  function IsoPart(iso: string): (r: string)
    ensures |r| == |iso|
    ensures forall i :: 0 <= i < |r| ==> r[i] != '/' && r[i] != ':'
    ensures forall i :: 0 <= i < |r| && iso[i] != '/' && iso[i] != ':' ==> r[i] == iso[i]
  {
    DashOut(iso, {'/', ':'})
  }

  function FileName(stage: Stage, iso: string): (r: string)
    ensures |r| == |StageText(stage)| + |iso| + 5
    ensures r[..|StageText(stage)| + 1] == StageText(stage) + "_" && r[|r| - 4..] == ".mp3"
    ensures r[|StageText(stage)| + 1..|r| - 4] == IsoPart(iso)
  {
    StageText(stage) + "_" + IsoPart(iso) + ".mp3"
  }

  function OutputPath(fileName: string): (r: string)
    ensures |r| == |RECORDINGS_DIR| + 1 + |fileName|
    ensures r[..|RECORDINGS_DIR|] == RECORDINGS_DIR && r[|RECORDINGS_DIR|] == '/' && r[|RECORDINGS_DIR| + 1..] == fileName
  {
    RECORDINGS_DIR + "/" + fileName
  }

  function SpawnArgs(outputPath: string, streamUrl: string): seq<string> {
    YTDLP_OPTIONS + ["-o", outputPath, streamUrl]
  }

  /** `recordStream(stage, streamUrl)` at time `now` (ISO text `iso`). */
  function RecordStep(s: Simple, stage: Stage, streamUrl: string, iso: string, now: int): (r: Simple)
    requires Inv(s)
    ensures Inv(r)
    ensures stage in s.running ==> r == s
    ensures stage !in s.running ==>
      var f := FileName(stage, iso);
      && r.running == s.running[stage := RunInfo(s.nextHandle, OutputPath(f), 0, now, f)]
      && r.procs == s.procs[s.nextHandle := Proc(stage, SpawnArgs(OutputPath(f), streamUrl), [], false)]
      && r.nextHandle == s.nextHandle + 1
    ensures r.awaiting == s.awaiting && r.exitCode == s.exitCode && r.isShuttingDown == s.isShuttingDown
  {
    if stage in s.running then s
    else
      var f := FileName(stage, iso);
      var h := s.nextHandle;
      s.(running := s.running[stage := RunInfo(h, OutputPath(f), 0, now, f)],
         procs := s.procs[h := Proc(stage, SpawnArgs(OutputPath(f), streamUrl), [], false)],
         nextHandle := h + 1)
  }

  /** Recording a stage twice spawns one process. */
  lemma RecordIdempotent(s: Simple, stage: Stage, url: string, url2: string, iso: string, iso2: string, now: int, now2: int)
    requires Inv(s)
    ensures var r := RecordStep(s, stage, url, iso, now);
      RecordStep(r, stage, url2, iso2, now2) == r && stage in r.running
  {
  }

  /** The `close` listener: the stage's entry goes, whichever process it now
      names; the shutdown exits when the last awaited process has closed. */
  function CloseStep(s: Simple, h: nat): (r: Simple)
    requires Inv(s)
    ensures Inv(r)
    ensures h !in s.procs || s.procs[h].closed ==> r == s
    ensures h in s.procs && !s.procs[h].closed ==>
      && r.running == s.running - {s.procs[h].stage}
      && r.procs == s.procs[h := s.procs[h].(closed := true)]
      && r.awaiting == s.awaiting - {h}
    ensures r.isShuttingDown == s.isShuttingDown && r.nextHandle == s.nextHandle
  {
    if h !in s.procs || s.procs[h].closed then s
    else
      var awaiting := s.awaiting - {h};
      s.(running := s.running - {s.procs[h].stage},
         procs := s.procs[h := s.procs[h].(closed := true)],
         awaiting := awaiting,
         exitCode := if h in s.awaiting && awaiting == {} then Some(0) else s.exitCode)
  }

  /** The `error` listener. */
  function ErrorStep(s: Simple, h: nat): (r: Simple)
    requires Inv(s)
    ensures Inv(r)
    ensures h in s.procs ==> r == s.(running := s.running - {s.procs[h].stage})
    ensures h !in s.procs ==> r == s
  {
    if h in s.procs then s.(running := s.running - {s.procs[h].stage}) else s
  }

  /** A process that ended after its stage was recorded again takes the newer
      entry with it, and the newer process goes on unrecorded. */
  lemma LateCloseDropsNewerEntry(s: Simple, stale: nat)
    requires Inv(s) && stale in s.procs && !s.procs[stale].closed
    requires s.procs[stale].stage in s.running && s.running[s.procs[stale].stage].handle != stale
    ensures var stage := s.procs[stale].stage;
      var newer := s.running[stage].handle;
      var r := CloseStep(s, stale);
      stage !in r.running && newer in r.procs && !r.procs[newer].closed
  {
  }

  // ---------------------------------------------------------------------------
  // monitorStalledRecordings

  /** What `stat(info.path)` produced. */
  datatype StatResult = Size(size: nat) | StatFailed(code: string)

  /** The stat result and the clock when one entry is examined. */
  datatype Check = Check(stat: StatResult, now: int)

  datatype Verdict = Grew(size: nat, at: int) | Stalled | Unchanged

  /** The stall rule for one entry. */
  function VerdictOf(info: RunInfo, c: Check): (v: Verdict)
    ensures v.Grew? <==> c.stat.Size? && c.stat.size > info.lastSize
    ensures v.Grew? ==> v == Grew(c.stat.size, c.now)
    ensures v.Stalled? <==> c.stat.Size? && c.stat.size <= info.lastSize && c.now - info.lastCheck > STALLED_TIMEOUT_MS
  {
    match c.stat
    case StatFailed(_) => Unchanged
    case Size(n) =>
      if n > info.lastSize then Grew(n, c.now)
      else if c.now - info.lastCheck > STALLED_TIMEOUT_MS then Stalled
      else Unchanged
  }

  function Refreshed(info: RunInfo, v: Verdict): RunInfo {
    if v.Grew? then info.(lastSize := v.size, lastCheck := v.at) else info
  }

  /** The entries of `stages` the rule finds stalled. */
  function StalledStages(running: map<Stage, RunInfo>, checks: map<Stage, Check>, stages: set<Stage>): set<Stage>
    requires running.Keys <= checks.Keys
  {
    set st | st in stages && st in running && VerdictOf(running[st], checks[st]).Stalled?
  }

  /** `running` once the entries of `done` have been examined. */
  function SweptRunning(running: map<Stage, RunInfo>, checks: map<Stage, Check>, done: set<Stage>): map<Stage, RunInfo>
    requires running.Keys <= checks.Keys
  {
    map st | st in running && st !in StalledStages(running, checks, done) ::
      if st in done then Refreshed(running[st], VerdictOf(running[st], checks[st])) else running[st]
  }

  function HandlesOf(running: map<Stage, RunInfo>, stages: set<Stage>): set<nat> {
    set st | st in stages && st in running :: running[st].handle
  }

  /** Each process of `hs` has had `sig` sent to it once more. */
  function Signalled(procs: map<nat, Proc>, hs: set<nat>, sig: Signal): map<nat, Proc> {
    map h | h in procs :: if h in hs then procs[h].(signals := procs[h].signals + [sig]) else procs[h]
  }

  /** One entry examined: the rule applied to `stage` alone. */
  function Examine(s: Simple, stage: Stage, c: Check): Simple
    requires stage in s.running && s.running[stage].handle in s.procs
  {
    var info := s.running[stage];
    var v := VerdictOf(info, c);
    if v.Stalled? then
      var p := s.procs[info.handle];
      s.(running := s.running - {stage}, procs := s.procs[info.handle := p.(signals := p.signals + [SigKill])])
    else s.(running := s.running[stage := Refreshed(info, v)])
  }

  /** The state once the entries of `done` have been examined. */
  function SweptState(s: Simple, checks: map<Stage, Check>, done: set<Stage>): Simple
    requires s.running.Keys <= checks.Keys
  {
    s.(running := SweptRunning(s.running, checks, done),
       procs := Signalled(s.procs, HandlesOf(s.running, StalledStages(s.running, checks, done)), SigKill))
  }

  /** A sweep of `monitorStalledRecordings`, every entry examined with its
      own check. The entries are independent, so the order does not matter. */
  function Sweep(s: Simple, checks: map<Stage, Check>): (r: Simple)
    requires Inv(s) && s.running.Keys <= checks.Keys
    ensures Inv(r)
  {
    var stalled := StalledStages(s.running, checks, s.running.Keys);
    var r := SweptState(s, checks, s.running.Keys);
    assert forall st :: st in r.running ==> st in s.running && st !in stalled;
    forall st | st in r.running
      ensures r.running[st].handle in r.procs && r.procs[r.running[st].handle].stage == st
              && !r.procs[r.running[st].handle].closed
    {
      assert r.running[st].handle == s.running[st].handle;
    }
    r
  }

  /** The stall rule, entry by entry: growth refreshes the entry, no growth
      past the timeout kills its process with SIGKILL and deletes it, and
      anything else (a failed stat included) leaves it as it was. */
  lemma SweepStallRule(s: Simple, checks: map<Stage, Check>, st: Stage)
    requires Inv(s) && s.running.Keys <= checks.Keys && st in s.running
    ensures var r := Sweep(s, checks);
      var info := s.running[st];
      var v := VerdictOf(info, checks[st]);
      var h := info.handle;
      && (v.Stalled? ==> st !in r.running && r.procs[h].signals == s.procs[h].signals + [SigKill])
      && (v.Grew? ==> r.running[st] == info.(lastSize := v.size, lastCheck := checks[st].now)
                      && r.procs[h] == s.procs[h])
      && (v.Unchanged? ==> r.running[st] == info && r.procs[h] == s.procs[h])
  {
    var stalled := StalledStages(s.running, checks, s.running.Keys);
    var h := s.running[st].handle;
    if h in HandlesOf(s.running, stalled) {
      var st2 :| st2 in stalled && st2 in s.running && s.running[st2].handle == h;
      assert st2 == st;
    }
  }

  /** A sweep never touches a process that has no entry. */
  lemma SweepSparesOthers(s: Simple, checks: map<Stage, Check>, h: nat)
    requires Inv(s) && s.running.Keys <= checks.Keys && h in s.procs
    requires forall st :: st in s.running ==> s.running[st].handle != h
    ensures Sweep(s, checks).procs[h] == s.procs[h] && Sweep(s, checks).running.Keys <= s.running.Keys
  {
  }

  /** While the file does not grow, an entry keeps its last check time across
      sweeps, so the first check more than a minute after it kills it. */
  lemma NoGrowthKeepsDeadline(s: Simple, checks: map<Stage, Check>, st: Stage)
    requires Inv(s) && s.running.Keys <= checks.Keys && st in s.running
    requires checks[st].stat.Size? && checks[st].stat.size <= s.running[st].lastSize
    ensures var r := Sweep(s, checks);
      (st in r.running ==> r.running[st] == s.running[st] && checks[st].now - s.running[st].lastCheck <= STALLED_TIMEOUT_MS)
      && (st !in r.running <==> checks[st].now - s.running[st].lastCheck > STALLED_TIMEOUT_MS)
  {
    SweepStallRule(s, checks, st);
  }

  // ---------------------------------------------------------------------------
  // checkChannels

  /** What one iteration of the `checkChannels` loop learns: the parsed body,
      or `None` when `fetchStreamInfo` returned `null`; and the clock. */
  datatype ChannelObs = ChannelObs(data: Option<Json>, iso: string, now: int)

  /** `streamData?.data?.attributes?.username || channel` */
  function StageName(data: Option<Json>, channel: string): (r: Stage)
    ensures r.Some?
    ensures var username := TruthyString(Path(data, ["data", "attributes", "username"]));
      (username.Some? ==> r.value == username.value) && (username.None? ==> r.value == channel)
  {
    Some(StringOr(Path(data, ["data", "attributes", "username"]), channel))
  }

  /** `process.kill()` (SIGTERM) and delete the stage's entry. */
  function StopStage(s: Simple, stage: Stage): (r: Simple)
    requires Inv(s) && stage in s.running
    ensures Inv(r)
  {
    var h := s.running[stage].handle;
    s.(procs := s.procs[h := s.procs[h].(signals := s.procs[h].signals + [SigTerm])],
       running := s.running - {stage})
  }

  /** One iteration of the `checkChannels` loop; a TypeError ends the pass. */
  function ChannelStep(s: Simple, channel: string, ob: ChannelObs): (r: Completion<Simple>)
    requires Inv(s)
    ensures r.Normal? ==> Inv(r.value)
    ensures !Truthy(ob.data) ==> r == Normal(s)
    ensures r.Throw? <==> Truthy(ob.data) && FindLiveBroadcast(ob.data.value).Throw?
    ensures Truthy(ob.data) && FindLiveBroadcast(ob.data.value).Normal? && FindLiveBroadcast(ob.data.value).value.Some? ==>
      var b := FindLiveBroadcast(ob.data.value).value.value;
      r == Normal(RecordStep(s, b.stage, b.streamUrl, ob.iso, ob.now))
    ensures Truthy(ob.data) && FindLiveBroadcast(ob.data.value) == Normal(None) && StageName(ob.data, channel) !in s.running ==>
      r == Normal(s)
  {
    if !Truthy(ob.data) then Normal(s)
    else
      match FindLiveBroadcast(ob.data.value)
      case Throw(message) => Throw(message)
      case Normal(Some(b)) => Normal(RecordStep(s, b.stage, b.streamUrl, ob.iso, ob.now))
      case Normal(None) =>
        var stageName := StageName(ob.data, channel);
        if stageName in s.running then Normal(StopStage(s, stageName)) else Normal(s)
  }

  /** A pass that has examined a prefix of the channels: the state so far,
      and the message of the TypeError that ended it early, if any. */
  datatype Pass = Pass(state: Simple, failure: Option<string>)

  function CheckPass(s: Simple, channels: seq<string>, obs: seq<ChannelObs>): (p: Pass)
    requires Inv(s) && |obs| == |channels|
    ensures Inv(p.state)
    decreases |channels|
  {
    if channels == [] then Pass(s, None)
    else
      var n := |channels| - 1;
      var prev := CheckPass(s, channels[..n], obs[..n]);
      if prev.failure.Some? then prev
      else
        match ChannelStep(prev.state, channels[n], obs[n])
        case Throw(message) => Pass(prev.state, Some(message))
        case Normal(t) => Pass(t, None)
  }

  /** A live answer whose username is missing records under `undefined`,
      while the offline branch looks for the channel's name: such a recording
      is not stopped when the channel goes offline. */
  lemma UnnamedRecordingOutlivesStream(s: Simple, channel: string, ob: ChannelObs)
    requires Inv(s) && None in s.running && Truthy(ob.data)
    requires FindLiveBroadcast(ob.data.value) == Normal(None)
    ensures ChannelStep(s, channel, ob).Normal?
    ensures None in ChannelStep(s, channel, ob).value.running
  {
  }

  /** An offline answer stops the recording of the stage it names, and
      nothing else: the other entries, the other processes and the shutdown
      bookkeeping are as they were. */
  lemma OfflineStopsNamedStage(s: Simple, channel: string, ob: ChannelObs)
    requires Inv(s) && Truthy(ob.data) && FindLiveBroadcast(ob.data.value) == Normal(None)
    requires StageName(ob.data, channel) in s.running
    ensures var stage := StageName(ob.data, channel);
      var h := s.running[stage].handle;
      var r := ChannelStep(s, channel, ob);
      && r.Normal? && r.value.running == s.running - {stage}
      && h in r.value.procs && r.value.procs[h] == s.procs[h].(signals := s.procs[h].signals + [SigTerm])
      && r.value.procs.Keys == s.procs.Keys
      && (forall g :: g in s.procs && g != h ==> r.value.procs[g] == s.procs[g])
      && r.value.nextHandle == s.nextHandle && r.value.isShuttingDown == s.isShuttingDown
      && r.value.intervalsCleared == s.intervalsCleared
      && r.value.awaiting == s.awaiting && r.value.exitCode == s.exitCode
  {
  }

  /** A live answer records its stage: the stage is running afterwards, and a
      stage that was already running is left as it was. */
  lemma LiveAnswerRecords(s: Simple, channel: string, ob: ChannelObs)
    requires Inv(s) && Truthy(ob.data)
    requires FindLiveBroadcast(ob.data.value).Normal? && FindLiveBroadcast(ob.data.value).value.Some?
    ensures var b := FindLiveBroadcast(ob.data.value).value.value;
      var r := ChannelStep(s, channel, ob);
      && r.Normal? && b.stage in r.value.running
      && (b.stage in s.running ==> r.value == s)
      && (forall other :: other in s.running ==> other in r.value.running)
  {
  }

  // ---------------------------------------------------------------------------
  // gracefulShutdown

  function ShutdownStep(s: Simple): (r: Simple)
    requires Inv(s)
    ensures Inv(r)
    ensures s.isShuttingDown ==> r == s
    ensures !s.isShuttingDown ==>
      && r.isShuttingDown && r.intervalsCleared
      && r.awaiting == HandlesOf(s.running, s.running.Keys)
      && r.procs == Signalled(s.procs, HandlesOf(s.running, s.running.Keys), SigInt)
      && r.running == s.running
      && (r.exitCode == Some(0) <==> s.running == map[])
  {
    if s.isShuttingDown then s
    else
      var hs := HandlesOf(s.running, s.running.Keys);
      HandlesOfEmpty(s.running);
      s.(isShuttingDown := true, intervalsCleared := true,
         procs := Signalled(s.procs, hs, SigInt), awaiting := hs,
         exitCode := if hs == {} then Some(0) else None)
  }

  lemma HandlesOfEmpty(running: map<Stage, RunInfo>)
    ensures HandlesOf(running, running.Keys) == {} <==> running == map[]
  {
    if running != map[] {
      var st :| st in running;
      assert running[st].handle in HandlesOf(running, running.Keys);
    }
  }

  lemma ShutdownIdempotent(s: Simple)
    requires Inv(s)
    ensures ShutdownStep(ShutdownStep(s)) == ShutdownStep(s)
  {
  }

  /** Every running process gets SIGINT once. */
  lemma ShutdownInterruptsAll(s: Simple, st: Stage)
    requires Inv(s) && !s.isShuttingDown && st in s.running
    ensures var h := s.running[st].handle;
      ShutdownStep(s).procs[h].signals == s.procs[h].signals + [SigInt] && h in ShutdownStep(s).awaiting
  {
    assert s.running[st].handle in HandlesOf(s.running, s.running.Keys);
  }

  /** The processes with handles `hs` close, in turn. */
  function CloseAll(s: Simple, hs: seq<nat>): (r: Simple)
    requires Inv(s)
    ensures Inv(r)
    ensures r.isShuttingDown == s.isShuttingDown
    ensures r.awaiting == s.awaiting - (set h | h in hs)
    decreases |hs|
  {
    if hs == [] then s
    else
      var r := CloseAll(CloseStep(s, hs[0]), hs[1..]);
      assert (set h | h in hs) == {hs[0]} + (set h | h in hs[1..]);
      r
  }

  /** After `gracefulShutdown`, the process exits exactly when every process
      that was running has closed. */
  lemma ShutdownExitsWhenAllClosed(s: Simple, hs: seq<nat>)
    requires Inv(s) && !s.isShuttingDown
    ensures var r := CloseAll(ShutdownStep(s), hs);
      r.exitCode.Some? <==> forall st :: st in s.running ==> s.running[st].handle in hs
  {
    var s1 := ShutdownStep(s);
    var hs0 := HandlesOf(s.running, s.running.Keys);
    var r := CloseAll(s1, hs);
    if forall st :: st in s.running ==> s.running[st].handle in hs {
      assert r.awaiting == {};
    } else {
      var st :| st in s.running && s.running[st].handle !in hs;
      assert s.running[st].handle in r.awaiting;
    }
  }

  // ---------------------------------------------------------------------------
  // The imperative recorder

  class Recorder {
    var running: map<Stage, RunInfo>
    var procs: map<nat, Proc>
    var nextHandle: nat
    var isShuttingDown: bool
    var intervalsCleared: bool
    var awaiting: set<nat>
    var exitCode: Option<int>

    function State(): Simple
      reads this
    {
      Simple(running, procs, nextHandle, isShuttingDown, intervalsCleared, awaiting, exitCode)
    }

    ghost predicate Valid()
      reads this
    {
      Inv(State())
    }

    constructor ()
      ensures Valid() && State() == Initial()
    {
      running, procs, nextHandle := map[], map[], 0;
      isShuttingDown, intervalsCleared, awaiting, exitCode := false, false, {}, None;
    }

    method RecordStream(stage: Stage, streamUrl: string, iso: string, now: int)
      requires Valid()
      modifies this
      ensures Valid()
      ensures State() == RecordStep(old(State()), stage, streamUrl, iso, now)
    {
      if stage in running {
        return;
      }
      var fileName := FileName(stage, iso);
      var outputPath := OutputPath(fileName);
      var h := nextHandle;
      nextHandle := nextHandle + 1;
      procs := procs[h := Proc(stage, SpawnArgs(outputPath, streamUrl), [], false)];
      running := running[stage := RunInfo(h, outputPath, 0, now, fileName)];
    }

    method OnClose(h: nat)
      requires Valid()
      modifies this
      ensures Valid()
      ensures State() == CloseStep(old(State()), h)
    {
      if h !in procs || procs[h].closed {
        return;
      }
      var p := procs[h];
      running := running - {p.stage};
      procs := procs[h := p.(closed := true)];
      var wasAwaited := h in awaiting;
      awaiting := awaiting - {h};
      if wasAwaited && awaiting == {} {
        exitCode := Some(0);
      }
    }

    method OnError(h: nat)
      requires Valid()
      modifies this
      ensures Valid()
      ensures State() == ErrorStep(old(State()), h)
    {
      if h in procs {
        running := running - {procs[h].stage};
      }
    }

    /** `monitorStalledRecordings()`; `checks` answers the `stat` of each
        entry. The entries are visited in the table's order, left open here. */
    method MonitorStalledRecordings(checks: map<Stage, Check>)
      requires Valid() && running.Keys <= checks.Keys
      modifies this
      ensures Valid()
      ensures State() == Sweep(old(State()), checks)
    {
      ghost var order;
      ghost var s0 := State();
      running, procs, order := SweepEntries(State(), checks);
      SweepOrderIsSweep(s0, checks, order);
      assert (set st | st in order) == s0.running.Keys;
      ghost var r := Sweep(s0, checks);
      assert Inv(r) && State() == r;
    }

    /** `checkChannels()`; `obs[i]` is what the pass learns about `CHANNELS[i]`.
        Returns the TypeError that ended the pass early, if one did. */
    method CheckChannels(obs: seq<ChannelObs>) returns (failure: Option<string>)
      requires Valid() && |obs| == |CHANNELS|
      modifies this
      ensures Valid()
      ensures Pass(State(), failure) == CheckPass(old(State()), CHANNELS, obs)
    {
      ghost var s0 := State();
      failure := None;
      var i := 0;
      assert CHANNELS[..0] == [] && obs[..0] == [];
      while i < |CHANNELS|
        invariant 0 <= i <= |CHANNELS| && Valid()
        invariant CheckPass(s0, CHANNELS[..i], obs[..i]) == Pass(State(), None) && failure.None?
        decreases |CHANNELS| - i
      {
        failure := CheckNext(s0, obs, i);
        if failure.Some? {
          return;
        }
        i := i + 1;
      }
      WholeSlice(CHANNELS);
      WholeSlice(obs);
    }

    /** One turn of the `checkChannels` loop, against the pass so far. */
    method CheckNext(ghost s0: Simple, obs: seq<ChannelObs>, i: nat) returns (failure: Option<string>)
      requires Valid() && Inv(s0) && |obs| == |CHANNELS| && i < |CHANNELS|
      requires CheckPass(s0, CHANNELS[..i], obs[..i]) == Pass(State(), None)
      modifies this
      ensures Valid()
      ensures failure.None? ==> CheckPass(s0, CHANNELS[..i + 1], obs[..i + 1]) == Pass(State(), None)
      ensures failure.Some? ==> CheckPass(s0, CHANNELS, obs) == Pass(State(), failure)
    {
      CheckPassSnoc(s0, CHANNELS, obs, i);
      failure := CheckChannel(CHANNELS[i], obs[i]);
      if failure.Some? {
        CheckPassStops(s0, CHANNELS, obs, i + 1);
      }
    }

    /** The body of the `checkChannels` loop for one channel. */
    method CheckChannel(channel: string, ob: ChannelObs) returns (failure: Option<string>)
      requires Valid()
      modifies this
      ensures Valid()
      ensures var r := ChannelStep(old(State()), channel, ob);
        (r.Normal? ==> failure.None? && State() == r.value)
        && (r.Throw? ==> failure == Some(r.message) && State() == old(State()))
    {
      failure := None;
      if !Truthy(ob.data) {
        return;
      }
      var live := FindLiveBroadcast(ob.data.value);
      match live
      case Throw(message) =>
        failure := Some(message);
      case Normal(Some(b)) =>
        RecordStream(b.stage, b.streamUrl, ob.iso, ob.now);
      case Normal(None) =>
        var stageName := StageName(ob.data, channel);
        if stageName in running {
          ghost var r := StopStage(State(), stageName);
          var h := running[stageName].handle;
          procs := procs[h := procs[h].(signals := procs[h].signals + [SigTerm])];
          running := running - {stageName};
          assert Inv(r) && State() == r;
        }
    }

    /** `gracefulShutdown()`. */
    method GracefulShutdown()
      requires Valid()
      modifies this
      ensures Valid()
      ensures State() == ShutdownStep(old(State()))
    {
      if isShuttingDown {
        return;
      }
      ghost var s0 := State();
      isShuttingDown := true;
      intervalsCleared := true;
      var remaining := running.Keys;
      ghost var done: set<Stage> := {};
      while remaining != {}
        invariant remaining + done == s0.running.Keys && remaining !! done
        invariant awaiting == HandlesOf(s0.running, done)
        invariant procs == Signalled(s0.procs, awaiting, SigInt)
        invariant running == s0.running && nextHandle == s0.nextHandle && exitCode == s0.exitCode
        invariant isShuttingDown && intervalsCleared
        decreases remaining
      {
        var stage :| stage in remaining;
        InterruptOneMore(s0, done, stage);
        var h := running[stage].handle;
        procs := procs[h := procs[h].(signals := procs[h].signals + [SigInt])];
        awaiting := awaiting + {h};
        remaining := remaining - {stage};
        done := done + {stage};
      }
      assert done == s0.running.Keys;
      HandlesOfEmpty(s0.running);
      assert s0.exitCode == None;
      if awaiting == {} {
        exitCode := Some(0);
      }
      ghost var r := ShutdownStep(s0);
      assert Inv(r) && State() == r;
    }
  }

  /** The loop of `monitorStalledRecordings`: the entries of `s0`, visited
      in the order `order`, with the entry table and the processes updated
      as it goes. */
  method SweepEntries(s0: Simple, checks: map<Stage, Check>)
      returns (entries: map<Stage, RunInfo>, processes: map<nat, Proc>, ghost order: seq<Stage>)
    requires s0.running.Keys <= checks.Keys
    requires forall st :: st in s0.running ==> s0.running[st].handle in s0.procs
    ensures Enumerates(order, s0.running.Keys)
    ensures s0.(running := entries, procs := processes) == SweepOrder(s0, checks, order)
  {
    entries, processes := s0.running, s0.procs;
    var remaining := s0.running.Keys;
    order := [];
    while remaining != {}
      invariant remaining <= s0.running.Keys && Distinct(order)
      invariant forall st :: st in order <==> st in s0.running && st !in remaining
      invariant forall st :: st in remaining ==> st in entries && entries[st] == s0.running[st]
      invariant processes.Keys == s0.procs.Keys
      invariant s0.(running := entries, procs := processes) == SweepOrder(s0, checks, order)
      decreases remaining
    {
      var stage :| stage in remaining;
      ghost var cur := s0.(running := entries, procs := processes);
      SweepOrderSnoc(s0, checks, order, stage);
      DistinctSnoc(order, stage);
      ExamineOthers(cur, stage, checks[stage]);
      entries, processes := ExamineEntry(cur, entries, processes, stage, checks[stage]);
      order := order + [stage];
      remaining := remaining - {stage};
    }
  }

  lemma SweepOrderSnoc(s: Simple, checks: map<Stage, Check>, order: seq<Stage>, st: Stage)
    requires var p := SweepOrder(s, checks, order); st in p.running && st in checks && p.running[st].handle in p.procs
    ensures SweepOrder(s, checks, order + [st]) == Examine(SweepOrder(s, checks, order), st, checks[st])
  {
    assert (order + [st])[..|order|] == order;
  }

  lemma DistinctSnoc(order: seq<Stage>, st: Stage)
    requires Distinct(order) && st !in order
    ensures Distinct(order + [st])
    ensures forall x :: x in order + [st] <==> x in order || x == st
  {
  }

  /** Examining one entry leaves every other entry, and the set of processes, as it was. */
  lemma ExamineOthers(s: Simple, stage: Stage, c: Check)
    requires stage in s.running && s.running[stage].handle in s.procs
    ensures var e := Examine(s, stage, c);
      && e.procs.Keys == s.procs.Keys
      && (forall st :: st != stage ==> (st in e.running <==> st in s.running))
      && (forall st :: st != stage && st in s.running ==> e.running[st] == s.running[st])
  {
  }

  /** The body of the sweep's loop for one entry: refresh it when the file
      grew, kill its process and drop it when it stalled, else leave it. */
  method ExamineEntry(ghost s: Simple, entries: map<Stage, RunInfo>, processes: map<nat, Proc>, stage: Stage, c: Check)
      returns (entries': map<Stage, RunInfo>, processes': map<nat, Proc>)
    requires s.running == entries && s.procs == processes
    requires stage in entries && entries[stage].handle in processes
    ensures s.(running := entries', procs := processes') == Examine(s, stage, c)
  {
    entries', processes' := entries, processes;
    var info := entries[stage];
    match c.stat {
      case StatFailed(_) =>
      case Size(size) =>
        if size > info.lastSize {
          entries' := entries[stage := info.(lastSize := size, lastCheck := c.now)];
        } else if c.now - info.lastCheck > STALLED_TIMEOUT_MS {
          processes' := processes[info.handle := processes[info.handle].(signals := processes[info.handle].signals + [SigKill])];
          entries' := entries - {stage};
        }
    }
  }

  /** No stage occurs twice in `order`. */
  ghost predicate Distinct(order: seq<Stage>) {
    forall i, j :: 0 <= i < j < |order| ==> order[i] != order[j]
  }

  /** `order` lists each of the keys once: the order in which a loop over
      the table visits them, which the model leaves open. */
  ghost predicate Enumerates(order: seq<Stage>, keys: set<Stage>) {
    Distinct(order) && forall st :: st in order <==> st in keys
  }

  /** A sweep that visits the entries in the order `order`. */
  function SweepOrder(s: Simple, checks: map<Stage, Check>, order: seq<Stage>): Simple
    decreases |order|
  {
    if order == [] then s
    else
      var n := |order| - 1;
      var p := SweepOrder(s, checks, order[..n]);
      var st := order[n];
      if st in p.running && st in checks && p.running[st].handle in p.procs then Examine(p, st, checks[st]) else p
  }

  /** Whatever order the table is visited in, the sweep has the same effect. */
  lemma {:induction false} SweepOrderIsSweep(s: Simple, checks: map<Stage, Check>, order: seq<Stage>)
    requires Inv(s) && s.running.Keys <= checks.Keys
    requires Distinct(order) && forall st :: st in order ==> st in s.running
    ensures SweepOrder(s, checks, order) == SweptState(s, checks, set st | st in order)
    decreases |order|
  {
    if order == [] {
      SweptNothing(s, checks);
    } else {
      var n := |order| - 1;
      var pre, last := order[..n], order[n];
      PrefixFacts(order);
      SweepOrderIsSweep(s, checks, pre);
      var done := set st | st in pre;
      SweepOneMore(s, checks, done, last);
      var p := SweepOrder(s, checks, pre);
      assert p == SweptState(s, checks, done);
      assert SweepOrder(s, checks, order) == Examine(p, last, checks[last]);
    }
  }

  /** Splitting the last element off a list without repetitions. */
  lemma PrefixFacts(order: seq<Stage>)
    requires Distinct(order) && order != []
    ensures var n := |order| - 1;
      && Distinct(order[..n]) && order[n] !in order[..n]
      && (set st | st in order) == (set st | st in order[..n]) + {order[n]}
      && forall st :: st in order[..n] ==> st in order
  {
    var n := |order| - 1;
    assert order == order[..n] + [order[n]];
    forall i | 0 <= i < n ensures order[..n][i] != order[n] {
      assert order[..n][i] == order[i];
    }
  }

  lemma SweptNothing(s: Simple, checks: map<Stage, Check>)
    requires s.running.Keys <= checks.Keys
    ensures SweptState(s, checks, {}) == s
  {
    assert StalledStages(s.running, checks, {}) == {};
    assert HandlesOf(s.running, {}) == {};
    assert SweptRunning(s.running, checks, {}) == s.running;
    assert Signalled(s.procs, {}, SigKill) == s.procs;
  }

  lemma SweepOneMore(s0: Simple, checks: map<Stage, Check>, done: set<Stage>, st: Stage)
    requires Inv(s0) && s0.running.Keys <= checks.Keys && st in s0.running && st !in done && done <= s0.running.Keys
    ensures var p := SweptState(s0, checks, done);
      && st in p.running && p.running[st].handle in p.procs
      && SweptState(s0, checks, done + {st}) == Examine(p, st, checks[st])
  {
    var info := s0.running[st];
    var v := VerdictOf(info, checks[st]);
    var killed := HandlesOf(s0.running, StalledStages(s0.running, checks, done));
    var running := SweptRunning(s0.running, checks, done);
    assert StalledStages(s0.running, checks, done + {st}) ==
      StalledStages(s0.running, checks, done) + (if v.Stalled? then {st} else {});
    forall st2 | st2 in done && st2 in s0.running
      ensures s0.running[st2].handle != info.handle
    {
      assert s0.procs[s0.running[st2].handle].stage == st2;
    }
    assert info.handle !in killed;
    assert st in running && running[st] == info;
    var p := SweptState(s0, checks, done);
    var q := SweptState(s0, checks, done + {st});
    assert p.procs[info.handle] == s0.procs[info.handle];
    SweptRunningOneMore(s0.running, checks, done, st);
    HandlesOneMore(s0.running, StalledStages(s0.running, checks, done), st, v.Stalled?);
    var e := Examine(p, st, checks[st]);
    if v.Stalled? {
      SignalledOneMore(s0.procs, killed, info.handle, SigKill);
      assert q.procs == e.procs;
    } else {
      assert q.procs == p.procs == e.procs;
    }
    assert q.running == e.running;
  }

  lemma SweptRunningOneMore(running: map<Stage, RunInfo>, checks: map<Stage, Check>, done: set<Stage>, st: Stage)
    requires running.Keys <= checks.Keys && st in running && st !in done
    ensures var v := VerdictOf(running[st], checks[st]);
      var cur := SweptRunning(running, checks, done);
      && st in cur && cur[st] == running[st]
      && SweptRunning(running, checks, done + {st}) ==
           (if v.Stalled? then cur - {st} else cur[st := Refreshed(running[st], v)])
  {
    assert StalledStages(running, checks, done + {st}) ==
      StalledStages(running, checks, done) + (if VerdictOf(running[st], checks[st]).Stalled? then {st} else {});
  }

  lemma HandlesOneMore(running: map<Stage, RunInfo>, stages: set<Stage>, st: Stage, add: bool)
    requires st in running
    ensures HandlesOf(running, if add then stages + {st} else stages) ==
      (if add then HandlesOf(running, stages) + {running[st].handle} else HandlesOf(running, stages))
  {
  }

  lemma SignalledOneMore(procs: map<nat, Proc>, hs: set<nat>, h: nat, sig: Signal)
    requires h in procs && h !in hs
    ensures Signalled(procs, hs + {h}, sig) ==
      Signalled(procs, hs, sig)[h := procs[h].(signals := procs[h].signals + [sig])]
  {
  }

  /** One more entry interrupted by the shutdown loop. */
  lemma InterruptOneMore(s0: Simple, done: set<Stage>, st: Stage)
    requires Inv(s0) && st in s0.running && st !in done && done <= s0.running.Keys
    ensures var h := s0.running[st].handle;
      && h !in HandlesOf(s0.running, done)
      && HandlesOf(s0.running, done + {st}) == HandlesOf(s0.running, done) + {h}
      && Signalled(s0.procs, HandlesOf(s0.running, done), SigInt)[h] == s0.procs[h]
      && Signalled(s0.procs, HandlesOf(s0.running, done) + {h}, SigInt) ==
           Signalled(s0.procs, HandlesOf(s0.running, done), SigInt)[h := s0.procs[h].(signals := s0.procs[h].signals + [SigInt])]
  {
    var h := s0.running[st].handle;
    forall st2 | st2 in done && st2 in s0.running
      ensures s0.running[st2].handle != h
    {
      assert s0.procs[s0.running[st2].handle].stage == st2;
    }
  }

  lemma CheckPassSnoc(s: Simple, channels: seq<string>, obs: seq<ChannelObs>, i: nat)
    requires Inv(s) && |obs| == |channels| && i < |channels|
    ensures var prev := CheckPass(s, channels[..i], obs[..i]);
      CheckPass(s, channels[..i + 1], obs[..i + 1]) ==
        if prev.failure.Some? then prev
        else match ChannelStep(prev.state, channels[i], obs[i])
          case Throw(message) => Pass(prev.state, Some(message))
          case Normal(t) => Pass(t, None)
  {
    assert channels[..i + 1][..i] == channels[..i] && obs[..i + 1][..i] == obs[..i];
  }

  lemma WholeSlice<T>(s: seq<T>)
    ensures s[..|s|] == s
  {
  }

  /** A pass that failed at channel `n - 1` stays failed. */
  lemma {:induction false} CheckPassStops(s: Simple, channels: seq<string>, obs: seq<ChannelObs>, n: nat)
    requires Inv(s) && |obs| == |channels| && 0 < n <= |channels|
    requires CheckPass(s, channels[..n], obs[..n]).failure.Some?
    ensures CheckPass(s, channels, obs) == CheckPass(s, channels[..n], obs[..n])
    decreases |channels| - n
  {
    if n < |channels| {
      assert channels[..n + 1][..n] == channels[..n] && obs[..n + 1][..n] == obs[..n];
      CheckPassStops(s, channels, obs, n + 1);
    } else {
      assert channels[..n] == channels && obs[..n] == obs;
    }
  }
}
