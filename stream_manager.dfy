/** The recording supervisor: the `channelId -> process` table, the yt-dlp
    processes it has spawned (addressed by a handle), the failsafe timers of
    pending stops, and the events it emits. Each operation is a step function
    on a `Supervisor` record; class `StreamManager` performs the same steps on
    its fields. Spawning, signals and timers are explicit inputs and records. */
module Streams {
  import opened Js

  type ChannelId = string

  const FAILSAFE_MS := 5000
  const EXITED_UNEXPECTEDLY := "Process exited unexpectedly."
  const START_FAILED_PREFIX := "Failed to start process: "
  const EXEC_ERROR_PREFIX := "yt-dlp execution error: "

  // ---------------------------------------------------------------------------
  // Output file name: outputDir/<safeName>-<timestamp>.mp3

  /** The characters `name.replace(/[^a-zA-Z0-9_-]/g, '')` keeps. */
  predicate IsSafeChar(c: char) {
    ('a' <= c <= 'z') || ('A' <= c <= 'Z') || ('0' <= c <= '9') || c == '_' || c == '-'
  }

  function SafeName(name: string): (r: string)
    ensures forall i :: 0 <= i < |r| ==> IsSafeChar(r[i])
    ensures |r| <= |name|
    decreases |name|
  {
    if name == [] then []
    else (if IsSafeChar(name[0]) then [name[0]] else []) + SafeName(name[1..])
  }

  /** SafeName drops exactly the unsafe characters: every safe character
      keeps its number of occurrences. */
  lemma {:induction false} SafeNameKeepsSafeChars(name: string, c: char)
    requires IsSafeChar(c)
    ensures multiset(SafeName(name))[c] == multiset(name)[c]
    decreases |name|
  {
    if name != [] {
      SafeNameKeepsSafeChars(name[1..], c);
      assert name == [name[0]] + name[1..];
    }
  }

  /** A name made of safe characters only is left as it is, and only such a name. */
  lemma {:induction false} SafeNameIdentity(name: string)
    ensures SafeName(name) == name <==> forall i :: 0 <= i < |name| ==> IsSafeChar(name[i])
    decreases |name|
  {
    if name != [] {
      SafeNameIdentity(name[1..]);
      if !IsSafeChar(name[0]) {
        assert |SafeName(name)| < |name|;
      }
    }
  }

  /** SafeName works character by character, left to right: the kept
      characters keep their order. */
  lemma {:induction false} SafeNameAppend(a: string, b: string)
    ensures SafeName(a + b) == SafeName(a) + SafeName(b)
    decreases |a|
  {
    if a == [] {
      assert a + b == b;
    } else {
      assert (a + b)[1..] == a[1..] + b;
      SafeNameAppend(a[1..], b);
    }
  }

  lemma SafeNameIdempotent(name: string)
    ensures SafeName(SafeName(name)) == SafeName(name)
  {
    SafeNameIdentity(SafeName(name));
  }

  /** `iso.replace(/[:.]/g, '-')`. */
  function Stamp(iso: string): (r: string)
    ensures |r| == |iso|
    ensures forall i :: 0 <= i < |r| ==> r[i] != ':' && r[i] != '.'
    ensures forall i :: 0 <= i < |r| && iso[i] != ':' && iso[i] != '.' ==> r[i] == iso[i]
  {
    DashOut(iso, {':', '.'})
  }

  /** What `path.join(dir, file)` puts in front of a file name without slashes. */
  function DirPrefix(dir: string): (p: string)
    ensures |dir| <= |p| <= |dir| + 1
    ensures dir == "" ==> p == ""
    ensures dir != "" ==> p[..|dir|] == dir && p[|p| - 1] == '/'
  {
    if dir == "" then "" else if dir[|dir| - 1] == '/' then dir else dir + "/"
  }

  function OutFile(outputDir: string, name: string, iso: string): (r: string)
    ensures |r| >= |outputDir| + 4
    ensures r[|r| - 4..] == ".mp3"
    ensures outputDir != "" ==> r[..|outputDir|] == outputDir
    ensures var k := |DirPrefix(outputDir)|;
      k + |SafeName(name)| <= |r| && r[..k] == DirPrefix(outputDir) && r[k..k + |SafeName(name)|] == SafeName(name)
  {
    DirPrefix(outputDir) + SafeName(name) + "-" + Stamp(iso) + ".mp3"
  }

  /** The timestamp can be read back from the file name, so recordings of one
      channel started at different instants never share a file. */
  lemma StampRecoverable(outputDir: string, name: string, iso: string)
    ensures var r := OutFile(outputDir, name, iso);
      var k := |DirPrefix(outputDir)| + |SafeName(name)| + 1;
      k <= |r| - 4 && r[k..|r| - 4] == Stamp(iso) && r[k - 1] == '-'
  {
  }

  lemma OutFileDistinct(outputDir: string, name: string, iso1: string, iso2: string)
    requires Stamp(iso1) != Stamp(iso2)
    ensures OutFile(outputDir, name, iso1) != OutFile(outputDir, name, iso2)
  {
    StampRecoverable(outputDir, name, iso1);
    StampRecoverable(outputDir, name, iso2);
  }

  // ---------------------------------------------------------------------------
  // Supervisor state

  datatype Signal = SigInt | SigKill

  /** The `close` listener attached to a process: `handleReconnect` (attached
      by `start`) or the `once` listener of a `stop` call, which resolves the
      promise that call returned. */
  datatype CloseListener = Reconnect | ResolveStop(ticket: nat)

  /** One yt-dlp process. `onError` tells whether the `error` listener that
      calls `handleReconnect` is still attached; `signals` lists the `kill`
      calls made on it. */
  datatype Proc = Proc(
    channelId: ChannelId,
    name: string,
    args: seq<string>,
    onClose: CloseListener,
    onError: bool,
    signals: seq<Signal>,
    exited: bool)

  datatype LogLine =
    | AlreadyRunning(name: string, channelId: ChannelId)
    | StartingRecording(name: string)
    | ProcessExited(name: string, code: Option<int>)
    | ConnectionLost(name: string)
    | StoppingRecording(channelId: ChannelId)
    | StoppedSuccessfully(channelId: ChannelId)
    | ForcingKill(channelId: ChannelId)
    | StoppingAll

  /** What the manager emits: `log`, `stream:started`, `stream:stopped`, `stream:error`. */
  datatype Event =
    | Log(line: LogLine)
    | Started(channelId: ChannelId)
    | Stopped(channelId: ChannelId)
    | Error(channelId: ChannelId, reason: string)

  /** A pending failsafe timer of `stop`: it captured the channel and the process. */
  datatype Failsafe = Failsafe(channelId: ChannelId, handle: nat, due: int)

  /** Whether `ytDlpWrap.exec(args)` returned a process or threw. */
  datatype SpawnOutcome = Spawned | SpawnThrows(message: string)

  datatype Config = Config(outputDir: string, ytdlpArgs: seq<string>)

  /** `processes` maps a channel to the handle of its process; `procs` holds
      every process ever spawned. A `stop` call's promise is a ticket number;
      `resolved` holds the tickets whose promise has resolved. */
  datatype Supervisor = Supervisor(
    processes: map<ChannelId, nat>,
    reconnectTimeouts: set<ChannelId>,
    procs: map<nat, Proc>,
    nextHandle: nat,
    failsafes: seq<Failsafe>,
    events: seq<Event>,
    nextTicket: nat,
    resolved: set<nat>)

  function Initial(): Supervisor {
    Supervisor(map[], {}, map[], 0, [], [], 0, {})
  }

  /** Every table entry names a live process of that channel (so at most one
      process per channel is registered, and no process serves two channels). */
  ghost predicate Inv(s: Supervisor) {
    && (forall ch :: ch in s.processes ==>
          s.processes[ch] in s.procs && s.procs[s.processes[ch]].channelId == ch && !s.procs[s.processes[ch]].exited)
    && (forall h :: h in s.procs ==> h < s.nextHandle)
    && (forall h :: h in s.procs && s.procs[h].onClose.ResolveStop? ==> s.procs[h].onClose.ticket < s.nextTicket)
    && (forall t :: t in s.resolved ==> t < s.nextTicket)
  }

  lemma InitialInv()
    ensures Inv(Initial()) && Initial().processes == map[]
  {
  }

  lemma InvOneProcessPerChannel(s: Supervisor, a: ChannelId, b: ChannelId)
    requires Inv(s) && a in s.processes && b in s.processes && a != b
    ensures s.processes[a] != s.processes[b]
  {
  }

  // ---------------------------------------------------------------------------
  // Steps

  /** `handleReconnect(stream, reason)`: forget the channel's entry, report the
      error, never restart. */
  function ReconnectStep(s: Supervisor, ch: ChannelId, name: string, reason: string): (r: Supervisor)
    requires Inv(s)
    ensures Inv(r)
    ensures ch !in r.processes && r.processes == s.processes - {ch}
    ensures r.events == s.events + [Error(ch, reason), Log(ConnectionLost(name))]
    ensures r.procs == s.procs && r.failsafes == s.failsafes && r.resolved == s.resolved
    ensures r.reconnectTimeouts == s.reconnectTimeouts && r.nextHandle == s.nextHandle && r.nextTicket == s.nextTicket
  {
    s.(processes := s.processes - {ch}, events := s.events + [Error(ch, reason), Log(ConnectionLost(name))])
  }

  function Args(cfg: Config, outFile: string, url: string): seq<string> {
    cfg.ytdlpArgs + ["-o", outFile, url]
  }

  /** `start({channelId, name, url})` at the instant whose ISO text is `iso`. */
  function StartStep(s: Supervisor, cfg: Config, ch: ChannelId, name: string, url: string, iso: string,
                     spawn: SpawnOutcome): (r: Supervisor)
    requires Inv(s)
    ensures Inv(r)
    ensures ch in s.processes ==> r == s.(events := s.events + [Log(AlreadyRunning(name, ch))])
    ensures ch !in s.processes ==> r.reconnectTimeouts == s.reconnectTimeouts - {ch}
    ensures ch !in s.processes && spawn.Spawned? ==>
      && r.processes == s.processes[ch := s.nextHandle]
      && r.procs == s.procs[s.nextHandle := Proc(ch, name, Args(cfg, OutFile(cfg.outputDir, name, iso), url),
                                                 Reconnect, true, [], false)]
      && r.events == s.events + [Log(StartingRecording(name)), Started(ch)]
    ensures ch !in s.processes && spawn.SpawnThrows? ==>
      && r.processes == s.processes && r.procs == s.procs
      && r.events == s.events + [Log(StartingRecording(name)), Error(ch, EXEC_ERROR_PREFIX + spawn.message),
                                 Log(ConnectionLost(name))]
    ensures r.failsafes == s.failsafes && r.resolved == s.resolved && r.nextTicket == s.nextTicket
  {
    if ch in s.processes then
      s.(events := s.events + [Log(AlreadyRunning(name, ch))])
    else
      var s1 := s.(reconnectTimeouts := s.reconnectTimeouts - {ch},
                   events := s.events + [Log(StartingRecording(name))]);
      match spawn
      case SpawnThrows(message) => ReconnectStep(s1, ch, name, EXEC_ERROR_PREFIX + message)
      case Spawned =>
        var h := s.nextHandle;
        var p := Proc(ch, name, Args(cfg, OutFile(cfg.outputDir, name, iso), url), Reconnect, true, [], false);
        s1.(processes := s.processes[ch := h], procs := s.procs[h := p], nextHandle := h + 1,
            events := s1.events + [Started(ch)])
  }

  /** `stop(channelId)` at time `now`; its promise is ticket `s.nextTicket`. */
  function StopStep(s: Supervisor, ch: ChannelId, now: int): (r: Supervisor)
    requires Inv(s)
    ensures Inv(r)
    ensures r.processes == s.processes && r.nextHandle == s.nextHandle
    ensures r.nextTicket == s.nextTicket + 1 && r.reconnectTimeouts == s.reconnectTimeouts - {ch}
    ensures ch !in s.processes ==>
      r == s.(nextTicket := s.nextTicket + 1, reconnectTimeouts := s.reconnectTimeouts - {ch},
              resolved := s.resolved + {s.nextTicket})
    ensures ch in s.processes ==>
      var h := s.processes[ch];
      && r.procs == s.procs[h := s.procs[h].(onClose := ResolveStop(s.nextTicket), onError := false,
                                             signals := s.procs[h].signals + [SigInt])]
      && r.failsafes == s.failsafes + [Failsafe(ch, h, now + FAILSAFE_MS)]
      && r.events == s.events + [Log(StoppingRecording(ch))]
      && r.resolved == s.resolved
  {
    var t := s.nextTicket;
    var s1 := s.(nextTicket := t + 1, reconnectTimeouts := s.reconnectTimeouts - {ch});
    if ch in s.processes then
      var h := s.processes[ch];
      var p := s.procs[h];
      s1.(procs := s.procs[h := p.(onClose := ResolveStop(t), onError := false, signals := p.signals + [SigInt])],
          failsafes := s.failsafes + [Failsafe(ch, h, now + FAILSAFE_MS)],
          events := s.events + [Log(StoppingRecording(ch))])
    else
      s1.(resolved := s.resolved + {t})
  }

  /** The process with handle `h` emits `close` with exit `code`. */
  function CloseStep(s: Supervisor, h: nat, code: Option<int>): (r: Supervisor)
    requires Inv(s)
    ensures Inv(r)
    ensures h !in s.procs || s.procs[h].exited ==> r == s
    ensures h in s.procs && !s.procs[h].exited ==>
      var p := s.procs[h];
      && r.procs == s.procs[h := p.(exited := true)]
      && r.processes == s.processes - {p.channelId}
      && (p.onClose.Reconnect? ==>
            r.events == s.events + [Log(ProcessExited(p.name, code)), Error(p.channelId, EXITED_UNEXPECTEDLY),
                                    Log(ConnectionLost(p.name))]
            && r.resolved == s.resolved)
      && (p.onClose.ResolveStop? ==>
            r.events == s.events + [Log(StoppedSuccessfully(p.channelId)), Stopped(p.channelId)]
            && r.resolved == s.resolved + {p.onClose.ticket})
    ensures r.failsafes == s.failsafes && r.nextTicket == s.nextTicket && r.nextHandle == s.nextHandle
  {
    if h !in s.procs || s.procs[h].exited then s
    else
      var p := s.procs[h];
      match p.onClose
      case Reconnect =>
        ReconnectStep(s.(events := s.events + [Log(ProcessExited(p.name, code))]), p.channelId, p.name,
                      EXITED_UNEXPECTEDLY).(procs := s.procs[h := p.(exited := true)])
      case ResolveStop(t) =>
        s.(procs := s.procs[h := p.(exited := true)],
            processes := s.processes - {p.channelId},
            events := s.events + [Log(StoppedSuccessfully(p.channelId)), Stopped(p.channelId)],
            resolved := s.resolved + {t})
  }

  /** The process with handle `h` emits `error`. Once `stop` has detached the
      listener nothing happens here. */
  function ErrorStep(s: Supervisor, h: nat, message: string): (r: Supervisor)
    requires Inv(s)
    ensures Inv(r)
    ensures h in s.procs && s.procs[h].onError ==>
      r == ReconnectStep(s, s.procs[h].channelId, s.procs[h].name, START_FAILED_PREFIX + message)
    ensures !(h in s.procs && s.procs[h].onError) ==> r == s
  {
    if h in s.procs && s.procs[h].onError then
      ReconnectStep(s, s.procs[h].channelId, s.procs[h].name, START_FAILED_PREFIX + message)
    else s
  }

  /** The oldest failsafe timer fires when its time has come: SIGKILL goes to
      the process it captured, but only if the channel still has an entry. */
  function FailsafeStep(s: Supervisor, now: int): (r: Supervisor)
    requires Inv(s)
    ensures Inv(r)
    ensures r.processes == s.processes && r.resolved == s.resolved && r.nextTicket == s.nextTicket
    ensures s.failsafes == [] || s.failsafes[0].due > now ==> r == s
    ensures s.failsafes != [] && s.failsafes[0].due <= now ==>
      var f := s.failsafes[0];
      && r.failsafes == s.failsafes[1..]
      && (f.channelId in s.processes && f.handle in s.procs ==>
            r.procs == s.procs[f.handle := s.procs[f.handle].(signals := s.procs[f.handle].signals + [SigKill])]
            && r.events == s.events + [Log(ForcingKill(f.channelId))])
      && (f.channelId !in s.processes ==> r.procs == s.procs && r.events == s.events)
  {
    if s.failsafes == [] || s.failsafes[0].due > now then s
    else
      var f := s.failsafes[0];
      var s1 := s.(failsafes := s.failsafes[1..]);
      if f.channelId in s.processes && f.handle in s.procs then
        var p := s.procs[f.handle];
        s1.(procs := s.procs[f.handle := p.(signals := p.signals + [SigKill])],
            events := s.events + [Log(ForcingKill(f.channelId))])
      else s1
  }


  /** `stop` called on each channel of `order`, in turn. */
  function StopEach(s: Supervisor, order: seq<ChannelId>, now: int): (r: Supervisor)
    requires Inv(s)
    ensures Inv(r)
    ensures r.processes == s.processes && r.nextHandle == s.nextHandle
    ensures r.nextTicket == s.nextTicket + |order|
    ensures r.procs.Keys == s.procs.Keys
    decreases |order|
  {
    if order == [] then s
    else StopStep(StopEach(s, order[..|order| - 1], now), order[|order| - 1], now)
  }

  lemma StopEachSnoc(s: Supervisor, order: seq<ChannelId>, ch: ChannelId, now: int)
    requires Inv(s)
    ensures StopEach(s, order + [ch], now) == StopStep(StopEach(s, order, now), ch, now)
  {
    assert (order + [ch])[..|order|] == order;
  }

  lemma StopEachPrefix(s: Supervisor, order: seq<ChannelId>, i: nat, now: int)
    requires Inv(s) && i < |order|
    ensures StopEach(s, order[..i + 1], now) == StopStep(StopEach(s, order[..i], now), order[i], now)
  {
    assert order[..i + 1][..i] == order[..i];
  }

  /** `stopAll()`: one `stop` per key of the table, in the order `order`. */
  function StopAllStep(s: Supervisor, order: seq<ChannelId>, now: int): (r: Supervisor)
    requires Inv(s)
    ensures Inv(r)
    ensures r.processes == s.processes
    ensures r.nextTicket == s.nextTicket + |order|
  {
    StopEach(s.(events := s.events + [Log(StoppingAll)]), order, now)
  }

  // ---------------------------------------------------------------------------
  // Properties over several steps

  /** A requested stop is never mistaken for an unexpected exit: the process's
      `close` then reports `stream:stopped` and resolves the stop's promise,
      and its `error` has no listener left. */
  lemma StopThenClose(s: Supervisor, ch: ChannelId, now: int, code: Option<int>, message: string)
    requires Inv(s) && ch in s.processes
    ensures var s1 := StopStep(s, ch, now);
      var r := CloseStep(s1, s.processes[ch], code);
      && r.events == s1.events + [Log(StoppedSuccessfully(ch)), Stopped(ch)]
      && ch !in r.processes && s.nextTicket in r.resolved
      && (forall k :: |s.events| <= k < |r.events| ==> !r.events[k].Error?)
    ensures ErrorStep(StopStep(s, ch, now), s.processes[ch], message) == StopStep(s, ch, now)
  {
    var s1 := StopStep(s, ch, now);
    var r := CloseStep(s1, s.processes[ch], code);
    assert r.events == s.events + [Log(StoppingRecording(ch)), Log(StoppedSuccessfully(ch)), Stopped(ch)];
  }

  /** Starting an active channel again changes nothing but the log. */
  lemma StartIdempotent(s: Supervisor, cfg: Config, ch: ChannelId, name: string, url: string, iso: string,
                        iso2: string, spawn: SpawnOutcome, spawn2: SpawnOutcome)
    requires Inv(s)
    ensures var s1 := StartStep(s, cfg, ch, name, url, iso, spawn);
      var s2 := StartStep(s1, cfg, ch, name, url, iso2, spawn2);
      s1.processes == s2.processes || (ch !in s1.processes && s2.processes.Keys == s1.processes.Keys + {ch})
    ensures var s1 := StartStep(s, cfg, ch, name, url, iso, spawn);
      ch in s1.processes ==>
        var s2 := StartStep(s1, cfg, ch, name, url, iso2, spawn2);
        s2.processes == s1.processes && s2.procs == s1.procs && |s2.events| == |s1.events| + 1
        && s2.events[|s1.events|].Log?
  {
  }

  /** `order` lists each of the keys once. */
  ghost predicate Enumerates(order: seq<ChannelId>, keys: set<ChannelId>) {
    && (forall i, j :: 0 <= i < j < |order| ==> order[i] != order[j])
    && (forall ch :: ch in order <==> ch in keys)
  }

  /** Some enumeration of a set of keys, for proofs that need one to exist. */
  ghost function SomeOrder(keys: set<ChannelId>): (order: seq<ChannelId>)
    ensures Enumerates(order, keys)
    decreases keys
  {
    if keys == {} then []
    else
      var ch :| ch in keys;
      [ch] + SomeOrder(keys - {ch})
  }

  /** `Object.keys(table)`: the keys of a table, each once, in some order. */
  method KeyList(keys: set<ChannelId>) returns (order: seq<ChannelId>)
    ensures Enumerates(order, keys)
  {
    order := [];
    var remaining := keys;
    while remaining != {}
      invariant remaining <= keys
      invariant forall i, j :: 0 <= i < j < |order| ==> order[i] != order[j]
      invariant forall ch :: ch in order <==> ch in keys && ch !in remaining
      decreases remaining
    {
      var ch :| ch in remaining;
      order := order + [ch];
      remaining := remaining - {ch};
    }
  }

  /** `tickets` are `from`, `from + 1`, ...: the tickets handed out by stops in a row. */
  ghost predicate Consecutive(tickets: seq<nat>, from: nat) {
    forall k :: 0 <= k < |tickets| ==> tickets[k] == from + k
  }

  /** What one `stop` does to the process table: only the stopped channel's
      process changes, and it is wired to the new ticket. */
  lemma StopStepProcs(s: Supervisor, ch: ChannelId, now: int)
    requires Inv(s)
    ensures var r := StopStep(s, ch, now);
      && r.procs.Keys == s.procs.Keys
      && (forall h :: h in s.procs && (ch !in s.processes || h != s.processes[ch]) ==> r.procs[h] == s.procs[h])
      && (ch in s.processes ==> r.procs[s.processes[ch]].onClose == ResolveStop(s.nextTicket))
  {
  }

  /** Every entry waits for its stop: `close` will resolve a promise. */
  ghost predicate AllStopping(s: Supervisor) {
    forall ch :: ch in s.processes && s.processes[ch] in s.procs ==> s.procs[s.processes[ch]].onClose.ResolveStop?
  }

  /** Stopping channels in turn leaves alone every process that is not the
      process of one of them. */
  lemma {:induction false} StopEachKeeps(s: Supervisor, order: seq<ChannelId>, now: int, h: nat)
    requires Inv(s) && h in s.procs
    requires forall ch :: ch in order && ch in s.processes ==> s.processes[ch] != h
    ensures h in StopEach(s, order, now).procs && StopEach(s, order, now).procs[h] == s.procs[h]
    decreases |order|
  {
    if order != [] {
      var pre := order[..|order| - 1];
      var last := order[|order| - 1];
      assert forall ch :: ch in pre ==> ch in order;
      StopEachKeeps(s, pre, now, h);
      var m := StopEach(s, pre, now);
      StopStepProcs(m, last, now);
    }
  }

  /** Stopping distinct channels in turn wires the process of the `i`-th one
      to ticket `s.nextTicket + i`. */
  lemma {:induction false} StopEachWiresAt(s: Supervisor, order: seq<ChannelId>, now: int, i: nat)
    requires Inv(s) && i < |order|
    requires order[i] in s.processes
    requires forall k :: i < k < |order| ==> order[k] != order[i]
    ensures StopEach(s, order, now).procs[s.processes[order[i]]].onClose == ResolveStop(s.nextTicket + i)
    decreases |order|, 1
  {
    if i == |order| - 1 {
      StopStepWires(StopEach(s, order[..i], now), order[i], now);
    } else {
      StopEachKeepsWire(s, order, now, i);
    }
  }

  /** The inductive step of `StopEachWiresAt`: a later stop of another
      channel leaves the wire of the `i`-th channel's process alone. */
  lemma {:induction false} StopEachKeepsWire(s: Supervisor, order: seq<ChannelId>, now: int, i: nat)
    requires Inv(s) && i < |order| - 1
    requires order[i] in s.processes
    requires forall k :: i < k < |order| ==> order[k] != order[i]
    ensures StopEach(s, order, now).procs[s.processes[order[i]]].onClose == ResolveStop(s.nextTicket + i)
    decreases |order|, 0
  {
    var pre := order[..|order| - 1];
    var last := order[|order| - 1];
    assert forall k :: i <= k < |pre| ==> pre[k] == order[k];
    StopEachWiresAt(s, pre, now, i);
    if last in s.processes {
      InvOneProcessPerChannel(s, order[i], last);
    }
    StopStepKeeps(StopEach(s, pre, now), last, now, s.processes[order[i]]);
  }

  lemma StopStepKeeps(s: Supervisor, ch: ChannelId, now: int, h: nat)
    requires Inv(s) && h in s.procs && (ch in s.processes ==> s.processes[ch] != h)
    ensures StopStep(s, ch, now).procs[h] == s.procs[h]
  {
  }

  lemma StopStepWires(s: Supervisor, ch: ChannelId, now: int)
    requires Inv(s) && ch in s.processes
    ensures StopStep(s, ch, now).procs[s.processes[ch]].onClose == ResolveStop(s.nextTicket)
  {
  }

  /** Stopping distinct channels in turn wires each one's process to ticket
      `s.nextTicket + i` and leaves every other process as it was. */
  lemma StopEachWires(s: Supervisor, order: seq<ChannelId>, now: int)
    requires Inv(s) && Enumerates(order, s.processes.Keys)
    ensures var r := StopEach(s, order, now);
      && (forall i :: 0 <= i < |order| ==> r.procs[s.processes[order[i]]].onClose == ResolveStop(s.nextTicket + i))
      && (forall h :: h in s.procs && (forall i :: 0 <= i < |order| ==> s.processes[order[i]] != h) ==>
            r.procs[h] == s.procs[h])
  {
    forall i | 0 <= i < |order|
      ensures StopEach(s, order, now).procs[s.processes[order[i]]].onClose == ResolveStop(s.nextTicket + i)
    {
      StopEachWiresAt(s, order, now, i);
    }
    forall h | h in s.procs && (forall i :: 0 <= i < |order| ==> s.processes[order[i]] != h)
      ensures StopEach(s, order, now).procs[h] == s.procs[h]
    {
      StopEachKeeps(s, order, now, h);
    }
  }

  /** After `stopAll` every entry is waiting for its stop. */
  lemma StopAllWiresAll(s: Supervisor, order: seq<ChannelId>, now: int)
    requires Inv(s) && Enumerates(order, s.processes.Keys)
    ensures AllStopping(StopAllStep(s, order, now))
    ensures var r := StopAllStep(s, order, now);
      forall i :: 0 <= i < |order| ==> r.procs[r.processes[order[i]]].onClose == ResolveStop(s.nextTicket + i)
  {
    StopAllTickets(s, order, now);
    var r := StopAllStep(s, order, now);
    forall ch | ch in r.processes && r.processes[ch] in r.procs
      ensures r.procs[r.processes[ch]].onClose.ResolveStop?
    {
      assert ch in order;
      var i :| 0 <= i < |order| && order[i] == ch;
    }
  }

  /** `stopAll` wires the process of the `i`-th key it takes to ticket `s.nextTicket + i`. */
  lemma StopAllTickets(s: Supervisor, order: seq<ChannelId>, now: int)
    requires Inv(s) && Enumerates(order, s.processes.Keys)
    ensures var r := StopAllStep(s, order, now);
      forall i :: 0 <= i < |order| ==> r.procs[r.processes[order[i]]].onClose == ResolveStop(s.nextTicket + i)
  {
    StopEachWires(s.(events := s.events + [Log(StoppingAll)]), order, now);
  }

  /** The handle of each listed channel. */
  function HandlesOf(processes: map<ChannelId, nat>, chs: seq<ChannelId>): (hs: seq<nat>)
    requires forall i :: 0 <= i < |chs| ==> chs[i] in processes
    ensures |hs| == |chs| && forall i :: 0 <= i < |chs| ==> hs[i] == processes[chs[i]]
    decreases |chs|
  {
    if chs == [] then [] else [processes[chs[0]]] + HandlesOf(processes, chs[1..])
  }

  /** The processes with handles `hs` exit, in turn, with no exit code. */
  function CloseEach(s: Supervisor, hs: seq<nat>): (r: Supervisor)
    requires Inv(s)
    ensures Inv(r)
    decreases |hs|
  {
    if hs == [] then s else CloseEach(CloseStep(s, hs[0], None), hs[1..])
  }

  /** Closing the processes of stopping entries removes exactly those entries
      and resolves their promises. */
  lemma {:induction false} CloseStoppingEntries(s: Supervisor, chs: seq<ChannelId>, hs: seq<nat>)
    requires Inv(s) && AllStopping(s)
    requires forall i, j :: 0 <= i < j < |chs| ==> chs[i] != chs[j]
    requires forall i :: 0 <= i < |chs| ==> chs[i] in s.processes
    requires |hs| == |chs| && forall i :: 0 <= i < |chs| ==> hs[i] == s.processes[chs[i]]
    ensures var r := CloseEach(s, hs);
      && AllStopping(r)
      && (forall ch :: ch in r.processes <==> ch in s.processes && ch !in chs)
      && s.resolved <= r.resolved
      && (forall i :: 0 <= i < |hs| ==> s.procs[hs[i]].onClose.ticket in r.resolved)
    decreases |chs|
  {
    if chs != [] {
      var ch, h := chs[0], hs[0];
      var s1 := CloseStep(s, h, None);
      var rest, hrest := chs[1..], hs[1..];
      forall i | 0 <= i < |rest|
        ensures rest[i] != ch && rest[i] in s1.processes
        ensures hrest[i] == s1.processes[rest[i]] && s1.procs[hrest[i]] == s.procs[hrest[i]]
      {
        assert rest[i] == chs[i + 1] && hrest[i] == hs[i + 1];
        InvOneProcessPerChannel(s, rest[i], ch);
      }
      assert AllStopping(s1);
      CloseStoppingEntries(s1, rest, hrest);
      var r := CloseEach(s1, hrest);
      forall i | 0 <= i < |hs| ensures s.procs[hs[i]].onClose.ticket in r.resolved {
        if i > 0 {
          assert hs[i] == hrest[i - 1];
        }
      }
    }
  }

  /** Once the process of every channel has closed after `stopAll`, the table
      is empty. */
  lemma StopAllThenCloseAll(s: Supervisor, order: seq<ChannelId>, now: int, closing: seq<ChannelId>)
    requires Inv(s) && Enumerates(order, s.processes.Keys) && Enumerates(closing, s.processes.Keys)
    ensures var s1 := StopAllStep(s, order, now);
      CloseEach(s1, HandlesOf(s1.processes, closing)).processes == map[]
  {
    var s1 := StopAllStep(s, order, now);
    StopAllWiresAll(s, order, now);
    CloseStoppingEntries(s1, closing, HandlesOf(s1.processes, closing));
  }

  /** Once the process of every channel has closed after `stopAll`, every
      promise `stopAll` waited for has resolved. */
  lemma StopAllThenResolved(s: Supervisor, order: seq<ChannelId>, now: int, closing: seq<ChannelId>)
    requires Inv(s) && Enumerates(order, s.processes.Keys) && Enumerates(closing, s.processes.Keys)
    ensures var s1 := StopAllStep(s, order, now);
      var r := CloseEach(s1, HandlesOf(s1.processes, closing));
      forall t :: s.nextTicket <= t < s.nextTicket + |order| ==> t in r.resolved
  {
    var s1 := StopAllStep(s, order, now);
    StopAllWiresAll(s, order, now);
    var hs := HandlesOf(s1.processes, closing);
    CloseStoppingEntries(s1, closing, hs);
    var r := CloseEach(s1, hs);
    forall t | s.nextTicket <= t < s.nextTicket + |order| ensures t in r.resolved {
      var i := t - s.nextTicket;
      assert order[i] in closing;
      var j :| 0 <= j < |closing| && closing[j] == order[i];
      assert hs[j] == s1.processes[order[i]];
      assert s1.procs[hs[j]].onClose.ticket == t;
    }
  }

  // ---------------------------------------------------------------------------
  // The imperative manager

  class StreamManager {
    const outputDir: string
    const ytdlpArgs: seq<string>
    var processes: map<ChannelId, nat>
    var reconnectTimeouts: set<ChannelId>
    var procs: map<nat, Proc>
    var nextHandle: nat
    var failsafes: seq<Failsafe>
    var events: seq<Event>
    var nextTicket: nat
    var resolved: set<nat>

    function Settings(): Config {
      Config(outputDir, ytdlpArgs)
    }

    function State(): Supervisor
      reads this
    {
      Supervisor(processes, reconnectTimeouts, procs, nextHandle, failsafes, events, nextTicket, resolved)
    }

    ghost predicate Valid()
      reads this
    {
      Inv(State())
    }

    constructor (outputDir: string, ytdlpArgs: seq<string>)
      ensures Valid() && State() == Initial()
      ensures this.outputDir == outputDir && this.ytdlpArgs == ytdlpArgs
    {
      this.outputDir := outputDir;
      this.ytdlpArgs := ytdlpArgs;
      processes, reconnectTimeouts, procs, nextHandle := map[], {}, map[], 0;
      failsafes, events, nextTicket, resolved := [], [], 0, {};
    }

    /** `isActive(channelId)`. */
    predicate IsActive(ch: ChannelId)
      reads this
    {
      ch in processes
    }

    method HandleReconnect(ch: ChannelId, name: string, reason: string)
      requires Valid()
      modifies this
      ensures Valid()
      ensures State() == ReconnectStep(old(State()), ch, name, reason)
    {
      processes := processes - {ch};
      events := events + [Error(ch, reason), Log(ConnectionLost(name))];
    }

    method Start(ch: ChannelId, name: string, url: string, iso: string, spawn: SpawnOutcome)
      requires Valid()
      modifies this
      ensures Valid()
      ensures State() == StartStep(old(State()), Settings(), ch, name, url, iso, spawn)
    {
      ghost var r := StartStep(State(), Settings(), ch, name, url, iso, spawn);
      if IsActive(ch) {
        events := events + [Log(AlreadyRunning(name, ch))];
        assert Inv(r) && State() == r;
        return;
      }
      reconnectTimeouts := reconnectTimeouts - {ch};
      var outFile := OutFile(outputDir, name, iso);
      var args := ytdlpArgs + ["-o", outFile, url];
      assert args == Args(Settings(), outFile, url);
      events := events + [Log(StartingRecording(name))];
      match spawn {
        case SpawnThrows(message) =>
          HandleReconnect(ch, name, EXEC_ERROR_PREFIX + message);
        case Spawned =>
          var h := nextHandle;
          nextHandle := nextHandle + 1;
          procs := procs[h := Proc(ch, name, args, Reconnect, true, [], false)];
          processes := processes[ch := h];
          events := events + [Started(ch)];
      }
      assert Inv(r) && State() == r;
    }

    /** Returns the ticket of the promise `stop` returns. */
    method Stop(ch: ChannelId, now: int) returns (ticket: nat)
      requires Valid()
      modifies this
      ensures Valid()
      ensures ticket == old(nextTicket)
      ensures State() == StopStep(old(State()), ch, now)
    {
      ghost var r := StopStep(State(), ch, now);
      ticket := nextTicket;
      nextTicket := nextTicket + 1;
      reconnectTimeouts := reconnectTimeouts - {ch};
      if ch in processes {
        var h := processes[ch];
        events := events + [Log(StoppingRecording(ch))];
        var p := procs[h];
        procs := procs[h := p.(onClose := ResolveStop(ticket), onError := false, signals := p.signals + [SigInt])];
        failsafes := failsafes + [Failsafe(ch, h, now + FAILSAFE_MS)];
      } else {
        resolved := resolved + {ticket};
      }
      assert Inv(r) && State() == r;
    }

    method OnClose(h: nat, code: Option<int>)
      requires Valid()
      modifies this
      ensures Valid()
      ensures State() == CloseStep(old(State()), h, code)
    {
      ghost var r := CloseStep(State(), h, code);
      if h !in procs || procs[h].exited {
        return;
      }
      var p := procs[h];
      match p.onClose {
        case Reconnect =>
          events := events + [Log(ProcessExited(p.name, code))];
          HandleReconnect(p.channelId, p.name, EXITED_UNEXPECTEDLY);
          procs := procs[h := p.(exited := true)];
        case ResolveStop(t) =>
          procs := procs[h := p.(exited := true)];
          processes := processes - {p.channelId};
          events := events + [Log(StoppedSuccessfully(p.channelId)), Stopped(p.channelId)];
          resolved := resolved + {t};
      }
      assert Inv(r) && State() == r;
    }

    method OnError(h: nat, message: string)
      requires Valid()
      modifies this
      ensures Valid()
      ensures State() == ErrorStep(old(State()), h, message)
    {
      if h in procs && procs[h].onError {
        HandleReconnect(procs[h].channelId, procs[h].name, START_FAILED_PREFIX + message);
      }
    }

    method OnFailsafe(now: int)
      requires Valid()
      modifies this
      ensures Valid()
      ensures State() == FailsafeStep(old(State()), now)
    {
      if failsafes == [] || failsafes[0].due > now {
        return;
      }
      var f := failsafes[0];
      failsafes := failsafes[1..];
      if f.channelId in processes && f.handle in procs {
        var p := procs[f.handle];
        events := events + [Log(ForcingKill(f.channelId))];
        procs := procs[f.handle := p.(signals := p.signals + [SigKill])];
      }
    }

    /** `stopAll()`: stops every key of the table; returns the promises the
        `Promise.all` waits for, and (as `order`) the order the keys were taken in. */
    method StopAll(now: int) returns (tickets: seq<nat>, ghost order: seq<ChannelId>)
      requires Valid()
      modifies this
      ensures Valid()
      ensures Enumerates(order, old(processes).Keys)
      ensures State() == StopAllStep(old(State()), order, now)
      ensures |tickets| == |order| && Consecutive(tickets, old(nextTicket))
    {
      events := events + [Log(StoppingAll)];
      var keys := KeyList(processes.Keys);
      order := keys;
      tickets := StopEachKey(keys, now);
    }

    /** `keys.map(channelId => this.stop(channelId))`. */
    method StopEachKey(keys: seq<ChannelId>, now: int) returns (tickets: seq<nat>)
      requires Valid()
      modifies this
      ensures Valid()
      ensures State() == StopEach(old(State()), keys, now)
      ensures |tickets| == |keys| && Consecutive(tickets, old(nextTicket))
    {
      ghost var s0 := State();
      ghost var done: seq<ChannelId> := [];
      tickets := [];
      for i := 0 to |keys|
        invariant done == keys[..i]
        invariant State() == StopEach(s0, done, now)
        invariant |tickets| == i && Consecutive(tickets, s0.nextTicket)
      {
        tickets := StopNext(s0, done, tickets, keys[i], now);
        done := done + [keys[i]];
      }
      assert done == keys;
    }

    /** One step of `stopAll`'s map: stopping the next channel extends the fold
        and appends that call's ticket. */
    method StopNext(ghost s0: Supervisor, ghost done: seq<ChannelId>, tickets: seq<nat>, ch: ChannelId, now: int)
      returns (tickets': seq<nat>)
      requires Inv(s0) && State() == StopEach(s0, done, now)
      requires |tickets| == |done| && Consecutive(tickets, s0.nextTicket)
      modifies this
      ensures State() == StopEach(s0, done + [ch], now)
      ensures |tickets'| == |done| + 1 && Consecutive(tickets', s0.nextTicket)
    {
      StopEachSnoc(s0, done, ch, now);
      var t := Stop(ch, now);
      tickets' := tickets + [t];
    }
  }
}
