/** The browser-side GPU data manager's bookkeeping
    (content/browser/gpu/gpu_data_manager_impl_private.cc): the bounded log,
    3D-API domain blocking after GPU resets, the active-GPU switch, and the
    queue of calls deferred until initialisation. Times are base::Time
    values in microseconds. */
module GpuDataManager {
  import opened Base
  import opened GpuUtil

  // ---------------------------------------------------------------------
  // The log

  const LogMessageLimit: nat := 1000

  datatype LogMessage = LogMessage(level: int, header: string, message: string)

  /** The last `LogMessageLimit` entries of `s`, or all of them. */
  function LastMessages(s: seq<LogMessage>): (r: seq<LogMessage>)
    ensures |r| == Min(|s|, LogMessageLimit)
    ensures r == s[|s| - |r|..]
  {
    if |s| > LogMessageLimit then s[|s| - LogMessageLimit..] else s
  }

  /** Keeping the last entries after every append is keeping the last
      entries of everything appended. */
  lemma LastMessagesAppend(s: seq<LogMessage>, m: LogMessage)
    ensures LastMessages(LastMessages(s) + [m]) == LastMessages(s + [m])
  {
    if |s| > LogMessageLimit {
      assert (s + [m])[|s| + 1 - LogMessageLimit..] == s[|s| - LogMessageLimit..][1..] + [m];
    }
  }

  // ---------------------------------------------------------------------
  // Domains and reset timestamps

  const BlockAllDomainsMs: int := 10000
  const NumResetsWithinDuration: nat := 1
  const MicrosecondsPerMillisecond: int := 1000

  /** A URL, reduced to its host component when it has one. */
  datatype Url = Url(host: Option<string>)

  predicate HasHost(url: Url) {
    url.host.Some? && url.host.value != []
  }

  /** GetDomainFromURL: the host, or "" when there is none. */
  function GetDomainFromURL(url: Url): (r: string)
    ensures r == [] <==> !HasHost(url)
    ensures HasHost(url) ==> r == url.host.value
  {
    if !HasHost(url) then [] else url.host.value
  }

  datatype DomainGuilt = Known | Unknown

  datatype DomainBlockStatus = Blocked | AllDomainsBlocked | NotBlocked

  /** TimeDelta::InMilliseconds: whole milliseconds, truncated toward zero. */
  function InMilliseconds(deltaMicros: int): (r: int)
    ensures deltaMicros >= 0 ==> 0 <= r * MicrosecondsPerMillisecond <= deltaMicros < (r + 1) * MicrosecondsPerMillisecond
    ensures deltaMicros < 0 ==> (r - 1) * MicrosecondsPerMillisecond < deltaMicros <= r * MicrosecondsPerMillisecond <= 0
  {
    if deltaMicros >= 0 then deltaMicros / MicrosecondsPerMillisecond
    else -((-deltaMicros) / MicrosecondsPerMillisecond)
  }

  /** A reset at `t` no longer counts at time `now`. */
  predicate Expired(now: int, t: int) {
    InMilliseconds(now - t) > BlockAllDomainsMs
  }

  /** Once expired, a reset stays expired. */
  lemma ExpiredMonotone(now: int, later: int, t: int)
    requires now <= later && Expired(now, t)
    ensures Expired(later, t)
  {
  }

  /** The timestamps still within the window, in their order. */
  function Unexpired(ts: seq<int>, now: int): (r: seq<int>)
    ensures |r| <= |ts|
  {
    if ts == [] then []
    else Unexpired(ts[..|ts| - 1], now) + (if Expired(now, ts[|ts| - 1]) then [] else [ts[|ts| - 1]])
  }

  /** Exactly the unexpired timestamps survive. */
  lemma {:induction false} UnexpiredMembership(ts: seq<int>, now: int, t: int)
    ensures t in Unexpired(ts, now) <==> t in ts && !Expired(now, t)
  {
    if ts != [] {
      UnexpiredMembership(ts[..|ts| - 1], now, t);
      assert ts == ts[..|ts| - 1] + [ts[|ts| - 1]];
    }
  }

  /** Pruning at an earlier time and then at a later one is pruning at the
      later one; pruning twice at the same time changes nothing. */
  lemma {:induction false} UnexpiredLater(ts: seq<int>, now: int, later: int)
    requires now <= later
    ensures Unexpired(Unexpired(ts, now), later) == Unexpired(ts, later)
  {
    if ts != [] {
      var init := ts[..|ts| - 1];
      var last := ts[|ts| - 1];
      UnexpiredLater(init, now, later);
      UnexpiredAppend(Unexpired(init, now), if Expired(now, last) then [] else [last], later);
      if Expired(now, last) {
        ExpiredMonotone(now, later, last);
      } else {
        assert [last][..0] == [];
      }
    }
  }

  /** Pruning distributes over concatenation. */
  lemma {:induction false} UnexpiredAppend(a: seq<int>, b: seq<int>, now: int)
    ensures Unexpired(a + b, now) == Unexpired(a, now) + Unexpired(b, now)
    decreases |b|
  {
    if b == [] {
      assert a + b == a;
    } else {
      var init := b[..|b| - 1];
      var last := b[|b| - 1];
      assert (a + b)[..|a + b| - 1] == a + init;
      assert (a + b)[|a + b| - 1] == last;
      UnexpiredAppend(a, init, now);
    }
  }

  /** Some reset is still within the window. */
  lemma RecentResetBlocksAll(ts: seq<int>, now: int)
    requires exists t :: t in ts && !Expired(now, t)
    ensures |Unexpired(ts, now)| >= NumResetsWithinDuration
  {
    var t :| t in ts && !Expired(now, t);
    UnexpiredMembership(ts, now, t);
  }

  /** The answer of Are3DAPIsBlockedAtTime, from the state before the call. */
  function BlockStatus(enabled: bool, blockedDomains: map<string, DomainGuilt>, ts: seq<int>,
                       url: Url, now: int): DomainBlockStatus
  {
    if !enabled then NotBlocked
    else if GetDomainFromURL(url) in blockedDomains then Blocked
    else if |Unexpired(ts, now)| >= NumResetsWithinDuration then AllDomainsBlocked
    else NotBlocked
  }

  /** All domains are blocked exactly when blocking is on, the domain is not
      blocked itself, and some reset happened within the last 10000 ms. */
  lemma BlockStatusMeaning(enabled: bool, blockedDomains: map<string, DomainGuilt>, ts: seq<int>,
                           url: Url, now: int)
    ensures var r := BlockStatus(enabled, blockedDomains, ts, url, now);
              (r == Blocked <==> enabled && GetDomainFromURL(url) in blockedDomains)
              && (r == AllDomainsBlocked <==>
                    enabled && GetDomainFromURL(url) !in blockedDomains
                    && exists t :: t in ts && !Expired(now, t))
  {
    var remaining := Unexpired(ts, now);
    if |remaining| >= NumResetsWithinDuration {
      UnexpiredMembership(ts, now, remaining[0]);
    }
    if exists t :: t in ts && !Expired(now, t) {
      RecentResetBlocksAll(ts, now);
    }
  }

  // ---------------------------------------------------------------------
  // The active GPU

  predicate Matches(g: GpuDevice, vendorId: U32, deviceId: U32) {
    g.vendorId == vendorId && g.deviceId == deviceId
  }

  /** The secondaries after the loop has visited them: matching ones
      active, the rest inactive. */
  function Retagged(secondaries: seq<GpuDevice>, vendorId: U32, deviceId: U32): (r: seq<GpuDevice>)
    ensures |r| == |secondaries|
    ensures forall k :: 0 <= k < |r| ==>
              r[k] == secondaries[k].(active := Matches(secondaries[k], vendorId, deviceId))
  {
    seq(|secondaries|, k requires 0 <= k < |secondaries| =>
      secondaries[k].(active := Matches(secondaries[k], vendorId, deviceId)))
  }

  /** The secondaries, all inactive. */
  function Deactivated(secondaries: seq<GpuDevice>): (r: seq<GpuDevice>)
    ensures |r| == |secondaries|
    ensures forall k :: 0 <= k < |r| ==> r[k] == secondaries[k].(active := false)
  {
    seq(|secondaries|, k requires 0 <= k < |secondaries| => secondaries[k].(active := false))
  }

  /** The first secondary that matches and is already active. */
  function FirstActiveMatch(secondaries: seq<GpuDevice>, vendorId: U32, deviceId: U32): (r: Option<nat>)
    ensures r.Some? ==>
              r.value < |secondaries|
              && Matches(secondaries[r.value], vendorId, deviceId) && secondaries[r.value].active
              && forall k :: 0 <= k < r.value ==> !(Matches(secondaries[k], vendorId, deviceId) && secondaries[k].active)
    ensures r.None? ==>
              forall k :: 0 <= k < |secondaries| ==> !(Matches(secondaries[k], vendorId, deviceId) && secondaries[k].active)
  {
    if secondaries == [] then None
    else if Matches(secondaries[0], vendorId, deviceId) && secondaries[0].active then Some(0)
    else
      match FirstActiveMatch(secondaries[1..], vendorId, deviceId)
      case None => None
      case Some(j) => Some(j + 1)
  }

  datatype SwitchResult = SwitchResult(changed: bool, info: GpuInfo)

  /** What UpdateActiveGpu returns and leaves behind. When a matching
      secondary is already active, the secondaries before it have already
      been rewritten. */
  function SwitchActiveGpu(info: GpuInfo, vendorId: U32, deviceId: U32): SwitchResult {
    if Matches(info.gpu, vendorId, deviceId) then
      if info.gpu.active then SwitchResult(false, info)
      else SwitchResult(true, info.(gpu := info.gpu.(active := true), secondaryGpus := Deactivated(info.secondaryGpus)))
    else
      match FirstActiveMatch(info.secondaryGpus, vendorId, deviceId)
      case Some(j) =>
        SwitchResult(false, info.(secondaryGpus := Retagged(info.secondaryGpus[..j], vendorId, deviceId) + info.secondaryGpus[j..]))
      case None =>
        SwitchResult(true, info.(gpu := info.gpu.(active := false),
                                 secondaryGpus := Retagged(info.secondaryGpus, vendorId, deviceId)))
  }

  /** At most one GPU is active. */
  predicate AtMostOneActive(info: GpuInfo) {
    (info.gpu.active ==> forall k :: 0 <= k < |info.secondaryGpus| ==> !info.secondaryGpus[k].active)
    && forall j, k ::
         (0 <= j < |info.secondaryGpus| && 0 <= k < |info.secondaryGpus|
          && info.secondaryGpus[j].active && info.secondaryGpus[k].active) ==> j == k
  }

  /** No two GPUs share a (vendor, device) pair. */
  predicate DistinctIds(info: GpuInfo) {
    (forall k :: 0 <= k < |info.secondaryGpus| ==>
       !Matches(info.secondaryGpus[k], info.gpu.vendorId, info.gpu.deviceId))
    && forall j, k :: 0 <= j < |info.secondaryGpus| && 0 <= k < |info.secondaryGpus| && j != k ==>
         !Matches(info.secondaryGpus[j], info.secondaryGpus[k].vendorId, info.secondaryGpus[k].deviceId)
  }

  /** UpdateActiveGpu returns false exactly when the matching GPU is
      already active. */
  lemma SwitchFalseMeansAlreadyActive(info: GpuInfo, vendorId: U32, deviceId: U32)
    ensures !SwitchActiveGpu(info, vendorId, deviceId).changed <==>
              (Matches(info.gpu, vendorId, deviceId) && info.gpu.active)
              || (!Matches(info.gpu, vendorId, deviceId)
                  && exists k :: 0 <= k < |info.secondaryGpus|
                       && Matches(info.secondaryGpus[k], vendorId, deviceId) && info.secondaryGpus[k].active)
  {
    if !Matches(info.gpu, vendorId, deviceId) {
      var first := FirstActiveMatch(info.secondaryGpus, vendorId, deviceId);
      if first.Some? {
        assert Matches(info.secondaryGpus[first.value], vendorId, deviceId);
      }
    }
  }

  /** With at most one active GPU and distinct ids, a false result leaves
      the GPU information as it was. */
  lemma SwitchFalseNoChange(info: GpuInfo, vendorId: U32, deviceId: U32)
    requires AtMostOneActive(info) && DistinctIds(info)
    requires !SwitchActiveGpu(info, vendorId, deviceId).changed
    ensures SwitchActiveGpu(info, vendorId, deviceId).info == info
  {
    if !Matches(info.gpu, vendorId, deviceId) {
      var secondaries := info.secondaryGpus;
      var j := FirstActiveMatch(secondaries, vendorId, deviceId).value;
      var prefix := Retagged(secondaries[..j], vendorId, deviceId);
      forall k | 0 <= k < j
        ensures prefix[k] == secondaries[k]
      {
        assert !secondaries[k].active;
        assert !Matches(secondaries[k], secondaries[j].vendorId, secondaries[j].deviceId);
      }
      assert prefix + secondaries[j..] == secondaries;
    }
  }

  /** Two GPUs listed with the same ids: the switch answers false yet it
      has activated the first of them, so the no-change guarantee needs
      distinct ids. */
  lemma SwitchWithDuplicateIds()
    ensures var info := GpuInfo(GpuDevice(3, 4, false), [GpuDevice(1, 2, false), GpuDevice(1, 2, true)], [], [], []);
              var r := SwitchActiveGpu(info, 1, 2);
                !r.changed && r.info.secondaryGpus == [GpuDevice(1, 2, true), GpuDevice(1, 2, true)]
  {
    var secondaries := [GpuDevice(1, 2, false), GpuDevice(1, 2, true)];
    assert FirstActiveMatch(secondaries[1..], 1, 2) == Some(0);
    assert Retagged(secondaries[..1], 1, 2) == [GpuDevice(1, 2, true)];
  }

  /** A true result: the matching GPUs are active and every other one is
      inactive; the ids and the GL strings are untouched. */
  lemma SwitchTrueActivates(info: GpuInfo, vendorId: U32, deviceId: U32)
    requires SwitchActiveGpu(info, vendorId, deviceId).changed
    ensures var after := SwitchActiveGpu(info, vendorId, deviceId).info;
              after.gpu == info.gpu.(active := Matches(info.gpu, vendorId, deviceId))
              && |after.secondaryGpus| == |info.secondaryGpus|
              && (forall k :: 0 <= k < |info.secondaryGpus| ==>
                    after.secondaryGpus[k] == info.secondaryGpus[k].(active :=
                      !Matches(info.gpu, vendorId, deviceId) && Matches(info.secondaryGpus[k], vendorId, deviceId)))
              && after.glVendor == info.glVendor && after.glRenderer == info.glRenderer
              && after.glVersion == info.glVersion
  {
  }

  /** With distinct ids the switch keeps at most one GPU active. */
  lemma SwitchKeepsOneActive(info: GpuInfo, vendorId: U32, deviceId: U32)
    requires AtMostOneActive(info) && DistinctIds(info)
    ensures AtMostOneActive(SwitchActiveGpu(info, vendorId, deviceId).info)
    ensures DistinctIds(SwitchActiveGpu(info, vendorId, deviceId).info)
  {
    var r := SwitchActiveGpu(info, vendorId, deviceId);
    if !r.changed {
      SwitchFalseNoChange(info, vendorId, deviceId);
    } else {
      SwitchTrueActivates(info, vendorId, deviceId);
    }
  }

  // ---------------------------------------------------------------------
  // Calls deferred until initialisation

  datatype PostInitTask =
    | SetGLStringsTask(vendor: string, renderer: string, version: string)
    | DisableHardwareAccelerationTask

  predicate HasGLStrings(info: GpuInfo) {
    info.glVendor != [] || info.glRenderer != [] || info.glVersion != []
  }

  /** What SetGLStrings does with the GPU information once the strings are
      in it: gpu::IdentifyActiveGPU, gpu::CollectDriverInfoGL and the
      gpu::MergeGPUInfo of UpdateGpuInfo. None of them is in this source, so
      their combined effect is a parameter of the manager. */
  type GLInfoRefresh = GpuInfo -> GpuInfo

  /** A refresh that keeps the GL strings it is given. */
  ghost predicate KeepsGLStrings(refresh: GLInfoRefresh) {
    forall i :: refresh(i).glVendor == i.glVendor && refresh(i).glRenderer == i.glRenderer
                && refresh(i).glVersion == i.glVersion
  }

  /** SetGLStrings once initialised: empty strings and GPU information that
      already has GL strings leave it as it is; otherwise the strings are
      set and the result refreshed. */
  function WithGLStrings(refresh: GLInfoRefresh, info: GpuInfo, vendor: string, renderer: string, version: string): (r: GpuInfo)
    ensures HasGLStrings(info) ==> r == info
    ensures vendor == [] && renderer == [] && version == [] ==> r == info
    ensures !HasGLStrings(info) && (vendor != [] || renderer != [] || version != []) ==>
              r == refresh(info.(glVendor := vendor, glRenderer := renderer, glVersion := version))
    ensures !HasGLStrings(info) && (vendor != [] || renderer != [] || version != []) && KeepsGLStrings(refresh) ==>
              HasGLStrings(r) && r.glVendor == vendor && r.glRenderer == renderer && r.glVersion == version
  {
    if vendor == [] && renderer == [] && version == [] then info
    else if HasGLStrings(info) then info
    else refresh(info.(glVendor := vendor, glRenderer := renderer, glVersion := version))
  }

  /** The part of the manager the deferred calls change. */
  datatype TaskState = TaskState(gpuInfo: GpuInfo, cardDisabled: bool)

  function RunTask(refresh: GLInfoRefresh, state: TaskState, task: PostInitTask): TaskState {
    match task
    case SetGLStringsTask(vendor, renderer, version) =>
      state.(gpuInfo := WithGLStrings(refresh, state.gpuInfo, vendor, renderer, version))
    case DisableHardwareAccelerationTask => state.(cardDisabled := true)
  }

  /** The tasks run in queue order. */
  function RunTasks(refresh: GLInfoRefresh, state: TaskState, tasks: seq<PostInitTask>): TaskState {
    if tasks == [] then state else RunTask(refresh, RunTasks(refresh, state, tasks[..|tasks| - 1]), tasks[|tasks| - 1])
  }

  /** After the deferred calls, hardware acceleration is disabled exactly
      when it already was or one of them disabled it. */
  lemma {:induction false} RunTasksCardDisabled(refresh: GLInfoRefresh, state: TaskState, tasks: seq<PostInitTask>)
    ensures RunTasks(refresh, state, tasks).cardDisabled <==> state.cardDisabled || DisableHardwareAccelerationTask in tasks
  {
    if tasks != [] {
      RunTasksCardDisabled(refresh, state, tasks[..|tasks| - 1]);
      assert tasks == tasks[..|tasks| - 1] + [tasks[|tasks| - 1]];
    }
  }

  /** Once there are GL strings no deferred call changes the GPU
      information: the first non-empty strings win. */
  lemma {:induction false} RunTasksKeepsGLStrings(refresh: GLInfoRefresh, state: TaskState, tasks: seq<PostInitTask>)
    requires HasGLStrings(state.gpuInfo)
    ensures RunTasks(refresh, state, tasks).gpuInfo == state.gpuInfo
  {
    if tasks != [] {
      RunTasksKeepsGLStrings(refresh, state, tasks[..|tasks| - 1]);
    }
  }

  /** With a refresh that keeps the strings, the first call with non-empty
      strings decides them. */
  lemma FirstGLStringsWin(refresh: GLInfoRefresh, state: TaskState, vendor: string, renderer: string, version: string,
                          later: seq<PostInitTask>)
    requires KeepsGLStrings(refresh)
    requires !HasGLStrings(state.gpuInfo) && (vendor != [] || renderer != [] || version != [])
    ensures var info := RunTasks(refresh, state, [SetGLStringsTask(vendor, renderer, version)] + later).gpuInfo;
              info.glVendor == vendor && info.glRenderer == renderer && info.glVersion == version
  {
    var first := [SetGLStringsTask(vendor, renderer, version)];
    RunTasksAppend(refresh, state, first, later);
    assert first[..0] == [];
    RunTasksKeepsGLStrings(refresh, RunTasks(refresh, state, first), later);
  }

  /** Running two queues in a row is running their concatenation. */
  lemma {:induction false} RunTasksAppend(refresh: GLInfoRefresh, state: TaskState, a: seq<PostInitTask>, b: seq<PostInitTask>)
    ensures RunTasks(refresh, state, a + b) == RunTasks(refresh, RunTasks(refresh, state, a), b)
    decreases |b|
  {
    if b == [] {
      assert a + b == a;
    } else {
      assert (a + b)[..|a + b| - 1] == a + b[..|b| - 1];
      RunTasksAppend(refresh, state, a, b[..|b| - 1]);
    }
  }

  // ---------------------------------------------------------------------
  // The manager

  const EmptyGpuInfo := GpuInfo(GpuDevice(0, 0, false), [], [], [], [])

  class GpuDataManagerImplPrivate {
    /** The active-GPU identification, driver collection and merge that
        SetGLStrings hands the new strings to. */
    const refreshGpuInfo: GLInfoRefresh
    var logMessages: seq<LogMessage>
    /** Every message ever logged, oldest first. */
    ghost var loggedMessages: seq<LogMessage>
    var domainBlockingEnabled: bool
    var blockedDomains: map<string, DomainGuilt>
    var timestampsOfGpuResets: seq<int>
    var gpuInfo: GpuInfo
    var cardDisabled: bool
    var isInitialized: bool
    var postInitTasks: seq<PostInitTask>

    /** The log holds the last messages logged. */
    ghost predicate Valid()
      reads this
    {
      logMessages == LastMessages(loggedMessages)
    }

    /** The constructor: the disable-GPU switch defers disabling hardware
        acceleration; the testing switch turns domain blocking off. */
    constructor (refresh: GLInfoRefresh, disableGpu: bool, disableDomainBlockingFor3DAPIs: bool)
      ensures refreshGpuInfo == refresh
      ensures Valid() && logMessages == [] && loggedMessages == []
      ensures domainBlockingEnabled == !disableDomainBlockingFor3DAPIs
      ensures blockedDomains == map[] && timestampsOfGpuResets == []
      ensures gpuInfo == EmptyGpuInfo && !cardDisabled && !isInitialized
      ensures postInitTasks == if disableGpu then [DisableHardwareAccelerationTask] else []
    {
      refreshGpuInfo := refresh;
      logMessages := [];
      loggedMessages := [];
      domainBlockingEnabled := true;
      blockedDomains := map[];
      timestampsOfGpuResets := [];
      gpuInfo := EmptyGpuInfo;
      cardDisabled := false;
      isInitialized := false;
      postInitTasks := [];
      new;
      if disableGpu {
        DisableHardwareAcceleration();
      }
      if disableDomainBlockingFor3DAPIs {
        domainBlockingEnabled := false;
      }
    }

    /** AddLogMessage: append, then drop the oldest entry past the limit. */
    method AddLogMessage(level: int, header: string, message: string)
      requires Valid()
      modifies this`logMessages, this`loggedMessages
      ensures Valid()
      ensures loggedMessages == old(loggedMessages) + [LogMessage(level, header, message)]
      ensures logMessages == LastMessages(old(logMessages) + [LogMessage(level, header, message)])
      ensures |logMessages| <= LogMessageLimit
    {
      var m := LogMessage(level, header, message);
      LastMessagesAppend(loggedMessages, m);
      loggedMessages := loggedMessages + [m];
      logMessages := logMessages + [m];
      if |logMessages| > LogMessageLimit {
        logMessages := logMessages[1..];
      }
    }

    /** BlockDomainFrom3DAPIsAtTime: when blocking is on, the URL's domain is
        recorded with its latest guilt and the reset time appended. */
    method BlockDomainFrom3DAPIsAtTime(url: Url, guilt: DomainGuilt, at: int)
      modifies this`blockedDomains, this`timestampsOfGpuResets
      ensures !domainBlockingEnabled ==>
                blockedDomains == old(blockedDomains) && timestampsOfGpuResets == old(timestampsOfGpuResets)
      ensures domainBlockingEnabled ==>
                blockedDomains == old(blockedDomains)[GetDomainFromURL(url) := guilt]
                && timestampsOfGpuResets == old(timestampsOfGpuResets) + [at]
    {
      if !domainBlockingEnabled {
        return;
      }
      var domain := GetDomainFromURL(url);
      blockedDomains := blockedDomains[domain := guilt];
      timestampsOfGpuResets := timestampsOfGpuResets + [at];
    }

    /** UnblockDomainFrom3DAPIs: the domain is forgotten and so is every
        reset. */
    method UnblockDomainFrom3DAPIs(url: Url)
      modifies this`blockedDomains, this`timestampsOfGpuResets
      ensures blockedDomains == old(blockedDomains) - {GetDomainFromURL(url)}
      ensures timestampsOfGpuResets == []
    {
      var domain := GetDomainFromURL(url);
      blockedDomains := blockedDomains - {domain};
      timestampsOfGpuResets := [];
    }

    /** Are3DAPIsBlockedAtTime: the status of the URL's domain. Deciding
        between all-blocked and not-blocked erases the expired resets from
        the list. */
    method Are3DAPIsBlockedAtTime(url: Url, at: int) returns (status: DomainBlockStatus)
      modifies this`timestampsOfGpuResets
      ensures status == BlockStatus(domainBlockingEnabled, blockedDomains, old(timestampsOfGpuResets), url, at)
      ensures timestampsOfGpuResets ==
                if domainBlockingEnabled && GetDomainFromURL(url) !in blockedDomains
                then Unexpired(old(timestampsOfGpuResets), at) else old(timestampsOfGpuResets)
    {
      if !domainBlockingEnabled {
        return NotBlocked;
      }
      var domain := GetDomainFromURL(url);
      if domain in blockedDomains {
        return Blocked;
      }
      var numResetsWithinTimeframe := EraseExpiredResets(at);
      if numResetsWithinTimeframe >= NumResetsWithinDuration {
        return AllDomainsBlocked;
      }
      return NotBlocked;
    }

    /** The erasing loop of Are3DAPIsBlockedAtTime: expired entries are
        erased where they stand, the others counted. */
    method EraseExpiredResets(at: int) returns (count: nat)
      modifies this`timestampsOfGpuResets
      ensures timestampsOfGpuResets == Unexpired(old(timestampsOfGpuResets), at)
      ensures count == |timestampsOfGpuResets|
    {
      timestampsOfGpuResets, count := EraseExpired(timestampsOfGpuResets, at);
    }

    /** UpdateActiveGpu: rewrites the active flags in place, answering
        whether the active GPU changed. */
    method UpdateActiveGpu(vendorId: U32, deviceId: U32) returns (changed: bool)
      modifies this`gpuInfo
      ensures SwitchResult(changed, gpuInfo) == SwitchActiveGpu(old(gpuInfo), vendorId, deviceId)
    {
      if gpuInfo.gpu.vendorId == vendorId && gpuInfo.gpu.deviceId == deviceId {
        if gpuInfo.gpu.active {
          return false;
        }
        gpuInfo := gpuInfo.(gpu := gpuInfo.gpu.(active := true));
        DeactivateSecondaries();
        return true;
      }
      changed := RetagSecondaries(vendorId, deviceId);
      if changed {
        gpuInfo := gpuInfo.(gpu := gpuInfo.gpu.(active := false));
      }
    }

    /** The primary GPU's branch: every secondary becomes inactive. */
    method DeactivateSecondaries()
      modifies this`gpuInfo
      ensures gpuInfo == old(gpuInfo).(secondaryGpus := Deactivated(old(gpuInfo).secondaryGpus))
    {
      ghost var secondaries := gpuInfo.secondaryGpus;
      var ii := 0;
      while ii < |gpuInfo.secondaryGpus|
        invariant 0 <= ii <= |secondaries|
        invariant gpuInfo == old(gpuInfo).(secondaryGpus := gpuInfo.secondaryGpus)
        invariant |gpuInfo.secondaryGpus| == |secondaries|
        invariant forall k :: 0 <= k < |secondaries| ==>
                    gpuInfo.secondaryGpus[k] == if k < ii then secondaries[k].(active := false) else secondaries[k]
      {
        gpuInfo := gpuInfo.(secondaryGpus := gpuInfo.secondaryGpus[ii := gpuInfo.secondaryGpus[ii].(active := false)]);
        ii := ii + 1;
      }
      assert gpuInfo.secondaryGpus == Deactivated(secondaries);
    }

    /** A secondary GPU's branch: matching secondaries become active, the
        others inactive, until an already active match stops the loop. */
    method RetagSecondaries(vendorId: U32, deviceId: U32) returns (changed: bool)
      modifies this`gpuInfo
      ensures var secondaries := old(gpuInfo).secondaryGpus;
                match FirstActiveMatch(secondaries, vendorId, deviceId)
                case Some(j) =>
                  !changed && gpuInfo == old(gpuInfo).(secondaryGpus :=
                    Retagged(secondaries[..j], vendorId, deviceId) + secondaries[j..])
                case None =>
                  changed && gpuInfo == old(gpuInfo).(secondaryGpus := Retagged(secondaries, vendorId, deviceId))
    {
      ghost var secondaries := gpuInfo.secondaryGpus;
      var ii := 0;
      while ii < |gpuInfo.secondaryGpus|
        invariant 0 <= ii <= |secondaries|
        invariant gpuInfo == old(gpuInfo).(secondaryGpus := gpuInfo.secondaryGpus)
        invariant |gpuInfo.secondaryGpus| == |secondaries|
        invariant forall k :: 0 <= k < ii ==> !(Matches(secondaries[k], vendorId, deviceId) && secondaries[k].active)
        invariant forall k :: 0 <= k < |secondaries| ==>
                    gpuInfo.secondaryGpus[k] ==
                      if k < ii then secondaries[k].(active := Matches(secondaries[k], vendorId, deviceId)) else secondaries[k]
      {
        if gpuInfo.secondaryGpus[ii].vendorId == vendorId && gpuInfo.secondaryGpus[ii].deviceId == deviceId {
          if gpuInfo.secondaryGpus[ii].active {
            FirstActiveMatchAt(secondaries, vendorId, deviceId, ii);
            assert gpuInfo.secondaryGpus == Retagged(secondaries[..ii], vendorId, deviceId) + secondaries[ii..];
            return false;
          }
          gpuInfo := gpuInfo.(secondaryGpus := gpuInfo.secondaryGpus[ii := gpuInfo.secondaryGpus[ii].(active := true)]);
        } else {
          gpuInfo := gpuInfo.(secondaryGpus := gpuInfo.secondaryGpus[ii := gpuInfo.secondaryGpus[ii].(active := false)]);
        }
        ii := ii + 1;
      }
      FirstActiveMatchNone(secondaries, vendorId, deviceId);
      assert gpuInfo.secondaryGpus == Retagged(secondaries, vendorId, deviceId);
      return true;
    }

    /** SetGLStrings: nothing for three empty strings; deferred before
        initialisation; afterwards applied unless GL strings are known. */
    method SetGLStrings(vendor: string, renderer: string, version: string)
      modifies this`gpuInfo, this`postInitTasks
      ensures isInitialized ==>
                gpuInfo == WithGLStrings(refreshGpuInfo, old(gpuInfo), vendor, renderer, version) && postInitTasks == old(postInitTasks)
      ensures !isInitialized ==>
                gpuInfo == old(gpuInfo)
                && postInitTasks == old(postInitTasks)
                   + (if vendor == [] && renderer == [] && version == [] then [] else [SetGLStringsTask(vendor, renderer, version)])
    {
      if vendor == [] && renderer == [] && version == [] {
        return;
      }
      if !isInitialized {
        postInitTasks := postInitTasks + [SetGLStringsTask(vendor, renderer, version)];
        return;
      }
      if gpuInfo.glVendor != [] || gpuInfo.glRenderer != [] || gpuInfo.glVersion != [] {
        return;
      }
      var withStrings := gpuInfo.(glVendor := vendor, glRenderer := renderer, glVersion := version);
      gpuInfo := refreshGpuInfo(withStrings);
    }

    /** DisableHardwareAcceleration: deferred before initialisation, then
        marks the card disabled. */
    method DisableHardwareAcceleration()
      modifies this`cardDisabled, this`postInitTasks
      ensures isInitialized ==> cardDisabled && postInitTasks == old(postInitTasks)
      ensures !isInitialized ==>
                cardDisabled == old(cardDisabled) && postInitTasks == old(postInitTasks) + [DisableHardwareAccelerationTask]
    {
      if !isInitialized {
        postInitTasks := postInitTasks + [DisableHardwareAccelerationTask];
        return;
      }
      cardDisabled := true;
    }

    /** RunPostInitTasks: marks the manager initialised first, runs the
        deferred calls in order, then empties the queue. */
    method RunPostInitTasks()
      modifies this`isInitialized, this`gpuInfo, this`cardDisabled, this`postInitTasks
      ensures isInitialized && postInitTasks == []
      ensures TaskState(gpuInfo, cardDisabled) ==
                RunTasks(refreshGpuInfo, TaskState(old(gpuInfo), old(cardDisabled)), old(postInitTasks))
    {
      isInitialized := true;
      var tasks := postInitTasks;
      var i := 0;
      while i < |tasks|
        invariant 0 <= i <= |tasks|
        invariant isInitialized && postInitTasks == tasks
        invariant TaskState(gpuInfo, cardDisabled) == RunTasks(refreshGpuInfo, TaskState(old(gpuInfo), old(cardDisabled)), tasks[..i])
      {
        assert tasks[..i + 1][..i] == tasks[..i];
        match tasks[i] {
          case SetGLStringsTask(vendor, renderer, version) =>
            SetGLStrings(vendor, renderer, version);
          case DisableHardwareAccelerationTask =>
            DisableHardwareAcceleration();
        }
        i := i + 1;
      }
      assert tasks[..i] == tasks;
      postInitTasks := [];
    }
  }

  /** A list split at the first element after a prefix. */
  lemma ListAt(prefix: seq<int>, rest: seq<int>)
    requires rest != []
    ensures (prefix + rest)[|prefix|] == rest[0]
    ensures (prefix + rest)[..|prefix|] + (prefix + rest)[|prefix| + 1..] == prefix + rest[1..]
    ensures prefix + rest == (prefix + [rest[0]]) + rest[1..]
  {
  }

  /** The erasing loop over the list of reset times: expired entries are
      erased where they stand, the others counted. */
  method EraseExpired(original: seq<int>, at: int) returns (resets: seq<int>, count: nat)
    ensures resets == Unexpired(original, at)
    ensures count == |resets|
  {
    resets := original;
    ghost var consumed := 0;
    var i := 0;
    count := 0;
    while i < |resets|
      invariant 0 <= consumed <= |original|
      invariant resets == Unexpired(original[..consumed], at) + original[consumed..]
      invariant i == |Unexpired(original[..consumed], at)| == count
      decreases |resets| - i
    {
      EraseLoopStep(original, consumed, at, resets);
      var time := resets[i];
      if Expired(at, time) {
        resets := resets[..i] + resets[i + 1..];
        consumed := consumed + 1;
        continue;
      }
      count := count + 1;
      i := i + 1;
      consumed := consumed + 1;
    }
    assert original[..consumed] == original;
  }

  /** The erasing loop's invariant carried over one entry, erased or kept. */
  lemma EraseLoopStep(original: seq<int>, consumed: nat, at: int, resets: seq<int>)
    requires consumed <= |original|
    requires resets == Unexpired(original[..consumed], at) + original[consumed..]
    requires |Unexpired(original[..consumed], at)| < |resets|
    ensures var i := |Unexpired(original[..consumed], at)|;
            var next := Unexpired(original[..consumed + 1], at);
            && consumed < |original| && resets[i] == original[consumed]
            && (Expired(at, resets[i]) ==>
                  resets[..i] + resets[i + 1..] == next + original[consumed + 1..] && |next| == i)
            && (!Expired(at, resets[i]) ==>
                  resets == next + original[consumed + 1..] && |next| == i + 1)
  {
    var prefix := Unexpired(original[..consumed], at);
    var rest := original[consumed..];
    EraseStep(original, consumed, at);
    ListAt(prefix, rest);
  }

  /** One step of the erasing loop. */
  lemma EraseStep(original: seq<int>, consumed: nat, at: int)
    requires consumed < |original|
    ensures Unexpired(original[..consumed + 1], at) ==
              Unexpired(original[..consumed], at)
              + (if Expired(at, original[consumed]) then [] else [original[consumed]])
    ensures original[consumed..][1..] == original[consumed + 1..]
  {
    assert original[..consumed + 1][..consumed] == original[..consumed];
  }

  /** The loop of UpdateActiveGpu stops at the first active match. */
  lemma FirstActiveMatchAt(secondaries: seq<GpuDevice>, vendorId: U32, deviceId: U32, j: nat)
    requires j < |secondaries| && Matches(secondaries[j], vendorId, deviceId) && secondaries[j].active
    requires forall k :: 0 <= k < j ==> !(Matches(secondaries[k], vendorId, deviceId) && secondaries[k].active)
    ensures FirstActiveMatch(secondaries, vendorId, deviceId) == Some(j)
  {
  }

  lemma FirstActiveMatchNone(secondaries: seq<GpuDevice>, vendorId: U32, deviceId: U32)
    requires forall k :: 0 <= k < |secondaries| ==> !(Matches(secondaries[k], vendorId, deviceId) && secondaries[k].active)
    ensures FirstActiveMatch(secondaries, vendorId, deviceId) == None
  {
  }
}
