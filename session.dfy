/**
 * `UserspaceVFS`: one named virtual-filesystem instance, its
 * initialization state, and the commands it sends to the native library.
 * Instance names are reserved in a registry shared by every instance of
 * the class (`_instance_names`), which only ever grows.
 */
module Session {
  import opened Wrappers
  import opened Errors
  import opened Driver
  import opened Links
  import opened Mappings

  /** Instance names longer than this are refused, after they have been reserved. */
  const MaxInstanceNameLength := 64
  /** The defaults of the constructor's optional arguments. */
  const DefaultInstanceName := "pyusvfs_instance"
  const DefaultDebugMode := false
  const DefaultLogLevel := LogLevel.Error
  const DefaultCrashDumpsType := CrashDumpsType.NoDumps
  const DefaultCrashDumpPath := ""

  /** Python's `str.startswith`, character by character. */
  function StartsWith(s: string, prefix: string): (r: bool)
    ensures r <==> |prefix| <= |s| && s[..|prefix|] == prefix
  {
    if prefix == [] then true
    else if s == [] then false
    else s[0] == prefix[0] && StartsWith(s[1..], prefix[1..])
  }

  /**
   * `is_active_instance` on its inputs: false when the instance is not
   * initialized, otherwise whether the library's current instance name
   * starts with this instance's name.
   */
  function IsActive(initialized: bool, instanceName: string, current: string): bool {
    initialized && StartsWith(current, instanceName)
  }

  /** The calls `is_active_instance` makes: the name query, and only when initialized. */
  function NameQuery(initialized: bool, reply: string): seq<Command> {
    if initialized then [GetCurrentVFSName(reply)] else []
  }

  /**
   * The calls `_ensure_active_instance` makes, given the library's answers:
   * the name query of `is_active_instance`, then `ConnectVFS` when the
   * instance is not the active one.
   */
  function EnsureActiveCalls(p: Parameters, initialized: bool, reply: string, connected: bool): seq<Command> {
    NameQuery(initialized, reply)
    + (if IsActive(initialized, p.instanceName, reply) then [] else [ConnectVFS(p, connected)])
  }

  /** `_ensure_active_instance` raises exactly when it had to reconnect and the reconnect failed. */
  function EnsureActiveOutcome(p: Parameters, initialized: bool, reply: string, connected: bool): Outcome<Error> {
    if !IsActive(initialized, p.instanceName, reply) && !connected then Fail(ConnectionFailed) else Pass
  }

  /** A forwarding method's calls: ensure-active, then `command` if ensure-active did not raise. */
  function Forwarded(p: Parameters, initialized: bool, reply: string, connected: bool, command: Command): seq<Command> {
    EnsureActiveCalls(p, initialized, reply, connected)
    + (if EnsureActiveOutcome(p, initialized, reply, connected).Pass? then [command] else [])
  }

  /** Reconnecting is attempted exactly when the instance is not active, and only a failed attempt raises. */
  lemma EnsureActiveConnectsOnlyWhenInactive(p: Parameters, initialized: bool, reply: string, connected: bool)
    ensures ConnectVFS(p, connected) in EnsureActiveCalls(p, initialized, reply, connected)
        <==> !IsActive(initialized, p.instanceName, reply)
    ensures EnsureActiveOutcome(p, initialized, reply, connected).Fail?
        <==> ConnectVFS(p, false) in EnsureActiveCalls(p, initialized, reply, connected)
  {
  }

  /** What `set_mapping` passes to the library for one rule: its paths and its flags at the time of the call. */
  datatype Rule = Rule(realPath: string, virtualPath: string, flags: bv32)

  function Snapshot(l: VirtualLink): Rule
    reads l
  {
    Rule(l.realPath, l.virtualPath, l.linkFlags)
  }

  /** The rules of `links` as they currently are, in order. */
  function Snapshots(links: seq<VirtualLink>): (rs: seq<Rule>)
    reads links
    ensures |rs| == |links|
    ensures forall i :: 0 <= i < |links| ==> rs[i] == Snapshot(links[i])
  {
    if links == [] then [] else [Snapshot(links[0])] + Snapshots(links[1..])
  }

  /** The call `set_mapping` makes for `rule` in its directory loop (`asDirectory`) or its file loop. */
  function LinkCall(asDirectory: bool, rule: Rule, ok: bool): Command {
    if asDirectory then VirtualLinkDirectoryStatic(rule.realPath, rule.virtualPath, rule.flags, ok)
    else VirtualLinkFile(rule.realPath, rule.virtualPath, rule.flags, ok)
  }

  /** Whether a link call was accepted by the library. */
  predicate Accepted(c: Command) {
    (c.VirtualLinkDirectoryStatic? || c.VirtualLinkFile?) && c.ok
  }

  /**
   * One of `set_mapping`'s loops: a call for each rule in order, every one
   * accepted except possibly the last, and no call after a rejected one.
   */
  ghost predicate LinkLoop(asDirectory: bool, rules: seq<Rule>, calls: seq<Command>) {
    && |calls| <= |rules|
    && (forall i :: 0 <= i < |calls| ==>
          calls[i] == LinkCall(asDirectory, rules[i], Accepted(calls[i])))
    && (forall i :: 0 <= i < |calls| - 1 ==> Accepted(calls[i]))
    && (|calls| < |rules| ==> calls != [] && !Accepted(calls[|calls| - 1]))
  }

  /** A loop raises when its last call was rejected, naming that rule's paths and flags. */
  function LinkLoopOutcome(asDirectory: bool, calls: seq<Command>): Outcome<Error> {
    if calls == [] || Accepted(calls[|calls| - 1]) then Pass
    else
      var c := calls[|calls| - 1];
      if !(c.VirtualLinkDirectoryStatic? || c.VirtualLinkFile?) then Pass
      else if asDirectory then Fail(LinkDirectoryFailed(c.source, c.destination, c.flags))
      else Fail(LinkFileFailed(c.source, c.destination, c.flags))
  }

  /**
   * What `set_mapping`'s two loops leave behind: the directory loop ran
   * over `dirRules`; if it raised, that is the outcome and the file loop
   * never ran; otherwise the file loop ran over `fileRules` and its
   * outcome is the outcome.
   */
  ghost predicate RulesReplaced(dirRules: seq<Rule>, fileRules: seq<Rule>,
                                dirCalls: seq<Command>, fileCalls: seq<Command>, r: Outcome<Error>) {
    && LinkLoop(true, dirRules, dirCalls)
    && (LinkLoopOutcome(true, dirCalls).Fail? ==> fileCalls == [] && r == LinkLoopOutcome(true, dirCalls))
    && (LinkLoopOutcome(true, dirCalls).Pass? ==>
          LinkLoop(false, fileRules, fileCalls) && r == LinkLoopOutcome(false, fileCalls))
  }

  /**
   * A loop completes exactly when every rule was linked; when it raises,
   * the error names the rule whose call was rejected, and every rule
   * before it was linked (and stays linked: nothing is undone).
   */
  lemma LinkLoopStopsAtFirstFailure(asDirectory: bool, rules: seq<Rule>, calls: seq<Command>)
    requires LinkLoop(asDirectory, rules, calls)
    ensures LinkLoopOutcome(asDirectory, calls).Pass?
        <==> |calls| == |rules| && forall c :: c in calls ==> Accepted(c)
    ensures LinkLoopOutcome(asDirectory, calls).Fail? ==>
        var k := |calls| - 1;
        && (forall i :: 0 <= i < k ==> calls[i] == LinkCall(asDirectory, rules[i], true))
        && LinkLoopOutcome(asDirectory, calls).error
           == (if asDirectory then LinkDirectoryFailed(rules[k].realPath, rules[k].virtualPath, rules[k].flags)
               else LinkFileFailed(rules[k].realPath, rules[k].virtualPath, rules[k].flags))
  {
    if calls != [] {
      var k := |calls| - 1;
      assert calls[k] == LinkCall(asDirectory, rules[k], Accepted(calls[k]));
    }
    if LinkLoopOutcome(asDirectory, calls).Pass? {
      forall c | c in calls ensures Accepted(c) {
        var i :| 0 <= i < |calls| && calls[i] == c;
        assert calls[i] == LinkCall(asDirectory, rules[i], Accepted(calls[i]));
      }
    }
  }

  /**
   * In what `set_mapping` sends after ensure-active, every directory link
   * comes before every file link, whatever order the rules were added in,
   * and also when the directory loop raised.
   */
  lemma {:induction false} DirectoriesBeforeFiles(dirs: seq<Rule>, files: seq<Rule>,
                                                  dirCalls: seq<Command>, fileCalls: seq<Command>,
                                                  r: Outcome<Error>)
    requires RulesReplaced(dirs, files, dirCalls, fileCalls, r)
    ensures var t := [ClearVirtualMappings] + dirCalls + fileCalls;
      forall i, j :: 0 <= i < j < |t| && t[i].VirtualLinkFile? ==> !t[j].VirtualLinkDirectoryStatic?
  {
    forall k | 0 <= k < |dirCalls| ensures dirCalls[k].VirtualLinkDirectoryStatic? {
      assert dirCalls[k] == LinkCall(true, dirs[k], Accepted(dirCalls[k]));
    }
    if LinkLoopOutcome(true, dirCalls).Pass? {
      forall k | 0 <= k < |fileCalls| ensures fileCalls[k].VirtualLinkFile? {
        assert fileCalls[k] == LinkCall(false, files[k], Accepted(fileCalls[k]));
      }
    }
  }

  /** `_instance_names`: the names reserved by every `UserspaceVFS` built so far. */
  class NameRegistry {
    var names: seq<string>

    constructor ()
      ensures names == []
    {
      names := [];
    }
  }

  /** A parameter block whose instance name passed the constructor's length check. */
  type SessionParameters = p: Parameters | |p.instanceName| <= MaxInstanceNameLength
    witness Parameters("", false, Info, NoDumps, "")

  class UserspaceVFS {
    /** The class-level registry this instance reserved its name in. */
    const registry: NameRegistry
    /** The native library. */
    const driver: Usvfs
    /** `_parameters`: holds `instance_name`. */
    const params: SessionParameters
    /** `_initialized`. */
    var initialized: bool

    constructor Init(registry: NameRegistry, driver: Usvfs, params: SessionParameters)
      ensures this.registry == registry && this.driver == driver && this.params == params
      ensures !initialized
    {
      this.registry := registry;
      this.driver := driver;
      this.params := params;
      initialized := false;
    }

    /**
     * `UserspaceVFS(instance_name)`: a name already reserved raises;
     * otherwise the name is reserved first, and only then is a name over
     * 64 characters refused, so it stays reserved. A new instance starts
     * uninitialized.
     */
    static method New(registry: NameRegistry, driver: Usvfs, instanceName: string, debugMode: bool,
                      logLevel: LogLevel, crashDumpsType: CrashDumpsType, crashDumpPath: string)
      returns (r: Result<UserspaceVFS, Error>)
      modifies registry, driver
      ensures instanceName in old(registry.names) ==>
        r == Failure(NameConflict) && registry.names == old(registry.names)
        && driver.trace == old(driver.trace)
      ensures instanceName !in old(registry.names) ==>
        registry.names == old(registry.names) + [instanceName]
      ensures instanceName !in old(registry.names) && |instanceName| > MaxInstanceNameLength ==>
        r == Failure(NameTooLong) && driver.trace == old(driver.trace)
      ensures instanceName !in old(registry.names) && |instanceName| <= MaxInstanceNameLength ==>
        var p := Parameters(instanceName, debugMode, logLevel, crashDumpsType, crashDumpPath);
        && r.Success? && fresh(r.value)
        && r.value.registry == registry && r.value.driver == driver
        && r.value.params == p && r.value.InstanceName() == instanceName && !r.value.initialized
        && driver.trace == old(driver.trace) + [InitParameters(p)]
    {
      if instanceName in registry.names {
        return Failure(NameConflict);
      }
      registry.names := registry.names + [instanceName];
      if |instanceName| > MaxInstanceNameLength {
        return Failure(NameTooLong);
      }
      var p := driver.InitParameters(instanceName, debugMode, logLevel, crashDumpsType, crashDumpPath);
      var vfs := new UserspaceVFS.Init(registry, driver, p);
      return Success(vfs);
    }

    /** `instance_name`: the name in the parameter block, which is never over the length limit. */
    function InstanceName(): (name: string)
      ensures |name| <= MaxInstanceNameLength
    {
      params.instanceName
    }

    /**
     * `initialize()`: raises when already initialized, with no library
     * call; otherwise starts the library's logging (to the console in
     * debug mode), asks the library to create the instance, and is
     * initialized exactly when that succeeded.
     */
    method Initialize() returns (r: Outcome<Error>, ghost created: bool)
      modifies this, driver
      ensures old(initialized) ==>
        r == Fail(AlreadyInitialized) && initialized && driver.trace == old(driver.trace)
      ensures !old(initialized) ==>
        && driver.trace == old(driver.trace) + [InitLogging(params.debugMode), CreateVFS(params, created)]
        && initialized == created
        && r == (if created then Pass else Fail(InitializationFailed))
    {
      if initialized {
        return Fail(AlreadyInitialized), false;
      }
      driver.InitLogging(params.debugMode);
      var success := driver.CreateVFS(params);
      created := success;
      if success {
        initialized := true;
      } else {
        return Fail(InitializationFailed), created;
      }
      r := Pass;
    }

    /**
     * `close()`: raises when not initialized; otherwise disconnects and is
     * no longer initialized, so `initialize` may be called again. The name
     * stays reserved.
     */
    method Close() returns (r: Outcome<Error>)
      modifies this, driver
      ensures !initialized
      ensures !old(initialized) ==> r == Fail(NotInitialized) && driver.trace == old(driver.trace)
      ensures old(initialized) ==> r == Pass && driver.trace == old(driver.trace) + [DisconnectVFS]
    {
      if !initialized {
        return Fail(NotInitialized);
      }
      driver.DisconnectVFS();
      initialized := false;
      r := Pass;
    }

    /**
     * `is_active_instance()`: false, with no library call, when not
     * initialized; otherwise whether the library's current instance name
     * starts with this instance's name.
     */
    method IsActiveInstance() returns (active: bool, ghost reply: string)
      modifies driver
      ensures !initialized ==> !active && driver.trace == old(driver.trace)
      ensures initialized ==>
        && driver.trace == old(driver.trace) + [GetCurrentVFSName(reply)]
        && active == StartsWith(reply, InstanceName())
      ensures active == IsActive(initialized, params.instanceName, reply)
      ensures driver.trace == old(driver.trace) + NameQuery(initialized, reply)
    {
      if !initialized {
        return false, "";
      }
      var current := driver.GetCurrentVFSName();
      reply := current;
      active := StartsWith(current, InstanceName());
    }

    /** `_ensure_active_instance()`: reconnect when not the active instance; raise if that fails. */
    method EnsureActiveInstance() returns (r: Outcome<Error>, ghost reply: string, ghost connected: bool)
      modifies driver
      ensures driver.trace == old(driver.trace) + EnsureActiveCalls(params, initialized, reply, connected)
      ensures r == EnsureActiveOutcome(params, initialized, reply, connected)
    {
      var active;
      active, reply := IsActiveInstance();
      connected := true;
      if !active {
        var ok := driver.ConnectVFS(params);
        connected := ok;
        if !ok {
          return Fail(ConnectionFailed), reply, connected;
        }
      }
      r := Pass;
    }

    /**
     * `set_mapping(mapping)`: an argument that is not a `Mapping` raises
     * `TypeError`, then an uninitialized instance raises, both with no
     * library call; then ensure-active; then the existing rules are
     * cleared and the directory rules are linked in order, then the file
     * rules in order. The first rejected link raises, naming the rule, and
     * no later link is attempted; the links already made are not undone.
     * A `null` mapping stands for an argument that is not a `Mapping`.
     */
    method SetMapping(mapping: Mapping?)
      returns (r: Outcome<Error>, ghost reply: string, ghost connected: bool,
               ghost dirCalls: seq<Command>, ghost fileCalls: seq<Command>)
      requires mapping != null ==> mapping.Valid()
      modifies driver
      ensures mapping == null ==> r == Fail(TypeError) && driver.trace == old(driver.trace)
      ensures mapping != null && !initialized ==>
        r == Fail(NotInitialized) && driver.trace == old(driver.trace)
      ensures mapping != null && initialized && EnsureActiveOutcome(params, true, reply, connected).Fail? ==>
        && r == EnsureActiveOutcome(params, true, reply, connected)
        && driver.trace == old(driver.trace) + EnsureActiveCalls(params, true, reply, connected)
      ensures mapping != null && initialized && EnsureActiveOutcome(params, true, reply, connected).Pass? ==>
        && driver.trace == old(driver.trace) + EnsureActiveCalls(params, true, reply, connected)
                           + [ClearVirtualMappings] + dirCalls + fileCalls
        && RulesReplaced(old(Snapshots(Partition(mapping.links, true))),
                         old(Snapshots(Partition(mapping.links, false))), dirCalls, fileCalls, r)
    {
      reply, connected, dirCalls, fileCalls := "", true, [], [];
      if mapping == null {
        return Fail(TypeError), reply, connected, dirCalls, fileCalls;
      }
      if !initialized {
        return Fail(NotInitialized), reply, connected, dirCalls, fileCalls;
      }
      r, reply, connected, dirCalls, fileCalls := ApplyMapping(mapping);
    }

    /** `set_mapping` once its argument and the initialization have been checked. */
    method ApplyMapping(mapping: Mapping)
      returns (r: Outcome<Error>, ghost reply: string, ghost connected: bool,
               ghost dirCalls: seq<Command>, ghost fileCalls: seq<Command>)
      requires mapping.Valid() && initialized
      modifies driver
      ensures EnsureActiveOutcome(params, true, reply, connected).Fail? ==>
        && r == EnsureActiveOutcome(params, true, reply, connected)
        && driver.trace == old(driver.trace) + EnsureActiveCalls(params, true, reply, connected)
      ensures EnsureActiveOutcome(params, true, reply, connected).Pass? ==>
        && driver.trace == old(driver.trace) + EnsureActiveCalls(params, true, reply, connected)
                           + [ClearVirtualMappings] + dirCalls + fileCalls
        && RulesReplaced(old(Snapshots(Partition(mapping.links, true))),
                         old(Snapshots(Partition(mapping.links, false))), dirCalls, fileCalls, r)
    {
      dirCalls, fileCalls := [], [];
      ghost var dirsBefore := Snapshots(Partition(mapping.links, true));
      ghost var filesBefore := Snapshots(Partition(mapping.links, false));
      // The rules are read here; the library cannot change them, so they
      // are what the generators yield after ensure-active and the clear.
      var ds := mapping.Directories();
      var fs := mapping.Files();
      var dirRules, fileRules := Snapshots(ds), Snapshots(fs);
      assert dirRules == dirsBefore && fileRules == filesBefore;
      r, reply, connected := EnsureActiveInstance();
      if r.Fail? {
        return;
      }
      r, dirCalls, fileCalls := ReplaceRules(dirRules, fileRules);
    }

    /**
     * The part of `set_mapping` after ensure-active: clear the existing
     * rules, link the directory rules in order, then the file rules in
     * order, stopping at the first rejected link.
     */
    method ReplaceRules(dirRules: seq<Rule>, fileRules: seq<Rule>)
      returns (r: Outcome<Error>, ghost dirCalls: seq<Command>, ghost fileCalls: seq<Command>)
      modifies driver
      ensures driver.trace == old(driver.trace) + [ClearVirtualMappings] + dirCalls + fileCalls
      ensures RulesReplaced(dirRules, fileRules, dirCalls, fileCalls, r)
    {
      fileCalls := [];
      driver.ClearVirtualMappings();
      r, dirCalls := LinkEach(true, dirRules);
      if r.Fail? {
        return;
      }
      r, fileCalls := LinkEach(false, fileRules);
    }

    /**
     * One of `set_mapping`'s loops: link each rule of `links` in order, as
     * a directory rule or as a file rule, and raise at the first one the
     * library rejects, naming it.
     */
    method LinkEach(asDirectory: bool, rules: seq<Rule>)
      returns (r: Outcome<Error>, ghost calls: seq<Command>)
      modifies driver
      ensures LinkLoop(asDirectory, rules, calls)
      ensures driver.trace == old(driver.trace) + calls
      ensures r == LinkLoopOutcome(asDirectory, calls)
    {
      calls := [];
      var i := 0;
      while i < |rules|
        invariant 0 <= i <= |rules|
        invariant |calls| == i
        invariant forall k :: 0 <= k < i ==> calls[k] == LinkCall(asDirectory, rules[k], true)
        invariant driver.trace == old(driver.trace) + calls
      {
        var rule := rules[i];
        var success;
        if asDirectory {
          success := driver.VirtualLinkDirectoryStatic(rule.realPath, rule.virtualPath, rule.flags);
        } else {
          success := driver.VirtualLinkFile(rule.realPath, rule.virtualPath, rule.flags);
        }
        calls := calls + [LinkCall(asDirectory, rule, success)];
        if !success {
          r := if asDirectory then Fail(LinkDirectoryFailed(rule.realPath, rule.virtualPath, rule.flags))
               else Fail(LinkFileFailed(rule.realPath, rule.virtualPath, rule.flags));
          return;
        }
        i := i + 1;
      }
      r := Pass;
    }

    /** `clear_mapping()`: raises when not initialized; otherwise ensure-active, then clear every rule. */
    method ClearMapping() returns (r: Outcome<Error>, ghost reply: string, ghost connected: bool)
      modifies driver
      ensures !initialized ==> r == Fail(NotInitialized) && driver.trace == old(driver.trace)
      ensures initialized ==>
        && driver.trace == old(driver.trace) + Forwarded(params, true, reply, connected, ClearVirtualMappings)
        && r == EnsureActiveOutcome(params, true, reply, connected)
    {
      reply, connected := "", true;
      if !initialized {
        return Fail(NotInitialized), reply, connected;
      }
      r, reply, connected := EnsureActiveInstance();
      if r.Fail? {
        return;
      }
      driver.ClearVirtualMappings();
    }

    /** `blacklist_executable(name)`: ensure-active, then forward; no initialization check. */
    method BlacklistExecutable(executableName: string)
      returns (r: Outcome<Error>, ghost reply: string, ghost connected: bool)
      modifies driver
      ensures driver.trace == old(driver.trace)
        + Forwarded(params, initialized, reply, connected, Command.BlacklistExecutable(executableName))
      ensures r == EnsureActiveOutcome(params, initialized, reply, connected)
    {
      r, reply, connected := EnsureActiveInstance();
      if r.Fail? {
        return;
      }
      driver.BlacklistExecutable(executableName);
    }

    /** `clear_blacklist()`: ensure-active, then forward. */
    method ClearBlacklist() returns (r: Outcome<Error>, ghost reply: string, ghost connected: bool)
      modifies driver
      ensures driver.trace == old(driver.trace)
        + Forwarded(params, initialized, reply, connected, ClearExecutableBlacklist)
      ensures r == EnsureActiveOutcome(params, initialized, reply, connected)
    {
      r, reply, connected := EnsureActiveInstance();
      if r.Fail? {
        return;
      }
      driver.ClearExecutableBlacklist();
    }

    /** `force_load_lib(process_name, library_path)`: the library path is made absolute, then ensure-active, then forward. */
    method ForceLoadLib(abspath: string -> string, processName: string, libraryPath: string)
      returns (r: Outcome<Error>, ghost reply: string, ghost connected: bool)
      modifies driver
      ensures driver.trace == old(driver.trace)
        + Forwarded(params, initialized, reply, connected, ForceLoadLibrary(processName, abspath(libraryPath)))
      ensures r == EnsureActiveOutcome(params, initialized, reply, connected)
    {
      var libpath := abspath(libraryPath);
      r, reply, connected := EnsureActiveInstance();
      if r.Fail? {
        return;
      }
      driver.ForceLoadLibrary(processName, libpath);
    }

    /** `clear_force_loads()`: ensure-active, then forward. */
    method ClearForceLoads() returns (r: Outcome<Error>, ghost reply: string, ghost connected: bool)
      modifies driver
      ensures driver.trace == old(driver.trace)
        + Forwarded(params, initialized, reply, connected, ClearLibraryForceLoads)
      ensures r == EnsureActiveOutcome(params, initialized, reply, connected)
    {
      r, reply, connected := EnsureActiveInstance();
      if r.Fail? {
        return;
      }
      driver.ClearLibraryForceLoads();
    }

    /**
     * `run_process(command_line, working_directory)`: the working directory
     * is made absolute, then ensure-active, then the library starts the
     * process; a failed start raises.
     */
    method RunProcess(abspath: string -> string, commandLine: string, workingDirectory: string)
      returns (r: Outcome<Error>, ghost reply: string, ghost connected: bool, ghost launched: bool)
      modifies driver
      ensures var ensured := EnsureActiveOutcome(params, initialized, reply, connected);
        && driver.trace == old(driver.trace)
           + Forwarded(params, initialized, reply, connected,
                       CreateProcessHooked(commandLine, abspath(workingDirectory), launched))
        && r == (if ensured.Fail? then ensured else if launched then Pass else Fail(ProcessLaunchFailed))
    {
      var wd := abspath(workingDirectory);
      launched := true;
      r, reply, connected := EnsureActiveInstance();
      if r.Fail? {
        return;
      }
      var success := driver.CreateProcessHooked(commandLine, wd);
      launched := success;
      if !success {
        return Fail(ProcessLaunchFailed), reply, connected, launched;
      }
    }

    /** `get_active_processes()`: ensure-active, then the library's list of process ids. */
    method GetActiveProcesses()
      returns (r: Result<seq<nat>, Error>, ghost reply: string, ghost connected: bool)
      modifies driver
      ensures var ensured := EnsureActiveOutcome(params, initialized, reply, connected);
        && (ensured.Fail? ==>
              r == Failure(ensured.error)
              && driver.trace == old(driver.trace) + EnsureActiveCalls(params, initialized, reply, connected))
        && (ensured.Pass? ==>
              r.Success?
              && driver.trace == old(driver.trace) + EnsureActiveCalls(params, initialized, reply, connected)
                 + [GetVFSProcessList(r.value)])
    {
      var e;
      e, reply, connected := EnsureActiveInstance();
      if e.Fail? {
        return Failure(e.error), reply, connected;
      }
      var pids := driver.GetVFSProcessList();
      r := Success(pids);
    }
  }

  /**
   * A name stays reserved for good: a second instance with a name in use
   * is refused, and still is after the first one is initialized and
   * closed; a name refused for its length is reserved all the same.
   */
  method ReservedNamesExample(driver: Usvfs, longName: string)
    returns (second: Result<UserspaceVFS, Error>, third: Result<UserspaceVFS, Error>,
             tooLong: Result<UserspaceVFS, Error>, retry: Result<UserspaceVFS, Error>)
    requires |longName| > MaxInstanceNameLength
    modifies driver
    ensures second == Failure(NameConflict) && third == Failure(NameConflict)
    ensures tooLong == Failure(NameTooLong) && retry == Failure(NameConflict)
  {
    var registry := new NameRegistry();
    var first := UserspaceVFS.New(registry, driver, DefaultInstanceName, DefaultDebugMode,
                                     DefaultLogLevel, DefaultCrashDumpsType, DefaultCrashDumpPath);
    second := UserspaceVFS.New(registry, driver, DefaultInstanceName, DefaultDebugMode,
                                     DefaultLogLevel, DefaultCrashDumpsType, DefaultCrashDumpPath);
    var vfs := first.value;
    var _, _ := vfs.Initialize();
    var _ := vfs.Close();
    third := UserspaceVFS.New(registry, driver, DefaultInstanceName, DefaultDebugMode,
                                     DefaultLogLevel, DefaultCrashDumpsType, DefaultCrashDumpPath);
    tooLong := UserspaceVFS.New(registry, driver, longName, DefaultDebugMode,
                                     DefaultLogLevel, DefaultCrashDumpsType, DefaultCrashDumpPath);
    retry := UserspaceVFS.New(registry, driver, longName, DefaultDebugMode,
                                     DefaultLogLevel, DefaultCrashDumpsType, DefaultCrashDumpPath);
  }

  /**
   * After `close`, the instance is no longer active without asking the
   * library, and `initialize` is allowed again; the name stays reserved.
   */
  method ReopenExample(vfs: UserspaceVFS) returns (active: bool, again: Outcome<Error>, ghost created: bool)
    requires vfs.initialized
    modifies vfs, vfs.driver
    ensures !active && again != Fail(AlreadyInitialized)
    ensures vfs.initialized == created
    ensures vfs.driver.trace == old(vfs.driver.trace)
      + [DisconnectVFS, InitLogging(vfs.params.debugMode), CreateVFS(vfs.params, created)]
    ensures vfs.registry.names == old(vfs.registry.names)
  {
    var _ := vfs.Close();
    ghost var reply;
    active, reply := vfs.IsActiveInstance();
    again, created := vfs.Initialize();
  }
}
