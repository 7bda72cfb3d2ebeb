/**
 * The native usvfs library as the wrapper sees it: an object that takes
 * commands and answers with values the wrapper cannot predict. What the
 * library does with a command is not modelled; every call is recorded,
 * with the answer it gave, in a ghost trace.
 */
module Driver {

  /** The library's `LogLevel` enumeration. */
  datatype LogLevel = Info | Debug | Error | Warning

  /** The library's `CrashDumpsType` enumeration. */
  datatype CrashDumpsType = Full | Mini | Data | NoDumps

  /**
   * The parameter block (`USVFSParameters`) the wrapper fills in once and
   * then hands to `CreateVFS` and `ConnectVFS`. The shared-memory names the
   * library derives from the instance name are not kept.
   */
  datatype Parameters = Parameters(instanceName: string, debugMode: bool, logLevel: LogLevel,
                                   crashDumpsType: CrashDumpsType, crashDumpsPath: string)

  /** One call into the library, with what it answered. */
  datatype Command =
    | InitParameters(params: Parameters)
    | InitLogging(toLocal: bool)
    | CreateVFS(params: Parameters, ok: bool)
    | ConnectVFS(params: Parameters, ok: bool)
    | DisconnectVFS
    | GetCurrentVFSName(name: string)
    | ClearVirtualMappings
    | VirtualLinkDirectoryStatic(source: string, destination: string, flags: bv32, ok: bool)
    | VirtualLinkFile(source: string, destination: string, flags: bv32, ok: bool)
    | BlacklistExecutable(executable: string)
    | ClearExecutableBlacklist
    | ForceLoadLibrary(process: string, library: string)
    | ClearLibraryForceLoads
    | CreateProcessHooked(commandLine: string, workingDirectory: string, ok: bool)
    | GetVFSProcessList(pids: seq<nat>)

  /** The native library. Each method appends its call to `trace` and returns an unconstrained answer. */
  class Usvfs {
    ghost var trace: seq<Command>

    constructor ()
      ensures trace == []
    {
      trace := [];
    }

    /** `USVFSInitParameters`: fills a parameter block from its arguments. */
    method InitParameters(instanceName: string, debugMode: bool, logLevel: LogLevel,
                          crashDumpsType: CrashDumpsType, crashDumpsPath: string)
      returns (params: Parameters)
      modifies this
      ensures params == Parameters(instanceName, debugMode, logLevel, crashDumpsType, crashDumpsPath)
      ensures trace == old(trace) + [Command.InitParameters(params)]
    {
      params := Parameters(instanceName, debugMode, logLevel, crashDumpsType, crashDumpsPath);
      trace := trace + [Command.InitParameters(params)];
    }

    method InitLogging(toLocal: bool)
      modifies this
      ensures trace == old(trace) + [Command.InitLogging(toLocal)]
    {
      trace := trace + [Command.InitLogging(toLocal)];
    }

    method CreateVFS(params: Parameters) returns (ok: bool)
      modifies this
      ensures trace == old(trace) + [Command.CreateVFS(params, ok)]
    {
      ok := *;
      trace := trace + [Command.CreateVFS(params, ok)];
    }

    method ConnectVFS(params: Parameters) returns (ok: bool)
      modifies this
      ensures trace == old(trace) + [Command.ConnectVFS(params, ok)]
    {
      ok := *;
      trace := trace + [Command.ConnectVFS(params, ok)];
    }

    method DisconnectVFS()
      modifies this
      ensures trace == old(trace) + [Command.DisconnectVFS]
    {
      trace := trace + [Command.DisconnectVFS];
    }

    method GetCurrentVFSName() returns (name: string)
      modifies this
      ensures trace == old(trace) + [Command.GetCurrentVFSName(name)]
    {
      name := *;
      trace := trace + [Command.GetCurrentVFSName(name)];
    }

    method ClearVirtualMappings()
      modifies this
      ensures trace == old(trace) + [Command.ClearVirtualMappings]
    {
      trace := trace + [Command.ClearVirtualMappings];
    }

    method VirtualLinkDirectoryStatic(source: string, destination: string, flags: bv32) returns (ok: bool)
      modifies this
      ensures trace == old(trace) + [Command.VirtualLinkDirectoryStatic(source, destination, flags, ok)]
    {
      ok := *;
      trace := trace + [Command.VirtualLinkDirectoryStatic(source, destination, flags, ok)];
    }

    method VirtualLinkFile(source: string, destination: string, flags: bv32) returns (ok: bool)
      modifies this
      ensures trace == old(trace) + [Command.VirtualLinkFile(source, destination, flags, ok)]
    {
      ok := *;
      trace := trace + [Command.VirtualLinkFile(source, destination, flags, ok)];
    }

    method BlacklistExecutable(executable: string)
      modifies this
      ensures trace == old(trace) + [Command.BlacklistExecutable(executable)]
    {
      trace := trace + [Command.BlacklistExecutable(executable)];
    }

    method ClearExecutableBlacklist()
      modifies this
      ensures trace == old(trace) + [Command.ClearExecutableBlacklist]
    {
      trace := trace + [Command.ClearExecutableBlacklist];
    }

    method ForceLoadLibrary(process: string, library: string)
      modifies this
      ensures trace == old(trace) + [Command.ForceLoadLibrary(process, library)]
    {
      trace := trace + [Command.ForceLoadLibrary(process, library)];
    }

    method ClearLibraryForceLoads()
      modifies this
      ensures trace == old(trace) + [Command.ClearLibraryForceLoads]
    {
      trace := trace + [Command.ClearLibraryForceLoads];
    }

    method CreateProcessHooked(commandLine: string, workingDirectory: string) returns (ok: bool)
      modifies this
      ensures trace == old(trace) + [Command.CreateProcessHooked(commandLine, workingDirectory, ok)]
    {
      ok := *;
      trace := trace + [Command.CreateProcessHooked(commandLine, workingDirectory, ok)];
    }

    method GetVFSProcessList() returns (pids: seq<nat>)
      modifies this
      ensures trace == old(trace) + [Command.GetVFSProcessList(pids)]
    {
      pids := *;
      trace := trace + [Command.GetVFSProcessList(pids)];
    }
  }
}
