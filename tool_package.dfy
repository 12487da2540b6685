/**
 * The installed tool packages that `dotnet tool list` reads.
 * A package's identity and normalised version are plain strings; reading its
 * commands either yields the declared commands or raises a fault.
 */
module ToolPackage {
  import opened Wrappers

  /** One command a tool package exposes; only its name is listed. */
  datatype Command = Command(name: string)

  /**
   * What reading `IToolPackage.Commands` can raise: a `ToolConfigurationException`
   * (malformed package metadata, tolerated by the listing) or any other exception
   * (not tolerated: it propagates out of the command).
   */
  datatype Fault = ToolConfigurationFault(message: string) | OtherFault(message: string)

  /**
   * A package as the store enumerates it: `id` is `Id.ToString()`, `version` is
   * `Version.ToNormalizedString()`, `commands` the outcome of reading `Commands`.
   */
  datatype Package = Package(id: string, version: string, commands: Result<seq<Command>, Fault>)

  predicate HasReadableCommands(p: Package) {
    p.commands.Success?
  }

  predicate HasConfigurationFault(p: Package) {
    p.commands.Failure? && p.commands.error.ToolConfigurationFault?
  }

  predicate HasOtherFault(p: Package) {
    p.commands.Failure? && p.commands.error.OtherFault?
  }

  /** The names of a package's commands, in declared order. */
  function CommandNames(cs: seq<Command>): (names: seq<string>)
    ensures |names| == |cs|
    ensures forall i :: 0 <= i < |cs| ==> names[i] == cs[i].name
  {
    if |cs| == 0 then [] else [cs[0].name] + CommandNames(cs[1..])
  }
}
