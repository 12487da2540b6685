# `dotnet tool list`, modelled in Dafny

This project models `ListToolCommand`, the command behind `dotnet tool list`
(`src/dotnet/commands/dotnet-tool/list/ToolListCommand.cs`). The command:

1. checks that exactly one scope is chosen: `--global`, or a non-blank `--tool-path`;
2. asks the injected store factory for the store of that scope and enumerates its packages;
3. drops every package whose `Commands` read throws a `ToolConfigurationException`, and writes one
   warning per dropped package; any other exception propagates;
4. sorts the remaining packages by id and materialises them;
5. prints a table with a header line and one row per package, then returns 0.

The model is split into one Dafny module per concern:

| file | module | what it holds |
|---|---|---|
| `wrappers.dfy` | `Wrappers` | `Option` (for C# null) and `Result` |
| `tool_package.dfy` | `ToolPackage` | `Package`, `Command` and `Fault`: reading `Commands` succeeds, raises a configuration fault, or raises another fault |
| `tool_scope.dfy` | `ToolScope` | `char.IsWhiteSpace`, `string.IsNullOrWhiteSpace` and the scope check |
| `package_id_order.dfy` | `PackageIdOrder` | the order on package ids, proved to be a total order |
| `command_cell.dfy` | `CommandCell` | the Commands cell (`string.Join(", ", names)`) and a split that reads it back |
| `package_pipeline.dfy` | `PackagePipeline` | the filter (`Where(PackageHasCommands)`), its warnings, and the sort (`OrderBy(p => p.Id)`) |
| `list_tool.dfy` | `ListTool` | the `ListToolCommand` class, and `ListRun`, the reference definition of one run |

`ListToolCommand` is a class, as in the source. Its options and its store factory are constants set
by the constructor. `log` records, in order, every line written to the output reporter (`Output`)
and to the error reporter (`Error`). `storeRequests` records the tool paths the factory was called
with. `Execute`, `GetPackages`, `PackageHasCommands` and `PrintRows` are methods with loops where the
source loops. `Execute` is proved to do exactly what the function `ListRun` describes. The
properties of a run are then proved as lemmas about `ListRun`.

Decisions the model makes where the code is easy to misread:

- The code treats a `tool-path` that is empty or whitespace-only as absent (lines 44-48). So
  `--global` with a blank path is accepted. The model follows the code.
- Whitespace is .NET's `char.IsWhiteSpace`: the Unicode space, line and paragraph separators, plus
  U+0009 to U+000D and U+0085.
- The filter's `Count >= 0` test is kept literally. It is always true once the read succeeds, so a
  package is dropped only for a configuration fault.
- A non-configuration fault stops `GetPackages` partway: the warnings for the packages read before
  it have been written, and no table line is written, because `GetPackages` is evaluated before
  `PrintRows` (line 72). The model's `Faulted` status stands for that exception.
- `PackageId` is not part of this model. Its ordering is assumed to be the ordinal order of the id
  strings: Unicode code points compared left to right, a proper prefix first. This matches .NET's
  UTF-16 ordinal order except for characters above U+FFFF.

## Model

| member | source | states |
|---|---|---|
| `ToolScope.IsNullOrWhiteSpace` | src/dotnet/commands/dotnet-tool/list/ToolListCommand.cs:45 | `string.IsNullOrWhiteSpace`: null, or every character is .NET whitespace; its consequences for the scope are stated by `ToolScope.ToolPathOf` and `ToolScope.ResolveScope` |
| `PackageIdOrder.IdLessEq` | src/dotnet/commands/dotnet-tool/list/ToolListCommand.cs:80 | the assumed `PackageId` order: ordinal comparison of the id strings, character by character as Unicode code points; shown to be a total order by the four lemmas below |
| `CommandCell.JoinNames` | src/dotnet/commands/dotnet-tool/list/ToolListCommand.cs:70 | `string.Join(", ", names)`: the names separated by the delimiter; specified by `CommandCell.SplitJoinedNames` and `CommandCell.EmptyCellAmbiguity` |
| `ListTool.RowOf` | src/dotnet/commands/dotnet-tool/list/ToolListCommand.cs:62-70 | the three column extractors applied to one package; specified by `ListTool.RowCells` |
| `PackagePipeline.Kept` | src/dotnet/commands/dotnet-tool/list/ToolListCommand.cs:79 | `Where(PackageHasCommands)` over the enumerated packages; specified by `PackagePipeline.KeptMembers`, `PackagePipeline.KeptCounts` and `PackagePipeline.KeptAndDroppedPartition` |
| `PackagePipeline.Warnings` | src/dotnet/commands/dotnet-tool/list/ToolListCommand.cs:94-98 | the warnings `PackageHasCommands` writes over the whole enumeration; specified by `PackagePipeline.WarningsMatchDropped` |
| `ListTool.PackagesOutcome` | src/dotnet/commands/dotnet-tool/list/ToolListCommand.cs:76-82 | the result of `GetPackages`: the kept packages sorted by id, or the message of the fault that escapes the filter; specified by `ListTool.ExitCode`, `ListTool.FaultedRunOutput` and `PackagePipeline.ListedPackages` |
| `ListTool.ListRun` | src/dotnet/commands/dotnet-tool/list/ToolListCommand.cs:39-81 | reference definition of one `Execute`: status, store requests and written lines; `ListTool.ListToolCommand.Execute` is proved equal to it, and the run lemmas state its properties |
| `ToolScope.ToolPathOf` | src/dotnet/commands/dotnet-tool/list/ToolListCommand.cs:44-48 | the tool path is null exactly when the option is null, empty or whitespace; otherwise it is the option itself |
| `ToolScope.ResolveScope` | src/dotnet/commands/dotnet-tool/list/ToolListCommand.cs:41-58 | `NeedGlobalOrToolPath` iff not global and the path is blank; `GlobalAndToolPathConflict` iff global and the path is not blank; on success the store is global iff `--global` was given, and otherwise the path is the non-blank option |
| `ToolScope.ScopeResolvedIffExactlyOne` | src/dotnet/commands/dotnet-tool/list/ToolListCommand.cs:50-58 | a scope is resolved iff exactly one of `--global` and a non-blank tool path is given |
| `ToolScope.BlankToolPathIsAbsent` | src/dotnet/commands/dotnet-tool/list/ToolListCommand.cs:44-48 | a whitespace-only path resolves exactly like an absent one; with `--global` it selects the global store |
| `ToolPackage.CommandNames` | src/dotnet/commands/dotnet-tool/list/ToolListCommand.cs:70 | the names of the commands, one per command, in declared order |
| `CommandCell.SplitJoinedNames` | src/dotnet/commands/dotnet-tool/list/ToolListCommand.cs:68-70 | joining a non-empty list of comma-free names with `", "` loses nothing: splitting the cell gives the names back in declared order |
| `CommandCell.EmptyCellAmbiguity` | src/dotnet/commands/dotnet-tool/list/ToolListCommand.cs:68-70 | no commands give an empty cell, and so does a single command with an empty name |
| `ListTool.RowCells` | src/dotnet/commands/dotnet-tool/list/ToolListCommand.cs:60-70 | a row has three cells: the id, the normalised version, and the Commands cell, which is empty without commands and otherwise, when no name contains a comma, gives back the names in order |
| `ListTool.TableLines` | src/dotnet/commands/dotnet-tool/list/ToolListCommand.cs:72 | the printed table is the header line followed by exactly one row per package, in the given order |
| `PackageIdOrder.IdLessEqReflexive` | src/dotnet/commands/dotnet-tool/list/ToolListCommand.cs:80 | the id order is reflexive |
| `PackageIdOrder.IdLessEqAntisymmetric` | src/dotnet/commands/dotnet-tool/list/ToolListCommand.cs:80 | the id order is antisymmetric: ids ordered both ways are equal |
| `PackageIdOrder.IdLessEqTransitive` | src/dotnet/commands/dotnet-tool/list/ToolListCommand.cs:80 | the id order is transitive |
| `PackageIdOrder.IdLessEqTotal` | src/dotnet/commands/dotnet-tool/list/ToolListCommand.cs:80 | any two ids are comparable |
| `PackagePipeline.FirstOtherFault` | src/dotnet/commands/dotnet-tool/list/ToolListCommand.cs:86-100 | the position where a non-configuration fault escapes the filter: no earlier package raises one, and the package there does |
| `PackagePipeline.KeptMembers` | src/dotnet/commands/dotnet-tool/list/ToolListCommand.cs:84-101 | a package is kept iff it was enumerated and reading its commands succeeds |
| `PackagePipeline.DroppedMembers` | src/dotnet/commands/dotnet-tool/list/ToolListCommand.cs:92-99 | a package is dropped iff it was enumerated and reading its commands raises a configuration fault |
| `PackagePipeline.WarningsMatchDropped` | src/dotnet/commands/dotnet-tool/list/ToolListCommand.cs:94-98 | there is exactly one warning per dropped package, in the same order, carrying its id and the fault's message |
| `PackagePipeline.KeptAndDroppedPartition` | src/dotnet/commands/dotnet-tool/list/ToolListCommand.cs:79-101 | when no other fault escapes, the kept and the dropped packages together are exactly the enumerated ones, and kept count plus warning count is the package count |
| `PackagePipeline.KeptCounts` | src/dotnet/commands/dotnet-tool/list/ToolListCommand.cs:79 | each readable package is kept as often as it was enumerated, and no other package is kept |
| `PackagePipeline.KeptDistinct` | src/dotnet/commands/dotnet-tool/list/ToolListCommand.cs:79 | filtering keeps ids unique |
| `PackagePipeline.Insert` | src/dotnet/commands/dotnet-tool/list/ToolListCommand.cs:80 | inserting a package adds exactly that package |
| `PackagePipeline.SortById` | src/dotnet/commands/dotnet-tool/list/ToolListCommand.cs:80 | the sort is a permutation of its input |
| `PackagePipeline.InsertSorted` | src/dotnet/commands/dotnet-tool/list/ToolListCommand.cs:80 | inserting into an id-sorted sequence keeps it sorted |
| `PackagePipeline.SortByIdSorted` | src/dotnet/commands/dotnet-tool/list/ToolListCommand.cs:80 | the sort's result is in ascending id order |
| `PackagePipeline.SortByIdDistinct` | src/dotnet/commands/dotnet-tool/list/ToolListCommand.cs:80 | sorting keeps ids unique |
| `PackagePipeline.SortedDistinctUnique` | src/dotnet/commands/dotnet-tool/list/ToolListCommand.cs:80-81 | two id-sorted sequences with unique ids holding the same packages are equal |
| `PackagePipeline.RowsIndependentOfEnumerationOrder` | src/dotnet/commands/dotnet-tool/list/ToolListCommand.cs:78-81 | for two enumerations of the same packages with unique ids, the sorted kept packages are the same |
| `PackagePipeline.ListedPackages` | src/dotnet/commands/dotnet-tool/list/ToolListCommand.cs:78-81 | for an enumeration with unique ids, the listed packages are exactly the readable enumerated ones, each once, in strictly ascending id order |
| `ListTool.AsErrorsSinks` | src/dotnet/commands/dotnet-tool/list/ToolListCommand.cs:94-98 | warnings are written only to the error reporter, one line per warning, in order; so the filter writes exactly the warnings of the packages it read |
| `ListTool.AsOutputSinks` | src/dotnet/commands/dotnet-tool/list/ToolListCommand.cs:72 | the table is written only to the output reporter, line by line, in order |
| `ListTool.MissingScopeFailsFirst` | src/dotnet/commands/dotnet-tool/list/ToolListCommand.cs:50-53 | without `--global` and with a blank path the run fails with `NeedGlobalOrToolPath`, creates no store and writes nothing |
| `ListTool.ConflictingScopeFailsFirst` | src/dotnet/commands/dotnet-tool/list/ToolListCommand.cs:55-58 | with `--global` and a non-blank path the run fails with `GlobalAndToolPathConflict`, creates no store and writes nothing |
| `ListTool.BlankToolPathRunsAsAbsent` | src/dotnet/commands/dotnet-tool/list/ToolListCommand.cs:44-58 | a run with a blank path is the same as a run with no path; with `--global` it reads the global store |
| `ListTool.ExitCode` | src/dotnet/commands/dotnet-tool/list/ToolListCommand.cs:72-73 | the run returns only the code 0, and does so iff the scope is valid and no package raises a non-configuration fault |
| `ListTool.WarningsBeforeTable` | src/dotnet/commands/dotnet-tool/list/ToolListCommand.cs:72-81 | once a table line has been written, only table lines follow: every warning comes before the table |
| `ListTool.SuccessfulRunOutput` | src/dotnet/commands/dotnet-tool/list/ToolListCommand.cs:60-81 | a successful run prints the header and one row per kept package in ascending id order, and warns once per dropped package |
| `ListTool.FaultedRunOutput` | src/dotnet/commands/dotnet-tool/list/ToolListCommand.cs:84-92 | a run stopped by a non-configuration fault reports that fault's message, prints no table line, and has written the warnings of the packages before it |
| `ListTool.TableIndependentOfEnumerationOrder` | src/dotnet/commands/dotnet-tool/list/ToolListCommand.cs:78-81 | two successful runs over stores that enumerate the same packages with unique ids in different orders print the same table |
| `ListTool.ListToolCommand.constructor` | src/dotnet/commands/dotnet-tool/list/ToolListCommand.cs:26-37 | keeps the options and the store factory; nothing is written and no store is created |
| `ListTool.ListToolCommand.PackageHasCommands` | src/dotnet/commands/dotnet-tool/list/ToolListCommand.cs:84-101 | true and silent when the commands read succeeds; false plus one warning with the id and message on a configuration fault; the other fault propagates, with nothing written |
| `ListTool.ListToolCommand.GetPackages` | src/dotnet/commands/dotnet-tool/list/ToolListCommand.cs:76-82 | calls the factory once with the tool path; returns the kept packages sorted by id, or the escaping fault, and writes the warnings of the packages the filter reached |
| `ListTool.ListToolCommand.PrintRows` | src/dotnet/commands/dotnet-tool/list/ToolListCommand.cs:72 | appends the header and one row per package, in order, to the output |
| `ListTool.ListToolCommand.Execute` | src/dotnet/commands/dotnet-tool/list/ToolListCommand.cs:39-74 | returns the status of `ListRun` and appends exactly its writes and store requests to the object's state |

## Left out

- Reading `Commands` is taken to give the same outcome every time. The source reads it in the filter (line 90) and again in the Commands column extractor (line 70), outside the filter's `catch`. A `ToolConfigurationException` from that second read is not modelled; it would escape `Execute` after the warnings had been written.
- `PrintableTable` is not part of this model. Column widths, padding, separator lines and wrapped cells are not modelled. The header is one line holding the three column tags, and a row is its list of cells.
- Reporters and colouring: the model records whether a line went to the output or the error reporter. It does not model which physical sink that is (line 35 sends warnings to the injected reporter when one is given) or the `.Yellow()` colouring.
- `LocalizableStrings`: column headers, usage errors and the warning are tags with their arguments, not text.
- `ToolPackageFactory.CreateToolPackageStore`, the store layout, and a failure of `EnumeratePackages` itself: the factory followed by `EnumeratePackages()` is a total function from tool path to packages.
- NuGet's `ToNormalizedString`: the version is given as its already normalised string.
- `PackageId` comparison: an assumed ordinal order on the id strings (see above). Characters are compared as Unicode code points, which differs from .NET's UTF-16 code-unit order only for characters above U+FFFF. Case folding is not modelled.
- `AppliedOption` and `ParseResult` argument parsing: `global` and `tool-path` are plain inputs to the constructor.
- Turning a `GracefulException` into a message and a non-zero exit code happens in the caller. The model stops at the `UsageFailure` status.
- Laziness of `Where`: the filter runs inside `ToArray`. The model runs it as an eager loop with the same order of effects.
- PackagePipeline.SortById: stability for equal ids (`OrderBy` is stable) is not stated. Ids are unique within one enumeration, so it cannot be observed there.
- Idempotence is not a separate lemma. `Execute` is proved equal to the function `ListRun` of its inputs, so two runs over an unchanged store write the same lines.
