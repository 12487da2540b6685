/**
 * `dotnet tool list`: the `ListToolCommand` object, whose `Execute` checks the
 * scope, reads the store, filters and sorts the packages and prints the
 * table, and `ListRun`, the reference definition of what one run writes.
 */
module ListTool {
  import opened Wrappers
  import opened ToolPackage
  import opened CommandCell
  import opened ToolScope
  import opened PackagePipeline

  /** The localised column headers, as tags. */
  datatype ColumnHeader = PackageIdColumn | VersionColumn | CommandsColumn

  /**
   * A line of the table: the header line (rendered from the column headers)
   * or a package's row (rendered from its cells). Widths and padding are
   * `PrintableTable`'s and are not modelled.
   */
  datatype Line = HeaderRow(headers: seq<ColumnHeader>) | PackageRow(cells: seq<string>)

  /** One line written by the command: to the output reporter or, as a warning, to the error reporter. */
  datatype Entry = Output(line: Line) | Error(warning: Warning)

  /** How `Execute` ends: it returns a code, throws a `GracefulException`, or lets a fault propagate. */
  datatype ExitStatus = Exited(code: int) | UsageFailure(error: UsageError) | Faulted(message: string)

  const Header: Line := HeaderRow([PackageIdColumn, VersionColumn, CommandsColumn])

  /** The three column extractors applied to one package. */
  function RowOf(p: Package): Line
    requires HasReadableCommands(p)
  {
    PackageRow([p.id, p.version, JoinNames(CommandNames(p.commands.value))])
  }

  /**
   * A row shows the package's id and version as they are, and a Commands cell
   * that is empty for a package without commands and otherwise gives back the
   * command names, in declared order, when none of them contains a comma.
   */
  lemma RowCells(p: Package)
    requires HasReadableCommands(p)
    ensures |RowOf(p).cells| == 3 && RowOf(p).cells[0] == p.id && RowOf(p).cells[1] == p.version
    ensures |p.commands.value| == 0 ==> RowOf(p).cells[2] == ""
    ensures |p.commands.value| > 0 && (forall c :: c in p.commands.value ==> NoComma(c.name)) ==>
              SplitCell(RowOf(p).cells[2]) == CommandNames(p.commands.value)
  {
    var names := CommandNames(p.commands.value);
    if |names| > 0 && (forall c :: c in p.commands.value ==> NoComma(c.name)) {
      forall i | 0 <= i < |names| ensures NoComma(names[i]) {
        assert p.commands.value[i] in p.commands.value;
      }
      SplitJoinedNames(names);
    }
  }

  /** The lines `PrintRows` writes for `rows`: the header, then one row per package in order. */
  function TableLines(rows: seq<Package>): (lines: seq<Line>)
    requires forall p :: p in rows ==> HasReadableCommands(p)
    ensures |lines| == |rows| + 1 && lines[0] == Header
    ensures forall i :: 0 <= i < |rows| ==> lines[i + 1] == RowOf(rows[i])
  {
    if |rows| == 0 then [Header]
    else
      var init := rows[..|rows| - 1];
      assert forall p :: p in init ==> p in rows;
      TableLines(init) + [RowOf(rows[|rows| - 1])]
  }

  function AsOutput(lines: seq<Line>): seq<Entry>
  {
    if |lines| == 0 then [] else AsOutput(lines[..|lines| - 1]) + [Output(lines[|lines| - 1])]
  }

  /** Warnings as they are written to the error reporter, one line each, in order. */
  function AsErrors(ws: seq<Warning>): seq<Entry>
  {
    if |ws| == 0 then [] else AsErrors(ws[..|ws| - 1]) + [Error(ws[|ws| - 1])]
  }

  lemma AsErrorsSnoc(ws: seq<Warning>, w: Warning)
    ensures AsErrors(ws + [w]) == AsErrors(ws) + [Error(w)]
  {
  }

  /** What went to the output reporter, in order. */
  function Outputs(es: seq<Entry>): seq<Line>
  {
    if |es| == 0 then []
    else Outputs(es[..|es| - 1]) + (if es[|es| - 1].Output? then [es[|es| - 1].line] else [])
  }

  /** What went to the error reporter, in order. */
  function Errors(es: seq<Entry>): seq<Warning>
  {
    if |es| == 0 then []
    else Errors(es[..|es| - 1]) + (if es[|es| - 1].Error? then [es[|es| - 1].warning] else [])
  }

  /**
   * What `GetPackages` returns for the enumerated packages: the kept ones
   * sorted by id, or the message of the first fault the filter lets through.
   */
  function PackagesOutcome(ps: seq<Package>): Result<seq<Package>, string>
  {
    var k := FirstOtherFault(ps);
    if k < |ps| then Failure(ps[k].commands.error.message) else Success(SortById(Kept(ps)))
  }

  /** The warnings `GetPackages` writes: those of the packages the filter reached. */
  function FilterLog(ps: seq<Package>): seq<Entry>
  {
    AsErrors(WarningsUpTo(ps, FirstOtherFault(ps)))
  }

  /** The observable effect of one `Execute`. */
  datatype Run = Run(status: ExitStatus, storeRequests: seq<Option<string>>, written: seq<Entry>)

  /**
   * Reference definition of one run, given the options and `enumerate`, which
   * stands for `_createToolPackageStore(toolPath).EnumeratePackages()`.
   */
  function ListRun(global: bool, toolPathOption: Option<string>, enumerate: Option<string> -> seq<Package>): Run
  {
    match ResolveScope(global, toolPathOption)
    case Failure(e) => Run(UsageFailure(e), [], [])
    case Success(toolPath) =>
      var ps := enumerate(toolPath);
      match PackagesOutcome(ps)
      case Failure(message) => Run(Faulted(message), [toolPath], FilterLog(ps))
      case Success(rows) =>
        KeptAreReadable(ps);
        Run(Exited(0), [toolPath], FilterLog(ps) + AsOutput(TableLines(rows)))
  }

  lemma KeptAreReadable(ps: seq<Package>)
    ensures forall p :: p in SortById(Kept(ps)) ==> HasReadableCommands(p)
  {
    KeptMembers(ps);
    forall p | p in SortById(Kept(ps)) ensures HasReadableCommands(p) {
      assert p in multiset(SortById(Kept(ps)));
    }
  }

  /** What reading package `i` adds to the kept packages and to the warnings written. */
  lemma FilterStep(ps: seq<Package>, i: nat)
    requires i < |ps|
    ensures KeptUpTo(ps, i + 1) == KeptUpTo(ps, i) + (if HasReadableCommands(ps[i]) then [ps[i]] else [])
    ensures AsErrors(WarningsUpTo(ps, i + 1)) ==
            AsErrors(WarningsUpTo(ps, i)) + (if HasConfigurationFault(ps[i]) then [Error(WarningFor(ps[i]))] else [])
  {
    if HasConfigurationFault(ps[i]) {
      assert WarningsUpTo(ps, i + 1) == WarningsUpTo(ps, i) + [WarningFor(ps[i])];
      AsErrorsSnoc(WarningsUpTo(ps, i), WarningFor(ps[i]));
    } else {
      assert WarningsUpTo(ps, i + 1) == WarningsUpTo(ps, i);
    }
  }

  /** The filter stops at package `i` when reading its commands raises a non-configuration fault. */
  lemma FilterStopsAt(ps: seq<Package>, i: nat)
    requires i < |ps| && HasOtherFault(ps[i])
    requires forall j :: 0 <= j < i ==> !HasOtherFault(ps[j])
    ensures PackagesOutcome(ps) == Failure(ps[i].commands.error.message)
    ensures FilterLog(ps) == AsErrors(WarningsUpTo(ps, i))
  {
  }

  /** The filter reaches the end when no package raises a non-configuration fault. */
  lemma FilterCompletes(ps: seq<Package>)
    requires forall j :: 0 <= j < |ps| ==> !HasOtherFault(ps[j])
    ensures PackagesOutcome(ps) == Success(SortById(KeptUpTo(ps, |ps|)))
    ensures FilterLog(ps) == AsErrors(WarningsUpTo(ps, |ps|))
  {
  }

  class ListToolCommand {
    const global: bool
    const toolPathOption: Option<string>
    /** `_createToolPackageStore` followed by `EnumeratePackages()`. */
    const enumerate: Option<string> -> seq<Package>
    /** Everything written to the output and error reporters, in order. */
    var log: seq<Entry>
    /** The tool paths the store factory was called with. */
    var storeRequests: seq<Option<string>>

    constructor (global: bool, toolPathOption: Option<string>, enumerate: Option<string> -> seq<Package>)
      ensures this.global == global && this.toolPathOption == toolPathOption && this.enumerate == enumerate
      ensures log == [] && storeRequests == []
    {
      this.global := global;
      this.toolPathOption := toolPathOption;
      this.enumerate := enumerate;
      log := [];
      storeRequests := [];
    }

    /** The filter: reads the commands, warns and answers false on a configuration fault. */
    method PackageHasCommands(p: Package) returns (r: Result<bool, string>)
      modifies this`log
      ensures HasReadableCommands(p) ==> r == Success(true) && log == old(log)
      ensures HasConfigurationFault(p) ==> r == Success(false) && log == old(log) + [Error(WarningFor(p))]
      ensures HasOtherFault(p) ==> r == Failure(p.commands.error.message) && log == old(log)
    {
      match p.commands
      case Success(commands) =>
        r := Success(|commands| >= 0);
      case Failure(ToolConfigurationFault(message)) =>
        log := log + [Error(InvalidPackageWarning(p.id, message))];
        r := Success(false);
      case Failure(OtherFault(message)) =>
        r := Failure(message);
    }

    /** Creates the store, filters its packages, sorts the survivors by id and materialises them. */
    method GetPackages(toolPath: Option<string>) returns (r: Result<seq<Package>, string>)
      modifies this`log, this`storeRequests
      ensures storeRequests == old(storeRequests) + [toolPath]
      ensures r == PackagesOutcome(enumerate(toolPath))
      ensures log == old(log) + FilterLog(enumerate(toolPath))
    {
      storeRequests := storeRequests + [toolPath];
      var ps := enumerate(toolPath);
      var kept: seq<Package> := [];
      var i := 0;
      while i < |ps|
        invariant 0 <= i <= |ps|
        invariant forall j :: 0 <= j < i ==> !HasOtherFault(ps[j])
        invariant storeRequests == old(storeRequests) + [toolPath]
        invariant kept == KeptUpTo(ps, i)
        invariant log == old(log) + AsErrors(WarningsUpTo(ps, i))
      {
        var has := PackageHasCommands(ps[i]);
        if has.Failure? {
          FilterStopsAt(ps, i);
          return Failure(has.error);
        }
        FilterStep(ps, i);
        if has.value {
          kept := kept + [ps[i]];
        }
        ghost var step := if HasConfigurationFault(ps[i]) then [Error(WarningFor(ps[i]))] else [];
        assert log == old(log) + AsErrors(WarningsUpTo(ps, i)) + step;
        assert log == old(log) + AsErrors(WarningsUpTo(ps, i + 1));
        i := i + 1;
      }
      FilterCompletes(ps);
      r := Success(SortById(kept));
    }

    /** Writes the header, then one row per package, through the output reporter. */
    method PrintRows(rows: seq<Package>)
      requires forall p :: p in rows ==> HasReadableCommands(p)
      modifies this`log
      ensures log == old(log) + AsOutput(TableLines(rows))
    {
      log := log + [Output(Header)];
      var i := 0;
      while i < |rows|
        invariant 0 <= i <= |rows|
        invariant forall p :: p in rows[..i] ==> p in rows
        invariant log == old(log) + AsOutput(TableLines(rows[..i]))
      {
        log := log + [Output(RowOf(rows[i]))];
        assert rows[..i + 1][..i] == rows[..i];
        i := i + 1;
      }
      assert rows[..i] == rows;
    }

    method Execute() returns (status: ExitStatus)
      modifies this`log, this`storeRequests
      ensures status == ListRun(global, toolPathOption, enumerate).status
      ensures log == old(log) + ListRun(global, toolPathOption, enumerate).written
      ensures storeRequests == old(storeRequests) + ListRun(global, toolPathOption, enumerate).storeRequests
    {
      var scope := ResolveScope(global, toolPathOption);
      if scope.Failure? {
        return UsageFailure(scope.error);
      }
      var packages := GetPackages(scope.value);
      if packages.Failure? {
        return Faulted(packages.error);
      }
      KeptAreReadable(enumerate(scope.value));
      PrintRows(packages.value);
      return Exited(0);
    }
  }

  // ----- what one run writes -----

  lemma {:induction false} OutputsAppend(a: seq<Entry>, b: seq<Entry>)
    ensures Outputs(a + b) == Outputs(a) + Outputs(b)
    ensures Errors(a + b) == Errors(a) + Errors(b)
    decreases |b|
  {
    if |b| == 0 {
      assert a + b == a;
    } else {
      var init, last := b[..|b| - 1], b[|b| - 1];
      assert (a + b)[..|a + b| - 1] == a + init;
      assert (a + b)[|a + b| - 1] == last;
      OutputsAppend(a, init);
    }
  }

  /** Warnings go only to the error reporter, one entry each, in order. */
  lemma {:induction false} AsErrorsSinks(ws: seq<Warning>)
    ensures Outputs(AsErrors(ws)) == []
    ensures Errors(AsErrors(ws)) == ws
    ensures forall i :: 0 <= i < |AsErrors(ws)| ==> AsErrors(ws)[i].Error?
    decreases |ws|
  {
    if |ws| > 0 {
      var init := ws[..|ws| - 1];
      AsErrorsSinks(init);
      OutputsAppend(AsErrors(init), [Error(ws[|ws| - 1])]);
      assert ws == init + [ws[|ws| - 1]];
    }
  }

  /** The table goes only to the output reporter, line by line. */
  lemma {:induction false} AsOutputSinks(lines: seq<Line>)
    ensures Outputs(AsOutput(lines)) == lines
    ensures Errors(AsOutput(lines)) == []
    ensures |AsOutput(lines)| == |lines|
    ensures forall i :: 0 <= i < |lines| ==> AsOutput(lines)[i] == Output(lines[i])
    decreases |lines|
  {
    if |lines| > 0 {
      var init := lines[..|lines| - 1];
      AsOutputSinks(init);
      OutputsAppend(AsOutput(init), [Output(lines[|lines| - 1])]);
      assert lines == init + [lines[|lines| - 1]];
    }
  }

  /** Without `--global` and without a non-blank `--tool-path`, nothing is created, read or written. */
  lemma MissingScopeFailsFirst(global: bool, toolPathOption: Option<string>, enumerate: Option<string> -> seq<Package>)
    requires !global && IsNullOrWhiteSpace(toolPathOption)
    ensures ListRun(global, toolPathOption, enumerate) == Run(UsageFailure(NeedGlobalOrToolPath), [], [])
  {
  }

  /** With both `--global` and a non-blank `--tool-path`, nothing is created, read or written. */
  lemma ConflictingScopeFailsFirst(global: bool, toolPathOption: Option<string>, enumerate: Option<string> -> seq<Package>)
    requires global && !IsNullOrWhiteSpace(toolPathOption)
    ensures ListRun(global, toolPathOption, enumerate) == Run(UsageFailure(GlobalAndToolPathConflict), [], [])
  {
  }

  /** A blank `--tool-path` behaves as an absent one; with `--global` the global store is read. */
  lemma BlankToolPathRunsAsAbsent(global: bool, path: string, enumerate: Option<string> -> seq<Package>)
    requires IsNullOrWhiteSpace(Some(path))
    ensures ListRun(global, Some(path), enumerate) == ListRun(global, None, enumerate)
    ensures global ==> ListRun(global, Some(path), enumerate).storeRequests == [None]
  {
    BlankToolPathIsAbsent(global, path);
  }

  /**
   * `Execute` returns 0 exactly when the scope is valid and no package raises
   * a fault other than a configuration fault; it never returns another code.
   */
  lemma ExitCode(global: bool, toolPathOption: Option<string>, enumerate: Option<string> -> seq<Package>)
    ensures var run := ListRun(global, toolPathOption, enumerate);
            (run.status.Exited? ==> run.status.code == 0) &&
            (run.status.Exited? <==>
               ResolveScope(global, toolPathOption).Success? &&
               FirstOtherFault(enumerate(ResolveScope(global, toolPathOption).value)) ==
                 |enumerate(ResolveScope(global, toolPathOption).value)|)
  {
  }

  /** Every warning is written before the first table line. */
  lemma WarningsBeforeTable(global: bool, toolPathOption: Option<string>, enumerate: Option<string> -> seq<Package>)
    ensures var w := ListRun(global, toolPathOption, enumerate).written;
            forall i, j :: 0 <= i < j < |w| && w[i].Output? ==> w[j].Output?
  {
    var run := ListRun(global, toolPathOption, enumerate);
    if ResolveScope(global, toolPathOption).Success? {
      var ps := enumerate(ResolveScope(global, toolPathOption).value);
      AsErrorsSinks(WarningsUpTo(ps, FirstOtherFault(ps)));
      if PackagesOutcome(ps).Success? {
        KeptAreReadable(ps);
        AsOutputSinks(TableLines(SortById(Kept(ps))));
      }
    }
  }

  /**
   * A successful run writes the header and one row per kept package, in
   * ascending id order, to the output reporter, and one warning per dropped
   * package, in enumeration order, to the error reporter.
   */
  lemma SuccessfulRunOutput(global: bool, toolPathOption: Option<string>, enumerate: Option<string> -> seq<Package>)
    requires ListRun(global, toolPathOption, enumerate).status == Exited(0)
    ensures ResolveScope(global, toolPathOption).Success?
    ensures var ps := enumerate(ResolveScope(global, toolPathOption).value);
            var run := ListRun(global, toolPathOption, enumerate);
            (forall p :: p in SortById(Kept(ps)) ==> HasReadableCommands(p)) &&
            Outputs(run.written) == TableLines(SortById(Kept(ps))) &&
            Errors(run.written) == Warnings(ps)
  {
    var ps := enumerate(ResolveScope(global, toolPathOption).value);
    var run := ListRun(global, toolPathOption, enumerate);
    KeptAreReadable(ps);
    AsErrorsSinks(WarningsUpTo(ps, |ps|));
    AsOutputSinks(TableLines(SortById(Kept(ps))));
    OutputsAppend(FilterLog(ps), AsOutput(TableLines(SortById(Kept(ps)))));
  }

  /** A run stopped by another fault writes no table line, only the warnings before the fault. */
  lemma FaultedRunOutput(global: bool, toolPathOption: Option<string>, enumerate: Option<string> -> seq<Package>)
    requires ListRun(global, toolPathOption, enumerate).status.Faulted?
    ensures ResolveScope(global, toolPathOption).Success?
    ensures var ps := enumerate(ResolveScope(global, toolPathOption).value);
            var run := ListRun(global, toolPathOption, enumerate);
            FirstOtherFault(ps) < |ps| &&
            run.status.message == ps[FirstOtherFault(ps)].commands.error.message &&
            Outputs(run.written) == [] &&
            Errors(run.written) == WarningsUpTo(ps, FirstOtherFault(ps))
  {
    var ps := enumerate(ResolveScope(global, toolPathOption).value);
    AsErrorsSinks(WarningsUpTo(ps, FirstOtherFault(ps)));
  }

  /**
   * The printed table does not depend on the order in which the store
   * enumerates its packages.
   */
  lemma TableIndependentOfEnumerationOrder(global: bool, toolPathOption: Option<string>,
                                           first: Option<string> -> seq<Package>, second: Option<string> -> seq<Package>)
    requires ListRun(global, toolPathOption, first).status == Exited(0)
    requires ListRun(global, toolPathOption, second).status == Exited(0)
    requires var toolPath := ResolveScope(global, toolPathOption).value;
             DistinctIds(first(toolPath)) && DistinctIds(second(toolPath)) &&
             multiset(first(toolPath)) == multiset(second(toolPath))
    ensures Outputs(ListRun(global, toolPathOption, first).written) == Outputs(ListRun(global, toolPathOption, second).written)
  {
    var toolPath := ResolveScope(global, toolPathOption).value;
    SuccessfulRunOutput(global, toolPathOption, first);
    SuccessfulRunOutput(global, toolPathOption, second);
    RowsIndependentOfEnumerationOrder(first(toolPath), second(toolPath));
  }
}
