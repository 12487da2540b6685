/**
 * Which package store `dotnet tool list` reads: the global store (`--global`)
 * or the store under an explicit `--tool-path`. Exactly one must be chosen.
 */
module ToolScope {
  import opened Wrappers

  /** The two usage errors, raised as `GracefulException`s. */
  datatype UsageError = NeedGlobalOrToolPath | GlobalAndToolPathConflict

  /** .NET `char.IsWhiteSpace`: the Unicode separators plus U+0009..U+000D and U+0085. */
  predicate IsWhiteSpace(c: char) {
    ('\U{9}' <= c <= '\U{D}') || c == ' ' || c == '\U{85}' || c == '\U{A0}' || c == '\U{1680}'
    || ('\U{2000}' <= c <= '\U{200A}') || c == '\U{2028}' || c == '\U{2029}' || c == '\U{202F}'
    || c == '\U{205F}' || c == '\U{3000}'
  }

  /** `string.IsNullOrWhiteSpace`. */
  predicate IsNullOrWhiteSpace(s: Option<string>) {
    s.None? || forall i :: 0 <= i < |s.value| ==> IsWhiteSpace(s.value[i])
  }

  /** The `DirectoryPath?` built from the `tool-path` option: null when the option is blank. */
  function ToolPathOf(toolPathOption: Option<string>): (toolPath: Option<string>)
    ensures toolPath.None? <==> IsNullOrWhiteSpace(toolPathOption)
    ensures toolPath.Some? ==> toolPathOption == toolPath
  {
    if IsNullOrWhiteSpace(toolPathOption) then None else toolPathOption
  }

  /**
   * The scope check of `Execute`: the tool path handed to the store factory
   * (None for the global store), or the usage error.
   */
  function ResolveScope(global: bool, toolPathOption: Option<string>): (r: Result<Option<string>, UsageError>)
    ensures r == Failure(NeedGlobalOrToolPath) <==> !global && IsNullOrWhiteSpace(toolPathOption)
    ensures r == Failure(GlobalAndToolPathConflict) <==> global && !IsNullOrWhiteSpace(toolPathOption)
    ensures r.Success? ==> (r.value.None? <==> global)
    ensures r.Success? && r.value.Some? ==> r.value == toolPathOption && !IsNullOrWhiteSpace(toolPathOption)
  {
    var toolPath := ToolPathOf(toolPathOption);
    if toolPath.None? && !global then Failure(NeedGlobalOrToolPath)
    else if toolPath.Some? && global then Failure(GlobalAndToolPathConflict)
    else Success(toolPath)
  }

  /** Exactly one of `--global` and a non-blank `--tool-path` gives a scope. */
  lemma ScopeResolvedIffExactlyOne(global: bool, toolPathOption: Option<string>)
    ensures ResolveScope(global, toolPathOption).Success? <==> (global != !IsNullOrWhiteSpace(toolPathOption))
  {
  }

  /** A whitespace-only tool path is treated exactly like an absent one. */
  lemma BlankToolPathIsAbsent(global: bool, path: string)
    requires IsNullOrWhiteSpace(Some(path))
    ensures ResolveScope(global, Some(path)) == ResolveScope(global, None)
    ensures global ==> ResolveScope(global, Some(path)) == Success(None)
  {
  }
}
