/**
 * The Commands column of the listing: a package's command names joined with
 * `ListToolCommand.CommandDelimiter`, and the split that reads them back.
 */
module CommandCell {

  /** `ListToolCommand.CommandDelimiter`. */
  const CommandDelimiter: string := ", "

  /** `string.Join(CommandDelimiter, names)`. */
  function JoinNames(names: seq<string>): string
  {
    if |names| == 0 then ""
    else if |names| == 1 then names[0]
    else names[0] + CommandDelimiter + JoinNames(names[1..])
  }

  /** Cuts a cell at every occurrence of the delimiter, left to right. */
  function SplitCell(s: string): (parts: seq<string>)
    ensures |parts| >= 1
    decreases |s|
  {
    if |s| == 0 then [""]
    else if |s| >= 2 && s[..2] == CommandDelimiter then [""] + SplitCell(s[2..])
    else
      var rest := SplitCell(s[1..]);
      [[s[0]] + rest[0]] + rest[1..]
  }

  predicate NoComma(name: string) {
    forall i :: 0 <= i < |name| ==> name[i] != ','
  }

  lemma {:induction false} SplitSingleName(name: string)
    requires NoComma(name)
    ensures SplitCell(name) == [name]
    decreases |name|
  {
    if |name| > 0 {
      SplitSingleName(name[1..]);
      assert name == [name[0]] + name[1..];
    }
  }

  lemma {:induction false} SplitAfterName(name: string, rest: string)
    requires NoComma(name)
    ensures SplitCell(name + CommandDelimiter + rest) == [name] + SplitCell(rest)
    decreases |name|
  {
    var s := name + CommandDelimiter + rest;
    if |name| == 0 {
      assert s[..2] == CommandDelimiter && s[2..] == rest;
    } else {
      assert s[0] == name[0] != ',';
      assert s[1..] == name[1..] + CommandDelimiter + rest;
      SplitAfterName(name[1..], rest);
      assert name == [name[0]] + name[1..];
    }
  }

  /**
   * Joining a non-empty list of comma-free names loses nothing: the cell
   * gives back every name, in the declared order.
   */
  lemma {:induction false} SplitJoinedNames(names: seq<string>)
    requires |names| >= 1
    requires forall i :: 0 <= i < |names| ==> NoComma(names[i])
    ensures SplitCell(JoinNames(names)) == names
    decreases |names|
  {
    if |names| == 1 {
      SplitSingleName(names[0]);
    } else {
      SplitJoinedNames(names[1..]);
      SplitAfterName(names[0], JoinNames(names[1..]));
      assert names == [names[0]] + names[1..];
    }
  }

  /**
   * The one ambiguity of the cell: a package without commands and a package
   * whose only command has an empty name both show an empty cell.
   */
  lemma EmptyCellAmbiguity()
    ensures JoinNames([]) == "" && JoinNames([""]) == ""
  {
  }
}
