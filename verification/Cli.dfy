/** The loops of `cliSupport.cpp` over the argument tree. */
module Cli {
  import opened CliSpec
  import opened Options

  datatype PrefixResult = PrefixResult(arg: Option<Argument>, level: nat)

  /** The result is the deepest entry of the path that is wanted, or empty. */
  ghost predicate IsDeepest(path: seq<Argument>, wanted: Argument -> bool, r: PrefixResult) {
    match r.arg
    case None => r.level == 0 && forall j :: 0 <= j < |path| ==> !wanted(path[j])
    case Some(a) =>
      && r.level < |path| && path[r.level] == a && wanted(a)
      && forall j :: r.level < j < |path| ==> !wanted(path[j])
  }

  /** The search on one level. */
  method FindOnLevel(table: Table, token: string) returns (found: Option<Argument>)
    ensures found == FirstMatch(table, token)
  {
    found := None;
    var i := 0;
    while i < |table|
      invariant 0 <= i <= |table|
      invariant found == None
      invariant FirstMatch(table, token) == FirstMatch(table[i..], token)
    {
      if table[i].name == token {
        found := Some(table[i]);
        break;
      }
      i := i + 1;
    }
  }

  method FindLongestPrefix(table: Option<Table>, argv: seq<string>, wanted: Argument -> bool)
    returns (result: PrefixResult)
    ensures IsDeepest(Path(table, argv), wanted, result)
  {
    result := PrefixResult(None, 0);
    var current := table;
    ghost var walked: seq<Argument> := [];
    var argvIdx := 0;
    while argvIdx < |argv| && current.Some?
      invariant argvIdx == |walked| <= |argv|
      invariant Path(table, argv) == walked + Path(current, argv[argvIdx..])
      invariant IsDeepest(walked, wanted, result)
    {
      var found := FindOnLevel(current.value, argv[argvIdx]);
      if found.None? {
        assert walked + [] == walked;
        return;
      }
      if wanted(found.value) {
        result := PrefixResult(found, argvIdx);
      }
      assert argv[argvIdx..][1..] == argv[argvIdx + 1..];
      assert walked + ([found.value] + Path(found.value.options, argv[argvIdx + 1..]))
          == (walked + [found.value]) + Path(found.value.options, argv[argvIdx + 1..]);
      hide FirstMatch;
      walked := walked + [found.value];
      current := found.value.options;
      argvIdx := argvIdx + 1;
    }
    assert walked + [] == walked;
  }

  /** Runs the handler that the recursive choice names, with the number of tokens matched,
      and nothing else; and reports `NO_HANDLER` if there is none. */
  method CallHandler(table: Option<Table>, argv: seq<string>, run: (Handler, seq<string>, nat) -> int)
    returns (code: int, calls: seq<Call>)
    ensures match Dispatch(table, argv, 0)
            case Some(call) => calls == [call] && code == run(call.handler, argv, call.matched)
            case None => calls == [] && code == NO_HANDLER
  {
    var prefix := FindLongestPrefix(table, argv, (a: Argument) => a.handler.Some?);
    DispatchRunsTheDeepest(table, argv, 0);
    if prefix.arg.Some? && prefix.level < |argv| {
      var call := Call(prefix.arg.value.handler.value, prefix.level + 1);
      calls := [call];
      code := run(call.handler, argv, call.matched);
    } else {
      calls, code := [], NO_HANDLER;
    }
  }

  /** Copies the names that begin with `typed` until the buffer is full. */
  method FillFrom(buffer: array<Option<string>>, table: Table, typed: string)
    requires forall i :: 0 <= i < buffer.Length ==> buffer[i] == None
    modifies buffer
    ensures Holds(buffer[..], Matching(table, typed))
  {
    var completionIt := 0;
    var i := 0;
    ghost var copied: seq<string> := [];
    while i < |table| && completionIt < buffer.Length
      invariant 0 <= i <= |table| && completionIt == |copied| <= buffer.Length
      invariant Matching(table, typed) == copied + Matching(table[i..], typed)
      invariant Holds(buffer[..], copied)
    {
      assert table[i..][1..] == table[i + 1..];
      if typed <= table[i].name {
        assert copied + ([table[i].name] + Matching(table[i + 1..], typed))
            == (copied + [table[i].name]) + Matching(table[i + 1..], typed);
        buffer[completionIt] := Some(table[i].name);
        completionIt := completionIt + 1;
        copied := copied + [table[i].name];
      }
      i := i + 1;
    }
  }

  /** The buffer holds the first names, as many as fit, and nothing after them. */
  ghost predicate Holds(buffer: seq<Option<string>>, names: seq<string>) {
    forall i :: 0 <= i < |buffer| ==> buffer[i] == if i < |names| then Some(names[i]) else None
  }

  method FillCompletionData(buffer: array<Option<string>>, table: Option<Table>, argv: seq<string>,
                            past: Option<string>)
    modifies buffer
    ensures Holds(buffer[..], Completions(table, argv, past))
  {
    for i := 0 to buffer.Length
      invariant forall j :: 0 <= j < i ==> buffer[j] == None
    {
      buffer[i] := None;
    }
    if |argv| < 1 {
      return;
    }
    var all := (a: Argument) => true;
    ghost var path := Path(table, argv);
    assert path != [] ==> all(path[0]) && all(path[|path| - 1]);
    var prefix := FindLongestPrefix(table, argv, all);
    var level, token := None, None;
    if prefix.arg.None? && prefix.level == 0 {
      assert path == [];
      level, token := table, Some(argv[0]);
    } else if prefix.arg.Some? && prefix.level < |argv| {
      assert prefix.level == |path| - 1;
      level := prefix.arg.value.options;
      token := Token(argv, past, prefix.level + 1);
    }
    if level.Some? && token.Some? {
      FillFrom(buffer, level.value, token.value);
    }
  }
}
