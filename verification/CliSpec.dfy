/** What the command line is meant to do with its argument tree, by recursion on the tree. */
module CliSpec {
  import opened Options

  datatype Handler = Handler(id: nat)

  /** One entry of a table; `options` is the table below it, or none.  The entry with a null
      name that ends a table is the end of the sequence. */
  datatype Argument = Argument(name: string, options: Option<Table>, handler: Option<Handler>)

  type Table = seq<Argument>

  const NO_HANDLER: int := -128

  /** A handler that is run, and how many tokens are passed to it as matched. */
  datatype Call = Call(handler: Handler, matched: nat)

  function FirstMatch(table: Table, name: string): (r: Option<Argument>)
    ensures r.Some? ==> r.value in table && r.value.name == name
    ensures r.None? ==> forall a :: a in table ==> a.name != name
  {
    if table == [] then None
    else if table[0].name == name then Some(table[0])
    else FirstMatch(table[1..], name)
  }

  lemma {:induction false} FirstMatchIsFirst(table: Table, name: string, i: nat)
    requires i < |table| && table[i].name == name && forall j :: 0 <= j < i ==> table[j].name != name
    ensures FirstMatch(table, name) == Some(table[i])
  {
    if i > 0 {
      FirstMatchIsFirst(table[1..], name, i - 1);
    }
  }

  /** The entries met on the way down: on each level the first one of that name. */
  function Path(table: Option<Table>, argv: seq<string>): (path: seq<Argument>)
    ensures |path| <= |argv|
    decreases |argv|
  {
    if argv == [] || table.None? then []
    else
      match FirstMatch(table.value, argv[0])
      case None => []
      case Some(a) => [a] + Path(a.options, argv[1..])
  }

  /** The handler to run, by recursion: one from further down if there is one, otherwise the
      entry's own. */
  function Dispatch(table: Option<Table>, argv: seq<string>, depth: nat): Option<Call>
    decreases |argv|
  {
    if argv == [] || table.None? then None
    else
      match FirstMatch(table.value, argv[0])
      case None => None
      case Some(a) =>
        match Dispatch(a.options, argv[1..], depth + 1)
        case Some(call) => Some(call)
        case None => if a.handler.Some? then Some(Call(a.handler.value, depth + 1)) else None
  }

  /** The names that begin with what was typed, in the order of the table. */
  function Matching(table: Table, typed: string): seq<string> {
    if table == [] then []
    else if typed <= table[0].name then [table[0].name] + Matching(table[1..], typed)
    else Matching(table[1..], typed)
  }

  /** The table that the k-th token is looked up in. */
  function LevelAt(table: Option<Table>, path: seq<Argument>, k: nat): Option<Table>
    requires k <= |path|
  {
    if k == 0 then table else path[k - 1].options
  }

  /** The table that the next token is looked up in, after the entries of `path`. */
  function LevelAfter(table: Option<Table>, path: seq<Argument>): Option<Table> {
    LevelAt(table, path, |path|)
  }

  /** `argv[k]`; `past` is what `argv[argc]` holds. */
  function Token(argv: seq<string>, past: Option<string>, k: nat): Option<string>
    requires k <= |argv|
  {
    if k < |argv| then Some(argv[k]) else past
  }

  /** All names that can stand for the first token that is not matched. */
  function Completions(table: Option<Table>, argv: seq<string>, past: Option<string>): seq<string> {
    var path := Path(table, argv);
    var level, token := LevelAfter(table, path), Token(argv, past, |path|);
    if argv == [] || level.None? || token.None? then [] else Matching(level.value, token.value)
  }

  // ------------------------------------------------------------------------- the walk

  /** `path` goes on at step k with the first entry of the k-th name. */
  ghost predicate Descends(table: Option<Table>, argv: seq<string>, path: seq<Argument>, k: nat)
    requires k < |path| <= |argv|
  {
    var level := LevelAt(table, path, k);
    level.Some? && FirstMatch(level.value, argv[k]) == Some(path[k])
  }

  /** There is no way on behind `path`. */
  ghost predicate Ends(table: Option<Table>, argv: seq<string>, path: seq<Argument>)
    requires |path| <= |argv|
  {
    var level := LevelAfter(table, path);
    |path| == |argv| || level.None? || FirstMatch(level.value, argv[|path|]).None?
  }

  /** A walk down the tree, with no recursion: each entry is the first of its name in the
      table that the entry before leads to, and it goes on for as long as it can. */
  ghost predicate IsWalk(table: Option<Table>, argv: seq<string>, path: seq<Argument>) {
    && |path| <= |argv|
    && (forall k :: 0 <= k < |path| ==> Descends(table, argv, path, k))
    && Ends(table, argv, path)
  }

  /** Behind its first entry a walk is a walk from the table of that entry. */
  lemma WalkFromSecond(table: Option<Table>, argv: seq<string>, a: Argument, rest: seq<Argument>)
    requires |rest| < |argv|
    ensures forall k :: 0 <= k < |rest| ==>
              (Descends(table, argv, [a] + rest, k + 1) <==> Descends(a.options, argv[1..], rest, k))
    ensures Ends(table, argv, [a] + rest) <==> Ends(a.options, argv[1..], rest)
  {
    hide FirstMatch;
    forall k | 0 <= k < |rest|
      ensures Descends(table, argv, [a] + rest, k + 1) <==> Descends(a.options, argv[1..], rest, k)
    {
      assert LevelAt(table, [a] + rest, k + 1) == LevelAt(a.options, rest, k);
    }
    assert LevelAfter(table, [a] + rest) == LevelAfter(a.options, rest);
  }

  lemma {:induction false} PathIsAWalk(table: Option<Table>, argv: seq<string>)
    ensures IsWalk(table, argv, Path(table, argv))
    decreases |argv|
  {
    var path := Path(table, argv);
    if path != [] {
      var a, rest := path[0], path[1..];
      assert path == [a] + rest && rest == Path(a.options, argv[1..]);
      assert Descends(table, argv, path, 0);
      PathIsAWalk(a.options, argv[1..]);
      hide FirstMatch; hide Path; hide LevelAfter; hide LevelAt;
      WalkFromSecond(table, argv, a, rest);
      hide Descends; hide Ends;
      forall k | 0 <= k < |path| ensures Descends(table, argv, path, k) {
        if k > 0 {
          assert Descends(a.options, argv[1..], rest, k - 1);
        }
      }
    }
  }

  lemma WalkGoesOn(table: Option<Table>, argv: seq<string>, path: seq<Argument>)
    requires IsWalk(table, argv, path) && path != []
    ensures table.Some? && FirstMatch(table.value, argv[0]) == Some(path[0])
    ensures IsWalk(path[0].options, argv[1..], path[1..])
  {
    var a, rest := path[0], path[1..];
    assert path == [a] + rest;
    assert Descends(table, argv, path, 0);
    hide FirstMatch; hide LevelAfter;
    WalkFromSecond(table, argv, a, rest);
    hide Descends; hide Ends;
    forall k | 0 <= k < |rest| ensures Descends(a.options, argv[1..], rest, k) {
      assert Descends(table, argv, path, k + 1);
    }
  }

  /** The path is the only walk there is. */
  lemma {:induction false} OnlyOneWalk(table: Option<Table>, argv: seq<string>, path: seq<Argument>)
    ensures IsWalk(table, argv, path) <==> path == Path(table, argv)
    decreases |argv|
  {
    PathIsAWalk(table, argv);
    if IsWalk(table, argv, path) && path != [] {
      WalkGoesOn(table, argv, path);
      OnlyOneWalk(path[0].options, argv[1..], path[1..]);
      hide IsWalk; hide FirstMatch;
      assert path == [path[0]] + path[1..];
    }
  }

  // --------------------------------------------------------------------- the dispatch

  /** Where the deepest entry with a handler is. */
  ghost predicate DeepestHandler(path: seq<Argument>, k: nat) {
    && k < |path| && path[k].handler.Some?
    && (forall j :: k < j < |path| ==> path[j].handler.None?)
  }

  lemma DeepestBehind(a: Argument, rest: seq<Argument>, k: nat)
    requires DeepestHandler(rest, k)
    ensures DeepestHandler([a] + rest, k + 1)
  {
  }

  /** The recursive choice runs the handler of the deepest entry that has one, with the
      number of tokens down to it, and none exactly when no entry on the path has one. */
  lemma {:induction false} DispatchRunsTheDeepest(table: Option<Table>, argv: seq<string>, depth: nat)
    ensures var path := Path(table, argv);
            match Dispatch(table, argv, depth)
            case Some(call) =>
              && depth < call.matched && DeepestHandler(path, call.matched - depth - 1)
              && path[call.matched - depth - 1].handler == Some(call.handler)
            case None => forall a :: a in path ==> a.handler.None?
    decreases |argv|
  {
    hide FirstMatch;
    var path := Path(table, argv);
    if path != [] {
      var a, rest := path[0], path[1..];
      assert path == [a] + rest && rest == Path(a.options, argv[1..]);
      DispatchRunsTheDeepest(a.options, argv[1..], depth + 1);
      match Dispatch(a.options, argv[1..], depth + 1)
      case Some(call) => DeepestBehind(a, rest, call.matched - depth - 2);
      case None =>
        assert forall j :: 0 < j < |path| ==> path[j] == rest[j - 1];
    }
  }

  /** Tokens that match nothing change nothing: the handler is the same with and without
      them. */
  lemma {:induction false} DispatchIgnoresTheRest(table: Option<Table>, argv: seq<string>, depth: nat)
    ensures Dispatch(table, argv[..|Path(table, argv)|], depth) == Dispatch(table, argv, depth)
    decreases |argv|
  {
    var path := Path(table, argv);
    if path != [] {
      DispatchIgnoresTheRest(path[0].options, argv[1..], depth + 1);
      assert argv[..|path|][1..] == argv[1..][..|path| - 1];
    }
  }

  // ------------------------------------------------------------------- the completions

  lemma {:induction false} MatchingIsExact(table: Table, typed: string, name: string)
    ensures name in Matching(table, typed) <==>
            typed <= name && exists a :: a in table && a.name == name
  {
    if table != [] {
      MatchingIsExact(table[1..], typed, name);
      if a :| a in table[1..] && a.name == name {
        assert a in table;
      }
      if a :| a in table && a.name == name {
        assert a == table[0] || a in table[1..];
      }
      if typed <= table[0].name {
        assert Matching(table, typed) == [table[0].name] + Matching(table[1..], typed);
      }
    }
  }

  function BeginningWith(names: seq<string>, typed: string): seq<string> {
    if names == [] then []
    else if typed <= names[0] then [names[0]] + BeginningWith(names[1..], typed)
    else BeginningWith(names[1..], typed)
  }

  /** Typing more only takes names away, and leaves the rest in their order. */
  lemma {:induction false} TypingMoreNarrows(table: Table, typed: string, more: string)
    ensures Matching(table, typed + more) == BeginningWith(Matching(table, typed), typed + more)
  {
    if table != [] {
      TypingMoreNarrows(table[1..], typed, more);
      var name := table[0].name;
      if typed + more <= name {
        assert typed <= typed + more;
        assert typed <= name;
      }
      if typed <= name {
        assert Matching(table, typed) == [name] + Matching(table[1..], typed);
        assert ([name] + Matching(table[1..], typed))[1..] == Matching(table[1..], typed);
      }
    }
  }

  /** The next token goes one level further down exactly when its name is in the table. */
  lemma {:induction false} NextTokenDescends(table: Option<Table>, argv: seq<string>, name: string)
    requires |Path(table, argv)| == |argv|
    ensures var path, level := Path(table, argv), LevelAfter(table, Path(table, argv));
            var found := if level.Some? then FirstMatch(level.value, name) else None;
            Path(table, argv + [name]) == if found.Some? then path + [found.value] else path
    decreases |argv|
  {
    hide FirstMatch;
    if argv == [] {
      assert [name][1..] == [];
    } else {
      var path := Path(table, argv);
      var a, rest := path[0], path[1..];
      assert rest == Path(a.options, argv[1..]);
      assert path == [a] + rest;
      assert LevelAfter(table, path) == LevelAfter(a.options, rest);
      hide LevelAfter;
      NextTokenDescends(a.options, argv[1..], name);
      assert (argv + [name])[1..] == argv[1..] + [name];
    }
  }

  lemma {:induction false} PathOfMatchedTokens(table: Option<Table>, argv: seq<string>, n: nat)
    requires n <= |Path(table, argv)|
    ensures Path(table, argv[..n]) == Path(table, argv)[..n]
    decreases |argv|
  {
    if n > 0 {
      var path := Path(table, argv);
      PathOfMatchedTokens(path[0].options, argv[1..], n - 1);
      assert argv[..n][1..] == argv[1..][..n - 1];
      assert path == [path[0]] + path[1..];
    }
  }

  /** Whatever is offered is worth taking: with it in place of the first token that is not
      matched, the path is the old one and one entry more, which has the offered name. */
  lemma CompletionDescends(table: Option<Table>, argv: seq<string>, past: Option<string>, name: string)
    requires name in Completions(table, argv, past)
    ensures var path := Path(table, argv);
            var longer := Path(table, argv[..|path|] + [name]);
            && |longer| == |path| + 1 && longer[..|path|] == path && longer[|path|].name == name
            && Token(argv, past, |path|).Some? && Token(argv, past, |path|).value <= name
  {
    var path := Path(table, argv);
    var level := LevelAfter(table, path);
    PathOfMatchedTokens(table, argv, |path|);
    MatchingIsExact(level.value, Token(argv, past, |path|).value, name);
    NextTokenDescends(table, argv[..|path|], name);
  }

  /** Nothing else is worth taking: a name is offered exactly if it begins with the first
      token that is not matched and takes the path further in its place. */
  lemma OfferedExactlyWhen(table: Option<Table>, argv: seq<string>, past: Option<string>, name: string)
    ensures var n := |Path(table, argv)|;
            name in Completions(table, argv, past) <==>
              && argv != [] && Token(argv, past, n).Some? && Token(argv, past, n).value <= name
              && |Path(table, argv[..n] + [name])| > n
  {
    var path := Path(table, argv);
    var level, token := LevelAfter(table, path), Token(argv, past, |path|);
    PathOfMatchedTokens(table, argv, |path|);
    assert path[..|path|] == path;
    NextTokenDescends(table, argv[..|path|], name);
    hide Path; hide LevelAfter; hide Token;
    if level.Some? && token.Some? {
      MatchingIsExact(level.value, token.value, name);
    }
    hide FirstMatch; hide Matching;
  }

  ghost predicate Increasing(places: seq<nat>) {
    forall i, j :: 0 <= i < j < |places| ==> places[i] < places[j]
  }

  /** The matching names stand in the order of the table: `places` is where each comes from,
      and no entry that matches is left out. */
  ghost predicate TakenFrom(table: Table, typed: string, names: seq<string>, places: seq<nat>) {
    && |places| == |names| && Increasing(places)
    && (forall k :: 0 <= k < |places| ==> places[k] < |table| && table[places[k]].name == names[k])
    && (forall i :: 0 <= i < |table| && typed <= table[i].name ==> i in places)
  }

  lemma {:induction false} MatchingInOrder(table: Table, typed: string) returns (places: seq<nat>)
    ensures TakenFrom(table, typed, Matching(table, typed), places)
  {
    if table == [] {
      places := [];
    } else {
      var names := Matching(table[1..], typed);
      var later := MatchingInOrder(table[1..], typed);
      places := seq(|later|, i requires 0 <= i < |later| => later[i] + 1);
      MovedOn(table, typed, names, later, places);
      hide Increasing; hide TakenFrom;
      if typed <= table[0].name {
        FirstPlace(table, typed, names, places);
        places := [0] + places;
      } else {
        NotTheFirst(table, typed, names, places);
      }
    }
  }

  /** The places of the rest, seen from the whole table. */
  ghost predicate FromSecond(table: Table, typed: string, names: seq<string>, places: seq<nat>) {
    && |places| == |names| && Increasing(places)
    && (forall k :: 0 <= k < |places| ==> 0 < places[k] < |table| && table[places[k]].name == names[k])
    && (forall i :: 0 < i < |table| && typed <= table[i].name ==> i in places)
  }

  lemma MovedOn(table: Table, typed: string, names: seq<string>, later: seq<nat>, moved: seq<nat>)
    requires table != [] && TakenFrom(table[1..], typed, names, later)
    requires |moved| == |later| && forall k :: 0 <= k < |later| ==> moved[k] == later[k] + 1
    ensures FromSecond(table, typed, names, moved)
  {
    forall i | 0 < i < |table| && typed <= table[i].name ensures i in moved {
      assert table[1..][i - 1] == table[i];
      assert i - 1 in later;
      var k :| 0 <= k < |later| && later[k] == i - 1;
      assert moved[k] == i;
    }
  }

  lemma NotTheFirst(table: Table, typed: string, names: seq<string>, places: seq<nat>)
    requires table != [] && FromSecond(table, typed, names, places) && !(typed <= table[0].name)
    ensures TakenFrom(table, typed, names, places)
  {
  }

  lemma OneInFront(places: seq<nat>, i: nat)
    requires Increasing(places) && (forall k :: 0 <= k < |places| ==> 0 < places[k])
    ensures Increasing([0] + places) && (i == 0 || i in places ==> i in [0] + places)
  {
    assert ([0] + places)[0] == 0;
  }

  lemma FirstPlace(table: Table, typed: string, names: seq<string>, places: seq<nat>)
    requires table != [] && FromSecond(table, typed, names, places)
    ensures TakenFrom(table, typed, [table[0].name] + names, [0] + places)
  {
    OneInFront(places, 0);
    forall i | 0 <= i < |table| && typed <= table[i].name ensures i in [0] + places {
      OneInFront(places, i);
    }
    hide Increasing;
  }
}
