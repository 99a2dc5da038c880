/**
 * `CommandManager`: the slash-command table built once from thirteen
 * command objects, its split into the globally registered commands and the
 * admin-only command, and dispatch by the invoked name. A command is
 * represented by its kind; its slash-command data by the name it registers.
 */
module Commands {
  import opened Util

  datatype Command =
    | Search | Top | Country | Genre | RandomStation | Help
    | Play | Stop | Volume | NowPlaying | Stay
    | Favorites
    | Status

  /** The name each command registers (`getCommandData().name`), which is also its key in the table. */
  function SlashName(c: Command): string
  {
    match c
    case Search => "search"
    case Top => "top"
    case Country => "country"
    case Genre => "genre"
    case RandomStation => "random"
    case Help => "help"
    case Play => "play"
    case Stop => "stop"
    case Volume => "volume"
    case NowPlaying => "nowplaying"
    case Stay => "247"
    case Favorites => "favorites"
    case Status => "status"
  }

  /** The only admin command's key. */
  const ADMIN_COMMAND: string := "status"

  /** The number of commands `createCommands` puts in the table. */
  const COMMAND_COUNT: nat := 13

  /** The command declared at position `i` of `createCommands`. */
  function CommandAt(i: nat): Command
    requires i < COMMAND_COUNT
  {
    if i == 0 then Search else if i == 1 then Top else if i == 2 then Country
    else if i == 3 then Genre else if i == 4 then RandomStation else if i == 5 then Help
    else if i == 6 then Play else if i == 7 then Stop else if i == 8 then Volume
    else if i == 9 then NowPlaying else if i == 10 then Stay else if i == 11 then Favorites
    else Status
  }

  /** Where a command is declared; the inverse of CommandAt. */
  function Position(c: Command): (i: nat)
    ensures i < COMMAND_COUNT && CommandAt(i) == c
  {
    match c
    case Search => 0
    case Top => 1
    case Country => 2
    case Genre => 3
    case RandomStation => 4
    case Help => 5
    case Play => 6
    case Stop => 7
    case Volume => 8
    case NowPlaying => 9
    case Stay => 10
    case Favorites => 11
    case Status => 12
  }

  /** Each position holds a different command. */
  lemma CommandAtInjective(i: nat, j: nat)
    requires i < COMMAND_COUNT && j < COMMAND_COUNT
    ensures CommandAt(i) == CommandAt(j) <==> i == j
  {
    assert Position(CommandAt(i)) == i;
    assert Position(CommandAt(j)) == j;
  }

  /** `createCommands`: the command objects in declaration order. */
  const REGISTRY: seq<Command> := DeclaredFrom(0)

  /** The commands declared from position `start` on. */
  function DeclaredFrom(start: nat): (cs: seq<Command>)
    requires start <= COMMAND_COUNT
    ensures |cs| == COMMAND_COUNT - start
    ensures forall i :: 0 <= i < |cs| ==> cs[i] == CommandAt(start + i)
    decreases COMMAND_COUNT - start
  {
    if start == COMMAND_COUNT then [] else [CommandAt(start)] + DeclaredFrom(start + 1)
  }

  /** The keys of the table, in declaration order. */
  function Names(cs: seq<Command>): (names: seq<string>)
    ensures |names| == |cs|
    ensures forall i :: 0 <= i < |cs| ==> names[i] == SlashName(cs[i])
  {
    if cs == [] then [] else [SlashName(cs[0])] + Names(cs[1..])
  }

  /** Distinct commands register distinct names, so the table has one entry per command. */
  lemma SlashNameInjective(c: Command, d: Command)
    ensures SlashName(c) == SlashName(d) <==> c == d
  {
  }

  /** Every command kind is in the table. */
  lemma RegistryComplete(c: Command)
    ensures c in REGISTRY
  {
    assert REGISTRY[Position(c)] == c;
  }

  /** The table has exactly thirteen names, none of them twice. */
  lemma CommandTableSize()
    ensures |Names(REGISTRY)| == 13
    ensures forall i, j :: 0 <= i < j < |REGISTRY| ==> Names(REGISTRY)[i] != Names(REGISTRY)[j]
  {
    var names := Names(REGISTRY);
    forall i, j | 0 <= i < j < |REGISTRY|
      ensures names[i] != names[j]
    {
      SlashNameInjective(REGISTRY[i], REGISTRY[j]);
      CommandAtInjective(i, j);
    }
  }

  /** The commands of `cs` whose key passes (`filterKeys`), in order. */
  function FilterByKey(cs: seq<Command>, admin: bool): (r: seq<Command>)
    ensures |r| <= |cs|
    ensures forall c :: c in r <==> c in cs && (SlashName(c) == ADMIN_COMMAND) == admin
  {
    if cs == [] then []
    else
      var rest := FilterByKey(cs[1..], admin);
      assert forall c :: c in cs <==> c == cs[0] || c in cs[1..];
      if (SlashName(cs[0]) == ADMIN_COMMAND) == admin then [cs[0]] + rest else rest
  }

  /** Every command passes exactly one of the two filters. */
  lemma {:induction false} FilterByKeySplits(cs: seq<Command>)
    ensures |FilterByKey(cs, false)| + |FilterByKey(cs, true)| == |cs|
  {
    if cs != [] {
      FilterByKeySplits(cs[1..]);
    }
  }

  /** `getAllCommands`: every command except the admin one. */
  function GetAllCommands(): (r: seq<Command>)
    ensures forall c :: c in r <==> c != Status
  {
    var r := FilterByKey(REGISTRY, false);
    RegistryHasEveryCommand();
    r
  }

  /** `getAdminCommands`: only the admin command. */
  function GetAdminCommands(): (r: seq<Command>)
    ensures forall c :: c in r <==> c == Status
  {
    var r := FilterByKey(REGISTRY, true);
    RegistryHasEveryCommand();
    r
  }

  lemma RegistryHasEveryCommand()
    ensures forall c :: c in REGISTRY
    ensures forall c :: SlashName(c) == ADMIN_COMMAND <==> c == Status
  {
    forall c ensures c in REGISTRY {
      RegistryComplete(c);
    }
  }

  /** The two lists are disjoint, together they are the whole table, and the global list has all but one command. */
  lemma CommandListsPartition(c: Command)
    ensures c in REGISTRY
    ensures c in GetAllCommands() <==> c !in GetAdminCommands()
    ensures |GetAllCommands()| + |GetAdminCommands()| == |REGISTRY|
  {
    RegistryComplete(c);
    FilterByKeySplits(REGISTRY);
  }

  /** The command registered under `name` (`commands[name]`). */
  function CommandFor(name: string): (r: Option<Command>)
    ensures r.Some? ==> SlashName(r.value) == name
    ensures r.None? <==> name !in Names(REGISTRY)
  {
    CommandForAt(REGISTRY, name)
  }

  function CommandForAt(cs: seq<Command>, name: string): (r: Option<Command>)
    ensures r.Some? ==> SlashName(r.value) == name && r.value in cs
    ensures r.None? <==> name !in Names(cs)
  {
    if cs == [] then None
    else if SlashName(cs[0]) == name then Some(cs[0])
    else
      assert Names(cs) == [SlashName(cs[0])] + Names(cs[1..]);
      CommandForAt(cs[1..], name)
  }

  /** Looking a command up by the name it registers finds that command. */
  lemma CommandForSlashName(c: Command)
    ensures CommandFor(SlashName(c)) == Some(c)
  {
    RegistryComplete(c);
    var names := Names(REGISTRY);
    var i :| 0 <= i < |REGISTRY| && REGISTRY[i] == c;
    assert names[i] == SlashName(c);
    var r := CommandFor(SlashName(c));
    SlashNameInjective(r.value, c);
  }

  /** A name missing from the table is no command's name. */
  lemma UnknownNameIsNoCommand(name: string)
    requires CommandFor(name).None?
    ensures forall c :: SlashName(c) != name
  {
    forall c ensures SlashName(c) != name {
      CommandForSlashName(c);
    }
  }

  datatype Dispatch = Executed(command: Command) | UnknownCommand

  /**
   * `executeCommand`: a known name runs its command (an exception it throws
   * is logged and rethrown, which the model does not represent); an unknown
   * name runs nothing.
   */
  function ExecuteCommand(name: string): (r: Dispatch)
    ensures r.UnknownCommand? <==> forall c :: SlashName(c) != name
    ensures r.Executed? ==> SlashName(r.command) == name
  {
    match CommandFor(name)
    case Some(c) => Executed(c)
    case None =>
      UnknownNameIsNoCommand(name);
      UnknownCommand
  }
}
