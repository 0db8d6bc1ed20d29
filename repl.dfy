/**
 * The command layer of main.go: input cleaning, the registry dispatch rule,
 * the pagination Config, and the explore/catch/inspect commands with the
 * pokedex they fill. Console output, os.Exit and the help text are not
 * modelled; the random draw of commandCatch is the parameter `n`, and the
 * lookups that live outside the shown files are function parameters.
 */
module Repl {
  import opened Common
  import opened Strings
  import opened PokeCache
  import opened PokeApi

  // ---------------------------------------------------------------- input

  /** cleanInput: lower-case the line, then split it into fields. */
  function CleanInput(text: string): (words: seq<string>)
    ensures forall i :: 0 <= i < |words| ==> IsWord(words[i])
    ensures forall i, j :: 0 <= i < |words| && 0 <= j < |words[i]| ==> !IsUpper(words[i][j])
  {
    var words := Fields(ToLower(text));
    forall i, j | 0 <= i < |words| && 0 <= j < |words[i]| ensures !IsUpper(words[i][j]) {
      FieldCharsFromInput(ToLower(text), i, j);
    }
    words
  }

  /** The cleaned words, joined, are the lower-cased line without its white space. */
  lemma CleanInputKeepsText(text: string)
    ensures Concat(CleanInput(text)) == NonSpace(ToLower(text))
  {
    FieldsKeepsText(ToLower(text));
  }

  /** A line whose lower-cased form lays words out between blank gaps cleans to exactly those words. */
  lemma CleanInputOfLayout(text: string, ws: seq<string>, gaps: seq<string>)
    requires |gaps| == |ws| + 1
    requires forall i :: 0 <= i < |ws| ==> IsWord(ws[i])
    requires Separates(gaps)
    requires ToLower(text) == Layout(ws, gaps)
    ensures CleanInput(text) == ws
  {
    FieldsOfLayout(ws, gaps);
  }

  /** TestCleanInput: leading, inner and trailing runs of spaces collapse. */
  lemma CleanInputCollapsesSpaces()
    ensures CleanInput("  hello    world   ") == ["hello", "world"]
  {
    LowerOfSpaced();
    LayoutOfSpaced();
    CleanInputOfLayout("  hello    world   ", ["hello", "world"], ["  ", "    ", "   "]);
  }

  /** The lower-cased line of the case above. */
  lemma LowerOfSpaced()
    ensures ToLower("  hello    world   ") == "  hello    world   "
  {
  }

  /** The expected words laid out between the gaps of the case above give its lower-cased line. */
  lemma LayoutOfSpaced()
    ensures Layout(["hello", "world"], ["  ", "    ", "   "]) == "  hello    world   "
  {
    var ws, gaps := ["hello", "world"], ["  ", "    ", "   "];
    assert Layout(ws[2..], gaps[2..]) == "   ";
    assert Layout(ws[1..], gaps[1..]) == "    world   ";
  }

  /** TestCleanInput: mixed and upper case words come out lower-cased, in order. */
  lemma CleanInputLowersWords()
    ensures CleanInput("Charmander Bulbasaur PIKACHU") == ["charmander", "bulbasaur", "pikachu"]
  {
    LowerOfMixedCase();
    LayoutOfMixedCase();
    CleanInputOfLayout("Charmander Bulbasaur PIKACHU", ["charmander", "bulbasaur", "pikachu"], ["", " ", " ", ""]);
  }

  /** The lower-cased line of the case above. */
  lemma LowerOfMixedCase()
    ensures ToLower("Charmander Bulbasaur PIKACHU") == "charmander bulbasaur pikachu"
  {
  }

  /** The expected words laid out between the gaps of the case above give its lower-cased line. */
  lemma LayoutOfMixedCase()
    ensures Layout(["charmander", "bulbasaur", "pikachu"], ["", " ", " ", ""]) == "charmander bulbasaur pikachu"
  {
    var ws, gaps := ["charmander", "bulbasaur", "pikachu"], ["", " ", " ", ""];
    assert Layout(ws[3..], gaps[3..]) == "";
    assert Layout(ws[2..], gaps[2..]) == " pikachu";
    assert Layout(ws[1..], gaps[1..]) == " bulbasaur pikachu";
  }

  /** TestCleanInput: an all-capitals sentence. */
  lemma CleanInputSentence()
    ensures CleanInput("LOOP OVER THE CASE") == ["loop", "over", "the", "case"]
  {
    LowerOfSentence();
    LayoutOfSentence();
    CleanInputOfLayout("LOOP OVER THE CASE", ["loop", "over", "the", "case"], ["", " ", " ", " ", ""]);
  }

  /** The lower-cased line of the case above. */
  lemma LowerOfSentence()
    ensures ToLower("LOOP OVER THE CASE") == "loop over the case"
  {
  }

  /** The expected words laid out between the gaps of the case above give its lower-cased line. */
  lemma LayoutOfSentence()
    ensures Layout(["loop", "over", "the", "case"], ["", " ", " ", " ", ""]) == "loop over the case"
  {
    var ws, gaps := ["loop", "over", "the", "case"], ["", " ", " ", " ", ""];
    assert Layout(ws[4..], gaps[4..]) == "";
    assert Layout(ws[3..], gaps[3..]) == " case";
    assert Layout(ws[2..], gaps[2..]) == " the case";
    assert Layout(ws[1..], gaps[1..]) == " over the case";
  }

  /** TestCleanInput: digits are kept, a long gap collapses. */
  lemma CleanInputKeepsDigits()
    ensures CleanInput("ABC           1234") == ["abc", "1234"]
  {
    LowerOfDigits();
    LayoutOfDigits();
    CleanInputOfLayout("ABC           1234", ["abc", "1234"], ["", "           ", ""]);
  }

  /** The lower-cased line of the case above. */
  lemma LowerOfDigits()
    ensures ToLower("ABC           1234") == "abc           1234"
  {
  }

  /** The expected words laid out between the gaps of the case above give its lower-cased line. */
  lemma LayoutOfDigits()
    ensures Layout(["abc", "1234"], ["", "           ", ""]) == "abc           1234"
  {
    var ws, gaps := ["abc", "1234"], ["", "           ", ""];
    assert Layout(ws[2..], gaps[2..]) == "";
    assert Layout(ws[1..], gaps[1..]) == "           1234";
  }

  /** The last case of TestCleanInput: an empty line has no words. */
  lemma CleanInputEmpty()
    ensures CleanInput("") == []
  {
  }

  // ------------------------------------------------------------- dispatch

  /** The handler a registry entry calls back. */
  datatype Callback = Exit | Help | MapNext | MapBack | Explore | Catch | Inspect | ListPokedex

  /** cliCommand: a command's name, its help line and its handler. */
  datatype CliCommand = CliCommand(name: string, description: string, callback: Callback)

  /** The registry built by init. */
  const Registry: map<string, CliCommand> := map[
    "exit" := CliCommand("exit", "Exit the Pokedox", Exit),
    "help" := CliCommand("help", "Displays a help message", Help),
    "map" := CliCommand("map", "Displays next 20 locations", MapNext),
    "mapb" := CliCommand("mapb", "Displays previous 20 locations", MapBack),
    "explore" := CliCommand("explore", "Displays pokemons for location", Explore),
    "catch" := CliCommand("catch", "Catches the pokemon", Catch),
    "inspect" := CliCommand("inspect", "Inspects the pokemon", Inspect),
    "pokedex" := CliCommand("pokedex", "Displays all caught pokemons", ListPokedex)
  ]

  /** What one line of input leads to: a handler called with one argument, or "Unknown command". */
  datatype Dispatch = Invoke(command: CliCommand, arg: string) | UnknownCommand

  /**
   * One pass of main's loop body: scan the registry for the key equal to the first
   * field and hand the handler the second field, or "" when there is none.
   */
  method DispatchLine(line: string) returns (d: Dispatch)
    requires Fields(line) != []
    ensures d.Invoke? <==> Fields(line)[0] in Registry
    ensures d.Invoke? ==> d.command == Registry[Fields(line)[0]] && d.command.name == Fields(line)[0]
    ensures d.Invoke? ==> d.arg == if |Fields(line)| > 1 then Fields(line)[1] else ""
  {
    var inputs := Fields(line);
    var keys := Registry.Keys;
    d := UnknownCommand;
    while keys != {}
      invariant keys <= Registry.Keys
      invariant d == UnknownCommand
      invariant inputs[0] !in Registry.Keys - keys
      decreases keys
    {
      var key :| key in keys;
      if inputs[0] == key {
        var value := Registry[key];
        if |inputs| > 1 {
          d := Invoke(value, inputs[1]);
        } else {
          d := Invoke(value, "");
        }
        break;
      }
      keys := keys - {key};
    }
  }

  // ----------------------------------------------------------- pagination

  /** Config: the listing cursors, nil until the first page is fetched. */
  class Config {
    var next: Option<string>
    var previous: Option<string>

    constructor ()
      ensures next == None && previous == None
    {
      next, previous := None, None;
    }
  }

  /** The errors a command reports: "name is empty", or a fetch error passed through. */
  datatype CommandError = NameEmpty | Api(cause: ApiError)

  /**
   * commandMap and commandMapb: fetch the page under `cursor`; on success move both
   * cursors to the page's own and list its areas, on error leave the cursors alone.
   */
  method FollowCursor(config: Config, cursor: Option<string>, cache: Cache,
                      network: string -> HttpOutcome, decode: Bytes -> Result<LocationAreas, string>, now: int)
    returns (err: Option<CommandError>, listed: seq<LocationAreaResult>, requested: Option<string>)
    modifies config, cache
    ensures var x := Request(old(cache.entries), TargetUrl(cursor), network, decode, now);
      && cache.entries == x.entries && requested == x.requested
      && (x.result.Ok? ==>
            err == None && listed == x.result.value.results
            && config.next == x.result.value.next && config.previous == x.result.value.previous)
      && (x.result.Err? ==>
            err == Some(Api(x.result.error)) && listed == []
            && config.next == old(config.next) && config.previous == old(config.previous))
  {
    var resp;
    resp, requested := MakeLocationsRequest(cache, cursor, network, decode, now);
    if resp.Err? {
      return Some(Api(resp.error)), [], requested;
    }
    config.next := resp.value.next;
    config.previous := resp.value.previous;
    err, listed := None, resp.value.results;
  }

  /** commandMap: follow the Next cursor. */
  method CommandMap(config: Config, cache: Cache,
                    network: string -> HttpOutcome, decode: Bytes -> Result<LocationAreas, string>, now: int)
    returns (err: Option<CommandError>, listed: seq<LocationAreaResult>, requested: Option<string>)
    modifies config, cache
    ensures var x := Request(old(cache.entries), TargetUrl(old(config.next)), network, decode, now);
      && cache.entries == x.entries && requested == x.requested
      && (x.result.Ok? ==>
            err == None && listed == x.result.value.results
            && config.next == x.result.value.next && config.previous == x.result.value.previous)
      && (x.result.Err? ==>
            err == Some(Api(x.result.error)) && listed == []
            && config.next == old(config.next) && config.previous == old(config.previous))
  {
    err, listed, requested := FollowCursor(config, config.next, cache, network, decode, now);
  }

  /** commandMapb: follow the Previous cursor. */
  method CommandMapb(config: Config, cache: Cache,
                     network: string -> HttpOutcome, decode: Bytes -> Result<LocationAreas, string>, now: int)
    returns (err: Option<CommandError>, listed: seq<LocationAreaResult>, requested: Option<string>)
    modifies config, cache
    ensures var x := Request(old(cache.entries), TargetUrl(old(config.previous)), network, decode, now);
      && cache.entries == x.entries && requested == x.requested
      && (x.result.Ok? ==>
            err == None && listed == x.result.value.results
            && config.next == x.result.value.next && config.previous == x.result.value.previous)
      && (x.result.Err? ==>
            err == Some(Api(x.result.error)) && listed == []
            && config.next == old(config.next) && config.previous == old(config.previous))
  {
    err, listed, requested := FollowCursor(config, config.previous, cache, network, decode, now);
  }

  // ------------------------------------------------------ pokemon commands

  /** What printPokemonNames shows of a location area: the encountered pokemon's names. */
  datatype LocationAreaResponse = LocationAreaResponse(encounters: seq<string>)

  /** The fields of PokemonDTO that commandInspect shows. */
  datatype PokemonDTO = PokemonDTO(name: string, height: int, weight: int,
                                   stats: seq<(string, int)>, types: seq<string>)

  /** The part of MakePokemonInfoRequest's response used here, with what ConvertToDTO makes of it. */
  datatype PokemonInfo = PokemonInfo(baseExperience: int, dto: PokemonDTO)

  /** The pokedex: caught pokemon by the name they were caught under. */
  class Pokedex {
    var caught: map<string, PokemonDTO>

    constructor ()
      ensures caught == map[]
    {
      caught := map[];
    }
  }

  /** commandExplore: refuse an empty name, else look the area up and show its pokemon. */
  method CommandExplore(name: string, areaRequest: string -> Result<LocationAreaResponse, ApiError>)
    returns (err: Option<CommandError>, shown: Option<LocationAreaResponse>, requested: Option<string>)
    ensures name == "" ==> err == Some(NameEmpty) && shown == None && requested == None
    ensures name != "" ==> requested == Some(name)
    ensures name != "" && areaRequest(name).Err? ==> err == Some(Api(areaRequest(name).error)) && shown == None
    ensures name != "" && areaRequest(name).Ok? ==> err == None && shown == Some(areaRequest(name).value)
  {
    if name == "" {
      return Some(NameEmpty), None, None;
    }
    requested := Some(name);
    var resp := areaRequest(name);
    if resp.Err? {
      return Some(Api(resp.error)), None, requested;
    }
    err, shown := None, Some(resp.value);
  }

  /** Go's `exp/3` on int: the quotient truncated toward zero, not rounded down. */
  function GoDivBy3(a: int): (q: int)
    ensures a >= 0 ==> 0 <= a - 3 * q < 3
    ensures a < 0 ==> -3 < a - 3 * q <= 0
  {
    if a >= 0 then a / 3 else -((-a) / 3)
  }

  /** The catch threshold `100 - exp/3`. */
  function CatchChance(exp: int): int
  {
    100 - GoDivBy3(exp)
  }

  /** The catch test: the draw is below the threshold. */
  predicate Caught(exp: int, n: int)
  {
    n < CatchChance(exp)
  }

  /**
   * For a draw in [0, 100) the pokemon is caught exactly when exp + 3n < 300: at most
   * 2 base experience is always caught and at least 300 never is.
   */
  lemma CatchRule(exp: int, n: int)
    requires 0 <= n < 100
    ensures Caught(exp, n) <==> exp + 3 * n < 300
    ensures exp <= 2 ==> Caught(exp, n)
    ensures exp >= 300 ==> !Caught(exp, n)
  {
    var q := GoDivBy3(exp);
  }

  /**
   * commandCatch: refuse an empty name, else fetch the pokemon and, when the draw `n`
   * is below the threshold, record it under `name`; nothing else in the pokedex changes.
   */
  method CommandCatch(pokedex: Pokedex, name: string,
                      infoRequest: string -> Result<PokemonInfo, ApiError>, n: int)
    returns (err: Option<CommandError>, requested: Option<string>)
    requires 0 <= n < 100
    modifies pokedex
    ensures name == "" ==> err == Some(NameEmpty) && requested == None && pokedex.caught == old(pokedex.caught)
    ensures name != "" ==> requested == Some(name)
    ensures name != "" && infoRequest(name).Err? ==>
      err == Some(Api(infoRequest(name).error)) && pokedex.caught == old(pokedex.caught)
    ensures name != "" && infoRequest(name).Ok? ==>
      var info := infoRequest(name).value;
      err == None
      && pokedex.caught == if Caught(info.baseExperience, n) then old(pokedex.caught)[name := info.dto]
                           else old(pokedex.caught)
  {
    if name == "" {
      return Some(NameEmpty), None;
    }
    requested := Some(name);
    var resp := infoRequest(name);
    if resp.Err? {
      return Some(Api(resp.error)), requested;
    }
    var exp := resp.value.baseExperience;
    var chance := 100 - GoDivBy3(exp);
    if n < chance {
      pokedex.caught := pokedex.caught[name := resp.value.dto];
    }
    err := None;
  }

  /** commandInspect: refuse an empty name; a pokemon not caught is no error and shows nothing. */
  method CommandInspect(pokedex: Pokedex, name: string)
    returns (err: Option<CommandError>, shown: Option<PokemonDTO>)
    ensures name == "" ==> err == Some(NameEmpty) && shown == None
    ensures name != "" ==> err == None
    ensures name != "" ==> (shown.Some? <==> name in pokedex.caught)
    ensures shown.Some? ==> shown.value == pokedex.caught[name]
  {
    if name == "" {
      return Some(NameEmpty), None;
    }
    if name !in pokedex.caught {
      return None, None;
    }
    err, shown := None, Some(pokedex.caught[name]);
  }
}
