# pokedexcli in Dafny

A model of the core of pokedexcli, a command-line explorer for the PokeAPI
catalogue, and proofs about it:

- **The expiring cache** (`internal/pokecache/cache.go`), module `PokeCache`. The
  cache is a class whose `entries` field maps a URL to an `Entry`: the raw bytes
  plus their creation time. `Add` inserts or replaces an entry. `Get` is a pure
  lookup that never evicts. `Reap(now)` is one tick of the reaper goroutine: it
  walks the keys and deletes every entry whose age is strictly greater than the
  interval. `Swept` is the map a sweep leaves, and the lemmas about it live beside it.
- **The memoising fetch** (`internal/pokeapi/client.go`), module `PokeApi`.
  `TargetUrl` chooses the URL. `Request` is the specification of one call: its
  result, the cache map afterwards, and which URL, if any, went to the network.
  `MakeLocationsRequest` is the imperative version that calls `Cache.Get` and
  `Cache.Add`. The lemmas say exactly when the cache is written: only after a 200
  response whose body was read, and before decoding, so a body that fails to
  decode stays cached.
- **The command layer** (`main.go`), modules `Strings` and `Repl`. `Strings` holds
  Go's `strings.Fields` and an ASCII `strings.ToLower`. `CleanInput` is
  `cleanInput`, proved to give the results that `repl_test.go` expects. `DispatchLine` is the
  registry scan of the main loop. `CommandMap`/`CommandMapb` update the pagination
  `Config`. `CommandExplore`, `CommandCatch` and `CommandInspect` are the three
  named commands, each with its empty-name guard. `CommandCatch` applies the
  catch rule `n < 100 - exp/3` with Go's truncating division.

Time, randomness, the network and the JSON decoder are parameters:
- an integer clock `now`;
- the draw `n` with `0 <= n < 100`;
- `network: string -> HttpOutcome`, the outcome of a GET for a URL;
- `decode: Bytes -> Result<LocationAreas, string>`, standing for `json.Unmarshal`;
- `areaRequest` and `infoRequest`, standing for the pokeapi lookups whose code is
  not part of this model.

Methods that call the network return `requested`: the URL (or name) that was
handed to it, or `None` when no request was made.

Two behaviours of the code, which the model keeps as written:
- A decode failure does not undo the cache write. The code calls
  `cache.Add` before `json.Unmarshal` (client.go:61-67). So a fetched body that
  fails to decode is cached, and later calls hit it (`SuccessfulFetchIsCached`).
- The main loop splits the line with `strings.Fields` and does not call
  `cleanInput` (main.go:72). So dispatch is case-sensitive, and `DispatchLine`
  takes `Fields(line)`, not `CleanInput(line)`.

## Model

| member | source | states |
|---|---|---|
| PokeCache.NewEntry | internal/pokecache/cache.go:27-32 | a new entry holds the given bytes and has age 0 at the time it is made |
| PokeCache.Swept | internal/pokecache/cache.go:55-60 | a sweep never adds a key |
| PokeCache.SweptKeepsExactlyFresh | internal/pokecache/cache.go:55-59 | a key survives a sweep at `now` iff it was present with `now - createdAt <= interval`; survivors are unaltered |
| PokeCache.SweptBoundary | internal/pokecache/cache.go:56 | an entry exactly `interval` old survives the sweep; one a tick older is removed (strict `>`) |
| PokeCache.SweptIdempotent | internal/pokecache/cache.go:55-60 | sweeping twice at the same `now` leaves the same map as sweeping once |
| PokeCache.Cache.constructor | internal/pokecache/cache.go:18-25 | a new cache has no entries and keeps the interval it was given |
| PokeCache.Cache.Add | internal/pokecache/cache.go:34-38 | the entry for `key` is replaced wholesale by the bytes stamped with `now`; every other key is unchanged |
| PokeCache.Cache.Get | internal/pokecache/cache.go:40-48 | returns the stored bytes and true iff the key is present, whatever the entry's age; `(nil, false)` otherwise; changes nothing |
| PokeCache.Cache.Reap | internal/pokecache/cache.go:53-61 | after one tick the map is exactly `Swept` of the old map at `now` |
| PokeApi.Decoded | internal/pokeapi/client.go:63-68 | a decode error is reported as a decode error; a decoded page is returned as is |
| PokeApi.TargetUrl | internal/pokeapi/client.go:31-34 | the URL is the cursor when it is non-nil and non-empty, the base URL otherwise, and is never empty |
| PokeApi.Request | internal/pokeapi/client.go:29-70 | no request iff the target is cached; any request goes to the target URL; only the target's entry can change, and only after a 200 with a readable body |
| PokeApi.HitDecodesCachedBytes | internal/pokeapi/client.go:35-43 | on a hit there is no request, the cache is unchanged, and the result is the decoding of the cached bytes or its error |
| PokeApi.FailedFetchCachesNothing | internal/pokeapi/client.go:46-59 | a transport error, a non-200 status (as errBadStatus) and a body-read error are returned with the cache unchanged |
| PokeApi.SuccessfulFetchIsCached | internal/pokeapi/client.go:61-68 | a 200 with a read body stores those bytes under the target URL at `now`, and they stay stored even when decoding fails |
| PokeApi.RepeatedRequestIsHit | internal/pokeapi/client.go:35-61 | after a successful fetch, a second call for the same URL makes no request, writes nothing and returns the same result |
| PokeApi.CachedPageExpiry | internal/pokeapi/client.go:35-61 | after a sweep at most one interval later the page is still a hit with the same result; after a sweep more than one interval later it is fetched again |
| PokeApi.MakeLocationsRequest | internal/pokeapi/client.go:29-70 | the imperative call returns, leaves in the cache and requests exactly what `Request` specifies for the URL chosen by `TargetUrl` |
| Strings.LowerChar | main.go:96 | an ASCII upper-case letter moves to lower case, anything else is unchanged; never upper case afterwards; white space stays white space |
| Strings.WordLength | main.go:97 | the first field runs up to, not including, the first white-space character |
| Strings.Fields | main.go:97 | every field is non-empty and holds no white space |
| Strings.FieldsKeepsText | main.go:97 | the fields, concatenated in order, are exactly the non-space characters of the input |
| Strings.FieldsOfLayout | main.go:97 | words separated by non-empty blank runs, with optional leading and trailing blanks, split back into exactly those words in order |
| Strings.FieldCharsFromInput | main.go:97 | every character of every field occurs in the input |
| Repl.CleanInput | main.go:95-99 | every word is non-empty, holds no white space and has no upper-case letter |
| Repl.CleanInputKeepsText | main.go:95-99 | the words, concatenated, are the lower-cased line without its white space |
| Repl.CleanInputOfLayout | main.go:95-99 | a line that lower-cases to words between blank gaps cleans to exactly those words |
| Repl.CleanInputCollapsesSpaces | repl_test.go:13-14 | `"  hello    world   "` cleans to `["hello", "world"]` |
| Repl.CleanInputLowersWords | repl_test.go:17-18 | `"Charmander Bulbasaur PIKACHU"` cleans to `["charmander", "bulbasaur", "pikachu"]` |
| Repl.CleanInputSentence | repl_test.go:21-22 | `"LOOP OVER THE CASE"` cleans to `["loop", "over", "the", "case"]` |
| Repl.CleanInputKeepsDigits | repl_test.go:25-26 | `"ABC           1234"` cleans to `["abc", "1234"]` |
| Repl.CleanInputEmpty | repl_test.go:28-31 | the empty line cleans to no words |
| Repl.DispatchLine | main.go:72-91 | a handler is invoked iff the first field is a registry key, and it is that key's command; it gets the second field, or `""` when there is none; later fields are ignored; otherwise "Unknown command" |
| Repl.Config.constructor | main.go:66 | both cursors start nil |
| Repl.FollowCursor | main.go:129-137 | fetches the page under the cursor; on success both cursors become the page's and its areas are listed; on error the cursors are unchanged |
| Repl.CommandMap | main.go:128-139 | requests the page under `Next`, then updates the cursors as `FollowCursor` says |
| Repl.CommandMapb | main.go:141-152 | requests the page under `Previous`, then updates the cursors as `FollowCursor` says |
| Repl.CommandExplore | main.go:154-166 | an empty name is refused with "name is empty" before any request; otherwise the area is requested under that name and its error or response is passed on |
| Repl.GoDivBy3 | main.go:182 | the quotient is truncated toward zero: the remainder has the sign of the dividend and is smaller than 3 in size |
| Repl.CatchRule | main.go:179-183 | for a draw in [0, 100), the pokemon is caught iff `exp + 3n < 300`; base experience at most 2 is always caught, at least 300 never |
| Repl.Pokedex.constructor | main.go:61 | the pokedex starts empty |
| Repl.CommandCatch | main.go:168-190 | an empty name is refused before any request; a request error is passed on; otherwise only `pokedex[name]` is set, and only when the pokemon is caught |
| Repl.CommandInspect | main.go:192-201 | an empty name is refused; a name not caught gives no error and shows nothing; a caught one shows its pokedex entry; the pokedex is not changed |

## Left out

- Concurrency in the cache: the reaper goroutine, the ticker period that equals the interval, and the `sync.RWMutex`. A sweep is the explicit step `Cache.Reap(now)`, and thread safety and tick timing are not modelled.
- Wall-clock time: `time.Now` and `time.Since` become the integer argument `now`. Nothing forces successive `now` values to increase.
- PokeCache.Cache.constructor: requires a positive interval, because `time.NewTicker` panics otherwise. The interval is kept as a field, whereas Go only captures it in the reaper goroutine.
- Real HTTP: the `http.Client` and its 10-second timeout, `context` cancellation, the `Accept` header and `makeRequest` become the `network` function parameter. `MakeLocationsRequest` (the `context.Background()` wrapper) and `MakeLocationsRequestCtx` are the same method here.
- JSON decoding: `json.Unmarshal` is the `decode` parameter, and the JSON field layout of models.go is not modelled.
- `MakeLocationAreaRequest`, `MakePokemonInfoRequest`, `ConvertToDTO`, `PokemonDTO` and `LocationAreaResponse` are not part of this model. Their results are parameters, and `PokemonInfo.dto` stands for what `ConvertToDTO` returns.
- Randomness: the `math/rand` draw of `commandCatch` is the parameter `n`, required to lie in [0, 100) as `Intn(100)` guarantees.
- Console and process I/O: all printing, `bufio.Scanner`, `os.Exit` in `commandExit`, and the output-only commands `commandHelp` and `commandPokedex`. What would be printed appears as the `listed` and `shown` results.
- Strings.ToLower: lower-cases ASCII letters only. Go's `strings.ToLower` also maps non-ASCII letters.
- Strings.IsSpace: covers the Unicode White_Space characters that `unicode.IsSpace` accepts. Invalid UTF-8 is not modelled, because strings here are sequences of characters.
- Repl.DispatchLine: requires at least one field. The Go loop indexes `inputs[0]` without a check, so a blank line panics, and that panic is not modelled.
- The `for` loop around dispatch, which reads one line per iteration forever, is not modelled. One iteration is `DispatchLine` followed by the chosen command.
- The 64-bit width of Go's `int` in the catch arithmetic is not modelled. Base experience values are far from the limit.
