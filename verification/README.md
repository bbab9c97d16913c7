# DJ Toggle — a Dafny model

DJ Toggle is a live "audience mixing" page. Four tracks (bass, drums, harmony,
melody) each offer three options; feature-flag values choose one option per
track, the page stacks the four chosen pattern fragments into one expression
and hands it to the audio engine, and listeners vote for options through the
flag service's event stream. A small Express proxy exposes `/api/config`,
which asks the flag service for the project's flags and turns the relevant
ones into track entries.

The model covers:

- `Patterns` — the fragment table (track → option id → fragment) and the
  facts the composition relies on: four tracks, options `option1`..`option3`,
  non-empty single-line fragments, distinct within a track.
- `TrackColumn` — one column of option cards: key, label, the fixed
  `isSelected`, the winning mark and the vote callback arguments.
- `Strudel` — the audio hook as a class `Player` over `isPlaying`, the
  presence of a scheduler and the log of commands sent to the scheduler
  (`Start`, `Stop`, `SetPattern`); `Running` and `ActivePattern` read the
  transport state and the playing pattern off that log.
- `App` — the static catalogue `TRACKS`; the composition of the flag values
  into the `stack(...)` expression, both as the effect writes it
  (`ComposeAsWritten`, with JavaScript's property lookup through the object
  prototype) and corrected (`Compose`); the "winning" option shown per track;
  and a class `App` holding `userVotes`, the event stream handed to the flag
  client and the audio hook, with `HandleVote` and the composition effect
  `FlagsChanged`.
- `Server` — the `/api/config` handler: the API-key check, the project and
  environment defaults, the upstream request, the `forEach` loop that builds
  the `tracks` object (a method with a loop proved against the left fold
  `TracksOf`), the variation → option mapping and the 500 replies.
- `Text` — the decimal rendering of `${i + 1}` with its inverse, and the
  newline cut used to read the fragments back out of a composed expression.

Flag values are modelled as strings in a `map<string, string>`; a missing key
reads as `undefined`, which as a property key is the string `"undefined"`.
The upstream call is a parameter `fetch: Request -> Upstream` of the handler,
and the engine's evaluation of a pattern string is a parameter `evaluates:
bool` of `UpdatePattern`.

## Model

| member | source | states |
|---|---|---|
| Patterns.BassWellFormed | src/audio/patterns.js:2-6 | the bass table has exactly option1..option3, with non-empty, newline-free, pairwise distinct fragments |
| Patterns.DrumsWellFormed | src/audio/patterns.js:7-11 | the same for the drums table |
| Patterns.HarmonyWellFormed | src/audio/patterns.js:12-16 | the same for the harmony table |
| Patterns.MelodyWellFormed | src/audio/patterns.js:17-21 | the same for the melody table |
| Patterns.TrackTable | src/audio/patterns.js:2-21 | every track's table is well formed, has exactly the keys option1..option3 and so always holds the option1 fallback |
| Patterns.TableShape | src/audio/patterns.js:1-22 | the table has exactly the tracks bass, drums, harmony and melody |
| TrackColumn.Cards | src/components/TrackColumn.jsx:11-19 | one card per option |
| TrackColumn.CardFor | src/components/TrackColumn.jsx:12-18 | the props of one card: key and label from the option, `isSelected` false, winning iff the current option is the option's id, and the vote call (trackId, the option's id) |
| TrackColumn.CardsAt | src/components/TrackColumn.jsx:11-19 | the i-th card is keyed and labelled by the i-th option, is never selected, wins iff the current option equals its id, and votes for (trackId, its own id) |
| TrackColumn.AtMostOneWinning | src/components/TrackColumn.jsx:16 | with distinct option ids, two winning cards are the same card |
| TrackColumn.SomeCardWinsIff | src/components/TrackColumn.jsx:16 | some card wins iff the current option is one of the option ids |
| Strudel.Running | src/hooks/useStrudel.js:40-44 | whether the scheduler runs after a command log: the last start or stop was a start; running needs some start |
| Strudel.ActivePattern | src/hooks/useStrudel.js:31 | the pattern the scheduler plays after a command log: the source of the last SetPattern, which was sent |
| Strudel.RunningIffStartNotStopped | src/hooks/useStrudel.js:40-44 | the scheduler runs after a command log iff some start is followed by no start or stop |
| Strudel.ActivePatternIsLastSet | src/hooks/useStrudel.js:31 | an active pattern is the one sent by the last SetPattern of the log |
| Strudel.ActivePatternNoneIffNoneSet | src/hooks/useStrudel.js:26-36 | no pattern is active iff no pattern was ever set |
| Strudel.Player.constructor | src/hooks/useStrudel.js:6-7 | the hook starts not playing, with no scheduler and no command sent |
| Strudel.Player.Mount | src/hooks/useStrudel.js:9-14 | the mount effect stores a fresh scheduler, which has received nothing, so it neither runs nor plays a pattern, even after an earlier mount's scheduler was stopped; `isPlaying` is kept |
| Strudel.Player.Cleanup | src/hooks/useStrudel.js:21-23 | cleanup sends exactly one stop, so the scheduler is not running, and leaves `isPlaying` and the ref as they were |
| Strudel.Player.UpdatePattern | src/hooks/useStrudel.js:26-36 | with a scheduler and an evaluable source exactly one SetPattern is sent and it becomes the active pattern; otherwise nothing is sent and the previous pattern stays; never changes transport or `isPlaying` |
| Strudel.Player.TogglePlay | src/hooks/useStrudel.js:38-47 | without a scheduler nothing changes; with one, stop when playing and start otherwise, then `isPlaying` flips; the button stays in step with the scheduler |
| Strudel.ToggleTwice | src/hooks/useStrudel.js:38-47 | two toggles with a scheduler keep the scheduler, restore `isPlaying` and send a start/stop pair; when the button was in step with the scheduler, they also restore the running state and keep it in step |
| App.GetProperty | src/App.jsx:28 | `obj[key]` on an object literal: its own entry when present, else the `Object.prototype` member of that name, else undefined |
| App.PropertyKey | src/App.jsx:28 | the key `flags.<track>` becomes when used as an index: the flag's value, or the string "undefined" when the flag is missing |
| App.Truthy | src/App.jsx:28 | JavaScript truthiness of a lookup: undefined and the empty string are falsy, other strings and inherited members truthy; a truthy value interpolates to non-empty text |
| App.Interpolate | src/App.jsx:34-39 | the text `${value}` produces: a string itself, `undefined`, or an inherited member's text, which starts with `f` or `[` |
| App.FragmentAsWritten | src/App.jsx:28-31 | `PATTERNS.<track>[flags.<track>]`, or the option1 fragment when that is falsy, interpolated; it is the corrected fragment whenever the looked-up key is no inherited member name |
| App.ResolvedOption | src/App.jsx:27-31 | the option a track plays: its flag value when it names an option of the table, else option1; always an option of the table |
| App.Fragment | src/App.jsx:28-31 | the corrected lookup using only the table's own entries; it is the fragment of the resolved option |
| App.Stack | src/App.jsx:34-39 | the template literal around four fragments; it opens with `stack(` and a line break and closes with a line break and `)` |
| App.Compose | src/App.jsx:28-39 | the corrected expression: the stack of the fragments of the four resolved options, in the order bass, drums, harmony, melody |
| App.ComposeAsWritten | src/App.jsx:28-39 | the expression as the effect builds it; equal to the corrected one when no track's flag names an inherited member |
| App.CatalogueShape | src/App.jsx:9-14 | four tracks with distinct ids in stacking order, each offering option1..option3 in order, every offered option having a fragment |
| App.ThreeOptions | src/App.jsx:10-13 | the option list of one catalogue track: `option1`, `option2`, `option3` in order, with the given names |
| App.CatalogueTrack | src/App.jsx:9-14 | the k-th catalogue track is the table's k-th track and offers option1..option3 (its options are three named entries with those ids), distinct and all in its table |
| App.ThreeOptionsOffer | src/App.jsx:10-13 | three catalogue options offer an id iff it is option1, option2 or option3 |
| App.FragmentRule | src/App.jsx:28-31 | a track's fragment is the table entry its flag names when the table has it, else the option1 fragment |
| App.FallbackDeterminism | src/App.jsx:27-31 | flags naming no known option for any track compose like no flags: all four option1 fragments |
| App.ComposeReadsOnlyTrackKeys | src/App.jsx:28-31 | flags agreeing on bass, drums, harmony and melody compose to the same expression |
| App.ComposeAsWrittenReadsOnlyTrackKeys | src/App.jsx:28-39 | the expression as written also reads only the four track keys: flags agreeing on them give the same text |
| App.StackInjective | src/App.jsx:34-39 | the four single-line fragments are recovered from the stacked expression, in order |
| App.FragmentsMatchOptions | src/App.jsx:28-31 | within a track, fragments are single lines and equal exactly when the resolved options are equal |
| App.ComposeDeterminedByResolution | src/App.jsx:28-39 | two flag states give the same expression iff every track resolves to the same option |
| App.AsWrittenInheritedMember | src/App.jsx:28-31 | as written, bass set to "toString" (not a bass option) finds the inherited member, skips the option1 fallback (whose fragment starts with `n`, while the member's text starts with `f`) and composes differently from no flags and from the corrected composition |
| App.InheritedBassFragment | src/App.jsx:28 | with bass set to "toString" the written bass fragment is the member's source text |
| App.FragmentAsWrittenIff | src/App.jsx:28-31 | for one track, the fragment as written is a single line, and equals the corrected fragment iff the track's flag does not name an inherited member |
| App.AsWrittenAgreesOnOrdinaryValues | src/App.jsx:28-39 | the written expression equals the corrected one iff no track's flag names a member every object inherits |
| App.CurrentOption | src/App.jsx:84 | the track's flag value, or option1 when that is missing or empty: never empty, and either option1 or the track's flag value |
| App.OffersTableOptions | src/App.jsx:9-14 | a catalogue track offers exactly the option ids of its fragment table |
| App.KnownCurrentIsResolved | src/App.jsx:84 | a shown option that the table knows is the option being played |
| App.DisplayedWinnerIsPlayed | src/App.jsx:84 | a column shows a winner iff the flag is missing, empty or a known option, and a winning card is always the option being played |
| App.LatestVotes | src/App.jsx:54 | the option last voted per track, replaying the vote events in order; every recorded vote was cast by some vote event for that track |
| App.VoteEvent | src/App.jsx:52 | the event `track('vote', { track, option })` hands to the flag client: a vote event for the track, carrying the option, voting for no other track |
| App.LatestVotesDomain | src/App.jsx:54 | a track has a recorded vote iff some vote event names it |
| App.LatestVotesIsLastVote | src/App.jsx:52-54 | a track's recorded vote is the option of the last vote event naming it |
| App.App.constructor | src/App.jsx:18-22 | no votes, no events, the flag client not yet available |
| App.App.ClientInitialized | src/App.jsx:18 | the flag client becomes available; votes and events unchanged, so votes stay the latest vote per track |
| App.App.HandleVote | src/App.jsx:47-57 | with a client: exactly one `vote` event with {track, option} is appended and only that track's vote changes; without one the call fails and nothing changes; votes stay the latest vote per track of the event stream |
| App.App.FlagsChanged | src/App.jsx:24-45 | the composed expression for the flags is handed to the audio hook and becomes the active pattern when it evaluates; transport and `isPlaying` are untouched |
| Text.CutAtSeparator | src/App.jsx:34-39 | a newline-free piece and what follows a newline-holding separator are recovered from their concatenation |
| Text.Decimal | server.js:55 | the text `${i + 1}` puts after `option`: the decimal digits of the number, at least one, all digits |
| Text.ParseDecimalInverse | server.js:55 | the decimal text of a number reads back as that number |
| Text.DecimalInjective | server.js:55 | distinct numbers have distinct decimal texts |
| Server.RequestFor | server.js:30-44 | the upstream request: the key as `Authorization`, the endpoint followed by the project, a non-empty environment and `summary` false |
| Server.Present | server.js:26 | JavaScript truthiness of an optional setting: set and non-empty; the API-key check replies 500 when it fails |
| Server.OrDefault | server.js:30 | `value or fallback` on a setting: the value when set and non-empty, else the fallback (also server.js:40); a non-empty fallback gives a non-empty result |
| Server.RequestDefaults | server.js:30-44 | the request carries the API key; project defaults to `dj-toggle` and environment to `production` when unset or empty |
| Server.OptionName | server.js:56 | the variation's name when non-empty, else its value |
| Server.OptionId | server.js:55 | the id `option${i + 1}` of the i-th option: `option` followed by at least one decimal digit |
| Server.Options | server.js:54-57 | the variations mapped, in order and index by index, to `{ id, name }` options; one per variation |
| Server.OptionIdIndex | server.js:55 | an option id is `option` followed by the decimal of its position plus one, which reads back as that number |
| Server.OptionsFollowVariations | server.js:54-57 | one option per variation in order, the i-th with id `option` followed by the decimal of i + 1 and the variation's name when non-empty, else its value |
| Server.OptionIdsDistinct | server.js:54-57 | the option ids of a flag are pairwise distinct |
| Server.OptionIdsKnownToPatterns | server.js:55 | an option id is one the client's fragment table knows iff its position is below three |
| Server.Step | server.js:50-58 | one visit of the `forEach`: a relevant flag without variations throws; a relevant flag sets its key's entry and leaves every other entry; any other flag changes nothing |
| Server.TracksOf | server.js:48-60 | the `tracks` object after visiting the items in order, or a throw; holds relevant keys only |
| Server.ThrowSticks | server.js:50-66 | once a visit throws, the whole transformation fails |
| Server.TracksOfThrows | server.js:50-66 | the transformation fails iff some relevant flag has no variations |
| Server.TracksOfKeys | server.js:47-51 | only bass, drums and leadArrangement appear, each exactly when some flag carries that key |
| Server.TracksOfLastWins | server.js:50-58 | a key's entry comes from the last flag carrying it: its name and its variations as options |
| Server.ReplyOutcomes | server.js:50-66 | every reply after the request is 200 with relevant keys only or 500 with `Failed to fetch configuration`; 200 iff the upstream succeeded with items and no relevant flag lacks variations |
| Server.ReplyTo | server.js:62-66 | the reply once the request is sent: 500 with the fetch error on upstream failure, missing items or a throw, else 200 with the tracks |
| Server.HandleConfig | server.js:22-67 | without an API key: 500 with `Missing API Key configuration` and no request sent; otherwise exactly the default-filled request is sent and the reply is the one the loop's left fold determines |

## Left out

- Evaluating pattern strings and the audio engine (REPL, scheduler, audio output, loading its functions into the global scope) are foreign; the scheduler is a command log and evaluation is the boolean `evaluates`.
- The flag client SDK (`useFlags`, `useLDClient`, `withLDProvider`) is foreign; flags are a parameter, the client's availability is `clientReady`, and `track` appends to an event log.
- The HTTP call, `dotenv`, CORS/JSON middleware, static file serving, the SPA fallback and `listen` are I/O; the call is the parameter `fetch`, and the request is a record rather than an encoded URL.
- Logging to the console is left out everywhere.
- The option card and controls components, the styling and JSX layout and the `cn` helper (`lib/utils` is not part of this model) hold no statable logic.
- Flag values are strings; numbers, booleans or objects as flag values are not modelled.
- Server.Json: variation values are JSON scalars with integer numbers; non-integer numbers (such as 0.5), arrays and objects as values are not modelled. None of them changes which flags are kept or whether the reply is 200 or 500.
- Server.HandleConfig: the `tracks` object is a map, so the key order `res.json` writes (insertion order) is not modelled; upstream items that are not records, or a non-array `items`, are not modelled; a missing `items` or missing `variations` on a relevant flag is, as a 500.
- App.App.FlagsChanged: the effect's catch block is not modelled as a separate path, since the corrected composition cannot throw; the effect running once per render because `updatePattern` is a new function each render is not modelled.
- App.App.FlagsChanged: uses the corrected `Compose`; the expression as written is `ComposeAsWritten` (see Findings).
- Strudel.Player.TogglePlay: React's batched state updates are not modelled; each toggle sees the `isPlaying` left by the previous one, so two clicks within one render are not captured.
- Strudel.Player.Mount: a remount replaces the scheduler, so the command log restarts empty; the stopped scheduler's commands are not kept.
- The page never requests `/api/config`; it uses the static catalogue. The server's allow-list (`bass`, `drums`, `leadArrangement`) does not match the page's tracks (`harmony`, `melody`); both sides are modelled as written and not reconciled.
- The footer's flag count is presentation and not modelled.
- App.Interpolate: the text of an inherited native function is V8's one-line rendering `function name() { [native code] }`; the ECMAScript standard fixes only that shape, and other engines lay it out differently. The composition results rely only on its first character (`f`) and on it being a single line.
- App.ToStringSource: the exact text is V8's rendering of the native `toString`, not something the language fixes.
- App.InheritedBassFragment: the exact bass text is V8's rendering of the native `toString`, not something the language fixes.

## Findings

| source | as written | input that shows it | evidently intended | confidence | as-written member | corrected member |
|---|---|---|---|---|---|---|
| src/App.jsx:28-31 | the lookup `PATTERNS.<track>[flags.<track>]`, with option1 only when it is falsy, looks the flag value up through the object prototype, so a value naming an inherited member (`toString`, `constructor`, `__proto__`, ...) is truthy and its text replaces the fragment | flags `{ bass: "toString" }` put `function toString() { [native code] }` where the bass fragment goes | any value that is not one of the track's own options falls back to option1 ("missing/invalid", line 27) | not executed; JavaScript lookup semantics | App.AsWrittenInheritedMember | App.FallbackDeterminism |
