# Online players command and Minescape API rules, modelled in Dafny

This project models two parts of the GamesLabs Discord bot.

- **The `online` command** (`Commands/General/online.js`). It makes one pass over the game-server listing. The pass skips dev servers (any namespace other than `gameslabs`) and servers with no players. It normalises each game name: lower-case, with every `-` turned into a space. It adds each server's player count to a running total and to the game's count, and appends the players' names to the game's list. The command then sends one of these replies:
  - without an argument, a summary of every game;
  - with an argument that names a game (ignoring case), that game's player list, or a notice that the list is too long;
  - otherwise, the first game on which a player of that name (ignoring case) is online, or a not-found message.
- **The decision rules inside the Minescape API client** (`utils/MinescapeAPI.js`):
  - turning a compact player id into the hyphenated 8-4-4-4-12 UUID form (section 3 of RFC 4122);
  - choosing a profile, either the default one or one by position;
  - defaulting the profile argument;
  - checking the save list;
  - resolving a leaderboard stat name against the stat-name table.

Files:

- `wrappers.dfy`: the `Option` type.
- `text.dfy` (module `Text`): the JavaScript string operations the code relies on. These are `toLowerCase`, `replace(/-/g, " ")`, `join`, `slice` with its clamping of negative and out-of-range positions, and the decimal text of a count.
- `online.dfy` (module `OnlineCommand`): the command.
- `minescape_api.dfy` (module `MinescapeApi`): the API client's rules.

How the command is modelled:

- JavaScript objects used as dictionaries are `Dict` values: the keys in first-insertion order (what `Object.keys` returns) beside a `map`.
- The aggregation loop is the method `Tally`. It is proved against `TallyOf`, a fold of the one-iteration function `AddServer` over the listing. Lemmas then tie `TallyOf` to independent definitions: `TotalOnline`, `CountFor`, `PeopleFor` and `Games`.
- The three renderers are `OnlineAllServers` (a loop that appends `"<n> in <Game>, "` and then cuts off the last two characters), `OnlineServer` and `OnlinePerson` (a search loop with an early return). Each is proved equal to a specification function: `Summary`, `ServerReply` and `PersonReply`.
- `Execute` composes these, and is proved equal to `Reply`. The lemmas `SummaryReply`, `GameReply`, `PersonFoundReply` and `NotFoundReply` state what `Reply` answers directly in terms of the listing.
- The capitalisation helper's source is not part of this model. It is the parameter `cap` throughout.

How the API rules are modelled: every HTTP reply is a parameter, either a value or a function from the request's key (UUID, profile id, game and stat) to the reply. This keeps the data flow between requests visible.

Case is handled differently in the lookup and in the display. `_getOnlineServer` looks the game up by `server.toLowerCase()` (`Commands/General/online.js:29`), but its replies show `capitalizeString(server)` of the argument as typed (`Commands/General/online.js:30-31`). So `MINESCAPE` and `minescape` find the same game. With a capitaliser that upper-cases only the first letter, their replies still differ (`ListingGameInCapitals`).

## Model

| member | source | states |
|---|---|---|
| OnlineCommand.GameKey | Commands/General/online.js:71 | the key has the game name's length, contains no upper-case letter and no hyphen, and has a space wherever the name had a hyphen |
| OnlineCommand.GameKeyFixesKeys | Commands/General/online.js:71 | normalising an already normalised key, or lower-casing it, leaves it unchanged |
| OnlineCommand.Names | Commands/General/online.js:86-88 | `users.map(user => user.name)`: one name per user, in order |
| OnlineCommand.Dict.Put | Commands/General/online.js:76-78 | `dict[k] = v` maps `k` to `v`; a new key goes to the end of the key order and an existing key keeps its place; keys stay distinct and in step with the entries |
| OnlineCommand.PeopleMatchCount | Commands/General/online.js:73-89 | each game's name list is exactly as long as its player count |
| OnlineCommand.GamesAreTheCountedOnes | Commands/General/online.js:69-79 | a game is listed exactly when some player on a counted server plays it; listed keys are distinct and normalised |
| OnlineCommand.PeopleForAppend | Commands/General/online.js:81-89 | a game's name list over a split listing is the concatenation of the parts' lists: names are kept in listing order, duplicates included |
| OnlineCommand.PeopleForSnoc | Commands/General/online.js:81-89 | one more server at the end appends its names to its game's list, and only when that server is counted |
| OnlineCommand.IgnoredServerChangesNothing | Commands/General/online.js:69 | a dev server or an empty server, at any place in the listing, changes neither the total, nor the games, nor any count or name list, nor the loop's accumulators |
| OnlineCommand.TallyMeaning | Commands/General/online.js:62-90 | after the loop, the total is the number of players on counted servers; both dictionaries list the counted games, in order of first appearance; each count and name list is that game's own |
| OnlineCommand.IgnoredServerStep | Commands/General/online.js:69 | a server that is not counted leaves the accumulators and every tally as they were |
| OnlineCommand.TallyMeaningStep | Commands/General/online.js:71-89 | a counted server keeps both dictionaries in step with the games, counts and name lists of the listing so far |
| OnlineCommand.AddServerTotals | Commands/General/online.js:75-79 | the `if(totals[game])` update adds the server's players to its game's count, or starts the count, and registers a new game at the end |
| OnlineCommand.AddServerPeople | Commands/General/online.js:81-89 | the `if(people[game])` update appends the server's names to its game's list, or starts the list, and registers a new game at the end |
| OnlineCommand.TallySum | Commands/General/online.js:73-79 | the counts of all games add up to the total |
| OnlineCommand.AddCountKeepsSum | Commands/General/online.js:75-79 | adding `n` players to one game's count adds `n` to the sum of the counts |
| OnlineCommand.AddServer | Commands/General/online.js:69-89 | one iteration: a counted server adds its players to the total, and a dev or empty server leaves the accumulators unchanged; `TallyMeaningStep` and `IgnoredServerStep` state its effect on the dictionaries |
| OnlineCommand.AddCount | Commands/General/online.js:75-79 | the `if(totals[game])` update amounts to adding `n` to the game's count, with an absent count read as 0; a new game goes to the end of the key order; the dictionary stays valid |
| OnlineCommand.AddNames | Commands/General/online.js:81-89 | the `if(people[game])` update appends the names to the game's list, with an absent list read as empty; a new game goes to the end of the key order; the dictionary stays valid |
| OnlineCommand.TallyOf | Commands/General/online.js:67-90 | the loop's accumulators as a fold of `AddServer` over the listing; `TallyMeaning` and `TallySum` state what they hold |
| OnlineCommand.Tally | Commands/General/online.js:62-90 | the loop yields the fold `TallyOf` and hence: the total of counted players, both key lists equal to the counted games in first-seen order, each count and name list the game's own, every key normalised, every name list as long as its count, and counts that sum to the total |
| OnlineCommand.HeadcountWording | Commands/General/online.js:48 | the opening line is "There is currently 1 player online" exactly when the count is 1; for every other count, zero included, it is "There are currently <count> players online" |
| OnlineCommand.HeadcountOfOne | Commands/General/online.js:48 | the opening line for one player is the singular sentence |
| OnlineCommand.HeadcountInjective | Commands/General/online.js:48 | the opening line determines the count it reports |
| OnlineCommand.CountInHeadcount | Commands/General/online.js:48 | where the decimal count stands in the opening line, and the line's length |
| OnlineCommand.Entries | Commands/General/online.js:43-45 | one `"<count> in <Game>"` entry per key, in key order |
| OnlineCommand.Summary | Commands/General/online.js:40-51 | the reply without an argument; `OnlineAllServers` proves the loop computes it, and `SummaryReply` and `SummaryOfNoGames` state its contents |
| OnlineCommand.SummaryOfNoGames | Commands/General/online.js:48 | with no game counted, the summary is the opening line followed by ":\n" and nothing else |
| OnlineCommand.OnlineAllServers | Commands/General/online.js:40-51 | appending `"<n> in <Game>, "` per key and cutting off the last two characters gives the opening line, ":\n", and the entries joined by ", " |
| OnlineCommand.Matching | Commands/General/online.js:19 | the filter keeps only names equal to the person's ignoring case, and never more names than the list has |
| OnlineCommand.MatchingFindsPlayers | Commands/General/online.js:19 | the filter is non-empty exactly when some name on the list equals the person's ignoring case |
| OnlineCommand.FirstGame | Commands/General/online.js:18-22 | the position found holds a game whose list has the person, and no earlier game's list has them; nothing is found exactly when no game's list has them |
| OnlineCommand.FirstGameIs | Commands/General/online.js:18-22 | a game with the person, after games without them, is the one found |
| OnlineCommand.PersonReply | Commands/General/online.js:17-24 | the person search's reply; `OnlinePerson` proves the loop computes it, and `FirstGame`, `PersonFoundReply` and `NotFoundReply` state which game it names |
| OnlineCommand.OnlinePerson | Commands/General/online.js:17-24 | the search returns "<person> is currently playing on <Game>" for the first game, in key order, whose list has the person, and otherwise "Could not find person or server <person>" |
| OnlineCommand.ServerReply | Commands/General/online.js:26-38 | the reply to an argument; `OnlineServer` proves the method computes it, and `GameReply`, `PersonFoundReply`, `NotFoundReply` and `LookupIgnoresCase` state its cases |
| OnlineCommand.OnlineServer | Commands/General/online.js:26-38 | a lower-cased argument that is a key gives the too-many notice above 100 names, and otherwise the opening line, the argument as typed, and the names joined by ", "; any other argument falls back to the person search |
| OnlineCommand.PlayerListShowsArgument | Commands/General/online.js:31 | the player list displays the capitalised argument: two arguments give the same list text only if they capitalise alike |
| OnlineCommand.Reply | Commands/General/online.js:53-100 | the message sent; `Execute` proves the command computes it, and `SummaryReply`, `GameReply`, `PersonFoundReply` and `NotFoundReply` state it in terms of the listing |
| OnlineCommand.Execute | Commands/General/online.js:53-100 | a failed fetch gives "Error trying to find the online players"; otherwise the listing is tallied and an empty argument gives the summary and any other the game or person reply |
| OnlineCommand.SummaryReply | Commands/General/online.js:92-93 | without an argument, the reply is the opening line for the number of counted players, then `"<count> in <Game>"` for every counted game in first-seen order, joined by ", " |
| OnlineCommand.GameReply | Commands/General/online.js:29-32 | an argument naming a counted game in any case gives the too-many notice when more than 100 players are on it, and otherwise the list of their names in listing order |
| OnlineCommand.PersonFoundReply | Commands/General/online.js:17-34 | an argument that is no game finds the first game, in first-seen order, on which a player of that name is online |
| OnlineCommand.NotFoundReply | Commands/General/online.js:23 | an argument that is neither a game nor any counted player's name gets the not-found reply, with the argument as typed |
| OnlineCommand.HyphenatedIsNoGame | Commands/General/online.js:29 | an argument containing a hyphen never names a game: keys have none, and the lookup only lower-cases |
| OnlineCommand.LookupIgnoresCase | Commands/General/online.js:29 | two arguments that differ only in case and capitalise alike get the same game reply |
| OnlineCommand.CapitalizeFirst | Commands/General/online.js:20 | a capitaliser that upper-cases the first character and keeps the rest, used to instantiate the example |
| OnlineCommand.ListingTallies | Commands/General/online.js:62-90 | on a listing with two players on a counted server and one on a dev server, the total is 2 and the only game is "minescape", with names Alice and Bob |
| OnlineCommand.ListingSummary | Commands/General/online.js:40-51 | for that listing, the summary is the opening line for 2 players, ":\n" and "2 in <Game>" |
| OnlineCommand.ListingGame | Commands/General/online.js:26-38 | for that listing, "minescape" gives the list "Alice, Bob" |
| OnlineCommand.ListingGameInCapitals | Commands/General/online.js:29-31 | "MINESCAPE" also finds the game, but displays "MINESCAPE", so its reply differs from the one for "minescape" |
| OnlineCommand.ListingPerson | Commands/General/online.js:17-22 | "alice" finds Alice's game |
| OnlineCommand.ListingDevPlayer | Commands/General/online.js:69 | a player seen only on a dev server is not found |
| Text.LowerChar | Commands/General/online.js:19 | a lower-cased character is no upper-case letter; only upper-case letters change |
| Text.Lower | Commands/General/online.js:71 | `toLowerCase` keeps the length and lower-cases each character |
| Text.ReplaceChar | Commands/General/online.js:71 | `replace(/-/g, " ")` keeps the length and replaces exactly the hyphens |
| Text.LowerFixesLowerCase | Commands/General/online.js:29 | lower-casing leaves a string without upper-case letters unchanged |
| Text.Join | Commands/General/online.js:32 | `join(", ")`; `TerminatedIsJoinThenSep` and `TrimmedTerminatedIsJoin` tie it to the append-then-slice loop of `_getOnlineAllServers` |
| Text.TerminatedIsJoinThenSep | Commands/General/online.js:43-45 | appending every entry followed by the separator gives the join followed by one separator |
| Text.TrimmedTerminatedIsJoin | Commands/General/online.js:48 | `slice(0, -2)` on that text gives exactly the join |
| Text.JsIndex | Commands/General/online.js:48 | a `slice` position, negative counting from the end, is clamped into the string |
| Text.JsSlice | utils/MinescapeAPI.js:39-43 | `slice` never lengthens the string; with positions inside the string it is the ordinary slice, a negative position counts from the end, and positions that cross give "" |
| Text.JsSlicesMeet | utils/MinescapeAPI.js:39-43 | adjacent slices concatenate to the slice across both |
| Text.Strip | utils/MinescapeAPI.js:39-43 | removing a character leaves no occurrence of it |
| Text.StripAppend | utils/MinescapeAPI.js:39-43 | removing a character distributes over concatenation |
| Text.StripAbsent | utils/MinescapeAPI.js:39-43 | removing a character the string lacks changes nothing |
| Text.NatStr | Commands/General/online.js:44-48 | a count prints as a non-empty digit string that starts with '0' only for zero |
| Text.ParseNatStr | Commands/General/online.js:44-48 | reading back a printed count gives the count, and the text is canonical |
| Text.NatStrParse | utils/MinescapeAPI.js:78 | each canonical numeral is the printed form of its value |
| Text.ParseIsPositive | utils/MinescapeAPI.js:78 | a canonical numeral not starting with '0' has a positive value |
| Text.NatStrInjective | Commands/General/online.js:48 | different counts print differently |
| MinescapeApi.FullUuid | utils/MinescapeAPI.js:39-43 | the hyphenated form is never empty |
| MinescapeApi.FullUuidLayout | utils/MinescapeAPI.js:39-43 | a 32-character id becomes 36 characters, with hyphens at positions 8, 13, 18 and 23 and the id's characters in order between them |
| MinescapeApi.FullUuidUnhyphenates | utils/MinescapeAPI.js:39-43 | for an id of any length, removing the hyphens from the result removes them from the id: only hyphens are added, and nothing is lost or reordered |
| MinescapeApi.UuidPiecesCover | utils/MinescapeAPI.js:39-43 | the five cut pieces concatenate back to the id |
| MinescapeApi.StripAroundHyphen | utils/MinescapeAPI.js:39-43 | removing hyphens across an inserted hyphen treats the two sides separately |
| MinescapeApi.CompactIdRecovered | utils/MinescapeAPI.js:39-43 | a compact id, which has no hyphen, is recovered by removing the hyphens from its UUID form |
| MinescapeApi.GetUuid | utils/MinescapeAPI.js:22-47 | a failed request is a transport error; "User not found" comes exactly from an empty body; any other body gives the identity error when it carries an error, and otherwise the hyphenated, never empty, form of its id |
| MinescapeApi.FirstDefault | utils/MinescapeAPI.js:73-75 | the position found holds a default profile and no earlier profile is one; nothing is found exactly when none is |
| MinescapeApi.ArrayIndexIsDecimal | utils/MinescapeAPI.js:78 | a property name denotes position `n` exactly when it is the decimal text of `n` |
| MinescapeApi.SelectProfile | utils/MinescapeAPI.js:72-83 | a profile chosen is one of the listed profiles' ids; failure is "Couldn't find a default profile?" for "default" and "The user doesn't have these many profiles" for any other selector |
| MinescapeApi.SelectDefault | utils/MinescapeAPI.js:72-76 | "default" picks the id of the first profile flagged default, and fails with "Couldn't find a default profile?" exactly when none is flagged |
| MinescapeApi.SelectPosition | utils/MinescapeAPI.js:77-82 | a position in range picks that profile's id; a position past the end, or a name that is no position, fails with "The user doesn't have these many profiles" |
| MinescapeApi.GetProfileId | utils/MinescapeAPI.js:56-87 | a failed UUID lookup is passed on unchanged; otherwise the profiles reply for that UUID decides: a failed request is a transport error, a message is rejected as given, and otherwise the profile is selected from the list |
| MinescapeApi.ProfileArgument | utils/MinescapeAPI.js:95-96 | the selector is never empty, and a non-empty profile argument is used as given |
| MinescapeApi.SavesReply | utils/MinescapeAPI.js:106-116 | the stats are the first save's skills, obtained exactly when there is no message and the list is non-empty; an empty list, without a message, is exactly the "User not found" case; a failed request is a transport error and a message is rejected as given; the promise always settles |
| MinescapeApi.GetStats | utils/MinescapeAPI.js:95-118 | the promise is left unsettled exactly when the selected profile id is empty; a failed profile lookup is rejected with its error; otherwise the saves check for that id decides |
| MinescapeApi.StatsDefaultProfile | utils/MinescapeAPI.js:95-96 | leaving the profile out, or passing "", asks for the same stats as passing "default" |
| MinescapeApi.StatsOfSelectedProfile | utils/MinescapeAPI.js:95-118 | stats returned are the first save of the non-empty profile id selected from the profiles listed for the player's UUID |
| MinescapeApi.ResolveStat | utils/MinescapeAPI.js:128-131 | the only failure is "Couldn't find the stat <stat>"; a name resolved is the table's non-empty name for the stat, or the raw stat for "minescape" |
| MinescapeApi.ResolveStatCases | utils/MinescapeAPI.js:128-131 | a listed stat is renamed for every game; an unlisted one passes through for "minescape" only; it is an error exactly when unlisted for another game |
| MinescapeApi.GetTop | utils/MinescapeAPI.js:126-147 | "Couldn't find the stat" comes exactly from an unlisted stat for a game other than "minescape" |
| MinescapeApi.TopQueriesResolvedStat | utils/MinescapeAPI.js:133-145 | a board returned is the message-free board fetched for the game and the resolved stat name |
| MinescapeApi.TopFetchesResolvedStat | utils/MinescapeAPI.js:133-145 | once the stat resolves, the board request decides: a failed request is a transport error, a message is rejected as given, and otherwise the board is returned |

## Left out

- HTTP traffic is not modelled: the `request` calls, URI construction, `JSON.parse` and the Promise and `async`/`await` plumbing. Each reply is a parameter instead. A body that `JSON.parse` rejects, or that lacks a field the code reads (`body.id`, `body.profiles.list`), throws inside a callback; that case is not modelled.
- `getOnline` and `getOnlineCount` only fetch and parse, so they are not modelled. The command's fetch of the listing is the `Option` parameter of `Execute`.
- The `EventEmitter` base class and the `key` field carry no behaviour, so they are not modelled.
- Sending the reply to Discord and logging are side effects. `Execute` returns the message instead.
- The contents of `data/Constants.json` are not part of this model. The stat-name table is a `map` parameter. The API locations only feed a URL, so the leaderboard fetch is a function of the game and the stat.
- The implementation of `BaseFunctions.capitalizeString` is not part of this model; it is the parameter `cap`.
- MinescapeApi.GetUuid: an error reply from the identity service is one error, `IdentityError`. The code rejects with `response.body.errorMessage`, a field read off the raw string, so the error's detail is not modelled.
- Text.Lower: lower-cases ASCII letters only. JavaScript's `toLowerCase` also maps other Unicode letters.
- OnlineCommand.Execute: the argument is a string, and "no argument" is the empty string. An undefined argument and an empty one are both falsy in the code, so they take the same path.
- OnlineCommand.Tally: the inputs on which the loop throws, and no reply is sent, are not modelled. These are a game name that normalises to a key inherited from `Object.prototype`, such as `constructor` or `__proto__`: `people[game]` is then truthy and its `push` throws (`Commands/General/online.js:86`). They are also a listing that is not an array (`Commands/General/online.js:67`) and a server record without `users` (`Commands/General/online.js:69`). The listing is a sequence of well-formed `Server` values.
- OnlineCommand.ServerReply: keys inherited from `Object.prototype` are not modelled. Dictionary lookups see only the keys the loop stored. The key order is first insertion, without the JavaScript rule that integer-like keys come first.
- MinescapeApi.SelectProfile: array properties that are not positions (such as `length`) are not modelled. Those would make `profiles[pos]` truthy with an undefined `id`.
- MinescapeApi.KnownStat: keys inherited from `Object.prototype` are not modelled. A listed stat counts as known when its name is non-empty, which matches the code's truthiness test on strings.
