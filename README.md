# Game list items and the reinforcement list of the FAF client, in Dafny

This project models two pieces of the Forged Alliance Forever lobby client and
proves properties about them.

- The game list entry, `GameItem`, in `src/games/gameitem.py`. This covers:
  - how `update` rebuilds an entry from a game-info message: the header fields, the roster of players, observers and teams, the inclusion of the local user in the smaller team, the rating teams, the match-quality gate, and the client's player links;
  - the snake-draft balancer `getBestMatchup` with its `assignToTeam` pattern;
  - the ordering of entries (`__lt__`/`__ge__`);
  - the game URL;
  - the `permutations` generator;
  - the small text helpers: the map name, the private-title test, the mod column and the option tooltip.
- The Galactic War temporary-reinforcement list, `TemporaryWidget`, in
  `src/galacticWar/reinforcements/temporaryitems.py`. This is a registry from
  uid to item, filled from info messages. A visible item is enabled exactly when the
  player's credits cover its price.

Modules, one file each:

- `text.dfy` (`Text`): Python's `str.split` and `str.join`, the map name `ScenarioFile.split('/')[2]`, `lower`/`find`, decimal printing of an int and its parser, and the order `<` on strings.
- `skill.dfy` (`Skill`): ratings, the calculator's rating teams, and the conservative skill `mean - 3 * dev`. The calculator itself is a function parameter.
- `team_balance.dfy` (`TeamBalance`): `assignToTeam` (Thue–Morse: team 1 when the number of 1-bits is even) and the deal it drives. It also has the draft order of `getBestMatchup` and its gates, as a `Verdict` that `Render` turns into the returned string or the `KeyError` raised.
- `lobby_roster.dfy` (`LobbyRoster`): the roster steps of `update`, first as functions (`Assemble`), then as the loops of the source (`RebuildRoster`, `GroupSlots`, `BuildRatingTeams`, `RateEach`, `RateTogether`) proved equal to them.
- `game_item.dfy` (`GameItems`): the `GameItem` class. Its fields are updated in place by `Update`, which runs the steps above and ends with an `Outcome`. The outcome is either the players it reports to the client's `usersUpdated` signal or the exception it raises. The module also holds the URL, the ordering and the permutations.
- `reinforcements.dfy` (`Reinforcements`): `ReinforcementItem` and `TemporaryWidget`, as classes whose fields are updated in place.

Behaviour of the code that the model keeps as written:

- The draft sorts `(skill, name)` pairs in reverse, so equal skills are ordered by name descending.
- `gameitem.py` is Python 3 code, where a dictionary keeps its insertion order. `teamKeys` holds that order for `self.teams`.
- `temporaryitems.py` is Python 2 code, where a dictionary's order is not specified. `uids` lists the registry's keys in an order the model chooses (new uids last). The credit check's result does not depend on that order.
- After the team loop, `update` calls `addPlayer` with the local user's rating once more while teams 1 and 2 still differ in size. The call goes to `teamsTrueskill[0]` or `[1]`. When neither of the first two keys in key order is free-for-all team 0, these are the rating teams of those two keys, whichever teams they are (`LobbyRoster.OwnRatingPlacement`). Team 0 gives one rating team per player, so when it comes first, `teamsTrueskill[0]` is the solo rating team of its first player. In a lobby with only teams 1 and 2, in key order `[1, 2]`, the first rating team already holds the user (`LobbyRoster.OwnRatingCountedTwice`).
- `getBestMatchup`'s branch "Only one player per team" cannot be taken: two teams and more than two players never give one player per team (`TeamBalance.BestVerdictGates`). As a result, the message about missing players always names 2 teams.
- `update` always resets `teamlist` to `[]`, so after an update `getBestMatchup` only answers "game in play" or "No teams formed yet" (`TeamBalance.EmptyTeamlistGates`).
- A player missing from `client.players` raises `KeyError` in the first loop of `getBestMatchup`. The later `player in self.client.players` tests therefore always succeed.
- `nTeams` counts team keys, not rating teams. The quality is stored only when the calculator's value is below 1.

## Model

| member | source | states |
|---|---|---|
| Text.Join | src/games/gameitem.py:418-419 | defines `sep.join(parts)`; `JoinSplit` states its meaning together with `Split` |
| Text.Lower | src/games/gameitem.py:241 | defines `lower()` on ASCII letters; `PrivateIffContains` uses it for the private-title test |
| Text.Split | src/games/gameitem.py:258 | `split` gives one piece more than there are separators, and no piece contains the separator |
| Text.JoinSplit | src/games/gameitem.py:258 | joining the pieces of a split with the separator gives back the string |
| Text.SplitAfterPiece | src/games/gameitem.py:258 | a string that starts with a piece free of the separator splits into that piece followed by the split of the rest |
| Text.MapName | src/games/gameitem.py:258 | the third `/`-piece of the scenario path exists exactly when the path has at least two slashes (otherwise `IndexError`), and it holds no slash |
| Text.MapNameOfPath | src/games/gameitem.py:258 | for `a/b/m/rest` with slash-free `a`, `b` and `m` the map name is `m` |
| Text.FindFrom | src/games/gameitem.py:241 | the search from `i` returns the first occurrence at or after `i`, or -1 when there is none |
| Text.Find | src/games/gameitem.py:241 | `find` returns -1 exactly when the text never occurs, and otherwise the first position where it occurs |
| Text.NatToDecimalValue | src/games/gameitem.py:555 | the decimal digits `%i` prints for a natural number read back as that number |
| Text.IntToDecimalRoundTrip | src/games/gameitem.py:555 | parsing the printed form of any integer gives that integer |
| Text.LexIrreflexive | src/games/gameitem.py:573 | no name sorts before itself |
| Text.LexAsymmetric | src/games/gameitem.py:573 | two names never sort before each other |
| Text.LexTransitive | src/games/gameitem.py:573 | the name order is transitive |
| Text.LexTotal | src/games/gameitem.py:573 | of two different names one sorts before the other |
| TeamBalance.AssignToTeam | src/games/gameitem.py:523-535 | the bit-counting loop returns team 1 when the number of 1-bits is even and team 2 otherwise; always 1 or 2 |
| TeamBalance.TeamOfDouble | src/games/gameitem.py:523-535 | the team of `2n` is the team of `n` |
| TeamBalance.TeamOfPairSplits | src/games/gameitem.py:523-535 | places `2k` and `2k+1` always go to different teams |
| TeamBalance.CountTeamEven | src/games/gameitem.py:523-535 | among the first `2k` places, exactly `k` go to each team |
| TeamBalance.Deal | src/games/gameitem.py:573-575 | defines the players `bestTeams[team]` receives; the lemmas below state its meaning |
| TeamBalance.DealSize | src/games/gameitem.py:573-575 | each team receives as many players as places the pattern gives it |
| TeamBalance.DealBalanced | src/games/gameitem.py:573-575 | the two drafted teams differ in size by at most one, and are equal for an even number of players |
| TeamBalance.DealPartition | src/games/gameitem.py:573-575 | the two teams together hold exactly the drafted players, as a multiset |
| TeamBalance.DealPlacement | src/games/gameitem.py:573-575 | the player at place `i` of the order lands in `assignToTeam(i)` |
| TeamBalance.Draft | src/games/gameitem.py:569-575 | the `bestTeams` loop builds exactly the two dealt teams |
| TeamBalance.BeforeIrreflexive | src/games/gameitem.py:573 | no entry precedes itself in the draft order |
| TeamBalance.BeforeAsymmetric | src/games/gameitem.py:573 | two entries never precede each other |
| TeamBalance.BeforeTransitive | src/games/gameitem.py:573 | the draft order is transitive |
| TeamBalance.BeforeTotal | src/games/gameitem.py:573 | entries with different names are always ordered one way or the other |
| TeamBalance.Insert | src/games/gameitem.py:573 | inserting adds exactly the new entry, as a multiset |
| TeamBalance.SortDescending | src/games/gameitem.py:573 | `sorted(..., reverse=True)` returns a permutation of its input |
| TeamBalance.InsertDescending | src/games/gameitem.py:573 | inserting an entry with a new name into a descending list keeps it descending |
| TeamBalance.DescendingCons | src/games/gameitem.py:573 | an entry that precedes every element of a descending list can be put in front of it |
| TeamBalance.SortDescendingSorted | src/games/gameitem.py:573 | sorting entries with distinct names gives a strictly descending list |
| TeamBalance.DescendingUnique | src/games/gameitem.py:573 | two strictly descending lists of the same entries are equal |
| TeamBalance.Distinct | src/games/gameitem.py:560-565 | the `playerlist` keys hold every player once, in order of first appearance |
| TeamBalance.EntriesMembers | src/games/gameitem.py:561-565 | an entry is in `playerlist` exactly when its name is a player and its value is that player's `mean - 3 * dev` |
| TeamBalance.DraftOrder | src/games/gameitem.py:560-573 | defines the seeding order of `getBestMatchup`; the lemmas below state its meaning |
| TeamBalance.DraftOrderSpec | src/games/gameitem.py:560-575 | the draft order is strictly descending by (skill, name) and holds each present player once with their conservative skill |
| TeamBalance.DraftOrderIndependent | src/games/gameitem.py:560-575 | the same set of players always gives the same draft order, whatever order or repetitions `players` has |
| TeamBalance.DraftOrderNamesDistinct | src/games/gameitem.py:560-575 | no name occurs twice in the draft order |
| TeamBalance.FirstUnknown | src/games/gameitem.py:561-563 | the lookup fails exactly when some player has no entry, and the one it reports is a player without an entry |
| TeamBalance.FirstUnknownAt | src/games/gameitem.py:561-563 | the `KeyError` names the first player in list order who has no entry |
| TeamBalance.CountTeams | src/games/gameitem.py:544-547 | the loop counts the `teamlist` entries that are not -1 |
| TeamBalance.SeedPlayers | src/games/gameitem.py:560-565 | the `playerlist` loop stops at the first unknown player, and otherwise yields one entry per distinct player with their conservative skill |
| TeamBalance.SoloTeamsAppend | src/games/gameitem.py:587-608 | rating both drafted teams one player at a time is rating team 1, then team 2 |
| TeamBalance.RateSolo | src/games/gameitem.py:590-598 | each drafted player gets a rating team of their own, empty when they have no entry |
| TeamBalance.DraftMessage | src/games/gameitem.py:573-622 | the message written is the rendering of the drafted verdict for the sorted entries |
| TeamBalance.BestVerdict | src/games/gameitem.py:541-575 | defines what `getBestMatchup` decides; `BestVerdictGates`, `EmptyTeamlistGates` and `DraftedSplit` state its meaning |
| TeamBalance.Render | src/games/gameitem.py:541-622 | defines the string returned for each decision, or the `KeyError` raised; `DraftMessage` and `GetBestMatchup` connect it to the loops |
| TeamBalance.BestVerdictGates | src/games/gameitem.py:541-558 | "game in play" exactly when the state is not "open"; the missing-players answer only for two formed teams and an odd count; a draft only with two teams and an even count of at least 4; never "Only one player per team" |
| TeamBalance.EmptyTeamlistGates | src/games/gameitem.py:541-551 | with an empty `teamlist` the answer is "game in play" or "No teams formed yet" |
| TeamBalance.DealSplit | src/games/gameitem.py:573-575 | dealing a list without repeats puts every player in exactly one team |
| TeamBalance.DraftedSplit | src/games/gameitem.py:541-575 | an open game with two formed teams and an even number, above two, of known players is drafted; the matchup holds every player exactly once, the teams differ by at most one, and the `i`-th player of the draft order is in team `assignToTeam(i)` |
| LobbyRoster.TeamKeys | src/games/gameitem.py:309-312 | the keys of `self.teams` appear once each, in order of first use |
| LobbyRoster.TeamKeysMembers | src/games/gameitem.py:309-312 | a team key exists exactly when some seated player named that team |
| LobbyRoster.TeamMembersStep | src/games/gameitem.py:304-312 | one more slot appends its player to the members of its team and to no other |
| LobbyRoster.TeamMapStep | src/games/gameitem.py:305-312 | one loop step on `self.teams` is the dictionary update of that slot |
| LobbyRoster.GroupPermutation | src/games/gameitem.py:298-312 | the teams together hold exactly the seated players, as a multiset |
| LobbyRoster.GroupTeams | src/games/gameitem.py:298-312 | a team exists exactly when it has members, and holds the seated players who chose it, in slot order |
| LobbyRoster.GroupSlots | src/games/gameitem.py:298-312 | the slot loop yields the seated players, the observers, the team keys and the teams the specification functions describe |
| LobbyRoster.Include | src/games/gameitem.py:320-327 | defines the inclusion step: the login is appended to the strictly smaller of teams 1 and 2 when it is in no team; `IncludeSpec` states its meaning |
| LobbyRoster.IncludeSpec | src/games/gameitem.py:319-327 | the local user joins exactly when they are in no team and teams 1 and 2 differ in size; the smaller team becomes itself plus the login at the end, the other team is unchanged; otherwise and for all other teams nothing changes |
| LobbyRoster.SomeUnratedAppend | src/games/gameitem.py:329-355 | a missing rating in two lists together is a missing rating in one of them |
| LobbyRoster.KeyStep | src/games/gameitem.py:329-355 | one key of the team loop adds its rating teams and its players |
| LobbyRoster.PrefixStep | src/games/gameitem.py:331-355 | one player of an inner loop adds their member, their team and their missing rating |
| LobbyRoster.RateEach | src/games/gameitem.py:331-339 | team 0 yields one rating team per player, empty when unrated, and reports whether a rating was missing |
| LobbyRoster.RateTogether | src/games/gameitem.py:340-355 | any other team yields one rating team of its rated players, and reports whether a rating was missing |
| LobbyRoster.BuildRatingTeams | src/games/gameitem.py:329-355 | the team loop yields the rating teams, `realPlayers` in key order, and `invalidTS` exactly when some real player is unrated |
| LobbyRoster.MemberNamesAppend | src/games/gameitem.py:329-355 | the members of two lists of rating teams are those of the first, then those of the second |
| LobbyRoster.RatedNamesAppend | src/games/gameitem.py:329-355 | the rated names of two lists are those of the first, then those of the second |
| LobbyRoster.RatedNames1 | src/games/gameitem.py:340-355 | one team's rating team holds exactly its rated players |
| LobbyRoster.ZeroTeamsNames | src/games/gameitem.py:331-339 | the solo rating teams of team 0 hold exactly its rated players |
| LobbyRoster.RatingTeamsNames | src/games/gameitem.py:329-355 | all rating teams together hold exactly the rated real players, in order |
| LobbyRoster.RatingTeamsCount | src/games/gameitem.py:329-355 | with no empty team there is at least one rating team per key |
| LobbyRoster.Rated | src/games/gameitem.py:340-355 | defines the rating team of a team other than 0: `addPlayer` for each rated member, in order; `RatedNames1` states which names it holds |
| LobbyRoster.RatingTeams | src/games/gameitem.py:329-355 | defines `teamsTrueskill` after the team loop; `RatingTeamsNames` and `RatingTeamsCount` state its contents and size |
| LobbyRoster.RatingTeamsPrefix | src/games/gameitem.py:329-355 | the rating teams built for a prefix of the key order are a prefix of those built for the whole order |
| LobbyRoster.FirstKeysRated | src/games/gameitem.py:329-355 | when the first key is not team 0, `teamsTrueskill[0]` is the rating team of that key, and likewise `[1]` for the second key |
| LobbyRoster.AddOwn | src/games/gameitem.py:358-367 | defines the extra `addPlayer` call after the team loop; `AddOwnSpec` states its meaning |
| LobbyRoster.AddOwnSpec | src/games/gameitem.py:358-367 | with the user included and rated, the rating is appended to `teamsTrueskill[0]` when team 1 is smaller and to `[1]` when team 2 is smaller; otherwise, and for every other rating team, nothing changes, and the number of rating teams stays the same |
| LobbyRoster.OwnRatingIn | src/games/gameitem.py:329-367 | after the extra call, when the first key (for `[1]`: the first two keys) is not team 0, `teamsTrueskill[0]` and `[1]` are the rating teams of the first two keys, plus the user's rating at the end of the one the size test picks |
| LobbyRoster.ContestedRoster | src/games/gameitem.py:319-367 | in a contested lobby the rebuilt keys, teams and inclusion are those of the inclusion step, and the rating teams are the loop's plus the extra call |
| LobbyRoster.OwnRatingPlacement | src/games/gameitem.py:319-367 | in a contested lobby whose first key is not team 0, the user's extra rating goes to the rating team of the first key when team 1 is smaller; when neither of the first two keys is team 0, it goes to that of the second key when team 2 is smaller; this holds whichever teams those keys name |
| LobbyRoster.OwnRatingCountedTwice | src/games/gameitem.py:319-367 | in a lobby whose teams are exactly 1 and 2, in key order `[1, 2]`, when team 1 is short by two or more and the user is rated, the first rating team holds the user's rating twice: once from the team loop and once from the extra `addPlayer` call |
| LobbyRoster.ContestedShape | src/games/gameitem.py:319-355 | in a lobby with teams 1 and 2, inclusion keeps the keys and the non-empty teams, and there are at least two rating teams |
| LobbyRoster.TeamMapWellFormed | src/games/gameitem.py:298-312 | the key order and the teams dictionary agree, and no team is empty |
| LobbyRoster.KeyCount | src/games/gameitem.py:372 | `len(self.teams)` equals the number of keys |
| LobbyRoster.SeqSetSize | src/games/gameitem.py:372 | a list without repeats has as many elements as its set |
| LobbyRoster.Assess | src/games/gameitem.py:371-381 | defines the quality gate on the rating teams; `QualityGate` states its meaning |
| LobbyRoster.Assemble | src/games/gameitem.py:293-381 | defines the roster fields `update` leaves; `AssembleWellFormed`, `QualityGate`, `InvalidExactly`, `RealPlayersSpec`, `OwnRatingPlacement` and `Uncontested` state its meaning |
| LobbyRoster.RebuildRoster | src/games/gameitem.py:293-381 | the roster loops, run in the order of `update`, compute `Assemble` |
| LobbyRoster.AssembleWellFormed | src/games/gameitem.py:298-381 | the rebuilt roster has unique keys that match the teams, no empty team, and a stored quality only when the real players divide into `len(self.teams)` |
| LobbyRoster.QualityGate | src/games/gameitem.py:370-381 | a quality is stored exactly for a contested lobby with more than one rating team, no missing rating, real players divisible by the key count and a value below 1; it is `round(q * 100, 2)`; `nTeams` is the key count exactly when the lobby is contested with more than one rating team and no missing rating, and 0 otherwise |
| LobbyRoster.InvalidExactly | src/games/gameitem.py:329-355 | `invalidTS` holds exactly when some team member has no rating |
| LobbyRoster.FlattenHas | src/games/gameitem.py:329-330 | a player is in `realPlayers` exactly when they are in some team |
| LobbyRoster.RealPlayersSpec | src/games/gameitem.py:319-367 | `realPlayers` are the seated players plus the local user when included, and without inclusion the rating teams hold exactly the rated real players |
| LobbyRoster.Uncontested | src/games/gameitem.py:319-383 | outside a lobby with teams 1 and 2, nobody is included, nothing is rated and the quality stays 0 |
| LobbyRoster.QualityText | src/games/gameitem.py:383-386 | the text is "? %" when the quality is 0, and not "? %" otherwise |
| LobbyRoster.PlayerWord | src/games/gameitem.py:389-392 | the word is "player" exactly for one player, and "players" otherwise |
| LobbyRoster.WithYou | src/games/gameitem.py:397-399 | the "(with you)" text is non-empty exactly when the user was included |
| GameItems.LinkOf | src/games/gameitem.py:127-138 | an item links somewhere exactly when it is "Live" or "Lobby" |
| GameItems.Url | src/games/gameitem.py:127-138 | the URL exists exactly when there is a link |
| GameItems.UrlRoundTrip | src/games/gameitem.py:127-138 | parsing a URL gives back the link (kind and uid) it was made from |
| GameItems.UrlInjective | src/games/gameitem.py:127-138 | equal URLs come from the same uid and the same kind of link |
| GameItems.IsPrivate | src/games/gameitem.py:241 | defines the private-title test `title.lower().find("private") != -1`; `PrivateIffContains` states its meaning |
| GameItems.PrivateIffContains | src/games/gameitem.py:241 | a title is private exactly when "private" is spelled in it in any case |
| GameItems.PrivateWherever | src/games/gameitem.py:241 | "private" in any case anywhere in a title makes the game private |
| GameItems.TruncateMod | src/games/gameitem.py:420 | the mod text is at most 20 characters; it is kept exactly when it fits, and otherwise it is its first 15 characters followed by "..." |
| GameItems.TruncateModIdempotent | src/games/gameitem.py:420 | shortening a shortened mod text changes nothing |
| GameItems.ModString | src/games/gameitem.py:415-420 | without sim mods the column is the featured mod; with them it fits 20 characters: for "faf" it is the shortened list of mod names, and for any other featured mod the shortened `mod & names` |
| GameItems.Zipped | src/games/gameitem.py:502-504 | defines the `options` dictionary of the tooltip; `ZippedLastWins` states its meaning |
| GameItems.ZippedLastWins | src/games/gameitem.py:502-504 | each option name maps to the value at its last position, and only option names are keys |
| GameItems.ZipOptions | src/games/gameitem.py:502-504 | the loop raises `IndexError` exactly when there are fewer values than names, and otherwise builds the zipped dictionary |
| GameItems.WithoutMultiset | src/games/gameitem.py:517 | `items[:i] + items[i+1:]` removes exactly `items[i]` |
| GameItems.Permutations | src/games/gameitem.py:511-518 | defines the lists the generator yields, in order; the lemmas below state their meaning |
| GameItems.PickFrom | src/games/gameitem.py:516-518 | defines what the outer loop yields from turn `i` on |
| GameItems.PermutationsSound | src/games/gameitem.py:511-518 | every list the generator yields is a rearrangement of the items |
| GameItems.PickFromSound | src/games/gameitem.py:516-518 | every list the loop yields from index `i` on is a rearrangement of the items |
| GameItems.PickFromContains | src/games/gameitem.py:516-518 | what is yielded for index `i` is yielded by a loop started at or before `i` |
| GameItems.PermutationsComplete | src/games/gameitem.py:511-518 | every rearrangement of the items is yielded |
| GameItems.PermutationsCount | src/games/gameitem.py:511-518 | the generator yields `n!` lists for `n` items |
| GameItems.PickFromCount | src/games/gameitem.py:516-518 | the loop from index `i` yields `(n - i) * (n - 1)!` lists |
| GameItems.Less | src/games/gameitem.py:629-643 | defines `__lt__` on what it reads of two items; `LessIsKeyOrder`, `LessStrictOrder` and `UninitialisedFirst` state its meaning |
| GameItems.AtLeast | src/games/gameitem.py:624-626 | defines `__ge__` as the negation of `__lt__` |
| GameItems.LessIsKeyOrder | src/games/gameitem.py:624-643 | between initialised items, `__lt__` is the order of (not a friend's game, private, uid), and `__ge__` is its negation |
| GameItems.LessStrictOrder | src/games/gameitem.py:629-643 | between initialised items `__lt__` is irreflexive, asymmetric and transitive, and total on different uids |
| GameItems.UninitialisedFirst | src/games/gameitem.py:624-632 | an item without a client is less than any item, even itself, and an initialised item is never less than it |
| GameItems.ClearUrls | src/games/gameitem.py:245-248 | defines `client.urls` after the previous players' entries are deleted; `ClearPlayerUrls` and `UrlsOnlyForAffected` state its meaning |
| GameItems.PointUrls | src/games/gameitem.py:436-438 | defines `client.urls` after the current players are pointed at the game; `PointPlayerUrls` and `UrlsOnlyForAffected` state its meaning |
| GameItems.PointUrlsSnoc | src/games/gameitem.py:437-438 | pointing one more player is one more dictionary update |
| GameItems.UrlsOnlyForAffected | src/games/gameitem.py:245-438 | after an update the current players point at the game, the players who left have no entry, and nobody else's entry changes |
| GameItems.ClearPlayerUrls | src/games/gameitem.py:245-248 | the loop deletes exactly the entries of the previous players |
| GameItems.PointPlayerUrls | src/games/gameitem.py:436-438 | the loop points exactly the current players at the game's URL |
| GameItems.Announce | src/games/gameitem.py:407-443 | the tooltip raises `IndexError` exactly when there are fewer option values than mod options; an item with uid 0 stops quietly; otherwise the players are pointed at the game and the union of old and new players is reported |
| GameItems.GameItem.constructor | src/games/gameitem.py:105-124 | a new item has its uid, no client, no state, no map and no players or teams |
| GameItems.GameItem.ReadHeader | src/games/gameitem.py:211-241 | the header fields are the message's, with `id` 0, access "public" and options `[]` as defaults, and `private` is the title test |
| GameItems.GameItem.ResetRoster | src/games/gameitem.py:217-238 | the teams, observers, rating teams, validity, quality and team count are reset, and `numplayers` is the message's `num_players` or 0 |
| GameItems.GameItem.Clear | src/games/gameitem.py:203-254 | a closed game or a failed map lookup leaves the header read and the roster reset, while the previous players, map name and inclusion stay |
| GameItems.GameItem.SeatTeams | src/games/gameitem.py:293-314 | the item holds the rebuilt players, observers, player count, teams and inclusion |
| GameItems.GameItem.SeatRatings | src/games/gameitem.py:329-381 | the item holds the rebuilt real players, rating teams, validity, team count and quality, and is well formed |
| GameItems.GameItem.Seat | src/games/gameitem.py:293-381 | the item holds the whole rebuilt roster and is well formed |
| GameItems.GameItem.Install | src/games/gameitem.py:211-399 | the item holds the message header, the map name and the whole rebuilt roster, and is well formed |
| GameItems.GameItem.Update | src/games/gameitem.py:203-443 | after any message the header is read and the item is well formed. A closed game reports its previous players; a scenario path without a map folder raises `IndexError`; in both cases the previous players' links are deleted, the roster is reset, and the players, map name and inclusion flag and text stay as they were. Otherwise the roster is `Assemble` of the message, and the tooltip, uid-0 and announcement outcomes are as in `Announce` |
| GameItems.GameItem.GetBestMatchup | src/games/gameitem.py:537-622 | the answer is the rendering of `BestVerdict` for the item's state, `teamlist` and players |
| Reinforcements.CheckedState | src/galacticWar/reinforcements/temporaryitems.py:51-57 | a visible item ends up enabled exactly when the credits cover its price; a hidden one keeps its state |
| Reinforcements.ReinforcementItem.constructor | src/galacticWar/reinforcements/temporaryitems.py:63 | a new item carries the uid it is registered under |
| Reinforcements.ReinforcementItem.Update | src/galacticWar/reinforcements/temporaryitems.py:65 | the item takes its price and visibility from the message |
| Reinforcements.ReinforcementItem.SetEnabled | src/galacticWar/reinforcements/temporaryitems.py:57 | the item is enabled |
| Reinforcements.ReinforcementItem.SetDisabled | src/galacticWar/reinforcements/temporaryitems.py:55 | the item is disabled |
| Reinforcements.TemporaryWidget.constructor | src/galacticWar/reinforcements/temporaryitems.py:41 | the registry starts empty |
| Reinforcements.TemporaryWidget.UpdateCreditsCheck | src/galacticWar/reinforcements/temporaryitems.py:49-57 | every visible item is disabled when the credits are below its price and enabled otherwise; hidden items keep their state; prices, visibility and keys do not change |
| Reinforcements.TemporaryWidget.ProcessReinforcementInfo | src/galacticWar/reinforcements/temporaryitems.py:59-69 | the message's uid is a key afterwards, an existing item is kept rather than replaced, a new one is fresh and its key is visited last, no other key appears, other items keep their price and visibility, every visible item is enabled exactly when the parent's credits cover its price, and every hidden item keeps its flag (a new hidden item stays enabled) |

## Left out

- The TrueSkill calculator (`calculateMatchQuality`), `round(q * 100, 2)` and `str` of a float are function parameters. Floating point is modelled as exact reals.
- The client's lookups are maps. `client.getUser(name).rating` is a map from names to ratings, and a name missing from the map has no rating. `client.players` is a map from names to rating mean and deviation. The featured mod's option names (`mods[self.mod].options`) are a parameter.
- Qt rendering and widgets are left out because they do not affect the model's state. This covers:
  - the delegate's `paint` and `sizeHint`;
  - icons, `setText` with the formatter templates, and `setToolTip`;
  - the HTML of `editTooltip`, apart from the option zip, which can raise;
  - `setHidden`, `getUserColor`, `isFoe` and `hasFoe`.
- `announceReplay`, `announceHosting` and their `QTimer` scheduling are left out, because they only post chat messages later.
- Map previews, `maps.getDisplayName` and the map downloader are left out, because they are I/O.
- `usersUpdated.emit` becomes the `Outcome` that `Update` returns. `client.urls` becomes a map that `Update` takes and returns, instead of a shared dictionary changed in place.
- `Update` computes the new roster first and then writes the item's fields. The source writes them as it goes; nothing reads them in between, so only the final state is modelled.
- `copy.deepcopy` of the message, `hoster`, `modVersion`, `mapdisplayname`, `moddisplayname` and the `Slots` count are left out, because they are only displayed.
- `GameItems.GameItem.Update`: a `KeyError` for a missing required message key (`Title`, `host`, `GameState`, `PlayerOption`, `GameOption`) is not modelled. Those keys are fields of `Message`. `int(slot)` is taken as already parsed.
- `Skill.RatingTeam`: the calculator's `Team` is not part of this model. `addPlayer` is taken to append one member each time it is called, so a second call for the same player adds a second entry. If `Team` merged such calls, `OwnRatingCountedTwice` would not describe the source.
- `GameItems.GameItem.constructor`: the source sets `state`, `title`, `host`, `access`, `teams` and `mapname` to `None`. The model stores `state`, `title`, `host` and `access` as `""`, `teams` as the empty map, and `mapname` as `None`. `""` is none of the states the code tests, just like `None`. Fields the source first sets in `update` (`observers`, `teamlist`, the rating fields and the inclusion flag) start from empty or false values. `mod`, `mods`, `mapdisplayname` and `moddisplayname` are not modelled.
- `Text.Lower` lowers ASCII letters only. Python's full Unicode case mapping is not modelled.
- `self.mods` is always `{}` in `update`. `ModString` and `TruncateMod` are still modelled for any list of sim mods.
- `buyItem` is left out, because it is a `QMessageBox` question and a network send. The signal wiring in `TemporaryWidget.__init__` and the `print` in `updateCreditsCheck` are left out too.
- The source of `ReinforcementItem` is not part of this model. An item is reduced to its uid, price, hidden flag and enabled flag. Its `update(message, parent)` is taken to copy the price and hidden flag from the message and leave the enabled flag alone. `ReinforcementItem.constructor`'s initial state (price 0, visible, enabled) is an assumption.
- `Reinforcements.TemporaryWidget.ProcessReinforcementInfo`: `uids` fixes an order of the registry's keys (new uids last) that a Python 2 dictionary does not promise. The ensures of `UpdateCreditsCheck` do not mention that order. The method takes `parent.credits` as its `credits` parameter. Adding the item to the list widget is not modelled.
