/** The game list item: a lobby or running game as the client lists it,
    refreshed from the server's game-info messages. */
module GameItems {
  import opened Text
  import opened Skill
  import opened TeamBalance
  import opened LobbyRoster

  // ---------------------------------------------------------------------
  // Links

  const LivePrefix: string := "faflive://faforever.com/games/"
  const LiveSuffix: string := "/livereplay"
  const GamePrefix: string := "fafgame://faforever.com/games/"

  /** What a game link lets the user do. */
  datatype Link = LiveReplay(game: int) | JoinGame(game: int)

  /** The link `url()` offers in a game state: a live replay while the game
      is "Live", joining while it is in "Lobby", nothing otherwise. */
  function LinkOf(state: string, uid: int): (r: Option<Link>)
    ensures r.Some? <==> state == "Live" || state == "Lobby"
  {
    if state == "Live" then Some(LiveReplay(uid))
    else if state == "Lobby" then Some(JoinGame(uid))
    else None
  }

  /** `url()`: the URL text of the link (src/games/gameitem.py:127-138). */
  function Url(state: string, uid: int): (r: Option<string>)
    ensures r.Some? <==> LinkOf(state, uid).Some?
  {
    if state == "Live" then Some(LivePrefix + IntToDecimal(uid) + LiveSuffix)
    else if state == "Lobby" then Some(GamePrefix + IntToDecimal(uid))
    else None
  }

  /** Reads a link back from a URL. */
  function ParseUrl(s: string): Option<Link>
  {
    if |s| >= |LivePrefix| + |LiveSuffix| && s[..|LivePrefix|] == LivePrefix && s[|s| - |LiveSuffix|..] == LiveSuffix then
      match ParseInt(s[|LivePrefix|..|s| - |LiveSuffix|])
      case Some(n) => Some(LiveReplay(n))
      case None => None
    else if |s| >= |GamePrefix| && s[..|GamePrefix|] == GamePrefix then
      match ParseInt(s[|GamePrefix|..])
      case Some(n) => Some(JoinGame(n))
      case None => None
    else None
  }

  /** The URL names its game and what to do with it, and nothing else. */
  lemma UrlRoundTrip(state: string, uid: int)
    requires Url(state, uid).Some?
    ensures ParseUrl(Url(state, uid).value) == LinkOf(state, uid)
  {
    var d := IntToDecimal(uid);
    IntToDecimalRoundTrip(uid);
    var s := Url(state, uid).value;
    if state == "Live" {
      assert s[..|LivePrefix|] == LivePrefix;
      assert s[|s| - |LiveSuffix|..] == LiveSuffix;
      assert s[|LivePrefix|..|s| - |LiveSuffix|] == d;
    } else {
      assert s[..|GamePrefix|] == GamePrefix;
      assert s[|GamePrefix|..] == d;
      assert s[3] == 'g';
      assert s[..|LivePrefix|][3] == 'g';
      assert LivePrefix[3] == 'l';
    }
  }

  /** Two games in a linkable state never share a URL. */
  lemma UrlInjective(s1: string, u1: int, s2: string, u2: int)
    requires Url(s1, u1).Some? && Url(s1, u1) == Url(s2, u2)
    ensures u1 == u2 && LinkOf(s1, u1) == LinkOf(s2, u2)
  {
    UrlRoundTrip(s1, u1);
    UrlRoundTrip(s2, u2);
  }

  // ---------------------------------------------------------------------
  // Title and mods

  /** `title.lower().find("private") != -1` (src/games/gameitem.py:241). */
  predicate IsPrivate(title: string)
  {
    Find(Lower(title), "private") != -1
  }

  /** The seven characters of `title` from `j` on spell "private" in some
      mix of upper and lower case. */
  predicate SpellsPrivateAt(title: string, j: int)
  {
    0 <= j && j + 7 <= |title| && Lower(title[j..j + 7]) == "private"
  }

  /** A title is private exactly when it contains "private" in any mix of
      upper and lower case. */
  lemma PrivateIffContains(title: string)
    ensures IsPrivate(title) <==> exists j :: SpellsPrivateAt(title, j)
  {
    var low := Lower(title);
    if IsPrivate(title) {
      var j := Find(low, "private");
      assert low[j..j + 7] == Lower(title[j..j + 7]);
      assert SpellsPrivateAt(title, j);
    }
    if exists j :: SpellsPrivateAt(title, j) {
      var j :| SpellsPrivateAt(title, j);
      assert low[j..j + 7] == Lower(title[j..j + 7]);
      assert OccursAt(low, "private", j);
    }
  }

  /** Whatever surrounds it, a word spelling "private" makes a title private. */
  lemma PrivateWherever(a: string, w: string, b: string)
    requires Lower(w) == "private"
    ensures IsPrivate(a + w + b)
  {
    var t := a + w + b;
    assert t[|a|..|a| + 7] == w;
    assert SpellsPrivateAt(t, |a|);
    PrivateIffContains(t);
  }

  /** The mod column text shortened to fit: at most 20 characters, longer
      text cut to its first 15 and "..." (src/games/gameitem.py:420). */
  function TruncateMod(modstr: string): (r: string)
    ensures |r| <= 20
    ensures r == modstr <==> |modstr| <= 20
    ensures r != modstr ==> |r| == 18 && r[..15] == modstr[..15] && r[15..] == "..."
  {
    if |modstr| > 20 then modstr[..15] + "..." else modstr
  }

  /** Shortening twice is shortening once. */
  lemma TruncateModIdempotent(modstr: string)
    ensures TruncateMod(TruncateMod(modstr)) == TruncateMod(modstr)
  {
  }

  /** The mod column text for featured mod `featured` and the names of the
      active sim mods (src/games/gameitem.py:415-420). */
  function ModString(featured: string, simMods: seq<string>): (r: string)
    ensures |simMods| == 0 ==> r == featured
    ensures |simMods| > 0 ==> |r| <= 20
    ensures |simMods| > 0 && featured == "faf" ==> r == TruncateMod(Join(simMods, ", "))
    ensures |simMods| > 0 && featured != "faf" ==> r == TruncateMod(featured + " & " + Join(simMods, ", "))
  {
    if |simMods| == 0 then featured
    else if featured == "faf" then TruncateMod(Join(simMods, ", "))
    else TruncateMod(featured + " & " + Join(simMods, ", "))
  }

  // ---------------------------------------------------------------------
  // Tooltip options

  /** The `options` dictionary the tooltip builds: option name `names[i]`
      set to value `values[i]`, a later name overwriting an earlier one. */
  function Zipped<V>(names: seq<string>, values: seq<V>): map<string, V>
    requires |names| <= |values|
  {
    if |names| == 0 then map[]
    else Zipped(names[..|names| - 1], values)[names[|names| - 1] := values[|names| - 1]]
  }

  /** Every option name has an entry, holding the value paired with its last
      occurrence. */
  lemma {:induction false} ZippedLastWins<V>(names: seq<string>, values: seq<V>, k: string)
    requires |names| <= |values|
    ensures k in Zipped(names, values) <==> k in names
    ensures k in names ==> exists i :: 0 <= i < |names| && names[i] == k && Zipped(names, values)[k] == values[i]
                                     && forall j :: i < j < |names| ==> names[j] != k
  {
    if |names| > 0 {
      var n := |names| - 1;
      ZippedLastWins(names[..n], values, k);
      assert names == names[..n] + [names[n]];
      if k in names && names[n] != k {
        var i :| 0 <= i < n && names[..n][i] == k && Zipped(names[..n], values)[k] == values[i]
                 && forall j :: i < j < n ==> names[..n][j] != k;
        assert names[i] == k;
      }
    }
  }

  /** The loop at src/games/gameitem.py:502-504 pairing the mod's option
      names with the game's option values; None where it raises
      IndexError because there are fewer values than names. */
  method ZipOptions<V>(names: seq<string>, values: seq<V>) returns (r: Option<map<string, V>>)
    ensures r.None? <==> |values| < |names|
    ensures r.Some? ==> |names| <= |values| && r.value == Zipped(names, values)
  {
    var options: map<string, V> := map[];
    var i := 0;
    while i < |names|
      invariant 0 <= i <= |names| && i <= |values|
      invariant options == Zipped(names[..i], values)
    {
      if i >= |values| {
        return None;
      }
      options := options[names[i] := values[i]];
      assert names[..i + 1][..i] == names[..i];
      i := i + 1;
    }
    assert names[..|names|] == names;
    return Some(options);
  }

  // ---------------------------------------------------------------------
  // Permutations

  /** `items` without the element at `i`. */
  function Without<T>(items: seq<T>, i: nat): (r: seq<T>)
    requires i < |items|
    ensures |r| == |items| - 1
  {
    items[..i] + items[i + 1..]
  }

  /** `x` put in front of each of `ps`. */
  function Prefixed<T>(x: T, ps: seq<seq<T>>): (r: seq<seq<T>>)
    ensures |r| == |ps| && forall k :: 0 <= k < |ps| ==> r[k] == [x] + ps[k]
  {
    seq(|ps|, k requires 0 <= k < |ps| => [x] + ps[k])
  }

  /** `permutations(items)`, in the order the generator yields them
      (src/games/gameitem.py:511-518). */
  function Permutations<T>(items: seq<T>): seq<seq<T>>
    decreases |items|, |items| + 2
  {
    if |items| == 0 then [[]] else PickFrom(items, 0)
  }

  /** The permutations the generator yields from the `i`-th turn of its
      outer loop on. */
  function PickFrom<T>(items: seq<T>, i: nat): seq<seq<T>>
    requires i <= |items|
    decreases |items|, |items| - i + 1
  {
    if i == |items| then []
    else Prefixed(items[i], Permutations(Without(items, i))) + PickFrom(items, i + 1)
  }

  lemma WithoutMultiset<T>(items: seq<T>, i: nat)
    requires i < |items|
    ensures multiset(items) == multiset(Without(items, i)) + multiset{items[i]}
  {
    assert items == items[..i] + [items[i]] + items[i + 1..];
  }

  /** Everything yielded is a rearrangement of `items`. */
  lemma {:induction false} PermutationsSound<T>(items: seq<T>, p: seq<T>)
    requires p in Permutations(items)
    ensures multiset(p) == multiset(items)
    decreases |items|, |items| + 2
  {
    if |items| > 0 {
      PickFromSound(items, 0, p);
    }
  }

  lemma {:induction false} PickFromSound<T>(items: seq<T>, i: nat, p: seq<T>)
    requires i <= |items| && p in PickFrom(items, i)
    ensures multiset(p) == multiset(items)
    decreases |items|, |items| - i + 1
  {
    if i < |items| {
      var rest := Permutations(Without(items, i));
      var a := Prefixed(items[i], rest);
      if p in a {
        var k :| 0 <= k < |a| && a[k] == p;
        PermutationsSound(Without(items, i), rest[k]);
        WithoutMultiset(items, i);
      } else {
        PickFromSound(items, i + 1, p);
      }
    }
  }

  lemma {:induction false} PickFromContains<T>(items: seq<T>, j: nat, i: nat, p: seq<T>)
    requires j <= i < |items|
    requires p in Prefixed(items[i], Permutations(Without(items, i)))
    ensures p in PickFrom(items, j)
    decreases i - j
  {
    if j < i {
      PickFromContains(items, j + 1, i, p);
    }
  }

  /** Every rearrangement of `items` is yielded. */
  lemma {:induction false} PermutationsComplete<T>(items: seq<T>, p: seq<T>)
    requires multiset(p) == multiset(items)
    ensures p in Permutations(items)
    decreases |items|
  {
    assert |p| == |multiset(p)| == |items|;
    if |items| > 0 {
      var x := p[0];
      assert x in multiset(items);
      var i :| 0 <= i < |items| && items[i] == x;
      WithoutMultiset(items, i);
      assert p == [x] + p[1..];
      assert multiset(p) == multiset{x} + multiset(p[1..]);
      assert multiset(p[1..]) == multiset(p) - multiset{x};
      assert multiset(Without(items, i)) == multiset(items) - multiset{x};
      assert multiset(p[1..]) == multiset(Without(items, i));
      PermutationsComplete(Without(items, i), p[1..]);
      var rest := Permutations(Without(items, i));
      var k :| 0 <= k < |rest| && rest[k] == p[1..];
      assert Prefixed(x, rest)[k] == p;
      PickFromContains(items, 0, i, p);
    }
  }

  function Factorial(n: nat): nat
  {
    if n == 0 then 1 else n * Factorial(n - 1)
  }

  /** The generator yields `n!` lists for `n` items. */
  lemma {:induction false} PermutationsCount<T>(items: seq<T>)
    ensures |Permutations(items)| == Factorial(|items|)
    decreases |items|, |items| + 2
  {
    if |items| > 0 {
      PickFromCount(items, 0);
    }
  }

  lemma {:induction false} PickFromCount<T>(items: seq<T>, i: nat)
    requires 0 < |items| && i <= |items|
    ensures |PickFrom(items, i)| == (|items| - i) * Factorial(|items| - 1)
    decreases |items|, |items| - i + 1
  {
    if i < |items| {
      var f := Factorial(|items| - 1);
      PermutationsCount(Without(items, i));
      PickFromCount(items, i + 1);
      assert |PickFrom(items, i)| == f + |PickFrom(items, i + 1)|;
      assert (|items| - i) * f == f + (|items| - (i + 1)) * f;
    }
  }

  // ---------------------------------------------------------------------
  // Ordering of the list

  /** The local client as the item sees it: its login and its friends. */
  datatype Client = Client(login: string, friends: set<string>)

  /** What `__lt__` reads of an item: its client (None before the first
      update), host, privacy and uid. */
  datatype Listing = Listing(client: Option<Client>, host: string, private: bool, uid: int)

  /** `a.__lt__(b)`: uninitialised items first, then games hosted by a
      friend of `a`'s client, then public games, then by uid
      (src/games/gameitem.py:629-643). */
  predicate Less(a: Listing, b: Listing)
  {
    if a.client.None? then true
    else if b.client.None? then false
    else
      var fa, fb := a.host in a.client.value.friends, b.host in a.client.value.friends;
      if fa && !fb then true
      else if !fa && fb then false
      else if !a.private && b.private then true
      else if a.private && !b.private then false
      else a.uid < b.uid
  }

  /** `a.__ge__(b)` (src/games/gameitem.py:624-626). */
  predicate AtLeast(a: Listing, b: Listing)
  {
    !Less(a, b)
  }

  /** The sort key `Less` compares once both items know the client: friend
      games (0) before others (1), public (0) before private (1), then uid. */
  datatype SortKey = SortKey(friend: int, hidden: int, uid: int)

  function KeyOf(a: Listing, c: Client): SortKey
  {
    SortKey(if a.host in c.friends then 0 else 1, if a.private then 1 else 0, a.uid)
  }

  predicate KeyLess(x: SortKey, y: SortKey)
  {
    x.friend < y.friend
    || (x.friend == y.friend && x.hidden < y.hidden)
    || (x.friend == y.friend && x.hidden == y.hidden && x.uid < y.uid)
  }

  /** Between items of the same client, `__lt__` is the lexicographic order
      on (friend, private, uid); `__ge__` is its complement. */
  lemma LessIsKeyOrder(a: Listing, b: Listing, c: Client)
    requires a.client == Some(c) && b.client == Some(c)
    ensures Less(a, b) <==> KeyLess(KeyOf(a, c), KeyOf(b, c))
    ensures AtLeast(a, b) <==> KeyLess(KeyOf(b, c), KeyOf(a, c)) || KeyOf(a, c) == KeyOf(b, c)
  {
  }

  /** Between items of the same client `__lt__` is a strict order, total on
      items with different uids. */
  lemma LessStrictOrder(a: Listing, b: Listing, d: Listing, c: Client)
    requires a.client == Some(c) && b.client == Some(c) && d.client == Some(c)
    ensures !Less(a, a)
    ensures Less(a, b) ==> !Less(b, a)
    ensures Less(a, b) && Less(b, d) ==> Less(a, d)
    ensures a.uid != b.uid ==> Less(a, b) || Less(b, a)
  {
    LessIsKeyOrder(a, b, c);
    LessIsKeyOrder(b, a, c);
    LessIsKeyOrder(b, d, c);
    LessIsKeyOrder(a, d, c);
    LessIsKeyOrder(a, a, c);
  }

  /** An item not yet updated is less than every item, itself included, and
      no updated item is less than it. */
  lemma UninitialisedFirst(a: Listing, b: Listing)
    requires a.client.None?
    ensures Less(a, a) && Less(a, b) && !AtLeast(a, a)
    ensures b.client.Some? ==> !Less(b, a) && AtLeast(b, a)
  {
  }

  // ---------------------------------------------------------------------
  // The item

  /** A game-info message from the server. None marks a key that is absent,
      so that `message.get(key, default)` falls back to its default. */
  datatype Message = Message(
    id: Option<int>, title: string, host: string, access: Option<string>,
    options: Option<seq<bool>>, numPlayers: Option<int>, gameState: string,
    scenario: Option<string>, slots: seq<Slot>)

  /** How `update` ends: with the players it reports to the client's
      `usersUpdated` signal, or with the exception it raises. */
  datatype Outcome =
    | Closed(emitted: seq<string>)
    | MapIndexError
    | TooltipIndexError
    | Quiet
    | Announced(affected: set<string>)

  function Default<T>(o: Option<T>, d: T): T
  {
    if o.Some? then o.value else d
  }

  function SetOf(s: seq<string>): set<string>
  {
    set p | p in s
  }

  /** The map-name lookup does not raise: no scenario, or one with a map
      folder. */
  predicate MapReadable(msg: Message)
  {
    msg.scenario.Some? ==> MapName(msg.scenario.value).Some?
  }

  /** The message gets past the "closed" return and the map-name lookup:
      `update` rebuilds the roster from it. */
  predicate RebuildsRoster(msg: Message)
  {
    msg.gameState != "closed" && MapReadable(msg)
  }

  /** `message.get('id', 0)`. */
  function IdOf(msg: Message): int
  {
    Default(msg.id, 0)
  }

  /** `message.get('options', [])`. */
  function OptionsOf(msg: Message): seq<bool>
  {
    Default(msg.options, [])
  }

  /** `client.urls` after the entries of `players` were deleted. */
  function ClearUrls(urls: map<string, Option<string>>, players: seq<string>): map<string, Option<string>>
  {
    map p | p in urls && p !in players :: urls[p]
  }

  /** `client.urls` after every one of `players` was pointed at `link`. */
  function PointUrls(urls: map<string, Option<string>>, players: seq<string>, link: Option<string>): map<string, Option<string>>
  {
    map p | p in urls.Keys + SetOf(players) :: if p in players then link else urls[p]
  }

  /** Pointing one more player is one more map update. */
  lemma PointUrlsSnoc(urls: map<string, Option<string>>, players: seq<string>, x: string, link: Option<string>)
    ensures PointUrls(urls, players + [x], link) == PointUrls(urls, players, link)[x := link]
  {
    var a := PointUrls(urls, players + [x], link);
    var b := PointUrls(urls, players, link)[x := link];
    assert a.Keys == b.Keys;
    forall p | p in a.Keys
      ensures a[p] == b[p]
    {
      assert p in players + [x] <==> p in players || p == x;
    }
  }

  /** A refresh points the new players at the game, drops the players who
      left, and leaves every other player's entry alone. */
  lemma UrlsOnlyForAffected(urls: map<string, Option<string>>, before: seq<string>, after: seq<string>, link: Option<string>)
    ensures var r := PointUrls(ClearUrls(urls, before), after, link);
      && (forall p :: p in after ==> p in r && r[p] == link)
      && (forall p :: p in before && p !in after ==> p !in r)
      && (forall p :: p !in before && p !in after ==> (p in r <==> p in urls) && (p in r ==> r[p] == urls[p]))
  {
  }

  /** The loop deleting the links of the players listed so far
      (src/games/gameitem.py:245-248). */
  method ClearPlayerUrls(urls: map<string, Option<string>>, players: seq<string>)
    returns (r: map<string, Option<string>>)
    ensures r == ClearUrls(urls, players)
  {
    r := urls;
    var i := 0;
    while i < |players|
      invariant 0 <= i <= |players|
      invariant r == ClearUrls(urls, players[..i])
    {
      var player := players[i];
      if player in r {
        r := r - {player};
      }
      assert players[..i + 1] == players[..i] + [player];
      i := i + 1;
    }
    assert players[..|players|] == players;
  }

  /** The loop pointing every player at the game (src/games/gameitem.py:436-438). */
  method PointPlayerUrls(urls: map<string, Option<string>>, players: seq<string>, link: Option<string>)
    returns (r: map<string, Option<string>>)
    ensures r == PointUrls(urls, players, link)
  {
    r := urls;
    var i := 0;
    while i < |players|
      invariant 0 <= i <= |players|
      invariant r == PointUrls(urls, players[..i], link)
    {
      PointUrlsSnoc(urls, players[..i], players[i], link);
      assert players[..i + 1] == players[..i] + [players[i]];
      r := r[players[i] := link];
      i := i + 1;
    }
    assert players[..|players|] == players;
  }

  /** The end of `update` (src/games/gameitem.py:407, 426-443) for an item with
      the header `options`, `uid` and `state`: the tooltip zips the mod's
      option names with `options` (IndexError when there are fewer values),
      an item with uid 0 stops there, and otherwise every current player's
      url points at the game and the players who were or are in it are
      announced. */
  method Announce(modOptions: seq<string>, options: seq<bool>, uid: int, state: string,
                  before: seq<string>, after: seq<string>, urls: map<string, Option<string>>)
    returns (outcome: Outcome, newUrls: map<string, Option<string>>)
    ensures outcome.TooltipIndexError? <==> |options| < |modOptions|
    ensures outcome.Quiet? <==> |modOptions| <= |options| && uid == 0
    ensures outcome.Announced? <==> |modOptions| <= |options| && uid != 0
    ensures outcome.Announced? ==>
      && outcome.affected == SetOf(before) + SetOf(after)
      && newUrls == PointUrls(urls, after, Url(state, uid))
      && (forall p :: p in outcome.affected <==> p in before || p in after)
    ensures !outcome.Announced? ==> newUrls == urls
  {
    newUrls := urls;
    var tooltipOptions := ZipOptions(modOptions, options);
    if tooltipOptions.None? {
      return TooltipIndexError, newUrls;
    }
    if uid == 0 {
      return Quiet, newUrls;
    }
    newUrls := PointPlayerUrls(urls, after, Url(state, uid));
    outcome := Announced(SetOf(before) + SetOf(after));
  }

  /** The teams dictionary and its key order agree, no team is empty, and
      a quality is only kept for a roster that divides into the teams. */
  ghost predicate WellFormed(keys: seq<int>, teams: map<int, seq<string>>, realPlayers: seq<string>,
                             nTeams: int, quality: real)
  {
    && (forall i, j :: 0 <= i < j < |keys| ==> keys[i] != keys[j])
    && (forall k :: k in keys <==> k in teams)
    && (forall k :: k in teams ==> |teams[k]| > 0)
    && (quality != 0.0 ==> nTeams == |teams| && nTeams > 0 && |realPlayers| % nTeams == 0)
  }

  /** A game list entry. */
  class GameItem {
    var uid: int
    var title: string
    var host: string
    var access: string
    var state: string
    var private: bool
    var mapname: Option<string>
    var client: Option<Client>
    var options: seq<bool>
    var numplayers: int
    var players: seq<string>
    var observers: seq<string>
    /** The key order of `teams`, as the Python dictionary keeps it. */
    var teamKeys: seq<int>
    var teams: map<int, seq<string>>
    var teamlist: seq<int>
    var realPlayers: seq<string>
    var teamsTrueskill: seq<RatingTeam>
    var invalidTS: bool
    var gamequality: real
    var nTeams: int
    var playerIncluded: bool
    var playerIncludedText: string

    /** The teams dictionary and its key order agree, no team is empty, and
        a quality is only kept for a roster that divides into the teams. */
    ghost predicate Valid()
      reads this`teamKeys, this`teams, this`realPlayers, this`nTeams, this`gamequality
    {
      WellFormed(teamKeys, teams, realPlayers, nTeams, gamequality)
    }

    /** `GameItem(uid)`: no client, state, title or teams yet. */
    constructor(id: int)
      ensures Valid()
      ensures uid == id && client.None? && state == "" && title == "" && host == ""
      ensures mapname.None? && players == [] && teams == map[] && options == [] && nTeams == 0
    {
      uid := id;
      title, host, access, state := "", "", "", "";
      private := false;
      mapname := None;
      client := None;
      options := [];
      numplayers := 0;
      players, observers := [], [];
      teamKeys, teams := [], map[];
      teamlist, realPlayers, teamsTrueskill := [], [], [];
      invalidTS := false;
      gamequality := 0.0;
      nTeams := 0;
      playerIncluded := false;
      playerIncludedText := "";
    }

    /** The fields `update` copies from a message header, as they are after
        reading `msg` for the client `c`. */
    predicate HeaderFrom(msg: Message, c: Client)
      reads this`client, this`uid, this`title, this`host, this`access, this`options
      reads this`state, this`private, this`teamlist
    {
      && client == Some(c) && uid == IdOf(msg) && title == msg.title && host == msg.host
      && access == Default(msg.access, "public") && options == OptionsOf(msg)
      && state == msg.gameState && private == IsPrivate(msg.title) && teamlist == []
    }

    /** The roster fields as `update` resets them before rebuilding. */
    predicate Unseated()
      reads this`teamKeys, this`teams, this`observers, this`realPlayers, this`teamsTrueskill
      reads this`invalidTS, this`gamequality, this`nTeams
    {
      && teams == map[] && teamKeys == [] && observers == [] && realPlayers == []
      && teamsTrueskill == [] && !invalidTS && gamequality == 0.0 && nTeams == 0
    }

    /** The team fields hold the roster `r`'s players, observers and teams. */
    predicate SeatedAs(r: Roster)
      reads this`players, this`observers, this`numplayers, this`teamKeys, this`teams
      reads this`playerIncluded, this`playerIncludedText
    {
      && players == r.players && observers == r.observers && numplayers == |r.players|
      && teamKeys == r.keys && teams == r.teams && playerIncluded == r.included
      && playerIncludedText == WithYou(r.included)
    }

    /** The rating fields hold the roster `r`'s rating teams and quality. */
    predicate RatedAs(r: Roster)
      reads this`realPlayers, this`teamsTrueskill, this`invalidTS, this`nTeams, this`gamequality
    {
      && realPlayers == r.realPlayers && teamsTrueskill == r.rated && invalidTS == r.invalid
      && nTeams == r.nTeams && gamequality == r.quality
    }

    /** The header part of `update` (src/games/gameitem.py:211-241): the
        message's fields are copied and missing ones defaulted. */
    method ReadHeader(msg: Message, c: Client)
      modifies this`client, this`uid, this`title, this`host, this`access, this`options, this`state
      modifies this`private, this`teamlist
      ensures HeaderFrom(msg, c)
    {
      client := Some(c);
      uid := IdOf(msg);
      title := msg.title;
      host := msg.host;
      access := Default(msg.access, "public");
      options := OptionsOf(msg);
      state := msg.gameState;
      teamlist := [];
      private := IsPrivate(title);
    }

    /** The roster fields as `update` resets them, with the player count the
        message announces (src/games/gameitem.py:217-218, 224, 232-238). */
    method ResetRoster(msg: Message)
      modifies this`teamKeys, this`teams, this`observers, this`realPlayers, this`teamsTrueskill
      modifies this`invalidTS, this`gamequality, this`nTeams, this`numplayers
      ensures Valid() && Unseated() && numplayers == Default(msg.numPlayers, 0)
    {
      teams, teamKeys := map[], [];
      observers := [];
      numplayers := Default(msg.numPlayers, 0);
      realPlayers := [];
      teamsTrueskill := [];
      gamequality := 0.0;
      invalidTS := false;
      nTeams := 0;
      assert WellFormed([], map[], [], 0, 0.0);
    }

    /** What `update` leaves behind when it returns early, for a closed game
        or on the IndexError of the map lookup: the header is read and the
        old roster dropped; the players and the map name stay. */
    method Clear(msg: Message, c: Client)
      modifies this`client, this`uid, this`title, this`host, this`access, this`options, this`state
      modifies this`private, this`teamlist
      modifies this`teamKeys, this`teams, this`observers, this`realPlayers, this`teamsTrueskill
      modifies this`invalidTS, this`gamequality, this`nTeams, this`numplayers
      ensures Valid() && HeaderFrom(msg, c) && Unseated() && numplayers == Default(msg.numPlayers, 0)
      ensures players == old(players) && mapname == old(mapname) && playerIncluded == old(playerIncluded)
    {
      ResetRoster(msg);
      ReadHeader(msg, c);
    }

    /** Stores the players, observers and teams of a rebuilt roster
        (src/games/gameitem.py:293-314, 395-399). */
    method SeatTeams(r: Roster)
      modifies this`players, this`observers, this`numplayers, this`teamKeys, this`teams
      modifies this`playerIncluded, this`playerIncludedText
      ensures SeatedAs(r)
    {
      players, observers, numplayers := r.players, r.observers, |r.players|;
      teamKeys, teams, playerIncluded := r.keys, r.teams, r.included;
      playerIncludedText := WithYou(playerIncluded);
    }

    /** Stores the rating teams and the quality of a rebuilt roster
        (src/games/gameitem.py:329-381); with the teams already in place the
        item is well formed again. */
    method SeatRatings(r: Roster)
      requires WellFormed(r.keys, r.teams, r.realPlayers, r.nTeams, r.quality)
      requires teamKeys == r.keys && teams == r.teams
      modifies this`realPlayers, this`teamsTrueskill, this`invalidTS, this`nTeams, this`gamequality
      ensures Valid() && RatedAs(r)
    {
      realPlayers, teamsTrueskill, invalidTS := r.realPlayers, r.rated, r.invalid;
      nTeams, gamequality := r.nTeams, r.quality;
    }

    /** Stores what `update` computed from a message that gets past the map
        lookup: the rebuilt roster `r`, the map name `m` and the header. The
        three groups of fields are disjoint, so the order in which they are
        written does not matter. */
    method Install(msg: Message, c: Client, m: Option<string>, r: Roster)
      requires WellFormed(r.keys, r.teams, r.realPlayers, r.nTeams, r.quality)
      modifies this
      ensures Valid() && HeaderFrom(msg, c) && mapname == m && SeatedAs(r) && RatedAs(r)
    {
      Seat(r);
      mapname := m;
      ReadHeader(msg, c);
    }

    /** Stores a rebuilt roster: its teams, then its ratings. */
    method Seat(r: Roster)
      requires WellFormed(r.keys, r.teams, r.realPlayers, r.nTeams, r.quality)
      modifies this`players, this`observers, this`numplayers, this`teamKeys, this`teams
      modifies this`playerIncluded, this`playerIncludedText
      modifies this`realPlayers, this`teamsTrueskill, this`invalidTS, this`nTeams, this`gamequality
      ensures Valid() && SeatedAs(r) && RatedAs(r)
    {
      SeatTeams(r);
      SeatRatings(r);
    }

    /** `update(message, client)` (src/games/gameitem.py:203-443). The client
        contributes its login, its user ratings (`getUser(name).rating`, a
        name without an entry having none), `urls`, and the options of the
        featured mod (`modOptions`); `quality` is the match-quality
        calculator and `percent` is `round(q * 100, 2)`. The new values are
        computed first and the fields written after: each value depends only
        on the message and the previous player list, so this order ends in
        the same state as the source's. */
    method Update(msg: Message, c: Client, ratings: map<string, Rating>, quality: QualityFn,
                  percent: real -> real, modOptions: seq<string>, urls: map<string, Option<string>>)
      returns (outcome: Outcome, newUrls: map<string, Option<string>>)
      modifies this
      ensures Valid() && HeaderFrom(msg, c)
      ensures !RebuildsRoster(msg) ==>
        && outcome == (if msg.gameState == "closed" then Closed(old(players)) else MapIndexError)
        && newUrls == ClearUrls(urls, old(players))
        && players == old(players) && mapname == old(mapname) && playerIncluded == old(playerIncluded)
        && playerIncludedText == old(playerIncludedText)
        && Unseated() && numplayers == Default(msg.numPlayers, 0)
      ensures RebuildsRoster(msg) ==>
        var r := Assemble(msg.gameState, msg.slots, c.login, ratings, quality, percent);
        && mapname == (if msg.scenario.Some? then MapName(msg.scenario.value) else old(mapname))
        && SeatedAs(r) && RatedAs(r)
        && (outcome.TooltipIndexError? <==> |OptionsOf(msg)| < |modOptions|)
        && (outcome.Quiet? <==> |modOptions| <= |OptionsOf(msg)| && IdOf(msg) == 0)
        && (outcome.Announced? <==> |modOptions| <= |OptionsOf(msg)| && IdOf(msg) != 0)
        && (outcome.Announced? ==>
              outcome.affected == SetOf(old(players)) + SetOf(r.players)
              && newUrls == PointUrls(ClearUrls(urls, old(players)), r.players, Url(msg.gameState, IdOf(msg))))
        && (!outcome.Announced? ==> newUrls == ClearUrls(urls, old(players)))
    {
      newUrls := ClearPlayerUrls(urls, players);

      if msg.gameState == "closed" {
        outcome := Closed(players);
        Clear(msg, c);
        return;
      }

      var m := mapname;
      if msg.scenario.Some? {
        m := MapName(msg.scenario.value);
        if m.None? {
          outcome := MapIndexError;
          Clear(msg, c);
          return;
        }
      }

      var before := players;
      var r := RebuildRoster(msg.gameState, msg.slots, c.login, ratings, quality, percent);
      AssembleWellFormed(msg.gameState, msg.slots, c.login, ratings, quality, percent);
      Install(msg, c, m, r);

      outcome, newUrls := Announce(modOptions, options, uid, state, before, players, newUrls);
    }

    /** `getBestMatchup()` (src/games/gameitem.py:537-622): `known` is
        `client.players` with each entry's rating mean and deviation,
        `quality` the match-quality calculator, `percent` is
        `round(q * 100, 2)` and `show` is `str`. */
    method GetBestMatchup(known: map<string, Rating>, quality: QualityFn, percent: real -> real, show: real -> string)
      returns (r: Reply)
      ensures r == Render(BestVerdict(state, teamlist, players, known, quality, percent), show)
    {
      ghost var v := BestVerdict(state, teamlist, players, known, quality, percent);
      if state != "open" {
        assert v == GameInPlay;
        return Returned("game in play");
      }

      var formed := CountTeams(teamlist);
      if formed != 2 || |players| <= 2 {
        assert v == NoTeamsFormed;
        return Returned("No teams formed yet");
      }
      if |players| % formed != 0 {
        assert v == MissingPlayers(formed);
        return Returned("Missing players for this number of teams (" + IntToDecimal(formed) + ")");
      }
      // `len(players) / nTeams == 1` cannot hold here: two teams and more
      // than two players (see BestVerdictGates), so that branch is not taken.

      var missing, items := SeedPlayers(players, known);
      if missing.Some? {
        assert v == UnknownPlayer(missing.value);
        return KeyErrorRaised(missing.value);
      }
      var msg := DraftMessage(items, known, quality, percent, show);
      assert v == DraftedVerdict(Names(SortDescending(items)), known, quality, percent);
      return Returned(msg);
    }
  }
}
