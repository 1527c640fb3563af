/** The snake-draft team balancer of the game item: `assignToTeam` and the
    pure part of `getBestMatchup` (gating, seeding order, dealing out and the
    summary message). The method that runs it on a game item's fields is
    `GameItems.GameItem.GetBestMatchup`. */
module TeamBalance {
  import opened Text
  import opened Skill

  /** Number of one-bits in the binary representation of `n`. */
  function Popcount(n: nat): nat
  {
    if n == 0 then 0 else n % 2 + Popcount(n / 2)
  }

  /** The team of the `n`-th seeded player: 1 when `n` has an even number of
      one-bits, 2 otherwise (the Thue-Morse sequence shifted to {1, 2}). */
  function TeamOf(n: nat): int
  {
    if Popcount(n) % 2 == 0 then 1 else 2
  }

  /** `assignToTeam(num)`: counts the one-bits of `num` by repeated halving. */
  method AssignToTeam(num: nat) returns (team: int)
    ensures team == TeamOf(num)
    ensures team == 1 || team == 2
  {
    var even := 0;
    var n: nat := num;
    while n > 0
      invariant even + Popcount(n) == Popcount(num)
      decreases n
    {
      var rest := n % 2;
      if rest == 1 {
        even := even + 1;
      }
      n := (n - rest) / 2;
    }
    if even % 2 == 0 {
      team := 1;
    } else {
      team := 2;
    }
  }

  /** Doubling an index does not change its team. */
  lemma TeamOfDouble(n: nat)
    ensures TeamOf(2 * n) == TeamOf(n)
  {
    assert Popcount(2 * n) == Popcount(n);
  }

  /** Indices `2k` and `2k+1` always go to different teams. */
  lemma TeamOfPairSplits(k: nat)
    ensures {TeamOf(2 * k), TeamOf(2 * k + 1)} == {1, 2}
  {
    assert Popcount(2 * k + 1) == 1 + Popcount(k);
    assert Popcount(2 * k) == Popcount(k);
  }

  /** How many of the indices `0 .. n-1` go to team `t`. */
  function CountTeam(n: nat, t: int): nat
  {
    if n == 0 then 0 else CountTeam(n - 1, t) + (if TeamOf(n - 1) == t then 1 else 0)
  }

  /** Among the first `2k` indices each team gets exactly `k`. */
  lemma {:induction false} CountTeamEven(k: nat)
    ensures CountTeam(2 * k, 1) == k && CountTeam(2 * k, 2) == k
  {
    if k > 0 {
      CountTeamEven(k - 1);
      TeamOfPairSplits(k - 1);
    }
  }

  /** The players `bestTeams[team]` receives when the seeded `order` is dealt
      out: the `i`-th goes to `TeamOf(i)`. */
  function Deal(order: seq<string>, team: int): seq<string>
  {
    if |order| == 0 then []
    else Deal(order[..|order| - 1], team) + (if TeamOf(|order| - 1) == team then [order[|order| - 1]] else [])
  }

  lemma {:induction false} DealSize(order: seq<string>, team: int)
    ensures |Deal(order, team)| == CountTeam(|order|, team)
  {
    if |order| > 0 {
      DealSize(order[..|order| - 1], team);
    }
  }

  /** The two teams differ in size by at most one, and are equal for an even
      number of players. */
  lemma DealBalanced(order: seq<string>)
    ensures -1 <= |Deal(order, 1)| - |Deal(order, 2)| <= 1
    ensures |order| % 2 == 0 ==> |Deal(order, 1)| == |Deal(order, 2)|
  {
    DealSize(order, 1);
    DealSize(order, 2);
    var k := |order| / 2;
    CountTeamEven(k);
    if |order| % 2 == 1 {
      assert |order| == 2 * k + 1;
    }
  }

  /** Dealing loses and invents nobody: the two teams together are the order. */
  lemma {:induction false} DealPartition(order: seq<string>)
    ensures multiset(Deal(order, 1)) + multiset(Deal(order, 2)) == multiset(order)
  {
    if |order| > 0 {
      var n := |order| - 1;
      DealPartition(order[..n]);
      assert order == order[..n] + [order[n]];
      assert multiset(order) == multiset(order[..n]) + multiset{order[n]};
      if TeamOf(n) == 1 {
        assert Deal(order, 1) == Deal(order[..n], 1) + [order[n]];
        assert Deal(order, 2) == Deal(order[..n], 2);
      } else {
        assert Deal(order, 2) == Deal(order[..n], 2) + [order[n]];
        assert Deal(order, 1) == Deal(order[..n], 1);
      }
    }
  }

  /** The `i`-th player of the order is on team `TeamOf(i)`. */
  lemma {:induction false} DealPlacement(order: seq<string>, i: nat)
    requires i < |order|
    ensures order[i] in Deal(order, TeamOf(i))
  {
    var n := |order| - 1;
    if i < n {
      DealPlacement(order[..n], i);
    }
  }

  /** `getBestMatchup`'s loop filling `bestTeams = {1: [], 2: []}`. */
  method Draft(order: seq<string>) returns (team1: seq<string>, team2: seq<string>)
    ensures team1 == Deal(order, 1) && team2 == Deal(order, 2)
  {
    var bestTeams: map<int, seq<string>> := map[1 := [], 2 := []];
    var i := 0;
    while i < |order|
      invariant 0 <= i <= |order|
      invariant 1 in bestTeams && 2 in bestTeams
      invariant bestTeams[1] == Deal(order[..i], 1) && bestTeams[2] == Deal(order[..i], 2)
    {
      var t := AssignToTeam(i);
      bestTeams := bestTeams[t := bestTeams[t] + [order[i]]];
      assert order[..i + 1][..i] == order[..i];
      i := i + 1;
    }
    assert order[..|order|] == order;
    team1, team2 := bestTeams[1], bestTeams[2];
  }

  /** A `(name, rating)` item of the `playerlist` dictionary. */
  datatype Entry = Entry(name: string, skill: real)

  /** The order of `sorted(..., key=(rating, name), reverse=True)`: higher
      conservative skill first, equal skill by name descending. */
  predicate Before(a: Entry, b: Entry)
  {
    a.skill > b.skill || (a.skill == b.skill && LexLess(b.name, a.name))
  }

  lemma BeforeIrreflexive(a: Entry)
    ensures !Before(a, a)
  {
    LexIrreflexive(a.name);
  }

  lemma BeforeAsymmetric(a: Entry, b: Entry)
    ensures Before(a, b) ==> !Before(b, a)
  {
    LexAsymmetric(b.name, a.name);
  }

  lemma BeforeTransitive(a: Entry, b: Entry, c: Entry)
    ensures Before(a, b) && Before(b, c) ==> Before(a, c)
  {
    LexTransitive(c.name, b.name, a.name);
  }

  lemma BeforeTotal(a: Entry, b: Entry)
    requires a.name != b.name
    ensures Before(a, b) || Before(b, a)
  {
    LexTotal(a.name, b.name);
  }

  /** Strictly descending in the draft order (so no entry twice). */
  predicate Descending(s: seq<Entry>)
  {
    forall i, j :: 0 <= i < j < |s| ==> Before(s[i], s[j])
  }

  function Insert(e: Entry, s: seq<Entry>): (r: seq<Entry>)
    ensures multiset(r) == multiset(s) + multiset{e}
  {
    if |s| == 0 then [e]
    else if Before(e, s[0]) then [e] + s
    else
      assert s == [s[0]] + s[1..];
      [s[0]] + Insert(e, s[1..])
  }

  /** Python's `sorted(..., reverse=True)` over the draft order. */
  function SortDescending(s: seq<Entry>): (r: seq<Entry>)
    ensures multiset(r) == multiset(s)
  {
    if |s| == 0 then []
    else
      assert s == [s[0]] + s[1..];
      Insert(s[0], SortDescending(s[1..]))
  }

  predicate DistinctNames(s: seq<Entry>)
  {
    forall i, j :: 0 <= i < j < |s| ==> s[i].name != s[j].name
  }

  lemma {:induction false} InsertDescending(e: Entry, s: seq<Entry>)
    requires Descending(s)
    requires forall x :: x in s ==> x.name != e.name
    ensures Descending(Insert(e, s))
  {
    if |s| == 0 {
    } else if Before(e, s[0]) {
      forall j | 0 <= j < |s|
        ensures Before(e, s[j])
      {
        BeforeTransitive(e, s[0], s[j]);
      }
    } else {
      BeforeTotal(e, s[0]);
      InsertDescending(e, s[1..]);
      var tail := Insert(e, s[1..]);
      forall x | x in tail
        ensures Before(s[0], x)
      {
        assert x in multiset(tail);
        if x != e {
          assert x in multiset(s[1..]);
          var j :| 0 <= j < |s[1..]| && s[1..][j] == x;
          assert s[j + 1] == x;
        }
      }
      DescendingCons(s[0], tail);
    }
  }

  lemma DescendingCons(x: Entry, t: seq<Entry>)
    requires Descending(t)
    requires forall y :: y in t ==> Before(x, y)
    ensures Descending([x] + t)
  {
    var r := [x] + t;
    forall i, j | 0 <= i < j < |r|
      ensures Before(r[i], r[j])
    {
      if i == 0 {
        assert r[j] == t[j - 1];
      } else {
        assert r[i] == t[i - 1] && r[j] == t[j - 1];
      }
    }
  }

  /** Sorting entries with distinct names gives a strictly descending order. */
  lemma {:induction false} SortDescendingSorted(s: seq<Entry>)
    requires DistinctNames(s)
    ensures Descending(SortDescending(s))
  {
    if |s| > 0 {
      assert DistinctNames(s[1..]) by {
        forall i, j | 0 <= i < j < |s[1..]|
          ensures s[1..][i].name != s[1..][j].name
        {
          assert s[1..][i] == s[i + 1] && s[1..][j] == s[j + 1];
        }
      }
      SortDescendingSorted(s[1..]);
      forall x | x in SortDescending(s[1..])
        ensures x.name != s[0].name
      {
        assert x in multiset(SortDescending(s[1..]));
        assert x in multiset(s[1..]);
        var j :| 0 <= j < |s[1..]| && s[1..][j] == x;
        assert s[j + 1] == x;
      }
      InsertDescending(s[0], SortDescending(s[1..]));
    }
  }

  /** Two strictly descending orders of the same entries are the same
      order: the draft order does not depend on the order of the input. */
  lemma {:induction false} DescendingUnique(a: seq<Entry>, b: seq<Entry>)
    requires Descending(a) && Descending(b)
    requires forall x :: x in a <==> x in b
    ensures a == b
  {
    assert |a| > 0 ==> a[0] in b;
    assert |b| > 0 ==> b[0] in a;
    if |a| > 0 {
      assert a[0] in b;
      var k :| 0 <= k < |b| && b[k] == a[0];
      assert b[0] in a;
      var m :| 0 <= m < |a| && a[m] == b[0];
      if k > 0 {
        if m > 0 {
          BeforeAsymmetric(a[0], b[0]);
        } else {
          BeforeIrreflexive(b[0]);
        }
        assert false;
      }
      forall x
        ensures x in a[1..] <==> x in b[1..]
      {
        if x in a[1..] {
          var i :| 0 <= i < |a[1..]| && a[1..][i] == x;
          assert Before(a[0], x) by { assert a[i + 1] == x; }
          BeforeIrreflexive(x);
          assert x in b && x != b[0];
          var j :| 0 <= j < |b| && b[j] == x;
          assert b[1..][j - 1] == x;
        }
        if x in b[1..] {
          var i :| 0 <= i < |b[1..]| && b[1..][i] == x;
          assert Before(b[0], x) by { assert b[i + 1] == x; }
          BeforeIrreflexive(x);
          assert x in a && x != a[0];
          var j :| 0 <= j < |a| && a[j] == x;
          assert a[1..][j - 1] == x;
        }
      }
      DescendingUnique(a[1..], b[1..]);
      assert a == [a[0]] + a[1..] && b == [b[0]] + b[1..];
    }
  }

  /** The keys of the `playerlist` dictionary built from `players`: each name
      once, in order of first appearance. */
  function Distinct(s: seq<string>): (r: seq<string>)
    ensures forall x :: x in r <==> x in s
    ensures forall i, j :: 0 <= i < j < |r| ==> r[i] != r[j]
  {
    if |s| == 0 then []
    else
      var d := Distinct(s[..|s| - 1]);
      assert s == s[..|s| - 1] + [s[|s| - 1]];
      if s[|s| - 1] in d then d else d + [s[|s| - 1]]
  }

  /** The `playerlist` items for the given names. */
  function Entries(names: seq<string>, known: map<string, Rating>): (r: seq<Entry>)
    requires forall p :: p in names ==> p in known
  {
    seq(|names|, i requires 0 <= i < |names| => Entry(names[i], ConservativeSkill(known[names[i]])))
  }

  /** The seeding order of `getBestMatchup`. */
  function DraftOrder(players: seq<string>, known: map<string, Rating>): seq<Entry>
    requires forall p :: p in players ==> p in known
  {
    SortDescending(Entries(Distinct(players), known))
  }

  /** The names of entries, in order. */
  function Names(s: seq<Entry>): (r: seq<string>)
    ensures |r| == |s| && forall i :: 0 <= i < |s| ==> r[i] == s[i].name
  {
    seq(|s|, i requires 0 <= i < |s| => s[i].name)
  }

  lemma EntriesMembers(names: seq<string>, known: map<string, Rating>, e: Entry)
    requires forall p :: p in names ==> p in known
    ensures e in Entries(names, known) <==> e.name in names && e.skill == ConservativeSkill(known[e.name])
  {
    var es := Entries(names, known);
    if e.name in names && e.skill == ConservativeSkill(known[e.name]) {
      var i :| 0 <= i < |names| && names[i] == e.name;
      assert es[i] == e;
    }
  }

  /** The seeding order holds every distinct player exactly once, with its
      conservative skill, strictly descending by (skill, name). */
  lemma DraftOrderSpec(players: seq<string>, known: map<string, Rating>)
    requires forall p :: p in players ==> p in known
    ensures Descending(DraftOrder(players, known))
    ensures forall e :: e in DraftOrder(players, known) <==> e.name in players && e.skill == ConservativeSkill(known[e.name])
  {
    var names := Distinct(players);
    var es := Entries(names, known);
    assert DistinctNames(es);
    SortDescendingSorted(es);
    forall e
      ensures e in DraftOrder(players, known) <==> e.name in players && e.skill == ConservativeSkill(known[e.name])
    {
      assert e in DraftOrder(players, known) <==> e in multiset(es);
      EntriesMembers(names, known, e);
    }
  }

  /** The seeding order depends only on which players are present, not on
      their order or repetitions in `players`. */
  lemma DraftOrderIndependent(p1: seq<string>, p2: seq<string>, known: map<string, Rating>)
    requires forall p :: p in p1 ==> p in known
    requires forall p :: p in p1 <==> p in p2
    ensures DraftOrder(p1, known) == DraftOrder(p2, known)
  {
    DraftOrderSpec(p1, known);
    DraftOrderSpec(p2, known);
    DescendingUnique(DraftOrder(p1, known), DraftOrder(p2, known));
  }

  /** In the seeding order no name appears twice. */
  lemma DraftOrderNamesDistinct(players: seq<string>, known: map<string, Rating>)
    requires forall p :: p in players ==> p in known
    ensures var s := DraftOrder(players, known);
      forall i, j :: 0 <= i < j < |s| ==> s[i].name != s[j].name
  {
    var s := DraftOrder(players, known);
    DraftOrderSpec(players, known);
    forall i, j | 0 <= i < j < |s|
      ensures s[i].name != s[j].name
    {
      if s[i].name == s[j].name {
        assert s[i] in s && s[j] in s;
        assert s[i] == s[j];
        assert Before(s[i], s[j]);
        BeforeIrreflexive(s[i]);
      }
    }
  }

  /** Number of entries of `self.teamlist` that are not -1. */
  function CountFormed(teamlist: seq<int>): nat
  {
    if |teamlist| == 0 then 0
    else CountFormed(teamlist[..|teamlist| - 1]) + (if teamlist[|teamlist| - 1] != -1 then 1 else 0)
  }

  /** The first player without an entry in `client.players`: where the
      seeding loop raises KeyError. */
  function FirstUnknown(players: seq<string>, known: map<string, Rating>): (r: Option<string>)
    ensures r.None? <==> forall p :: p in players ==> p in known
    ensures r.Some? ==> r.value in players && r.value !in known
  {
    if |players| == 0 then None
    else if players[0] !in known then Some(players[0])
    else
      assert players == [players[0]] + players[1..];
      FirstUnknown(players[1..], known)
  }

  /** The seeding loop raises KeyError at the first player it cannot find. */
  lemma {:induction false} FirstUnknownAt(players: seq<string>, known: map<string, Rating>, i: nat)
    requires i < |players| && players[i] !in known
    requires forall j :: 0 <= j < i ==> players[j] in known
    ensures FirstUnknown(players, known) == Some(players[i])
  {
    if i > 0 {
      FirstUnknownAt(players[1..], known, i - 1);
    }
  }

  /** One rating team per drafted name, holding that player when it has an
      entry in `known` and empty otherwise. */
  function SoloTeams(names: seq<string>, known: map<string, Rating>): seq<RatingTeam>
  {
    seq(|names|, i requires 0 <= i < |names| => if names[i] in known then [Member(names[i], known[names[i]])] else [])
  }

  /** `getBestMatchup`'s count of the formed teams. */
  method CountTeams(teamlist: seq<int>) returns (formed: nat)
    ensures formed == CountFormed(teamlist)
  {
    formed := 0;
    var i := 0;
    while i < |teamlist|
      invariant 0 <= i <= |teamlist|
      invariant formed == CountFormed(teamlist[..i])
    {
      if teamlist[i] != -1 {
        formed := formed + 1;
      }
      assert teamlist[..i + 1][..i] == teamlist[..i];
      i := i + 1;
    }
    assert teamlist[..|teamlist|] == teamlist;
  }

  /** `getBestMatchup`'s `playerlist` loop: the items of the dictionary in
      key order, or the player whose lookup raises KeyError. */
  method SeedPlayers(players: seq<string>, known: map<string, Rating>)
    returns (missing: Option<string>, items: seq<Entry>)
    ensures missing == FirstUnknown(players, known)
    ensures missing.None? ==> items == Entries(Distinct(players), known)
  {
    var playerlist: map<string, real> := map[];
    var order: seq<string> := [];
    var i := 0;
    while i < |players|
      invariant 0 <= i <= |players|
      invariant forall j :: 0 <= j < i ==> players[j] in known
      invariant order == Distinct(players[..i])
      invariant forall p :: p in playerlist <==> p in order
      invariant forall p :: p in playerlist ==> p in known && playerlist[p] == ConservativeSkill(known[p])
    {
      var player := players[i];
      if player !in known {
        FirstUnknownAt(players, known, i);
        return Some(player), [];
      }
      var rating := known[player].mean - 3.0 * known[player].deviation;
      if player !in playerlist {
        order := order + [player];
      }
      playerlist := playerlist[player := rating];
      assert players[..i + 1][..i] == players[..i];
      i := i + 1;
    }
    assert players[..|players|] == players;
    missing := None;
    items := seq(|order|, k requires 0 <= k < |order| => Entry(order[k], playerlist[order[k]]));
    assert forall k :: 0 <= k < |order| ==> items[k] == Entries(order, known)[k];
  }

  lemma SoloTeamsAppend(a: seq<string>, b: seq<string>, known: map<string, Rating>)
    ensures SoloTeams(a + b, known) == SoloTeams(a, known) + SoloTeams(b, known)
  {
    var l, r := SoloTeams(a + b, known), SoloTeams(a, known) + SoloTeams(b, known);
    assert |l| == |r|;
    forall i | 0 <= i < |l|
      ensures l[i] == r[i]
    {
      if i < |a| {
        assert (a + b)[i] == a[i];
      } else {
        assert (a + b)[i] == b[i - |a|];
      }
    }
  }

  /** `getBestMatchup`'s loop giving each drafted player a rating team of
      its own. */
  method RateSolo(names: seq<string>, known: map<string, Rating>) returns (teams: seq<RatingTeam>)
    ensures teams == SoloTeams(names, known)
  {
    teams := [];
    var j := 0;
    while j < |names|
      invariant 0 <= j <= |names|
      invariant teams == SoloTeams(names[..j], known)
    {
      var player := names[j];
      var curTeam: RatingTeam := [];
      if player in known {
        curTeam := curTeam + [Member(player, known[player])];
      }
      assert names[..j + 1] == names[..j] + [player];
      SoloTeamsAppend(names[..j], [player], known);
      assert [player][0] == player;
      assert SoloTeams([player], known)[0] == curTeam;
      assert SoloTeams([player], known) == [curTeam];
      teams := teams + [curTeam];
      j := j + 1;
    }
    assert names[..|names|] == names;
  }

  /** The rest of `getBestMatchup` once every player was found: sort the
      `playerlist` items, deal them out, rate each drafted player on a team
      of its own and write the message. */
  method DraftMessage(items: seq<Entry>, known: map<string, Rating>, quality: QualityFn,
                      percent: real -> real, show: real -> string) returns (msg: string)
    ensures Returned(msg) == Render(DraftedVerdict(Names(SortDescending(items)), known, quality, percent), show)
  {
    var seeded := SortDescending(items);
    var team1, team2 := Draft(Names(seeded));
    msg := Matchup(team1, team2);

    var rated1 := RateSolo(team1, known);
    var rated2 := RateSolo(team2, known);
    var teamsTrueskill := rated1 + rated2;
    SoloTeamsAppend(team1, team2, known);

    var g := quality(teamsTrueskill);
    var q := if g < 1.0 then Some(percent(g)) else None;
    msg := WithQuality(msg, q, show);
  }

  /** What `getBestMatchup` decides, before it is written out as a string. */
  datatype Verdict =
    | GameInPlay
    | NoTeamsFormed
    | MissingPlayers(nTeams: int)
    | OnePerTeam
    | UnknownPlayer(name: string)
    | Drafted(team1: seq<string>, team2: seq<string>, quality: Option<real>)

  /** `getBestMatchup` on the item's `state`, `teamlist` and `players`, with
      `client.players` as `known`, the calculator as `quality` and
      `round(q * 100, 2)` as `percent`. */
  function BestVerdict(state: string, teamlist: seq<int>, players: seq<string>,
                       known: map<string, Rating>, quality: QualityFn, percent: real -> real): Verdict
  {
    if state != "open" then GameInPlay
    else
      var nTeams := CountFormed(teamlist);
      if nTeams != 2 || |players| <= 2 then NoTeamsFormed
      else if |players| % nTeams != 0 then MissingPlayers(nTeams)
      // Python 3 divides exactly: `len(players) / nTeams == 1` means equal.
      else if |players| == nTeams then OnePerTeam
      else match FirstUnknown(players, known)
        case Some(p) => UnknownPlayer(p)
        case None => DraftedVerdict(Names(DraftOrder(players, known)), known, quality, percent)
  }

  /** The teams dealt out from the seeding `order` and the quality the
      calculator predicts for them, player against player. */
  function DraftedVerdict(order: seq<string>, known: map<string, Rating>, quality: QualityFn, percent: real -> real): Verdict
  {
    var team1, team2 := Deal(order, 1), Deal(order, 2);
    var g := quality(SoloTeams(team1 + team2, known));
    Drafted(team1, team2, if g < 1.0 then Some(percent(g)) else None)
  }

  /** What the call returns, or the KeyError it raises. */
  datatype Reply = Returned(msg: string) | KeyErrorRaised(key: string)

  /** The string `getBestMatchup` returns for a verdict; `show` is `str`. */
  function Render(v: Verdict, show: real -> string): Reply
  {
    match v
    case GameInPlay => Returned("game in play")
    case NoTeamsFormed => Returned("No teams formed yet")
    case MissingPlayers(n) => Returned("Missing players for this number of teams (" + IntToDecimal(n) + ")")
    case OnePerTeam => Returned("Only one player per team")
    case UnknownPlayer(p) => KeyErrorRaised(p)
    case Drafted(t1, t2, q) => Returned(WithQuality(Matchup(t1, t2), q, show))
  }

  /** The two drafted teams, one above the other. */
  function Matchup(team1: seq<string>, team2: seq<string>): string
  {
    Join(team1, ", ") + "<br/>Vs<br/>" + Join(team2, ", ")
  }

  /** The message with the predicted quality appended, when there is one. */
  function WithQuality(msg: string, q: Option<real>, show: real -> string): string
  {
    if q.Some? then msg + "<br/>Game Quality will be : " + show(q.value) + "%" else msg
  }

  /** The gates leave two reachable outcomes besides a draft: "game in play",
      "No teams formed yet", the missing-players count is always 2 and "Only
      one player per team" is never returned. */
  lemma BestVerdictGates(state: string, teamlist: seq<int>, players: seq<string>,
                         known: map<string, Rating>, quality: QualityFn, percent: real -> real)
    ensures var v := BestVerdict(state, teamlist, players, known, quality, percent);
      && !v.OnePerTeam?
      && (v.MissingPlayers? ==> v.nTeams == 2 && |players| % 2 == 1)
      && (v.Drafted? || v.UnknownPlayer? ==> state == "open" && CountFormed(teamlist) == 2 && |players| >= 4 && |players| % 2 == 0)
      && (v.GameInPlay? <==> state != "open")
  {
  }

  /** `update` always leaves `teamlist` empty, and with no formed team the
      matchup stops at its first two answers. */
  lemma EmptyTeamlistGates(state: string, players: seq<string>,
                           known: map<string, Rating>, quality: QualityFn, percent: real -> real)
    ensures BestVerdict(state, [], players, known, quality, percent) ==
      (if state != "open" then GameInPlay else NoTeamsFormed)
  {
  }

  /** Dealing out an order without repeats puts every player on exactly one
      team. */
  lemma DealSplit(order: seq<string>)
    requires forall i, j :: 0 <= i < j < |order| ==> order[i] != order[j]
    ensures var both := Deal(order, 1) + Deal(order, 2);
      && (forall p :: p in order <==> p in both)
      && (forall i, j :: 0 <= i < j < |both| ==> both[i] != both[j])
  {
    var both := Deal(order, 1) + Deal(order, 2);
    DealPartition(order);
    assert multiset(both) == multiset(order);
    forall p
      ensures p in order <==> p in both
    {
      assert p in order <==> p in multiset(order);
      assert p in both <==> p in multiset(both);
    }
    forall i, j | 0 <= i < j < |both|
      ensures both[i] != both[j]
    {
      if both[i] == both[j] {
        RepeatCount(both, i, j);
        DistinctCount(order, both[i]);
      }
    }
  }

  /** A value at two positions is counted at least twice. */
  lemma RepeatCount(s: seq<string>, i: nat, j: nat)
    requires i < j < |s| && s[i] == s[j]
    ensures multiset(s)[s[i]] >= 2
  {
    var x := s[i];
    assert s == s[..j] + [x] + s[j + 1..];
    assert x in s[..j] by { assert s[..j][i] == x; }
    assert multiset(s) == multiset(s[..j]) + multiset{x} + multiset(s[j + 1..]);
  }

  /** An open game with two formed teams, an even number of more than two
      players, all of them known, is drafted: every distinct player lands on
      exactly one team, the `i`-th seeded player on team `TeamOf(i)`, and the
      sizes differ by at most one. */
  lemma DraftedSplit(state: string, teamlist: seq<int>, players: seq<string>,
                     known: map<string, Rating>, quality: QualityFn, percent: real -> real)
    requires state == "open" && CountFormed(teamlist) == 2
    requires |players| > 2 && |players| % 2 == 0
    requires forall p :: p in players ==> p in known
    ensures var v := BestVerdict(state, teamlist, players, known, quality, percent);
      && v.Drafted?
      && (forall p :: p in players <==> p in v.team1 + v.team2)
      && (forall i, j :: 0 <= i < j < |v.team1 + v.team2| ==> (v.team1 + v.team2)[i] != (v.team1 + v.team2)[j])
      && -1 <= |v.team1| - |v.team2| <= 1
      && (forall i :: 0 <= i < |DraftOrder(players, known)| ==>
            DraftOrder(players, known)[i].name in (if TeamOf(i) == 1 then v.team1 else v.team2))
  {
    var es := DraftOrder(players, known);
    var order := Names(es);
    assert FirstUnknown(players, known).None?;
    assert BestVerdict(state, teamlist, players, known, quality, percent)
        == DraftedVerdict(order, known, quality, percent);
    DraftOrderSpec(players, known);
    DraftOrderNamesDistinct(players, known);
    DealSplit(order);
    DealBalanced(order);
    forall p
      ensures p in players <==> p in order
    {
      if p in players {
        var e := Entry(p, ConservativeSkill(known[p]));
        assert e in es;
        var i :| 0 <= i < |es| && es[i] == e;
        assert order[i] == p;
      }
      if p in order {
        var i :| 0 <= i < |order| && order[i] == p;
        assert es[i] in es;
      }
    }
    forall i | 0 <= i < |es|
      ensures es[i].name in (if TeamOf(i) == 1 then Deal(order, 1) else Deal(order, 2))
    {
      DealPlacement(order, i);
    }
  }

  /** A sequence without repeats holds each value at most once. */
  lemma {:induction false} DistinctCount(s: seq<string>, x: string)
    requires forall i, j :: 0 <= i < j < |s| ==> s[i] != s[j]
    ensures multiset(s)[x] <= 1
  {
    if |s| > 0 {
      var n := |s| - 1;
      DistinctCount(s[..n], x);
      assert s == s[..n] + [s[n]];
      if s[n] == x {
        assert x !in s[..n];
      }
    }
  }
}
