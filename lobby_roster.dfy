/** The roster, team and match-quality steps of `GameItem.update`, with the
    client's user lookup as a map from name to rating (a name without an
    entry is a user whose rating is None) and the match-quality calculator
    as a function parameter. The method that runs them on a game item is
    `GameItems.GameItem.Update`. */
module LobbyRoster {
  import opened Text
  import opened Skill

  /** One `PlayerOption` entry: its slot number, `PlayerName` when present
      and `Team`. */
  datatype Slot = Slot(index: int, name: Option<string>, team: int)

  predicate Seats(s: Slot)
  {
    s.index >= 0 && s.name.Some?
  }

  /** Named entries with a negative slot: the observers, in order. */
  function Observers(slots: seq<Slot>): seq<string>
  {
    if |slots| == 0 then []
    else
      var s := slots[|slots| - 1];
      Observers(slots[..|slots| - 1]) + (if s.index < 0 && s.name.Some? then [s.name.value] else [])
  }

  /** Named entries with a slot of 0 or more: the players, in order. */
  function Seated(slots: seq<Slot>): seq<string>
  {
    if |slots| == 0 then []
    else
      var s := slots[|slots| - 1];
      Seated(slots[..|slots| - 1]) + (if Seats(s) then [s.name.value] else [])
  }

  /** The players whose `Team` is `k`, in order. */
  function TeamMembers(slots: seq<Slot>, k: int): seq<string>
  {
    if |slots| == 0 then []
    else
      var s := slots[|slots| - 1];
      TeamMembers(slots[..|slots| - 1], k) + (if Seats(s) && s.team == k then [s.name.value] else [])
  }

  /** The team ids in order of first appearance: the key order of the
      `self.teams` dictionary. */
  function TeamKeys(slots: seq<Slot>): (keys: seq<int>)
    ensures forall i, j :: 0 <= i < j < |keys| ==> keys[i] != keys[j]
  {
    if |slots| == 0 then []
    else
      var s := slots[|slots| - 1];
      var before := TeamKeys(slots[..|slots| - 1]);
      if Seats(s) && s.team !in before then before + [s.team] else before
  }

  /** `self.teams` after the slot loop. */
  function TeamMap(slots: seq<Slot>): map<int, seq<string>>
  {
    map k | k in TeamKeys(slots) :: TeamMembers(slots, k)
  }

  /** A team id is a key exactly when some player sits on that team. */
  lemma {:induction false} TeamKeysMembers(slots: seq<Slot>, k: int)
    ensures k in TeamKeys(slots) <==> |TeamMembers(slots, k)| > 0
  {
    if |slots| > 0 {
      TeamKeysMembers(slots[..|slots| - 1], k);
    }
  }

  /** How one more slot changes one team's member list. */
  lemma TeamMembersStep(slots: seq<Slot>, i: nat, k: int)
    requires i < |slots|
    ensures TeamMembers(slots[..i + 1], k) ==
      TeamMembers(slots[..i], k) + (if Seats(slots[i]) && slots[i].team == k then [slots[i].name.value] else [])
  {
    assert slots[..i + 1][..i] == slots[..i];
  }

  /** The body of the slot loop at src/games/gameitem.py:305-312 as it
      acts on `self.teams`. */
  function PlaceInTeam(teams: map<int, seq<string>>, x: Slot): map<int, seq<string>>
  {
    if Seats(x) then
      if x.team in teams then teams[x.team := teams[x.team] + [x.name.value]]
      else teams[x.team := [x.name.value]]
    else teams
  }

  /** `TeamMap` grows slot by slot as the loop body places players. */
  lemma TeamMapStep(slots: seq<Slot>, i: nat)
    requires i < |slots|
    ensures TeamMap(slots[..i + 1]) == PlaceInTeam(TeamMap(slots[..i]), slots[i])
  {
    var p, x, q := slots[..i], slots[i], slots[..i + 1];
    var a, b := TeamMap(q), PlaceInTeam(TeamMap(p), x);
    forall k
      ensures (k in a <==> k in b) && (k in a ==> a[k] == b[k])
    {
      TeamMembersStep(slots, i, k);
      TeamKeysMembers(p, k);
      TeamKeysMembers(q, k);
    }
  }

  /** The players of the teams `keys`, team after team (`self.realPlayers`). */
  function Flatten(keys: seq<int>, teams: map<int, seq<string>>): seq<string>
    requires forall k :: k in keys ==> k in teams
  {
    if |keys| == 0 then []
    else
      var k := keys[|keys| - 1];
      assert k in keys;
      Flatten(keys[..|keys| - 1], teams) + teams[k]
  }

  lemma {:induction false} FlattenFrame(keys: seq<int>, a: map<int, seq<string>>, b: map<int, seq<string>>)
    requires forall k :: k in keys ==> k in a && k in b && a[k] == b[k]
    ensures Flatten(keys, a) == Flatten(keys, b)
  {
    if |keys| > 0 {
      assert keys[|keys| - 1] in keys;
      FlattenFrame(keys[..|keys| - 1], a, b);
    }
  }

  /** Appending a name to one team adds that name once to the flattened
      roster. */
  lemma {:induction false} FlattenAppend(keys: seq<int>, teams: map<int, seq<string>>, t: int, n: string)
    requires forall k :: k in keys ==> k in teams
    requires forall i, j :: 0 <= i < j < |keys| ==> keys[i] != keys[j]
    requires t in keys
    ensures multiset(Flatten(keys, teams[t := teams[t] + [n]])) == multiset(Flatten(keys, teams)) + multiset{n}
  {
    var m := |keys| - 1;
    var teams' := teams[t := teams[t] + [n]];
    if keys[m] == t {
      assert t !in keys[..m];
      FlattenFrame(keys[..m], teams, teams');
    } else {
      assert t in keys[..m];
      FlattenAppend(keys[..m], teams, t, n);
    }
  }

  /** The flattened teams after the slot loop are a permutation of the
      players. */
  lemma {:induction false} GroupPermutation(slots: seq<Slot>)
    ensures forall k :: k in TeamKeys(slots) ==> k in TeamMap(slots)
    ensures multiset(Flatten(TeamKeys(slots), TeamMap(slots))) == multiset(Seated(slots))
  {
    if |slots| > 0 {
      var i := |slots| - 1;
      var p, x := slots[..i], slots[i];
      GroupPermutation(p);
      TeamMapStep(slots, i);
      assert slots[..i + 1] == slots;
      assert TeamKeys(slots) == if Seats(x) && x.team !in TeamKeys(p) then TeamKeys(p) + [x.team] else TeamKeys(p);
      if Seats(x) {
        if x.team in TeamMap(p) {
          FlattenAppend(TeamKeys(p), TeamMap(p), x.team, x.name.value);
        } else {
          FlattenFrame(TeamKeys(p), TeamMap(p), TeamMap(slots));
        }
      } else {
        FlattenFrame(TeamKeys(p), TeamMap(p), TeamMap(slots));
      }
    }
  }

  /** Every team of `self.teams` is non-empty, and every team of `self.teams`
      holds exactly its players: a slot's player lands in one team only. */
  lemma GroupTeams(slots: seq<Slot>, k: int)
    ensures k in TeamMap(slots) <==> |TeamMembers(slots, k)| > 0
    ensures k in TeamMap(slots) ==> TeamMap(slots)[k] == TeamMembers(slots, k)
  {
    TeamKeysMembers(slots, k);
  }

  /** The slot loop of `update` (src/games/gameitem.py:298-312). */
  method GroupSlots(slots: seq<Slot>)
    returns (players: seq<string>, observers: seq<string>, keys: seq<int>, teams: map<int, seq<string>>)
    ensures players == Seated(slots) && observers == Observers(slots)
    ensures keys == TeamKeys(slots) && teams == TeamMap(slots)
  {
    players, observers, keys, teams := [], [], [], map[];
    var i := 0;
    while i < |slots|
      invariant 0 <= i <= |slots|
      invariant players == Seated(slots[..i]) && observers == Observers(slots[..i])
      invariant keys == TeamKeys(slots[..i]) && teams == TeamMap(slots[..i])
    {
      var slot := slots[i];
      if slot.index < 0 {
        if slot.name.Some? {
          observers := observers + [slot.name.value];
        }
      } else {
        if slot.name.Some? {
          var playerName := slot.name.value;
          players := players + [playerName];
          if slot.team !in teams {
            teams := teams[slot.team := [playerName]];
            keys := keys + [slot.team];
          } else {
            teams := teams[slot.team := teams[slot.team] + [playerName]];
          }
        }
      }
      TeamMapStep(slots, i);
      assert slots[..i + 1][..i] == slots[..i];
      i := i + 1;
    }
    assert slots[..|slots|] == slots;
  }

  /** `self.teams` after the local user was (or was not) put into a team,
      and `self.playerIncluded`. */
  datatype Inclusion = Inclusion(teams: map<int, seq<string>>, included: bool)

  /** Is `login` a member of no team? */
  predicate InNoTeam(teams: map<int, seq<string>>, login: string)
  {
    forall k :: k in teams ==> login !in teams[k]
  }

  /** The local user joins the strictly smaller of teams 1 and 2 when it is
      in no team (src/games/gameitem.py:320-327). */
  function Include(teams: map<int, seq<string>>, login: string): Inclusion
    requires 1 in teams && 2 in teams
  {
    if InNoTeam(teams, login) then
      if |teams[1]| < |teams[2]| then Inclusion(teams[1 := teams[1] + [login]], true)
      else if |teams[1]| > |teams[2]| then Inclusion(teams[2 := teams[2] + [login]], true)
      else Inclusion(teams, false)
    else Inclusion(teams, false)
  }

  /** Including the local user: it happens exactly when the user is in no
      team and the two teams differ in size; it joins the smaller one, which
      narrows the gap by one; no other team and no key changes. */
  lemma IncludeSpec(teams: map<int, seq<string>>, login: string)
    requires 1 in teams && 2 in teams
    ensures var r := Include(teams, login);
      && r.teams.Keys == teams.Keys
      && (forall k :: k in teams && k != 1 && k != 2 ==> r.teams[k] == teams[k])
      && (r.included <==> InNoTeam(teams, login) && |teams[1]| != |teams[2]|)
      && (!r.included ==> r.teams == teams)
      && (r.included ==>
            && (login in r.teams[1] <==> |teams[1]| < |teams[2]|)
            && (login in r.teams[2] <==> |teams[1]| > |teams[2]|)
            && |r.teams[1]| + |r.teams[2]| == |teams[1]| + |teams[2]| + 1
            && (if |teams[1]| < |teams[2]| then |teams[2]| - |teams[1]| - 1 == |r.teams[2]| - |r.teams[1]|
                else |teams[1]| - |teams[2]| - 1 == |r.teams[1]| - |r.teams[2]|)
            && var (s, l) := if |teams[1]| < |teams[2]| then (1, 2) else (2, 1);
               r.teams[s] == teams[s] + [login] && r.teams[l] == teams[l])
  {
  }

  /** `Team()` filled with the members that have a rating. */
  function Rated(members: seq<string>, ratings: map<string, Rating>): RatingTeam
  {
    if |members| == 0 then []
    else
      var p := members[|members| - 1];
      Rated(members[..|members| - 1], ratings) + (if p in ratings then [Member(p, ratings[p])] else [])
  }

  /** Team 0 (free for all): one rating team per player, empty when the
      player has no rating. */
  function ZeroTeams(members: seq<string>, ratings: map<string, Rating>): seq<RatingTeam>
  {
    seq(|members|, i requires 0 <= i < |members| => Rated([members[i]], ratings))
  }

  /** The rating teams one key of `self.teams` contributes. */
  function KeyTeams(k: int, members: seq<string>, ratings: map<string, Rating>): seq<RatingTeam>
  {
    if k == 0 then ZeroTeams(members, ratings) else [Rated(members, ratings)]
  }

  /** `self.teamsTrueskill` after the loop over `self.teams`. */
  function RatingTeams(keys: seq<int>, teams: map<int, seq<string>>, ratings: map<string, Rating>): seq<RatingTeam>
    requires forall k :: k in keys ==> k in teams
  {
    if |keys| == 0 then []
    else
      var k := keys[|keys| - 1];
      assert k in keys;
      RatingTeams(keys[..|keys| - 1], teams, ratings) + KeyTeams(k, teams[k], ratings)
  }

  /** Some name has no rating. */
  predicate SomeUnrated(names: seq<string>, ratings: map<string, Rating>)
  {
    exists p :: p in names && p !in ratings
  }

  lemma SomeUnratedAppend(a: seq<string>, b: seq<string>, ratings: map<string, Rating>)
    ensures SomeUnrated(a + b, ratings) == (SomeUnrated(a, ratings) || SomeUnrated(b, ratings))
  {
    if SomeUnrated(a + b, ratings) {
      var p :| p in a + b && p !in ratings;
      assert p in a || p in b;
    }
  }

  /** One key more in a prefix of the key order. */
  lemma KeyStep(keys: seq<int>, i: nat, teams: map<int, seq<string>>, ratings: map<string, Rating>)
    requires i < |keys|
    requires forall k :: k in keys ==> k in teams
    ensures keys[i] in teams
    ensures RatingTeams(keys[..i + 1], teams, ratings) == RatingTeams(keys[..i], teams, ratings) + KeyTeams(keys[i], teams[keys[i]], ratings)
    ensures Flatten(keys[..i + 1], teams) == Flatten(keys[..i], teams) + teams[keys[i]]
  {
    assert keys[..i + 1][..i] == keys[..i];
    assert keys[..i + 1][i] == keys[i];
  }

  /** One player more in a prefix of a team. */
  lemma PrefixStep(players: seq<string>, j: nat, ratings: map<string, Rating>)
    requires j < |players|
    ensures Rated(players[..j + 1], ratings) ==
      Rated(players[..j], ratings) + (if players[j] in ratings then [Member(players[j], ratings[players[j]])] else [])
    ensures ZeroTeams(players[..j + 1], ratings) == ZeroTeams(players[..j], ratings) + [Rated([players[j]], ratings)]
    ensures SomeUnrated(players[..j + 1], ratings) == (SomeUnrated(players[..j], ratings) || players[j] !in ratings)
  {
    assert players[..j + 1] == players[..j] + [players[j]];
    assert players[..j + 1][..j] == players[..j];
    SomeUnratedAppend(players[..j], [players[j]], ratings);
  }

  /** The inner loop for free-for-all team 0 (src/games/gameitem.py:331-339):
      one rating team per player, and whether a player had no rating. */
  method RateEach(players: seq<string>, ratings: map<string, Rating>)
    returns (teams: seq<RatingTeam>, unrated: bool)
    ensures teams == ZeroTeams(players, ratings)
    ensures unrated == SomeUnrated(players, ratings)
  {
    teams, unrated := [], false;
    var j := 0;
    while j < |players|
      invariant 0 <= j <= |players|
      invariant teams == ZeroTeams(players[..j], ratings)
      invariant unrated == SomeUnrated(players[..j], ratings)
    {
      var player := players[j];
      var curTeam: RatingTeam := [];
      if player in ratings {
        curTeam := curTeam + [Member(player, ratings[player])];
      } else {
        unrated := true;
      }
      PrefixStep(players, j, ratings);
      assert [player][..0] == [];
      assert curTeam == Rated([player], ratings);
      teams := teams + [curTeam];
      j := j + 1;
    }
    assert players[..|players|] == players;
  }

  /** The inner loop for any other team (src/games/gameitem.py:340-355): one
      rating team of the rated players, and whether a player had no rating. */
  method RateTogether(players: seq<string>, ratings: map<string, Rating>)
    returns (curTeam: RatingTeam, unrated: bool)
    ensures curTeam == Rated(players, ratings)
    ensures unrated == SomeUnrated(players, ratings)
  {
    curTeam, unrated := [], false;
    var j := 0;
    while j < |players|
      invariant 0 <= j <= |players|
      invariant curTeam == Rated(players[..j], ratings)
      invariant unrated == SomeUnrated(players[..j], ratings)
    {
      var player := players[j];
      if player in ratings {
        curTeam := curTeam + [Member(player, ratings[player])];
      } else {
        unrated := true;
      }
      PrefixStep(players, j, ratings);
      j := j + 1;
    }
    assert players[..|players|] == players;
  }

  /** The loop over `self.teams` (src/games/gameitem.py:329-355): extends
      `realPlayers`, builds the rating teams and raises `invalidTS`. */
  method BuildRatingTeams(keys: seq<int>, teams: map<int, seq<string>>, ratings: map<string, Rating>)
    returns (rated: seq<RatingTeam>, invalid: bool, realPlayers: seq<string>)
    requires forall k :: k in keys ==> k in teams
    ensures rated == RatingTeams(keys, teams, ratings)
    ensures realPlayers == Flatten(keys, teams)
    ensures invalid == SomeUnrated(realPlayers, ratings)
  {
    rated, invalid, realPlayers := [], false, [];
    var i := 0;
    while i < |keys|
      invariant 0 <= i <= |keys|
      invariant rated == RatingTeams(keys[..i], teams, ratings)
      invariant realPlayers == Flatten(keys[..i], teams)
      invariant invalid == SomeUnrated(realPlayers, ratings)
    {
      var team := keys[i];
      var players := teams[team];
      SomeUnratedAppend(realPlayers, players, ratings);
      realPlayers := realPlayers + players;
      var unrated;
      if team == 0 {
        var each;
        each, unrated := RateEach(players, ratings);
        rated := rated + each;
      } else {
        var curTeam;
        curTeam, unrated := RateTogether(players, ratings);
        rated := rated + [curTeam];
      }
      invalid := invalid || unrated;
      KeyStep(keys, i, teams, ratings);
      i := i + 1;
    }
    assert keys[..|keys|] == keys;
  }

  /** Every name on a rating team, in team order. */
  lemma {:induction false} MemberNamesAppend(a: seq<RatingTeam>, b: seq<RatingTeam>)
    ensures MemberNames(a + b) == MemberNames(a) + MemberNames(b)
    decreases |b|
  {
    if |b| > 0 {
      MemberNamesAppend(a, b[..|b| - 1]);
      assert (a + b)[..|a + b| - 1] == a + b[..|b| - 1];
    } else {
      assert a + b == a;
    }
  }

  /** The rated names among `names`, in order. */
  function RatedNames(names: seq<string>, ratings: map<string, Rating>): seq<string>
  {
    if |names| == 0 then []
    else
      var p := names[|names| - 1];
      RatedNames(names[..|names| - 1], ratings) + (if p in ratings then [p] else [])
  }

  lemma {:induction false} RatedNamesAppend(a: seq<string>, b: seq<string>, ratings: map<string, Rating>)
    ensures RatedNames(a + b, ratings) == RatedNames(a, ratings) + RatedNames(b, ratings)
    decreases |b|
  {
    if |b| > 0 {
      RatedNamesAppend(a, b[..|b| - 1], ratings);
      assert (a + b)[..|a + b| - 1] == a + b[..|b| - 1];
    } else {
      assert a + b == a;
    }
  }

  lemma {:induction false} RatedNames1(members: seq<string>, ratings: map<string, Rating>)
    ensures MemberNames([Rated(members, ratings)]) == RatedNames(members, ratings)
  {
    var t := Rated(members, ratings);
    assert [t][..0] == [];
    if |members| > 0 {
      var m := members[..|members| - 1];
      RatedNames1(m, ratings);
      var t0 := Rated(m, ratings);
      assert MemberNames([t0]) == seq(|t0|, i requires 0 <= i < |t0| => t0[i].name);
    }
  }

  lemma {:induction false} ZeroTeamsNames(members: seq<string>, ratings: map<string, Rating>)
    ensures MemberNames(ZeroTeams(members, ratings)) == RatedNames(members, ratings)
  {
    if |members| > 0 {
      var n := |members| - 1;
      ZeroTeamsNames(members[..n], ratings);
      assert ZeroTeams(members, ratings) == ZeroTeams(members[..n], ratings) + [Rated([members[n]], ratings)];
      MemberNamesAppend(ZeroTeams(members[..n], ratings), [Rated([members[n]], ratings)]);
      RatedNames1([members[n]], ratings);
      assert [members[n]][..0] == [];
      assert RatedNames([members[n]], ratings) == if members[n] in ratings then [members[n]] else [];
    }
  }

  /** The rating teams hold exactly the rated real players, in the order of
      `self.realPlayers`: nobody rated is lost, nobody is counted twice. */
  lemma {:induction false} RatingTeamsNames(keys: seq<int>, teams: map<int, seq<string>>, ratings: map<string, Rating>)
    requires forall k :: k in keys ==> k in teams
    ensures MemberNames(RatingTeams(keys, teams, ratings)) == RatedNames(Flatten(keys, teams), ratings)
  {
    if |keys| > 0 {
      var n := |keys| - 1;
      var k := keys[n];
      RatingTeamsNames(keys[..n], teams, ratings);
      MemberNamesAppend(RatingTeams(keys[..n], teams, ratings), KeyTeams(k, teams[k], ratings));
      RatedNamesAppend(Flatten(keys[..n], teams), teams[k], ratings);
      if k == 0 {
        ZeroTeamsNames(teams[k], ratings);
      } else {
        RatedNames1(teams[k], ratings);
      }
    }
  }

  /** Each key contributes at least one rating team, and free-for-all team 0
      one per player. */
  lemma {:induction false} RatingTeamsCount(keys: seq<int>, teams: map<int, seq<string>>, ratings: map<string, Rating>)
    requires forall k :: k in keys ==> k in teams && |teams[k]| > 0
    ensures |RatingTeams(keys, teams, ratings)| >= |keys|
  {
    if |keys| > 0 {
      RatingTeamsCount(keys[..|keys| - 1], teams, ratings);
    }
  }

  /** The local user's rating added once more after the loop, to
      `teamsTrueskill[0]` or `[1]` while teams 1 and 2 still differ in size
      (src/games/gameitem.py:358-367). */
  function AddOwn(rated: seq<RatingTeam>, inc: Inclusion, login: string, ratings: map<string, Rating>): seq<RatingTeam>
    requires 1 in inc.teams && 2 in inc.teams
    requires inc.included ==> |rated| >= 2
  {
    if inc.included && login in ratings then
      var me := Member(login, ratings[login]);
      if |inc.teams[1]| < |inc.teams[2]| then rated[0 := rated[0] + [me]]
      else if |inc.teams[1]| > |inc.teams[2]| then rated[1 := rated[1] + [me]]
      else rated
    else rated
  }

  /** The extra addition on its own: with the user included and rated, its
      rating goes to the end of rating team 0 while team 1 is the smaller
      of teams 1 and 2 and to the end of rating team 1 while team 2 is;
      otherwise, and for every other rating team, nothing changes. */
  lemma AddOwnSpec(rated: seq<RatingTeam>, inc: Inclusion, login: string, ratings: map<string, Rating>)
    requires 1 in inc.teams && 2 in inc.teams
    requires inc.included ==> |rated| >= 2
    ensures var r := AddOwn(rated, inc, login, ratings);
      && |r| == |rated|
      && (!inc.included || login !in ratings ==> r == rated)
      && (forall i :: 2 <= i < |rated| ==> r[i] == rated[i])
      && (inc.included && login in ratings ==>
            var me := Member(login, ratings[login]);
            && r[0] == rated[0] + (if |inc.teams[1]| < |inc.teams[2]| then [me] else [])
            && r[1] == rated[1] + (if |inc.teams[1]| > |inc.teams[2]| then [me] else []))
  {
  }

  /** The rating teams of a prefix of the key order are a prefix of those
      of the whole order. */
  lemma {:induction false} RatingTeamsPrefix(keys: seq<int>, m: nat, teams: map<int, seq<string>>, ratings: map<string, Rating>)
    requires m <= |keys|
    requires forall k :: k in keys ==> k in teams
    ensures forall k :: k in keys[..m] ==> k in teams
    ensures RatingTeams(keys[..m], teams, ratings) <= RatingTeams(keys, teams, ratings)
  {
    assert forall k :: k in keys[..m] ==> k in keys;
    if m < |keys| {
      var n := |keys| - 1;
      assert keys[..n][..m] == keys[..m];
      assert forall k :: k in keys[..n] ==> k in keys;
      RatingTeamsPrefix(keys[..n], m, teams, ratings);
    } else {
      assert keys[..m] == keys;
    }
  }

  /** `teamsTrueskill[0]` and `[1]` are the rating teams of the first two
      keys in key order when neither is free-for-all team 0. */
  lemma {:induction false} FirstKeysRated(keys: seq<int>, teams: map<int, seq<string>>, ratings: map<string, Rating>)
    requires |keys| >= 2
    requires forall k :: k in keys ==> k in teams
    ensures keys[0] in teams && keys[1] in teams
    ensures keys[0] != 0 ==>
      var all := RatingTeams(keys, teams, ratings);
      |all| >= 1 && all[0] == Rated(teams[keys[0]], ratings)
    ensures keys[0] != 0 && keys[1] != 0 ==>
      var all := RatingTeams(keys, teams, ratings);
      |all| >= 2 && all[1] == Rated(teams[keys[1]], ratings)
  {
    var k0, k1 := keys[0], keys[1];
    assert k0 in keys && k1 in keys;
    assert k0 in teams && k1 in teams;
    KeyStep(keys, 0, teams, ratings);
    KeyStep(keys, 1, teams, ratings);
    assert keys[..0] == [];
    RatingTeamsPrefix(keys, 2, teams, ratings);
  }

  /** The rating teams after the extra addition, for key order `keys`:
      `teamsTrueskill[0]` and `[1]` belong to the first two keys, whichever
      teams those are. */
  lemma {:induction false} OwnRatingIn(keys: seq<int>, inc: Inclusion, login: string, ratings: map<string, Rating>)
    requires |keys| >= 2 && 1 in inc.teams && 2 in inc.teams
    requires forall k :: k in keys ==> k in inc.teams
    requires |RatingTeams(keys, inc.teams, ratings)| >= 2
    ensures var rated := AddOwn(RatingTeams(keys, inc.teams, ratings), inc, login, ratings);
      && |rated| >= 2
      && keys[0] in inc.teams && keys[1] in inc.teams
      && var me := if login in ratings then [Member(login, ratings[login])] else [];
         && (keys[0] != 0 ==>
               rated[0] == Rated(inc.teams[keys[0]], ratings)
                           + (if inc.included && |inc.teams[1]| < |inc.teams[2]| then me else []))
         && (keys[0] != 0 && keys[1] != 0 ==>
               rated[1] == Rated(inc.teams[keys[1]], ratings)
                           + (if inc.included && |inc.teams[1]| > |inc.teams[2]| then me else []))
  {
    AddOwnSpec(RatingTeams(keys, inc.teams, ratings), inc, login, ratings);
    FirstKeysRated(keys, inc.teams, ratings);
  }

  /** The roster of a contested lobby, field by field. */
  lemma ContestedRoster(state: string, slots: seq<Slot>, login: string, ratings: map<string, Rating>,
                        quality: QualityFn, percent: real -> real)
    requires Contested(state, slots)
    ensures var inc := Include(TeamMap(slots), login);
      && 1 in inc.teams && 2 in inc.teams
      && (forall k :: k in TeamKeys(slots) ==> k in inc.teams)
      && |RatingTeams(TeamKeys(slots), inc.teams, ratings)| >= 2
    ensures var r := Assemble(state, slots, login, ratings, quality, percent);
      var inc := Include(TeamMap(slots), login);
      && r.keys == TeamKeys(slots) && r.teams == inc.teams && r.included == inc.included
      && r.rated == AddOwn(RatingTeams(r.keys, inc.teams, ratings), inc, login, ratings)
  {
    ContestedShape(slots, login, ratings);
  }

  /** Where `update` puts the local user's extra rating: to the rating team
      of the first key in key order while team 1 is the smaller, and to that
      of the second key while team 2 is, whichever teams those keys are. */
  lemma OwnRatingPlacement(state: string, slots: seq<Slot>, login: string, ratings: map<string, Rating>,
                           quality: QualityFn, percent: real -> real)
    requires Contested(state, slots)
    ensures var r := Assemble(state, slots, login, ratings, quality, percent);
      && |r.keys| >= 2 && |r.rated| >= 2
      && r.keys[0] in r.teams && r.keys[1] in r.teams
      && var me := if login in ratings then [Member(login, ratings[login])] else [];
         && (r.keys[0] != 0 ==>
               r.rated[0] == Rated(r.teams[r.keys[0]], ratings)
                             + (if r.included && |r.teams[1]| < |r.teams[2]| then me else []))
         && (r.keys[0] != 0 && r.keys[1] != 0 ==>
               r.rated[1] == Rated(r.teams[r.keys[1]], ratings)
                             + (if r.included && |r.teams[1]| > |r.teams[2]| then me else []))
  {
    ContestedShape(slots, login, ratings);
    ContestedRoster(state, slots, login, ratings, quality, percent);
    OwnRatingIn(TeamKeys(slots), Include(TeamMap(slots), login), login, ratings);
  }

  /** The local user's rating lands twice in the first rating team when team
      1 is first in key order and still smaller after the user joined it:
      the loop over team 1 already added it, and the extra addition calls
      `addPlayer` on that same rating team once more. */
  lemma OwnRatingCountedTwice(teams: map<int, seq<string>>, login: string, ratings: map<string, Rating>)
    requires teams.Keys == {1, 2} && InNoTeam(teams, login)
    requires |teams[1]| + 1 < |teams[2]| && login in ratings
    ensures var inc := Include(teams, login);
      var me := Member(login, ratings[login]);
      && |RatingTeams([1, 2], inc.teams, ratings)| == 2
      && AddOwn(RatingTeams([1, 2], inc.teams, ratings), inc, login, ratings)[0] == Rated(teams[1], ratings) + [me, me]
  {
    var inc := Include(teams, login);
    assert inc.teams[1] == teams[1] + [login];
    assert [1, 2][..1] == [1] && [1][..0] == [];
    var t1 := inc.teams[1];
    assert t1[..|t1| - 1] == teams[1];
    assert RatingTeams([1], inc.teams, ratings) == [Rated(t1, ratings)];
    assert RatingTeams([1, 2], inc.teams, ratings) == [Rated(t1, ratings), Rated(inc.teams[2], ratings)];
  }

  /** `self.nTeams` and `self.gamequality` after the quality gate. */
  datatype Assessment = Assessment(nTeams: int, quality: real)

  /** The quality gate (src/games/gameitem.py:371-381): more than one rating
      team, no missing rating, and the real players divisible by the number
      of team keys; the calculator's value is kept only below 1, as
      `round(q * 100, 2)` (`percent`). */
  function Assess(rated: seq<RatingTeam>, invalid: bool, keyCount: nat, realCount: nat,
                  quality: QualityFn, percent: real -> real): Assessment
    requires keyCount > 0
  {
    if |rated| > 1 && !invalid then
      if realCount % keyCount == 0 then
        var g := quality(rated);
        Assessment(keyCount, if g < 1.0 then percent(g) else 0.0)
      else Assessment(keyCount, 0.0)
    else Assessment(0, 0.0)
  }

  /** What `update` leaves in the item's roster fields. */
  datatype Roster = Roster(
    players: seq<string>, observers: seq<string>,
    keys: seq<int>, teams: map<int, seq<string>>,
    included: bool, realPlayers: seq<string>,
    rated: seq<RatingTeam>, invalid: bool,
    nTeams: int, quality: real)

  /** Teams 1 and 2 both present: the only case in which `update` includes
      the local user and rates the teams. */
  predicate Contested(state: string, slots: seq<Slot>)
  {
    state == "Lobby" && 1 in TeamMap(slots) && 2 in TeamMap(slots)
  }

  /** In a contested lobby every key names a non-empty team before and
      after the local user's inclusion, and there are at least two rating
      teams. */
  lemma ContestedShape(slots: seq<Slot>, login: string, ratings: map<string, Rating>)
    requires 1 in TeamMap(slots) && 2 in TeamMap(slots)
    ensures var inc := Include(TeamMap(slots), login);
      && 1 in inc.teams && 2 in inc.teams
      && (forall k :: k in TeamKeys(slots) <==> k in inc.teams)
      && (forall k :: k in inc.teams ==> |inc.teams[k]| > 0)
      && |RatingTeams(TeamKeys(slots), inc.teams, ratings)| >= 2
      && |TeamKeys(slots)| >= 2
  {
    var keys, teams := TeamKeys(slots), TeamMap(slots);
    var inc := Include(teams, login);
    IncludeSpec(teams, login);
    TeamMapWellFormed(slots);
    RatingTeamsCount(keys, inc.teams, ratings);
    assert |keys| >= 2 by {
      var i :| 0 <= i < |keys| && keys[i] == 1;
      var j :| 0 <= j < |keys| && keys[j] == 2;
      assert i != j;
    }
  }

  /** The keys of `self.teams` are its key order, and no team is empty. */
  lemma TeamMapWellFormed(slots: seq<Slot>)
    ensures forall k :: k in TeamKeys(slots) <==> k in TeamMap(slots)
    ensures forall k :: k in TeamMap(slots) ==> |TeamMap(slots)[k]| > 0
  {
    forall k | k in TeamMap(slots)
      ensures |TeamMap(slots)[k]| > 0
    {
      TeamKeysMembers(slots, k);
    }
  }

  /** A key order without repeats has as many keys as the dictionary. */
  lemma {:induction false} KeyCount(keys: seq<int>, teams: map<int, seq<string>>)
    requires forall i, j :: 0 <= i < j < |keys| ==> keys[i] != keys[j]
    requires forall k :: k in keys <==> k in teams
    ensures |teams| == |keys|
  {
    var ks := set k | k in keys;
    forall k
      ensures k in teams.Keys <==> k in ks
    {
    }
    assert teams.Keys == ks;
    SeqSetSize(keys);
  }

  lemma {:induction false} SeqSetSize(keys: seq<int>)
    requires forall i, j :: 0 <= i < j < |keys| ==> keys[i] != keys[j]
    ensures |set k | k in keys| == |keys|
  {
    if |keys| > 0 {
      var n := |keys| - 1;
      SeqSetSize(keys[..n]);
      assert (set k | k in keys) == (set k | k in keys[..n]) + {keys[n]};
      assert keys[n] !in keys[..n];
    }
  }

  /** The roster steps of `update` for game state `state`, `PlayerOption`
      entries `slots` and local user `login`. */
  function Assemble(state: string, slots: seq<Slot>, login: string, ratings: map<string, Rating>,
                    quality: QualityFn, percent: real -> real): Roster
  {
    var keys, teams := TeamKeys(slots), TeamMap(slots);
    if Contested(state, slots) then
      ContestedShape(slots, login, ratings);
      var inc := Include(teams, login);
      var realPlayers := Flatten(keys, inc.teams);
      var rated := AddOwn(RatingTeams(keys, inc.teams, ratings), inc, login, ratings);
      var invalid := SomeUnrated(realPlayers, ratings);
      var a := Assess(rated, invalid, |keys|, |realPlayers|, quality, percent);
      Roster(Seated(slots), Observers(slots), keys, inc.teams, inc.included, realPlayers, rated, invalid, a.nTeams, a.quality)
    else
      Roster(Seated(slots), Observers(slots), keys, teams, false, [], [], false, 0, 0.0)
  }

  /** The roster steps of `update` (src/games/gameitem.py:294-381), run the
      way `update` runs them. */
  method RebuildRoster(state: string, slots: seq<Slot>, login: string, ratings: map<string, Rating>,
                       quality: QualityFn, percent: real -> real) returns (r: Roster)
    ensures r == Assemble(state, slots, login, ratings, quality, percent)
  {
    var players, observers, keys, teams := GroupSlots(slots);
    var included := false;
    var realPlayers: seq<string> := [];
    var rated: seq<RatingTeam> := [];
    var invalid := false;
    var nTeams := 0;
    var gamequality := 0.0;
    if state == "Lobby" && 1 in teams && 2 in teams {
      ContestedShape(slots, login, ratings);
      var inc := Include(teams, login);
      teams := inc.teams;
      included := inc.included;
      var built;
      built, invalid, realPlayers := BuildRatingTeams(keys, teams, ratings);
      rated := AddOwn(built, inc, login, ratings);
      if |rated| > 1 && !invalid {
        nTeams := |teams|;
        TeamMapWellFormed(slots);
        KeyCount(keys, teams);
        if |realPlayers| % nTeams == 0 {
          var g := quality(rated);
          if g < 1.0 {
            gamequality := percent(g);
          }
        }
      }
    }
    r := Roster(players, observers, keys, teams, included, realPlayers, rated, invalid, nTeams, gamequality);
  }

  /** The roster `update` leaves is well formed: the key order lists each
      team once, no team is empty, and a quality is only kept for a roster
      that divides into the teams. */
  lemma AssembleWellFormed(state: string, slots: seq<Slot>, login: string, ratings: map<string, Rating>,
                           quality: QualityFn, percent: real -> real)
    ensures var r := Assemble(state, slots, login, ratings, quality, percent);
      && (forall i, j :: 0 <= i < j < |r.keys| ==> r.keys[i] != r.keys[j])
      && (forall k :: k in r.keys <==> k in r.teams)
      && (forall k :: k in r.teams ==> |r.teams[k]| > 0)
      && (r.quality != 0.0 ==> r.nTeams == |r.teams| && r.nTeams > 0 && |r.realPlayers| % r.nTeams == 0)
  {
    var r := Assemble(state, slots, login, ratings, quality, percent);
    TeamMapWellFormed(slots);
    if Contested(state, slots) {
      ContestedShape(slots, login, ratings);
    }
    KeyCount(r.keys, r.teams);
  }

  /** The stored quality is non-zero exactly when every gate passed and the
      calculator's value was below 1 and did not round to 0. */
  lemma QualityGate(state: string, slots: seq<Slot>, login: string, ratings: map<string, Rating>,
                    quality: QualityFn, percent: real -> real)
    ensures var r := Assemble(state, slots, login, ratings, quality, percent);
      r.quality != 0.0 <==>
        && Contested(state, slots)
        && |r.rated| > 1 && !r.invalid
        && |r.realPlayers| % |r.keys| == 0
        && quality(r.rated) < 1.0
        && percent(quality(r.rated)) != 0.0
    ensures var r := Assemble(state, slots, login, ratings, quality, percent);
      r.quality != 0.0 ==> r.quality == percent(quality(r.rated)) && r.nTeams == |r.keys|
    ensures var r := Assemble(state, slots, login, ratings, quality, percent);
      r.nTeams == (if Contested(state, slots) && |r.rated| > 1 && !r.invalid then |r.keys| else 0)
  {
  }

  /** `invalidTS` is set exactly when some player of some team (the local
      user included) has no rating. */
  lemma InvalidExactly(state: string, slots: seq<Slot>, login: string, ratings: map<string, Rating>,
                       quality: QualityFn, percent: real -> real)
    requires Contested(state, slots)
    ensures var r := Assemble(state, slots, login, ratings, quality, percent);
      r.invalid <==> exists k, p :: k in r.teams && p in r.teams[k] && p !in ratings
  {
    var r := Assemble(state, slots, login, ratings, quality, percent);
    IncludeSpec(TeamMap(slots), login);
    forall p
      ensures p in r.realPlayers <==> exists k :: k in r.keys && p in r.teams[k]
    {
      FlattenHas(r.keys, r.teams, p);
    }
  }

  /** A name is in the flattened roster exactly when it is on one of the
      teams the keys name. */
  lemma {:induction false} FlattenHas(keys: seq<int>, teams: map<int, seq<string>>, p: string)
    requires forall k :: k in keys ==> k in teams
    ensures p in Flatten(keys, teams) <==> exists k :: k in keys && p in teams[k]
  {
    if |keys| > 0 {
      var n := |keys| - 1;
      assert keys == keys[..n] + [keys[n]];
      FlattenHas(keys[..n], teams, p);
    }
  }

  /** `self.realPlayers` is the slot players plus the local user when it was
      included, and the rating teams hold the rated ones among them. */
  lemma RealPlayersSpec(state: string, slots: seq<Slot>, login: string, ratings: map<string, Rating>,
                        quality: QualityFn, percent: real -> real)
    requires Contested(state, slots)
    ensures var r := Assemble(state, slots, login, ratings, quality, percent);
      && multiset(r.realPlayers) == multiset(r.players) + (if r.included then multiset{login} else multiset{})
      && (!r.included ==> MemberNames(r.rated) == RatedNames(r.realPlayers, ratings))
  {
    var keys, teams := TeamKeys(slots), TeamMap(slots);
    var inc := Include(teams, login);
    IncludeSpec(teams, login);
    GroupPermutation(slots);
    if inc.included {
      var t := if |teams[1]| < |teams[2]| then 1 else 2;
      assert t in keys;
      assert inc.teams == teams[t := teams[t] + [login]];
      FlattenAppend(keys, teams, t, login);
    }
    var r := Assemble(state, slots, login, ratings, quality, percent);
    RatingTeamsNames(keys, inc.teams, ratings);
  }

  /** Outside a contested lobby nobody is included, nothing is rated and the
      quality stays 0. */
  lemma Uncontested(state: string, slots: seq<Slot>, login: string, ratings: map<string, Rating>,
                    quality: QualityFn, percent: real -> real)
    requires !Contested(state, slots)
    ensures var r := Assemble(state, slots, login, ratings, quality, percent);
      !r.included && r.rated == [] && r.realPlayers == [] && !r.invalid && r.nTeams == 0 && r.quality == 0.0
      && r.teams == TeamMap(slots)
  {
  }

  /** The quality column: `"? %"` while the stored quality is 0. */
  function QualityText(q: real, show: real -> string): (r: string)
    ensures q == 0.0 ==> r == "? %"
    ensures q != 0.0 && show(q) != "?" ==> r != "? %"
  {
    if q == 0.0 then "? %"
    else
      assert (show(q) + " %")[..|show(q)|] == show(q);
      show(q) + " %"
  }

  /** `"player"` for exactly one player, `"players"` otherwise. */
  function PlayerWord(count: nat): (r: string)
    ensures |r| >= 6 && r[..6] == "player"
    ensures r == "player" <==> count == 1
  {
    if count == 1 then "player" else "players"
  }

  /** `self.playerIncludedTxt`. */
  function WithYou(included: bool): (r: string)
    ensures r != "" <==> included
  {
    if included then "(with you)" else ""
  }
}
