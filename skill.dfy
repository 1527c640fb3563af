/** The rating values the game item reads from the client and hands to the
    match-quality calculator. The calculator itself is not modelled: it is a
    parameter wherever it is called. */
module Skill {

  /** A player's skill belief: mean and deviation. */
  datatype Rating = Rating(mean: real, deviation: real)

  /** One `Team.addPlayer(name, rating)` entry of a rating team. */
  datatype Member = Member(name: string, rating: Rating)

  /** The calculator's `Team`: one entry per `addPlayer` call, in call order. */
  type RatingTeam = seq<Member>

  /** The calculator's `calculateMatchQuality(gameInfo, teams)`. */
  type QualityFn = seq<RatingTeam> -> real

  /** The seeding value `mean - 3 * dev`. */
  function ConservativeSkill(r: Rating): real
  {
    r.mean - 3.0 * r.deviation
  }

  /** Every name on some rating team, in team order. */
  function MemberNames(teams: seq<RatingTeam>): seq<string>
  {
    if |teams| == 0 then []
    else MemberNames(teams[..|teams| - 1]) + seq(|teams[|teams| - 1]|, i requires 0 <= i < |teams[|teams| - 1]| => teams[|teams| - 1][i].name)
  }
}
