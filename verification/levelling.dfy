/** The levelling rule applied to a member record for every message they send:
    one more xp, and a level-up (level + 1, xp back to 0) once the xp reaches
    the threshold of a level that has one. */
module Levelling {
  import opened Values
  import opened Members

  /** The record after one message, and whether it levelled up. */
  datatype Step = Step(user: DiscordUser, levelledUp: bool)

  /** A level-up follows exactly when the level has a threshold and the
      incremented xp reaches it. */
  predicate LevelsUp(u: DiscordUser) {
    0 <= u.level < |LevelUpThresholds| && u.xp + 1 >= LevelUpThresholds[u.level]
  }

  function GainXp(u: DiscordUser): (s: Step)
    ensures s.user.id == u.id && s.user.discordUserId == u.discordUserId
    ensures s.levelledUp <==> LevelsUp(u)
    ensures s.levelledUp ==> s.user.level == u.level + 1 && s.user.xp == 0
    ensures !s.levelledUp ==> s.user.level == u.level && s.user.xp == u.xp + 1
  {
    var bumped := u.(xp := u.xp + 1);
    if bumped.level < |LevelUpThresholds| then
      match ThresholdToLeave(bumped.level)
      case Some(threshold) =>
        if bumped.xp >= threshold then Step(bumped.(level := bumped.level + 1, xp := 0), true)
        else Step(bumped, false)
      // A negative level: `LevelUpThresholds[level]` is undefined, and no
      // number is `>=` undefined.
      case None => Step(bumped, false)
    else Step(bumped, false)
  }

  /** A stored level number that names a level still names one after a
      message: the same level, or the next one. */
  lemma StepKeepsLevelNamed(u: DiscordUser)
    requires LevelOf(u.level).Some?
    ensures LevelOf(GainXp(u).user.level).Some?
    ensures GainXp(u).user.level == u.level || GainXp(u).user.level == u.level + 1
    ensures GainXp(u).levelledUp ==> LevelOf(u.level) != Some(Veteran)
  {
  }

  /** The record after `n` messages. */
  function Run(u: DiscordUser, n: nat): DiscordUser
    decreases n
  {
    if n == 0 then u else Run(GainXp(u).user, n - 1)
  }

  /** `n` messages then `m` more is `n + m` messages. */
  lemma {:induction false} RunAdds(u: DiscordUser, n: nat, m: nat)
    ensures Run(u, n + m) == Run(Run(u, n), m)
    decreases n
  {
    if n > 0 {
      RunAdds(GainXp(u).user, n - 1, m);
    }
  }

  /** Across any number of messages the level never decreases, a level in
      {0, 1, 2} stays there, and the row's identity is untouched. */
  lemma {:induction false} RunKeepsLevelInRange(u: DiscordUser, n: nat)
    requires 0 <= u.level <= Veteran.Number()
    ensures u.level <= Run(u, n).level <= Veteran.Number()
    ensures Run(u, n).id == u.id && Run(u, n).discordUserId == u.discordUserId
    decreases n
  {
    if n > 0 {
      RunKeepsLevelInRange(GainXp(u).user, n - 1);
    }
  }

  /** A level without a threshold (Veteran, or a level number outside the
      table) never levels up: its xp only grows, one per message. */
  lemma {:induction false} TopLevelOnlyGainsXp(u: DiscordUser, n: nat)
    requires ThresholdToLeave(u.level).None?
    ensures Run(u, n) == u.(xp := u.xp + n)
    decreases n
  {
    if n > 0 {
      TopLevelOnlyGainsXp(u.(xp := u.xp + 1), n - 1);
    }
  }

  /** From a level with threshold `t` and xp below it, the xp grows by one per
      message and the (t - xp)-th message levels up, leaving xp at 0. */
  lemma {:induction false} LevelsUpAtThreshold(u: DiscordUser)
    requires 0 <= u.level < |LevelUpThresholds|
    requires u.xp < LevelUpThresholds[u.level]
    ensures forall k :: 0 <= k < LevelUpThresholds[u.level] - u.xp ==> Run(u, k) == u.(xp := u.xp + k)
    ensures Run(u, LevelUpThresholds[u.level] - u.xp) == u.(level := u.level + 1, xp := 0)
    decreases LevelUpThresholds[u.level] - u.xp
  {
    var next := GainXp(u).user;
    if u.xp + 1 < LevelUpThresholds[u.level] {
      LevelsUpAtThreshold(next);
      forall k | 0 < k < LevelUpThresholds[u.level] - u.xp
        ensures Run(u, k) == u.(xp := u.xp + k)
      {
        assert Run(u, k) == Run(next, k - 1);
      }
    }
  }

  /** A member who starts as New with xp 0 is Regular with xp 0 after 3
      messages and Veteran with xp 0 after 5 more. */
  lemma NewMemberJourney(id: int, discordUserId: string)
    ensures Run(DiscordUser(id, discordUserId, 0, New.Number()), 3)
         == DiscordUser(id, discordUserId, 0, Regular.Number())
    ensures Run(DiscordUser(id, discordUserId, 0, New.Number()), 3 + 5)
         == DiscordUser(id, discordUserId, 0, Veteran.Number())
  {
    var newcomer := DiscordUser(id, discordUserId, 0, New.Number());
    LevelsUpAtThreshold(newcomer);
    var regular := DiscordUser(id, discordUserId, 0, Regular.Number());
    LevelsUpAtThreshold(regular);
    RunAdds(newcomer, 3, 5);
  }
}
