/** The member record the bot keeps per Discord user, its three levels and the
    xp thresholds between them. */
module Members {
  import opened Values

  /** The levels, numbered in the record store as 0, 1 and 2. */
  datatype DiscordUserLevel = New | Regular | Veteran {
    function Number(): (n: nat)
      ensures n <= 2
    {
      match this
      case New => 0
      case Regular => 1
      case Veteran => 2
    }
  }

  /** The level a stored level number names, if any. */
  function LevelOf(n: int): (l: Option<DiscordUserLevel>)
    ensures l.Some? <==> 0 <= n <= 2
    ensures l.Some? ==> l.value.Number() == n
  {
    if n == 0 then Some(New)
    else if n == 1 then Some(Regular)
    else if n == 2 then Some(Veteran)
    else None
  }

  /** Exactly three levels, strictly ordered New < Regular < Veteran, and
      numbering a level then reading the number back gives the level. */
  lemma LevelsOrderedAndNumbered(l: DiscordUserLevel)
    ensures New.Number() < Regular.Number() < Veteran.Number()
    ensures LevelOf(l.Number()) == Some(l)
    ensures l == New || l == Regular || l == Veteran
  {
  }

  /** `LevelUpThresholds`: the xp needed to leave New, then to leave Regular. */
  const LevelUpThresholds: seq<int> := [3, 5]

  /** `LevelUpThresholds[level]` in JavaScript: undefined (None) outside the
      array, which includes a negative level. */
  function ThresholdToLeave(level: int): Option<int> {
    if 0 <= level < |LevelUpThresholds| then Some(LevelUpThresholds[level]) else None
  }

  /** One threshold per level below the top, so the table's length is the top
      level's number; leaving New takes 3 xp and leaving Regular takes 5. */
  lemma ThresholdsCoverNonTopLevels(l: DiscordUserLevel)
    ensures |LevelUpThresholds| == Veteran.Number()
    ensures ThresholdToLeave(l.Number()).Some? <==> l != Veteran
    ensures ThresholdToLeave(New.Number()) == Some(3)
    ensures ThresholdToLeave(Regular.Number()) == Some(5)
  {
  }

  /** A member record: the store's row `Id`, the Discord user id, the xp
      counter and the level number. The level is kept as the number the
      store holds, so that a row with an out-of-range level is representable. */
  datatype DiscordUser = DiscordUser(id: int, discordUserId: string, xp: int, level: int)
}
