/** The records of the planner: missions, their categories and difficulty
    tiers, and the player profile with its starting value. */
module Types {

  datatype Option<T> = None | Some(value: T)

  /** The four mission categories. */
  datatype MissionType = Intellect | Physical | Gadgets | Restore

  /** The three difficulty tiers, as the string union of the mission record. */
  datatype Difficulty = Rookie | Vigilante | Knight

  /** A scheduled mission. Durations and rewards are JavaScript numbers in the
      source; the model takes them to be integers. */
  datatype Mission = Mission(
    id: string,
    title: string,
    description: string,
    startTime: string,
    durationMinutes: int,
    missionType: MissionType,
    xpReward: int,
    isCompleted: bool,
    difficulty: Difficulty)

  /** A mission as the decomposition service returns it: no id, no completion flag. */
  datatype MissionDraft = MissionDraft(
    title: string,
    description: string,
    startTime: string,
    durationMinutes: int,
    missionType: MissionType,
    xpReward: int,
    difficulty: Difficulty)

  datatype Stats = Stats(intellect: int, strength: int, tech: int, willpower: int)

  datatype UserProfile = UserProfile(
    name: string,
    level: int,
    currentXp: int,
    xpToNextLevel: int,
    stats: Stats,
    streak: int)

  /** The profile a new player starts with. */
  function InitialProfile(): (p: UserProfile)
    ensures p.name == "Initiate"
    ensures p.level == 1 && p.currentXp == 0 && p.xpToNextLevel == 500
    ensures p.stats == Stats(10, 10, 10, 10)
    ensures p.streak == 0
    ensures p.currentXp < p.xpToNextLevel && p.level >= 1
  {
    UserProfile("Initiate", 1, 0, 500, Stats(10, 10, 10, 10), 0)
  }

  /** Every category is one of the four, and the four are pairwise distinct. */
  lemma MissionTypeIsFourValued(t: MissionType)
    ensures t == Intellect || t == Physical || t == Gadgets || t == Restore
    ensures Intellect != Physical && Intellect != Gadgets && Intellect != Restore
    ensures Physical != Gadgets && Physical != Restore && Gadgets != Restore
  {
  }
}
