/** The profile progression engine: what one debriefed mission does to the
    player's XP, level, stats and streak. */
module Progression {
  import opened Types

  /** The outcome buttons of the debrief dialog and the multiplier each sends. */
  datatype Multiplier = Exceptional | OnTarget | Compromised

  function Value(m: Multiplier): (v: real)
    ensures 0.5 <= v <= 1.25
    ensures v == 1.25 <==> m == Exceptional
    ensures v == 1.0 <==> m == OnTarget
    ensures v == 0.5 <==> m == Compromised
  {
    match m
    case Exceptional => 1.25
    case OnTarget => 1.0
    case Compromised => 0.5
  }

  /** Math.floor(n * multiplier), computed exactly on integers. */
  function FloorTimes(n: int, m: Multiplier): (r: int)
    ensures r as real <= n as real * Value(m) < r as real + 1.0
  {
    match m
    case Exceptional =>
      var q := (5 * n) / 4;
      assert 5 * n == 4 * q + (5 * n) % 4;
      q
    case OnTarget => n
    case Compromised =>
      var q := n / 2;
      assert n == 2 * q + n % 2;
      q
  }

  /** XP awarded for a mission with the given reward. */
  function XpGained(reward: int, m: Multiplier): (g: int)
    ensures g as real <= reward as real * Value(m) < g as real + 1.0
    ensures m == Exceptional ==> g == (5 * reward) / 4
    ensures m == OnTarget ==> g == reward
    ensures m == Compromised ==> g == reward / 2
  {
    FloorTimes(reward, m)
  }

  /** Math.floor(threshold * 1.5): the XP threshold of the next level. */
  function NextThreshold(t: int): (r: int)
    ensures r as real <= t as real * 1.5 < r as real + 1.0
    ensures t >= 1 ==> t <= r
    ensures t >= 2 ==> t < r
  {
    var q := (3 * t) / 2;
    assert 3 * t == 2 * q + (3 * t) % 2;
    q
  }

  /** The bonus applied to one stat: 3 for at least 1.25, 1 for at most 0.5, else 2. */
  function StatIncrease(m: Multiplier): (k: int)
    ensures k == 3 <==> m == Exceptional
    ensures k == 2 <==> m == OnTarget
    ensures k == 1 <==> m == Compromised
  {
    if Value(m) >= 1.25 then 3 else if Value(m) <= 0.5 then 1 else 2
  }

  /** The streak grows only from zero, and only for a multiplier of at least 1.0. */
  function StreakAfter(streak: int, m: Multiplier): (s: int)
    ensures s == streak + 1 <==> (m != Compromised && streak == 0)
    ensures s == streak <==> (m == Compromised || streak != 0)
  {
    if Value(m) >= 1.0 then streak + (if streak == 0 then 1 else 0) else streak
  }

  /** The four profile stats. */
  datatype Attribute = IntellectStat | StrengthStat | TechStat | WillpowerStat

  function Stat(s: Stats, a: Attribute): int
  {
    match a
    case IntellectStat => s.intellect
    case StrengthStat => s.strength
    case TechStat => s.tech
    case WillpowerStat => s.willpower
  }

  /** The stat a mission category trains. */
  function AttributeFor(t: MissionType): (a: Attribute)
    ensures a == IntellectStat <==> t == Intellect
    ensures a == StrengthStat <==> t == Physical
    ensures a == TechStat <==> t == Gadgets
    ensures a == WillpowerStat <==> t == Restore
  {
    match t
    case Intellect => IntellectStat
    case Physical => StrengthStat
    case Gadgets => TechStat
    case Restore => WillpowerStat
  }

  /** The category-to-stat table is one-to-one and covers every stat. */
  lemma AttributeForIsBijective(t: MissionType, u: MissionType, a: Attribute)
    ensures AttributeFor(t) == AttributeFor(u) ==> t == u
    ensures exists v: MissionType :: AttributeFor(v) == a
  {
    match a
    case IntellectStat => assert AttributeFor(Intellect) == a;
    case StrengthStat => assert AttributeFor(Physical) == a;
    case TechStat => assert AttributeFor(Gadgets) == a;
    case WillpowerStat => assert AttributeFor(Restore) == a;
  }

  /** Adds k to the stat that a category trains, leaving the others. */
  function Bump(s: Stats, t: MissionType, k: int): (r: Stats)
    ensures forall a :: Stat(r, a) == Stat(s, a) + (if a == AttributeFor(t) then k else 0)
  {
    match t
    case Intellect => s.(intellect := s.intellect + k)
    case Physical => s.(strength := s.strength + k)
    case Gadgets => s.(tech := s.tech + k)
    case Restore => s.(willpower := s.willpower + k)
  }

  /** The profile after debriefing a mission with a multiplier. XP is added and
      never reduced by the threshold; reaching the threshold raises the level by
      one and the threshold by half. */
  function ApplyDebrief(prev: UserProfile, mission: Mission, m: Multiplier): (r: UserProfile)
    ensures r.name == prev.name
    ensures r.currentXp == prev.currentXp + XpGained(mission.xpReward, m)
    ensures r.currentXp >= prev.xpToNextLevel ==>
              r.level == prev.level + 1 && r.xpToNextLevel == NextThreshold(prev.xpToNextLevel)
    ensures r.currentXp < prev.xpToNextLevel ==>
              r.level == prev.level && r.xpToNextLevel == prev.xpToNextLevel
    ensures forall a :: Stat(r.stats, a) ==
              Stat(prev.stats, a) + (if a == AttributeFor(mission.missionType) then StatIncrease(m) else 0)
    ensures r.streak == StreakAfter(prev.streak, m)
  {
    var newXp := prev.currentXp + XpGained(mission.xpReward, m);
    var levelUp := newXp >= prev.xpToNextLevel;
    var newLevel := if levelUp then prev.level + 1 else prev.level;
    var newXpToNext := if levelUp then NextThreshold(prev.xpToNextLevel) else prev.xpToNextLevel;
    prev.(currentXp := newXp,
          level := newLevel,
          xpToNextLevel := newXpToNext,
          stats := Bump(prev.stats, mission.missionType, StatIncrease(m)),
          streak := StreakAfter(prev.streak, m))
  }

  /** One confirmed debrief: the mission and the button pressed. */
  datatype Debrief = Debrief(mission: Mission, multiplier: Multiplier)

  /** A run of debriefs applied in order. */
  function ApplyAll(p: UserProfile, ds: seq<Debrief>): UserProfile
    decreases |ds|
  {
    if ds == [] then p
    else ApplyAll(ApplyDebrief(p, ds[0].mission, ds[0].multiplier), ds[1..])
  }

  /** The XP the run awards, independent of the profile. */
  function TotalGained(ds: seq<Debrief>): int
    decreases |ds|
  {
    if ds == [] then 0
    else XpGained(ds[0].mission.xpReward, ds[0].multiplier) + TotalGained(ds[1..])
  }

  /** Profiles the planner's own updates keep: level at least one, a positive
      threshold and a streak of zero or one. */
  predicate ProfileSane(p: UserProfile)
  {
    p.level >= 1 && p.xpToNextLevel >= 1 && 0 <= p.streak <= 1
  }

  lemma InitialProfileSane()
    ensures ProfileSane(InitialProfile())
  {
  }

  lemma ApplyDebriefKeepsSane(p: UserProfile, mission: Mission, m: Multiplier)
    requires ProfileSane(p)
    ensures ProfileSane(ApplyDebrief(p, mission, m))
    ensures ApplyDebrief(p, mission, m).level >= p.level
    ensures ApplyDebrief(p, mission, m).xpToNextLevel >= p.xpToNextLevel
  {
  }

  /** XP accumulates across levels: the final XP is the start plus every award. */
  lemma {:induction false} XpAccumulates(p: UserProfile, ds: seq<Debrief>)
    ensures ApplyAll(p, ds).currentXp == p.currentXp + TotalGained(ds)
    ensures ApplyAll(p, ds).name == p.name
    decreases |ds|
  {
    if ds != [] {
      XpAccumulates(ApplyDebrief(p, ds[0].mission, ds[0].multiplier), ds[1..]);
    }
  }

  /** Each debrief raises the level by at most one, and never lowers it. */
  lemma {:induction false} LevelBoundedByDebriefs(p: UserProfile, ds: seq<Debrief>)
    ensures p.level <= ApplyAll(p, ds).level <= p.level + |ds|
    decreases |ds|
  {
    if ds != [] {
      LevelBoundedByDebriefs(ApplyDebrief(p, ds[0].mission, ds[0].multiplier), ds[1..]);
    }
  }

  /** Starting from a streak of zero or one, no run of debriefs takes it past one;
      a streak of one stays one. */
  lemma {:induction false} StreakAtMostOne(p: UserProfile, ds: seq<Debrief>)
    requires 0 <= p.streak <= 1
    ensures 0 <= ApplyAll(p, ds).streak <= 1
    ensures p.streak == 1 ==> ApplyAll(p, ds).streak == 1
    decreases |ds|
  {
    if ds != [] {
      StreakAtMostOne(ApplyDebrief(p, ds[0].mission, ds[0].multiplier), ds[1..]);
    }
  }

  /** The planner's updates keep a profile sane over any run of debriefs. */
  lemma {:induction false} ApplyAllKeepsSane(p: UserProfile, ds: seq<Debrief>)
    requires ProfileSane(p)
    ensures ProfileSane(ApplyAll(p, ds))
    decreases |ds|
  {
    if ds != [] {
      ApplyDebriefKeepsSane(p, ds[0].mission, ds[0].multiplier);
      ApplyAllKeepsSane(ApplyDebrief(p, ds[0].mission, ds[0].multiplier), ds[1..]);
    }
  }

  /** With XP below the threshold and a reward of at most two fifths of it,
      the XP stays below the (possibly raised) threshold. */
  lemma BelowThresholdKept(p: UserProfile, mission: Mission, m: Multiplier)
    requires 0 <= p.currentXp < p.xpToNextLevel
    requires 0 <= mission.xpReward && 5 * mission.xpReward <= 2 * p.xpToNextLevel
    ensures ApplyDebrief(p, mission, m).currentXp < ApplyDebrief(p, mission, m).xpToNextLevel
  {
  }

  /** Under the service's reward convention (20 to 100, never enforced) and a
      threshold of at least 250, XP stays below the threshold after every debrief. */
  lemma {:induction false} ConventionKeepsBelowThreshold(p: UserProfile, ds: seq<Debrief>)
    requires 0 <= p.currentXp < p.xpToNextLevel && p.xpToNextLevel >= 250
    requires forall i :: 0 <= i < |ds| ==> 0 <= ds[i].mission.xpReward <= 100
    ensures ApplyAll(p, ds).currentXp < ApplyAll(p, ds).xpToNextLevel
    decreases |ds|
  {
    if ds != [] {
      var q := ApplyDebrief(p, ds[0].mission, ds[0].multiplier);
      BelowThresholdKept(p, ds[0].mission, ds[0].multiplier);
      assert forall i :: 0 <= i < |ds[1..]| ==> ds[1..][i] == ds[i + 1];
      ConventionKeepsBelowThreshold(q, ds[1..]);
    }
  }

  /** The threshold can be overshot: XP is not rolled over, so a large enough
      reward leaves XP at or above the new threshold right after a level-up. */
  lemma LevelUpCanOvershoot(mission: Mission)
    requires mission.xpReward == 1000
    ensures var r := ApplyDebrief(InitialProfile(), mission, OnTarget);
            r.level == 2 && r.currentXp == 1000 && r.xpToNextLevel == 750 &&
            r.currentXp >= r.xpToNextLevel
  {
  }

  /** Examples: a reward of 50 at 1.25 gives 62 XP; a threshold of 500
      reached at 520 XP levels up to a threshold of 750; a second qualifying
      debrief leaves the streak at one. */
  lemma ProgressionExamples(mission: Mission)
    requires mission.xpReward == 50
    ensures XpGained(50, Exceptional) == 62
    ensures var p := InitialProfile().(currentXp := 470);
            var r := ApplyDebrief(p, mission, OnTarget);
            r.currentXp == 520 && r.level == 2 && r.xpToNextLevel == 750 && r.streak == 1 &&
            ApplyDebrief(r, mission, OnTarget).streak == 1
  {
  }
}
