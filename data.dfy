/** Types and constant tables of the game: stats, ranks, the level-up formula,
    the initial player, the default quests and the weekly activity log. */
module GameData {

  datatype Option<T> = None | Some(value: T)

  // ---------------------------------------------------------------- stats

  datatype StatName = Discipline | Intelligence | Strength | Consistency | Focus

  /** The spelling of each stat name as the program writes it. */
  function StatLabel(s: StatName): string
  {
    match s
    case Discipline => "Discipline"
    case Intelligence => "Intelligence"
    case Strength => "Strength"
    case Consistency => "Consistency"
    case Focus => "Focus"
  }

  /** Stats are a counter per stat name; a well-formed record has all five. */
  type Stats = map<StatName, int>

  ghost predicate CompleteStats(st: Stats)
  {
    forall s: StatName :: s in st
  }

  // ---------------------------------------------------------------- ranks

  datatype Rank = E | D | C | B | A | S | SS | Monarch

  /** Position of a rank in the declared order E < D < ... < Monarch. */
  function Ordinal(r: Rank): nat
  {
    match r
    case E => 0
    case D => 1
    case C => 2
    case B => 3
    case A => 4
    case S => 5
    case SS => 6
    case Monarch => 7
  }

  /** The `minLevel` column of the rank table. */
  function MinLevel(r: Rank): int
  {
    match r
    case E => 0
    case D => 4
    case C => 8
    case B => 13
    case A => 21
    case S => 31
    case SS => 46
    case Monarch => 60
  }

  /** The rank table's entries in declaration order. */
  const RankEntries: seq<Rank> := [E, D, C, B, A, S, SS, Monarch]

  lemma RankEntriesInOrdinalOrder()
    ensures |RankEntries| == 8
    ensures forall i :: 0 <= i < |RankEntries| ==> Ordinal(RankEntries[i]) == i
    ensures forall r: Rank :: r in RankEntries
  {
    forall r: Rank ensures r in RankEntries {
      assert RankEntries[Ordinal(r)] == r;
    }
  }

  /** Thresholds strictly increase with the rank ordinal. */
  lemma MinLevelStrictlyIncreasing(r1: Rank, r2: Rank)
    ensures Ordinal(r1) < Ordinal(r2) <==> MinLevel(r1) < MinLevel(r2)
  {
  }

  /** The lowest rank has threshold 0, so every level >= 0 qualifies for some rank. */
  lemma LowestRankAdmitsAllLevels(level: int)
    requires level >= 0
    ensures MinLevel(E) == 0 && MinLevel(E) <= level
    ensures forall r: Rank :: MinLevel(E) <= MinLevel(r)
  {
  }

  // ---------------------------------------------------------------- levels

  /** XP needed to leave `level`. */
  function LevelUpFormula(level: int): int
  {
    100 * level
  }

  lemma LevelUpFormulaIncreasing(a: int, b: int)
    requires 1 <= a < b
    ensures 0 < LevelUpFormula(a) < LevelUpFormula(b)
  {
  }

  // ---------------------------------------------------------------- player

  datatype Player = Player(
    name: string,
    title: string,
    level: int,
    xp: int,
    rank: Rank,
    stats: Stats,
    streak: int)

  const InitialStats: Stats :=
    map[Discipline := 10, Intelligence := 10, Strength := 10, Consistency := 10, Focus := 10]

  const InitialPlayer: Player :=
    Player("Rohit", "Shadow Monarch in Training", 1, 0, E, InitialStats, 0)

  lemma InitialPlayerFacts()
    ensures InitialPlayer.level == 1 && InitialPlayer.xp == 0
    ensures InitialPlayer.rank == E && InitialPlayer.streak == 0
    ensures 0 <= InitialPlayer.xp < LevelUpFormula(InitialPlayer.level)
    ensures CompleteStats(InitialPlayer.stats)
    ensures forall s :: s in InitialPlayer.stats ==> InitialPlayer.stats[s] == 10
  {
    forall s: StatName ensures s in InitialStats {
      match s
      case Discipline =>
      case Intelligence =>
      case Strength =>
      case Consistency =>
      case Focus =>
    }
  }

  // ---------------------------------------------------------------- quests

  datatype Quest = Quest(id: string, title: string, xp: int, stat: StatName, completed: bool)

  const MainQuests: seq<Quest> := [
    Quest("mq1", "Solve 3 DSA problems", 50, Intelligence, false),
    Quest("mq2", "Revise 1 core subject topic", 25, Intelligence, false),
    Quest("mq3", "30 min aptitude practice", 25, Focus, false)
  ]

  const SideQuests: seq<Quest> := [
    Quest("sq1", "Workout", 30, Strength, false),
    Quest("sq2", "No phone after 11 PM", 20, Discipline, false),
    Quest("sq3", "Improve resume", 10, Consistency, false),
    Quest("sq4", "Post on LinkedIn", 10, Consistency, false)
  ]

  const EmergencyQuest: Quest :=
    Quest("eq1", "Hunter in Danger \U{2013} Recover 150 XP Today", 0, Discipline, false)

  /** Every default quest, main quests first, then side quests, then the emergency quest. */
  const DefaultQuests: seq<Quest> := MainQuests + SideQuests + [EmergencyQuest]

  predicate UniqueIds(qs: seq<Quest>)
  {
    forall i, j :: 0 <= i < j < |qs| ==> qs[i].id != qs[j].id
  }

  /** No quest of the list rewards a negative amount or more than a level-1 threshold. */
  predicate RewardsInRange(qs: seq<Quest>)
  {
    forall i :: 0 <= i < |qs| ==> 0 <= qs[i].xp <= LevelUpFormula(1)
  }

  lemma DefaultQuestIdsUnique()
    ensures UniqueIds(DefaultQuests)
    ensures UniqueIds(MainQuests) && UniqueIds(SideQuests)
    ensures forall i :: 0 <= i < |DefaultQuests| ==> !DefaultQuests[i].completed
  {
  }

  lemma DefaultRewards()
    ensures RewardsInRange(DefaultQuests)
    ensures RewardsInRange(MainQuests) && RewardsInRange(SideQuests)
    ensures forall i :: 0 <= i < |DefaultQuests| ==>
      (DefaultQuests[i].xp == 0 <==> DefaultQuests[i] == EmergencyQuest)
  {
  }

  // ---------------------------------------------------------------- records

  /** The personal-bests card: fixed literals that no operation updates. */
  datatype PersonalBest = PersonalBest(title: string, value: string, icon: string)

  const PersonalBests: seq<PersonalBest> := [
    PersonalBest("Highest Level Achieved", "1", "ArrowUp"),
    PersonalBest("Longest Streak", "0 days", "Flame"),
    PersonalBest("Total XP Earned", "0", "Star")
  ]

  // ---------------------------------------------------------------- weekly log

  datatype DayActivity = DayActivity(day: string, xp: int)

  const WeekDays: seq<string> := ["Mon", "Tue", "Wed", "Thu", "Fri", "Sat", "Sun"]

  const WeeklyActivity: seq<DayActivity> := [
    DayActivity("Mon", 30),
    DayActivity("Tue", 75),
    DayActivity("Wed", 40),
    DayActivity("Thu", 90),
    DayActivity("Fri", 60),
    DayActivity("Sat", 120),
    DayActivity("Sun", 20)
  ]

  lemma WeeklyActivityShape()
    ensures |WeeklyActivity| == 7
    ensures forall i :: 0 <= i < 7 ==> WeeklyActivity[i].day == WeekDays[i]
  {
  }
}
