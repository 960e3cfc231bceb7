/** The dashboard's quest-completion step: look the quest up, mark it done, then
    update XP, stat, level, rank, streak and the weekly activity log. */
module Dashboard {
  import opened GameData

  /** Which of the three quest groups a completion refers to. */
  datatype QuestType = Main | Side | Emergency

  // ---------------------------------------------------------------- quest lookup

  /** Index of the first quest at or after `i` whose id is `id`, or -1 when there is none. */
  function FindFrom(qs: seq<Quest>, id: string, i: nat): (k: int)
    requires i <= |qs|
    decreases |qs| - i
    ensures k == -1 || i <= k < |qs|
    ensures k == -1 <==> forall j :: i <= j < |qs| ==> qs[j].id != id
    ensures k != -1 ==> qs[k].id == id && forall j :: i <= j < k ==> qs[j].id != id
  {
    if i == |qs| then -1
    else if qs[i].id == id then i
    else FindFrom(qs, id, i + 1)
  }

  /** Finding by id only looks at ids: lists with the same ids give the same index. */
  lemma {:induction false} FindFromSeesOnlyIds(a: seq<Quest>, b: seq<Quest>, id: string, i: nat)
    requires i <= |a| == |b|
    requires forall j :: 0 <= j < |a| ==> a[j].id == b[j].id
    decreases |a| - i
    ensures FindFrom(a, id, i) == FindFrom(b, id, i)
  {
    if i < |a| && a[i].id != id {
      FindFromSeesOnlyIds(a, b, id, i + 1);
    }
  }

  /** The first quest of the list with the given id, if any. */
  function FindQuest(qs: seq<Quest>, id: string): (r: Option<Quest>)
    ensures r.None? <==> forall j :: 0 <= j < |qs| ==> qs[j].id != id
    ensures r.Some? ==> exists k :: 0 <= k < |qs| && qs[k] == r.value && r.value.id == id &&
                                   forall j :: 0 <= j < k ==> qs[j].id != id
  {
    var k := FindFrom(qs, id, 0);
    if k == -1 then None else Some(qs[k])
  }

  /** The quest a completion names: the emergency quest whatever the id is, otherwise
      the first quest of the named list with that id. */
  function Lookup(main: seq<Quest>, side: seq<Quest>, emergency: Quest,
                  id: string, questType: QuestType): Option<Quest>
  {
    match questType
    case Main => FindQuest(main, id)
    case Side => FindQuest(side, id)
    case Emergency => Some(emergency)
  }

  /** What the lookup yields for each group: the emergency quest whatever the id, and for the
      main and side groups nothing exactly when no quest of the group has the id. */
  lemma LookupByGroup(main: seq<Quest>, side: seq<Quest>, emergency: Quest,
                      id: string, questType: QuestType)
    ensures var r := Lookup(main, side, emergency, id, questType);
      && (questType.Emergency? ==> r == Some(emergency))
      && (questType.Main? ==>
            && (r.None? <==> forall j :: 0 <= j < |main| ==> main[j].id != id)
            && (r.Some? ==> r.value in main && r.value.id == id))
      && (questType.Side? ==>
            && (r.None? <==> forall j :: 0 <= j < |side| ==> side[j].id != id)
            && (r.Some? ==> r.value in side && r.value.id == id))
  {
  }

  /** Every quest with the given id gets `completed` set; the others are kept as they are. */
  function MarkCompleted(qs: seq<Quest>, id: string): (r: seq<Quest>)
    ensures |r| == |qs|
    ensures forall i :: 0 <= i < |qs| ==>
      r[i] == if qs[i].id == id then qs[i].(completed := true) else qs[i]
  {
    if qs == [] then []
    else [if qs[0].id == id then qs[0].(completed := true) else qs[0]] + MarkCompleted(qs[1..], id)
  }

  /** With unique ids, marking changes exactly one quest: the one carrying the id. */
  lemma MarkCompletedChangesOne(qs: seq<Quest>, id: string, k: nat)
    requires UniqueIds(qs)
    requires k < |qs| && qs[k].id == id
    ensures MarkCompleted(qs, id) == qs[k := qs[k].(completed := true)]
  {
    var r := MarkCompleted(qs, id);
    forall i | 0 <= i < |qs| && i != k
      ensures r[i] == qs[i]
    {
      if i < k { assert qs[i].id != qs[k].id; } else { assert qs[k].id != qs[i].id; }
    }
  }

  /** After marking, looking the id up again finds a completed quest. */
  lemma FindAfterMark(qs: seq<Quest>, id: string)
    requires FindQuest(qs, id).Some?
    ensures FindQuest(MarkCompleted(qs, id), id).Some?
    ensures FindQuest(MarkCompleted(qs, id), id).value.completed
  {
    var r := MarkCompleted(qs, id);
    FindFromSeesOnlyIds(qs, r, id, 0);
  }

  // ---------------------------------------------------------------- level

  /** The single level-up check: at most one level is gained per completion and
      the threshold of the old level is paid out of the XP. */
  method LevelCheck(prevLevel: int, newXp: int) returns (newLevel: int, finalXp: int, leveledUp: bool)
    ensures leveledUp <==> newXp >= LevelUpFormula(prevLevel)
    ensures leveledUp <==> newLevel != prevLevel
    ensures leveledUp ==> newLevel == prevLevel + 1 && finalXp == newXp - LevelUpFormula(prevLevel)
    ensures !leveledUp ==> newLevel == prevLevel && finalXp == newXp
    ensures prevLevel >= 1 && 0 <= newXp < 2 * LevelUpFormula(prevLevel) ==>
      0 <= finalXp < LevelUpFormula(newLevel)
  {
    newLevel := prevLevel;
    finalXp := newXp;
    leveledUp := false;
    var xpForNextLevel := LevelUpFormula(prevLevel);
    if finalXp >= xpForNextLevel {
      newLevel := newLevel + 1;
      finalXp := finalXp - xpForNextLevel;
      leveledUp := true;
    }
  }

  // ---------------------------------------------------------------- rank

  /** The rank table's entries ordered by descending `minLevel`. */
  const RanksByMinLevelDesc: seq<Rank> := [Monarch, SS, S, A, B, C, D, E]

  /** The ordering above is what sorting the table's entries by descending `minLevel` yields:
      a permutation of the entries whose thresholds strictly decrease. */
  lemma RanksByMinLevelDescIsSortedTable()
    ensures |RanksByMinLevelDesc| == |RankEntries|
    ensures forall r: Rank :: r in RanksByMinLevelDesc && r in RankEntries
    ensures forall i, j :: 0 <= i < j < |RanksByMinLevelDesc| ==>
      MinLevel(RanksByMinLevelDesc[i]) > MinLevel(RanksByMinLevelDesc[j])
  {
    RankEntriesInOrdinalOrder();
    SortedRankPositions();
    forall r: Rank ensures r in RanksByMinLevelDesc {
      assert RanksByMinLevelDesc[7 - Ordinal(r)] == r;
    }
  }

  lemma SortedRankPositions()
    ensures |RanksByMinLevelDesc| == 8
    ensures forall i :: 0 <= i < 8 ==> Ordinal(RanksByMinLevelDesc[i]) == 7 - i
    ensures forall r: Rank :: RanksByMinLevelDesc[7 - Ordinal(r)] == r
  {
  }

  /** Index of the first rank at or after `i` whose threshold `level` reaches, or -1. */
  function FindEligibleFrom(rs: seq<Rank>, level: int, i: nat): (k: int)
    requires i <= |rs|
    decreases |rs| - i
    ensures k == -1 || i <= k < |rs|
    ensures k == -1 <==> forall j :: i <= j < |rs| ==> level < MinLevel(rs[j])
    ensures k != -1 ==> MinLevel(rs[k]) <= level && forall j :: i <= j < k ==> level < MinLevel(rs[j])
  {
    if i == |rs| then -1
    else if level >= MinLevel(rs[i]) then i
    else FindEligibleFrom(rs, level, i + 1)
  }

  /** The rank of a level: the highest rank whose threshold the level reaches. */
  function RankFor(level: int): (r: Rank)
    requires level >= 0
    ensures MinLevel(r) <= level
    ensures forall r': Rank :: MinLevel(r') <= level ==> Ordinal(r') <= Ordinal(r)
  {
    SortedRankPositions();
    assert RanksByMinLevelDesc[7] == E;
    var k := FindEligibleFrom(RanksByMinLevelDesc, level, 0);
    assert forall r': Rank :: MinLevel(r') <= level ==> 7 - Ordinal(r') >= k by {
      forall r': Rank | MinLevel(r') <= level ensures 7 - Ordinal(r') >= k {
        assert RanksByMinLevelDesc[7 - Ordinal(r')] == r';
      }
    }
    RanksByMinLevelDesc[k]
  }

  /** A higher level never has a lower rank. */
  lemma RankForMonotone(a: int, b: int)
    requires 0 <= a <= b
    ensures Ordinal(RankFor(a)) <= Ordinal(RankFor(b))
  {
  }

  /** The rank re-evaluation: the first entry of the descending table that the new level
      reaches replaces the previous rank; there is no guard against moving down. */
  method ResolveRank(prevRank: Rank, newLevel: int) returns (newRank: Rank)
    ensures newLevel >= 0 ==> newRank == RankFor(newLevel)
    ensures newLevel < 0 ==> newRank == prevRank
  {
    var k := FindEligibleFrom(RanksByMinLevelDesc, newLevel, 0);
    newRank := prevRank;
    if k != -1 {
      var potentialNewRank := RanksByMinLevelDesc[k];
      if potentialNewRank != prevRank {
        newRank := potentialNewRank;
      }
    }
    if newLevel < 0 {
      SortedRankPositions();
      assert k == -1;
    }
  }

  // ---------------------------------------------------------------- weekly log

  /** The names `Date.getDay()` gives, Sunday first. */
  const JsDayNames: seq<string> := ["Sun", "Mon", "Tue", "Wed", "Thu", "Fri", "Sat"]

  /** Bucket of the weekly log for a `getDay()` value: Monday is 0 and Sunday is 6. */
  function DayIndex(getDay: int): (r: nat)
    requires 0 <= getDay <= 6
    ensures r < 7
  {
    if getDay == 0 then 6 else getDay - 1
  }

  /** The bucket chosen for a weekday is the one the log labels with that weekday's name. */
  lemma DayIndexNamesWeekday(getDay: int)
    requires 0 <= getDay <= 6
    ensures WeekDays[DayIndex(getDay)] == JsDayNames[getDay]
    ensures WeeklyActivity[DayIndex(getDay)].day == JsDayNames[getDay]
    ensures getDay == 1 ==> DayIndex(getDay) == 0
    ensures getDay == 0 ==> DayIndex(getDay) == 6
  {
  }

  /** The weekly log the dashboard starts with: the default days with every XP set to 0. */
  function ZeroedWeek(week: seq<DayActivity>): (r: seq<DayActivity>)
    ensures |r| == |week|
    ensures forall i :: 0 <= i < |r| ==> r[i].day == week[i].day && r[i].xp == 0
    ensures WeekTotal(r) == 0
  {
    if week == [] then [] else [week[0].(xp := 0)] + ZeroedWeek(week[1..])
  }

  /** Total XP of the log. */
  function WeekTotal(week: seq<DayActivity>): int
  {
    if week == [] then 0 else week[0].xp + WeekTotal(week[1..])
  }

  /** Adding to one bucket adds the same amount to the total. */
  lemma {:induction false} WeekTotalCredit(week: seq<DayActivity>, i: nat, amount: int)
    requires i < |week|
    ensures WeekTotal(week[i := week[i].(xp := week[i].xp + amount)]) == WeekTotal(week) + amount
  {
    var w := week[i := week[i].(xp := week[i].xp + amount)];
    if i > 0 {
      WeekTotalCredit(week[1..], i - 1, amount);
      assert w[1..] == week[1..][i - 1 := week[i].(xp := week[i].xp + amount)];
    } else {
      assert w[1..] == week[1..];
    }
  }

  // ---------------------------------------------------------------- player invariant

  /** What every player the dashboard produces satisfies. */
  ghost predicate WellFormedPlayer(p: Player)
  {
    && p.level >= 1
    && 0 <= p.xp < LevelUpFormula(p.level)
    && p.rank == RankFor(p.level)
    && p.streak >= 0
    && CompleteStats(p.stats)
  }

  lemma InitialPlayerWellFormed()
    ensures WellFormedPlayer(InitialPlayer)
    ensures RankFor(InitialPlayer.level) == E
  {
    InitialPlayerFacts();
  }

  // ---------------------------------------------------------------- completion relations

  /** How an accepted completion changes the three quest groups: exactly the target quest
      becomes completed and nothing else changes. */
  ghost predicate Marked(main0: seq<Quest>, side0: seq<Quest>, emergency0: Quest,
                         main: seq<Quest>, side: seq<Quest>, emergency: Quest,
                         questId: string, questType: QuestType)
  {
    match questType
    case Emergency =>
      emergency == emergency0.(completed := true) && main == main0 && side == side0
    case Main =>
      && side == side0 && emergency == emergency0
      && exists k :: 0 <= k < |main0| && main0[k].id == questId &&
                     main == main0[k := main0[k].(completed := true)]
    case Side =>
      && main == main0 && emergency == emergency0
      && exists k :: 0 <= k < |side0| && side0[k].id == questId &&
                     side == side0[k := side0[k].(completed := true)]
  }

  /** How an accepted completion of `quest` changes the player and the weekly log, and what
      the two notices report. */
  ghost predicate Rewarded(p0: Player, p: Player, week0: seq<DayActivity>, week: seq<DayActivity>,
                           quest: Quest, getDay: int, leveledUp: bool, promoted: bool)
    requires 0 <= getDay <= 6 && |week0| == 7
  {
    // exactly the quest's stat gains one point, whatever the reward
    && quest.stat in p0.stats && p.stats.Keys == p0.stats.Keys
    && p.stats[quest.stat] == p0.stats[quest.stat] + 1
    && (forall s :: s in p.stats && s != quest.stat ==> p.stats[s] == p0.stats[s])
    // one level-up check against the old level's threshold
    && (leveledUp <==> p0.xp + quest.xp >= LevelUpFormula(p0.level))
    && (leveledUp <==> p.level != p0.level)
    && (leveledUp ==> p.level == p0.level + 1 && p.xp == p0.xp + quest.xp - LevelUpFormula(p0.level))
    && (!leveledUp ==> p.level == p0.level && p.xp == p0.xp + quest.xp)
    // rank follows the level and the promotion notice fires exactly when it changes
    && p.level >= 0 && p.rank == RankFor(p.level)
    && Ordinal(p0.rank) <= Ordinal(p.rank)
    && (promoted <==> p.rank != p0.rank)
    // streak, name and title
    && p.streak == p0.streak + 1 && p.name == p0.name && p.title == p0.title
    // only today's bucket gains the reward
    && (var i := DayIndex(getDay);
        && week == week0[i := week0[i].(xp := week0[i].xp + quest.xp)]
        && WeekTotal(week) == WeekTotal(week0) + quest.xp)
  }

  // ---------------------------------------------------------------- dashboard state

  /** The dashboard page's state: the player, the three quest groups and the weekly log. */
  class DashboardPage {
    var player: Player
    var main: seq<Quest>
    var side: seq<Quest>
    var emergency: Quest
    var weekly: seq<DayActivity>

    ghost predicate Valid()
      reads this
    {
      && WellFormedPlayer(player)
      && |weekly| == 7
      && UniqueIds(main) && UniqueIds(side)
      && RewardsInRange(main) && RewardsInRange(side)
      && 0 <= emergency.xp <= LevelUpFormula(1)
    }

    /** The page's initial state: the initial player, the default quests and a zeroed week. */
    constructor ()
      ensures Valid()
      ensures player == InitialPlayer
      ensures main == MainQuests && side == SideQuests && emergency == EmergencyQuest
      ensures weekly == ZeroedWeek(WeeklyActivity)
    {
      player := InitialPlayer;
      main := MainQuests;
      side := SideQuests;
      emergency := EmergencyQuest;
      weekly := ZeroedWeek(WeeklyActivity);
      DefaultQuestIdsUnique();
      DefaultRewards();
      InitialPlayerWellFormed();
    }

    /** The quest a completion of `questId` in group `questType` refers to. */
    function Target(questId: string, questType: QuestType): Option<Quest>
      reads this
    {
      Lookup(main, side, emergency, questId, questType)
    }

    /** Sets `completed` on the quest a completion refers to and on nothing else. */
    method MarkDone(questId: string, questType: QuestType)
      requires Target(questId, questType).Some?
      requires UniqueIds(main) && UniqueIds(side)
      modifies this`main, this`side, this`emergency
      ensures Marked(old(main), old(side), old(emergency), main, side, emergency, questId, questType)
      ensures Target(questId, questType).Some? && Target(questId, questType).value.completed
      ensures UniqueIds(main) && UniqueIds(side)
      ensures |main| == |old(main)| && |side| == |old(side)| && emergency.xp == old(emergency).xp
      ensures forall i :: 0 <= i < |main| ==> main[i].xp == old(main)[i].xp
      ensures forall i :: 0 <= i < |side| ==> side[i].xp == old(side)[i].xp
    {
      match questType {
        case Emergency =>
          emergency := emergency.(completed := true);
        case Main =>
          var k := FindFrom(main, questId, 0);
          MarkCompletedChangesOne(main, questId, k);
          FindAfterMark(main, questId);
          main := MarkCompleted(main, questId);
        case Side =>
          var k := FindFrom(side, questId, 0);
          MarkCompletedChangesOne(side, questId, k);
          FindAfterMark(side, questId);
          side := MarkCompleted(side, questId);
      }
    }

    /** The player and weekly-log update of an accepted completion of `quest`: XP and one
        stat point, a single level-up check, rank re-evaluation, streak and today's bucket. */
    method ApplyReward(quest: Quest, getDay: int) returns (leveledUp: bool, promoted: bool)
      requires WellFormedPlayer(player) && |weekly| == 7
      requires 0 <= quest.xp <= LevelUpFormula(1)
      requires 0 <= getDay <= 6
      modifies this`player, this`weekly
      ensures WellFormedPlayer(player) && |weekly| == 7
      ensures Rewarded(old(player), player, old(weekly), weekly, quest, getDay, leveledUp, promoted)
    {
      var prevXp, prevLevel, prevRank, prevStats, prevStreak :=
        player.xp, player.level, player.rank, player.stats, player.streak;

      var newXp := prevXp + quest.xp;
      var newStats := prevStats[quest.stat := prevStats[quest.stat] + 1];

      var newLevel, finalXp, up := LevelCheck(prevLevel, newXp);
      var newRank := ResolveRank(prevRank, newLevel);
      RankForMonotone(prevLevel, newLevel);

      var dayIndex := DayIndex(getDay);
      var newActivity := weekly[dayIndex := weekly[dayIndex].(xp := weekly[dayIndex].xp + quest.xp)];
      WeekTotalCredit(weekly, dayIndex, quest.xp);

      var newPlayer := player.(xp := finalXp, level := newLevel, rank := newRank,
                               stats := newStats, streak := prevStreak + 1);
      assert WellFormedPlayer(newPlayer);
      assert Rewarded(player, newPlayer, weekly, newActivity, quest, getDay, up, newRank != prevRank);
      player, weekly := newPlayer, newActivity;
      leveledUp, promoted := up, newRank != prevRank;
    }

    /** Completes a quest. `getDay` is the clock's weekday, 0 = Sunday. The flags report
        the level-up and rank-promotion notices. */
    method Complete(questId: string, questType: QuestType, getDay: int)
      returns (accepted: bool, leveledUp: bool, promoted: bool)
      requires Valid()
      requires 0 <= getDay <= 6
      modifies this
      ensures Valid()
      // the guard: the quest must exist and not be completed yet
      ensures accepted <==> old(Target(questId, questType)).Some? && !old(Target(questId, questType)).value.completed
      ensures !accepted ==>
        && player == old(player) && main == old(main) && side == old(side)
        && emergency == old(emergency) && weekly == old(weekly)
        && !leveledUp && !promoted
      ensures accepted ==> Target(questId, questType).Some? && Target(questId, questType).value.completed
      ensures accepted ==>
        Marked(old(main), old(side), old(emergency), main, side, emergency, questId, questType)
      ensures accepted ==>
        Rewarded(old(player), player, old(weekly), weekly, old(Target(questId, questType)).value,
                 getDay, leveledUp, promoted)
    {
      accepted, leveledUp, promoted := false, false, false;
      var questToComplete := Lookup(main, side, emergency, questId, questType);
      if questToComplete.None? || questToComplete.value.completed {
        return;
      }
      var quest := questToComplete.value;
      assert 0 <= quest.xp <= LevelUpFormula(1);

      ghost var player0, weekly0 := player, weekly;
      MarkDone(questId, questType);
      assert player == player0 && weekly == weekly0;

      ghost var main1, side1, emergency1 := main, side, emergency;
      leveledUp, promoted := ApplyReward(quest, getDay);
      assert main == main1 && side == side1 && emergency == emergency1;
      accepted := true;
    }
  }

  /** A second completion of the same quest is rejected: the dashboard changes once. */
  method CompleteTwice(d: DashboardPage, questId: string, questType: QuestType, getDay: int)
    returns (first: bool, second: bool)
    requires d.Valid()
    requires 0 <= getDay <= 6
    modifies d
    ensures d.Valid()
    ensures !second
  {
    var up, promo;
    first, up, promo := d.Complete(questId, questType, getDay);
    second, up, promo := d.Complete(questId, questType, getDay);
  }
}
