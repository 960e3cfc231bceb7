/** The yearly progress heatmap: completions (quest id -> date) are folded into XP per date,
    laid out over the 365 days ending today, and each day's count is mapped to a shade. */
module Activity {
  import opened GameData

  /** A calendar date, as a day number (consecutive dates differ by one). */
  type Day = int

  const HeatmapDays: nat := 365

  /** What reading one stored entry gives: nothing stored, a parsed value, or text the
      parser rejects. */
  datatype Stored<T> = Absent | Parsed(value: T) | Malformed

  // ---------------------------------------------------------------- quest map

  /** The id -> quest map built from a list of quests, entry by entry. */
  function QuestsById(qs: seq<Quest>): map<string, Quest>
  {
    if qs == [] then map[]
    else QuestsById(qs[..|qs| - 1])[qs[|qs| - 1].id := qs[|qs| - 1]]
  }

  /** The map holds exactly the ids of the list. */
  lemma {:induction false} QuestsByIdKeys(qs: seq<Quest>)
    ensures forall id :: id in QuestsById(qs) <==> exists i :: 0 <= i < |qs| && qs[i].id == id
  {
    if qs != [] {
      var n := |qs| - 1;
      var init := qs[..n];
      QuestsByIdKeys(init);
      var m := QuestsById(qs);
      assert m == QuestsById(init)[qs[n].id := qs[n]];
      forall id | id in m
        ensures exists i :: 0 <= i < |qs| && qs[i].id == id
      {
        if id != qs[n].id {
          var i :| 0 <= i < |init| && init[i].id == id;
          assert qs[i].id == id;
        }
      }
      forall id | exists i :: 0 <= i < |qs| && qs[i].id == id
        ensures id in m
      {
        var i :| 0 <= i < |qs| && qs[i].id == id;
        if i < n { assert init[i].id == id; }
      }
    }
  }

  /** When ids repeat, the later quest wins: a quest whose id does not occur again after it
      is the one the map gives for that id. */
  lemma {:induction false} QuestsByIdLastWins(qs: seq<Quest>, i: nat)
    requires i < |qs|
    requires forall j :: i < j < |qs| ==> qs[j].id != qs[i].id
    ensures qs[i].id in QuestsById(qs) && QuestsById(qs)[qs[i].id] == qs[i]
  {
    var n := |qs| - 1;
    if i < n {
      var init := qs[..n];
      assert init[i] == qs[i];
      assert qs[n].id != qs[i].id;
      QuestsByIdLastWins(init, i);
    }
  }

  /** Every quest the heatmap knows: the stored (or default) main and side quests and the
      emergency quest. */
  function DefinedQuests(storedMain: Stored<seq<Quest>>, storedSide: Stored<seq<Quest>>): (qs: seq<Quest>)
    requires !storedMain.Malformed? && !storedSide.Malformed?
    ensures var m := if storedMain.Parsed? then storedMain.value else MainQuests;
            var s := if storedSide.Parsed? then storedSide.value else SideQuests;
            |qs| == |m| + |s| + 1 && qs[..|m|] == m && qs[|m|..|m| + |s|] == s
    ensures |qs| >= 1 && qs[|qs| - 1] == EmergencyQuest
    ensures storedMain.Absent? && storedSide.Absent? ==> qs == DefaultQuests
  {
    (if storedMain.Parsed? then storedMain.value else MainQuests)
      + (if storedSide.Parsed? then storedSide.value else SideQuests)
      + [EmergencyQuest]
  }

  // ---------------------------------------------------------------- XP per date

  /** XP that the completion recorded under `id` credits to day `d`: the reward of the quest
      with that id when there is one and it was completed on `d`, and nothing otherwise. */
  function Credit(byId: map<string, Quest>, completions: map<string, Day>, id: string, d: Day): int
    requires id in completions
  {
    if id in byId && completions[id] == d then byId[id].xp else 0
  }

  /** Sum of the credits of the completions `ids` to day `d`. */
  ghost function SumCredits(byId: map<string, Quest>, completions: map<string, Day>,
                            ids: set<string>, d: Day): int
    requires ids <= completions.Keys
    decreases ids
  {
    if ids == {} then 0
    else
      var id :| id in ids;
      Credit(byId, completions, id, d) + SumCredits(byId, completions, ids - {id}, d)
  }

  /** The sum does not depend on the order the completions are visited in: any one of them
      may be taken first. */
  lemma {:induction false} SumCreditsAnyFirst(byId: map<string, Quest>, completions: map<string, Day>,
                                              ids: set<string>, d: Day, x: string)
    requires ids <= completions.Keys && x in ids
    ensures SumCredits(byId, completions, ids, d) ==
            Credit(byId, completions, x, d) + SumCredits(byId, completions, ids - {x}, d)
    decreases ids
  {
    var y :| y in ids && SumCredits(byId, completions, ids, d) ==
                         Credit(byId, completions, y, d) + SumCredits(byId, completions, ids - {y}, d);
    if y != x {
      SumCreditsAnyFirst(byId, completions, ids - {y}, d, x);
      SumCreditsAnyFirst(byId, completions, ids - {x}, d, y);
      assert ids - {y} - {x} == ids - {x} - {y};
    }
  }

  /** The dates on which some completion of `ids` names a known quest. */
  ghost function DaysOf(byId: map<string, Quest>, completions: map<string, Day>, ids: set<string>): set<Day>
    requires ids <= completions.Keys
  {
    set id | id in ids && id in byId :: completions[id]
  }

  /** A date without any completion of a known quest receives nothing. */
  lemma {:induction false} SumCreditsOffDays(byId: map<string, Quest>, completions: map<string, Day>,
                                             ids: set<string>, d: Day)
    requires ids <= completions.Keys
    requires d !in DaysOf(byId, completions, ids)
    ensures SumCredits(byId, completions, ids, d) == 0
    decreases ids
  {
    if ids != {} {
      var x :| x in ids;
      SumCreditsAnyFirst(byId, completions, ids, d, x);
      assert DaysOf(byId, completions, ids - {x}) <= DaysOf(byId, completions, ids);
      SumCreditsOffDays(byId, completions, ids - {x}, d);
    }
  }

  /** The sum only depends on the dates of the completions it adds up. */
  lemma {:induction false} SumCreditsCongruent(byId: map<string, Quest>, c1: map<string, Day>,
                                               c2: map<string, Day>, ids: set<string>, d: Day)
    requires ids <= c1.Keys && ids <= c2.Keys
    requires forall id :: id in ids ==> c1[id] == c2[id]
    ensures SumCredits(byId, c1, ids, d) == SumCredits(byId, c2, ids, d)
    decreases ids
  {
    if ids != {} {
      var x :| x in ids;
      SumCreditsAnyFirst(byId, c1, ids, d, x);
      SumCreditsAnyFirst(byId, c2, ids, d, x);
      SumCreditsCongruent(byId, c1, c2, ids - {x}, d);
    }
  }

  /** XP per date over the completions `ids`: a date is present exactly when some completion
      of a known quest falls on it, and its value is the sum of those quests' rewards. */
  ghost function DailyXpOver(byId: map<string, Quest>, completions: map<string, Day>,
                             ids: set<string>): map<Day, int>
    requires ids <= completions.Keys
  {
    map d | d in DaysOf(byId, completions, ids) :: SumCredits(byId, completions, ids, d)
  }

  /** XP per date over all recorded completions. */
  ghost function DailyXp(byId: map<string, Quest>, completions: map<string, Day>): map<Day, int>
  {
    DailyXpOver(byId, completions, completions.Keys)
  }

  /** One accumulation step: the reward of the quest completed under `id`, if it is known,
      is added to its date's entry (an absent entry counts as 0). */
  function Accumulate(xpByDate: map<Day, int>, byId: map<string, Quest>,
                      completions: map<string, Day>, id: string): (r: map<Day, int>)
    requires id in completions
    ensures id !in byId ==> r == xpByDate
    ensures id in byId ==> r.Keys == xpByDate.Keys + {completions[id]}
    ensures id in byId ==>
      r[completions[id]] == (if completions[id] in xpByDate then xpByDate[completions[id]] else 0) + byId[id].xp
    ensures forall d :: d in r && d != completions[id] ==> d in xpByDate && r[d] == xpByDate[d]
  {
    if id in byId then
      var date := completions[id];
      xpByDate[date := (if date in xpByDate then xpByDate[date] else 0) + byId[id].xp]
    else xpByDate
  }

  /** Folding in one more completion is one accumulation step. */
  lemma DailyXpOverAdd(byId: map<string, Quest>, completions: map<string, Day>,
                       ids: set<string>, x: string)
    requires ids <= completions.Keys && x in completions && x !in ids
    ensures DailyXpOver(byId, completions, ids + {x}) ==
            Accumulate(DailyXpOver(byId, completions, ids), byId, completions, x)
  {
    var before := DailyXpOver(byId, completions, ids);
    var after := DailyXpOver(byId, completions, ids + {x});
    var step := Accumulate(before, byId, completions, x);
    assert (ids + {x}) - {x} == ids;
    assert DaysOf(byId, completions, ids + {x}) ==
           DaysOf(byId, completions, ids) + (if x in byId then {completions[x]} else {});
    forall d | d in after
      ensures d in step && after[d] == step[d]
    {
      SumCreditsAnyFirst(byId, completions, ids + {x}, d, x);
      if d !in before {
        SumCreditsOffDays(byId, completions, ids, d);
      }
    }
    assert after.Keys == step.Keys;
  }

  /** Folding whole maps: adding the completions needs the dates of the same ids only. */
  lemma DailyXpOverCongruent(byId: map<string, Quest>, c1: map<string, Day>, c2: map<string, Day>,
                             ids: set<string>)
    requires ids <= c1.Keys && ids <= c2.Keys
    requires forall id :: id in ids ==> c1[id] == c2[id]
    ensures DailyXpOver(byId, c1, ids) == DailyXpOver(byId, c2, ids)
  {
    assert DaysOf(byId, c1, ids) == DaysOf(byId, c2, ids);
    forall d | d in DaysOf(byId, c1, ids)
      ensures SumCredits(byId, c1, ids, d) == SumCredits(byId, c2, ids, d)
    {
      SumCreditsCongruent(byId, c1, c2, ids, d);
    }
  }

  /** The `for...in` accumulation over the completion map. The loop visits the ids in an
      order it does not control, and the result is XP per date all the same. */
  method XpByDate(byId: map<string, Quest>, completions: map<string, Day>)
    returns (xpByDate: map<Day, int>)
    ensures xpByDate == DailyXp(byId, completions)
  {
    xpByDate := map[];
    var pending := completions.Keys;
    assert DailyXpOver(byId, completions, completions.Keys - pending) == map[];
    while pending != {}
      invariant pending <= completions.Keys
      invariant xpByDate == DailyXpOver(byId, completions, completions.Keys - pending)
      decreases pending
    {
      var questId :| questId in pending;
      var done := completions.Keys - pending;
      DailyXpOverAdd(byId, completions, done, questId);
      var completionDate := completions[questId];
      if questId in byId {
        var quest := byId[questId];
        var sofar := if completionDate in xpByDate then xpByDate[completionDate] else 0;
        xpByDate := xpByDate[completionDate := sofar + quest.xp];
      }
      pending := pending - {questId};
      assert completions.Keys - pending == done + {questId};
    }
    assert completions.Keys - pending == completions.Keys;
  }

  /** Completions whose id names no known quest contribute nothing. */
  lemma UnknownCompletionIgnored(byId: map<string, Quest>, completions: map<string, Day>, x: string)
    requires x in completions && x !in byId
    ensures DailyXp(byId, completions) == DailyXp(byId, completions - {x})
  {
    var rest := completions.Keys - {x};
    assert (completions - {x}).Keys == rest;
    assert rest + {x} == completions.Keys;
    DailyXpOverAdd(byId, completions, rest, x);
    DailyXpOverCongruent(byId, completions, completions - {x}, rest);
  }

  /** Recording the completion of a known quest that had none adds its reward once, to its
      date, and changes no other date. */
  lemma RecordCompletion(byId: map<string, Quest>, completions: map<string, Day>, x: string, d: Day)
    requires x !in completions && x in byId
    ensures var before := DailyXp(byId, completions);
            DailyXp(byId, completions[x := d]) ==
              before[d := (if d in before then before[d] else 0) + byId[x].xp]
  {
    var c' := completions[x := d];
    assert c'.Keys == completions.Keys + {x};
    DailyXpOverAdd(byId, c', completions.Keys, x);
    DailyXpOverCongruent(byId, c', completions, completions.Keys);
  }

  // ---------------------------------------------------------------- window

  datatype DayCount = DayCount(date: Day, count: int)

  /** The 365 days ending today, each with its XP (0 when the date has none). */
  function Window(today: Day, xpByDate: map<Day, int>): (r: seq<DayCount>)
    ensures |r| == HeatmapDays
    ensures r[HeatmapDays - 1].date == today
    ensures forall i :: 0 <= i < |r| - 1 ==> r[i + 1].date == r[i].date + 1
    ensures forall i :: 0 <= i < |r| ==>
      r[i].count == if r[i].date in xpByDate then xpByDate[r[i].date] else 0
  {
    seq(HeatmapDays, i requires 0 <= i < HeatmapDays =>
      var date := today - (HeatmapDays - 1 - i);
      DayCount(date, if date in xpByDate then xpByDate[date] else 0))
  }

  /** The window holds each of the 365 days up to today exactly once, and no other day. */
  lemma WindowCoversYear(today: Day, xpByDate: map<Day, int>, d: Day)
    ensures var r := Window(today, xpByDate);
      (today - (HeatmapDays - 1) <= d <= today <==> exists i :: 0 <= i < |r| && r[i].date == d)
    ensures var r := Window(today, xpByDate);
      forall i, j :: 0 <= i < j < |r| ==> r[i].date < r[j].date
  {
    var r := Window(today, xpByDate);
    if today - (HeatmapDays - 1) <= d <= today {
      assert r[d - (today - (HeatmapDays - 1))].date == d;
    }
  }

  /** Each day of the window shows the sum of the rewards of the known quests completed on it. */
  lemma WindowShowsDailySums(today: Day, byId: map<string, Quest>, completions: map<string, Day>, i: nat)
    requires i < HeatmapDays
    ensures var r := Window(today, DailyXp(byId, completions));
      r[i].count == SumCredits(byId, completions, completions.Keys, r[i].date)
  {
    var r := Window(today, DailyXp(byId, completions));
    if r[i].date !in DaysOf(byId, completions, completions.Keys) {
      SumCreditsOffDays(byId, completions, completions.Keys, r[i].date);
    }
  }

  /** The window built after an error: the same 365 dates, every count 0. */
  function FallbackWindow(today: Day): (r: seq<DayCount>)
    ensures |r| == HeatmapDays
    ensures forall i :: 0 <= i < |r| ==> r[i].count == 0
    ensures r == Window(today, map[])
  {
    seq(HeatmapDays, i requires 0 <= i < HeatmapDays => DayCount(today - (HeatmapDays - 1 - i), 0))
  }

  /** The heatmap effect. Stored quest lists replace the defaults when present; a stored entry
      the parser rejects sends the whole computation to the all-zero fallback window. */
  method ProgressHeatmap(today: Day, storedMain: Stored<seq<Quest>>, storedSide: Stored<seq<Quest>>,
                         storedCompletions: Stored<map<string, Day>>)
    returns (data: seq<DayCount>)
    ensures |data| == HeatmapDays
    ensures storedMain.Malformed? || storedSide.Malformed? || storedCompletions.Malformed? ==>
      data == FallbackWindow(today)
    ensures !storedMain.Malformed? && !storedSide.Malformed? && !storedCompletions.Malformed? ==>
      data == Window(today, DailyXp(QuestsById(DefinedQuests(storedMain, storedSide)),
                                    if storedCompletions.Parsed? then storedCompletions.value else map[]))
  {
    if storedMain.Malformed? || storedSide.Malformed? || storedCompletions.Malformed? {
      data := FallbackWindow(today);
      return;
    }
    var allDefinedQuests := DefinedQuests(storedMain, storedSide);
    var questsById := QuestsById(allDefinedQuests);
    var completions := if storedCompletions.Parsed? then storedCompletions.value else map[];
    var xpByDate := XpByDate(questsById, completions);
    data := Window(today, xpByDate);
  }

  // ---------------------------------------------------------------- shades

  /** The five shades of a heatmap dot, from none to full. */
  datatype Shade = Muted | Faint | Light | Medium | Full

  function Intensity(s: Shade): nat
  {
    match s
    case Muted => 0
    case Faint => 1
    case Light => 2
    case Medium => 3
    case Full => 4
  }

  /** The style class of each shade. */
  function ShadeClass(s: Shade): string
  {
    match s
    case Muted => "bg-muted/20"
    case Faint => "bg-primary/20"
    case Light => "bg-primary/40"
    case Medium => "bg-primary/70"
    case Full => "bg-primary"
  }

  /** The shade of a day's XP count. */
  function DotColor(count: int): (r: Shade)
    ensures r == Muted <==> count == 0
    ensures r == Faint <==> count != 0 && count < 20
    ensures r == Light <==> 20 <= count < 50
    ensures r == Medium <==> 50 <= count < 100
    ensures r == Full <==> 100 <= count
  {
    if count == 0 then Muted
    else if count < 20 then Faint
    else if count < 50 then Light
    else if count < 100 then Medium
    else Full
  }

  /** The style class a day's dot gets, band by band. */
  lemma DotColorClass(count: int)
    ensures ShadeClass(DotColor(count)) ==
      if count == 0 then "bg-muted/20"
      else if count < 20 then "bg-primary/20"
      else if count < 50 then "bg-primary/40"
      else if count < 100 then "bg-primary/70"
      else "bg-primary"
    ensures forall s1: Shade, s2: Shade :: ShadeClass(s1) == ShadeClass(s2) ==> s1 == s2
  {
    forall s1: Shade, s2: Shade | ShadeClass(s1) == ShadeClass(s2) ensures s1 == s2 {
      assert |ShadeClass(s1)| == |ShadeClass(s2)|;
      assert ShadeClass(s1)[|ShadeClass(s1)| - 2] == ShadeClass(s2)[|ShadeClass(s2)| - 2];
    }
  }

  /** Among non-negative counts a larger count never gets a lighter shade. */
  lemma DotColorMonotone(a: int, b: int)
    requires 0 <= a <= b
    ensures Intensity(DotColor(a)) <= Intensity(DotColor(b))
  {
  }
}
