/** The quest-catalog editor: edit one field of the quests with an id, append a blank quest,
    delete by id, and the save step that refuses invalid quests and gives fresh quests
    permanent ids. */
module Settings {
  import opened GameData

  /** A quest as the editor holds it: no completion flag, and the stat as text. */
  datatype EditableQuest = EditableQuest(id: string, title: string, xp: int, stat: string)

  /** The editor's view of a catalog quest. */
  function ToEditable(q: Quest): (e: EditableQuest)
    ensures e.id == q.id && e.title == q.title && e.xp == q.xp && e.stat == StatLabel(q.stat)
  {
    EditableQuest(q.id, q.title, q.xp, StatLabel(q.stat))
  }

  // ---------------------------------------------------------------- field edits

  /** One edit as the editor's inputs make it: a title, an XP number or a stat name. */
  datatype Edit = SetTitle(title: string) | SetXp(xp: int) | SetStat(stat: string)

  /** Replaces the one field the edit names. */
  function ApplyEdit(q: EditableQuest, e: Edit): (r: EditableQuest)
    ensures r.id == q.id
    ensures r.title == (if e.SetTitle? then e.title else q.title)
    ensures r.xp == (if e.SetXp? then e.xp else q.xp)
    ensures r.stat == (if e.SetStat? then e.stat else q.stat)
  {
    match e
    case SetTitle(t) => q.(title := t)
    case SetXp(n) => q.(xp := n)
    case SetStat(s) => q.(stat := s)
  }

  /** The value the XP input hands on: the parsed integer, or 0 when parsing gives no number. */
  function XpInput(parsed: Option<int>): (r: int)
    ensures parsed.None? ==> r == 0
    ensures parsed.Some? ==> r == parsed.value
  {
    match parsed
    case None => 0
    case Some(n) => n
  }

  /** The stat choices offered: the stat names as the program spells them. */
  function StatChoice(s: StatName): (e: Edit)
    ensures e.SetStat? && e.stat == StatLabel(s)
  {
    SetStat(StatLabel(s))
  }

  /** Applies an edit to every quest with the given id; the list keeps its length and order. */
  function HandleQuestChange(qs: seq<EditableQuest>, id: string, e: Edit): (r: seq<EditableQuest>)
    ensures |r| == |qs|
    ensures forall i :: 0 <= i < |qs| ==> r[i].id == qs[i].id
    ensures forall i :: 0 <= i < |qs| && qs[i].id != id ==> r[i] == qs[i]
    ensures forall i :: 0 <= i < |qs| && qs[i].id == id ==> r[i] == ApplyEdit(qs[i], e)
  {
    if qs == [] then []
    else [if qs[0].id == id then ApplyEdit(qs[0], e) else qs[0]] + HandleQuestChange(qs[1..], id, e)
  }

  // ---------------------------------------------------------------- add and delete

  const NewPrefix: string := "new-"
  const CustomPrefix: string := "custom-"

  predicate StartsWith(s: string, prefix: string)
  {
    |prefix| <= |s| && s[..|prefix|] == prefix
  }

  /** The quest the "Add Quest" button creates; `token` stands for the clock and random text of
      its id. Its stat is written in lower case, unlike every stat name of the catalog. */
  function NewQuest(token: string): (q: EditableQuest)
    ensures StartsWith(q.id, NewPrefix)
    ensures q.title == "" && q.xp == 10 && q.stat == "intelligence"
  {
    EditableQuest(NewPrefix + token, "", 10, "intelligence")
  }

  /** Appends one new quest; the existing quests stay as they are. */
  function AddQuest(qs: seq<EditableQuest>, token: string): (r: seq<EditableQuest>)
    ensures |r| == |qs| + 1
    ensures r[..|qs|] == qs
    ensures r[|qs|] == NewQuest(token)
  {
    qs + [NewQuest(token)]
  }

  /** The lower-case stat of a new quest is none of the stat names. */
  lemma NewQuestStatIsNoStatName(token: string, s: StatName)
    ensures NewQuest(token).stat != StatLabel(s)
  {
    assert NewQuest(token).stat[0] == 'i';
    assert StatLabel(s)[0] != 'i';
  }

  /** No option of the stat selector matches the stat of a freshly added quest, so its
      selector starts with no option chosen. */
  lemma NoOptionIsNewStat(token: string, s: StatName)
    ensures StatChoice(s).stat != NewQuest(token).stat
  {
    NewQuestStatIsNoStatName(token, s);
  }

  /** Removes every quest with the given id. */
  function DeleteQuest(qs: seq<EditableQuest>, id: string): (r: seq<EditableQuest>)
    ensures |r| <= |qs|
    ensures forall i :: 0 <= i < |r| ==> r[i].id != id
    ensures forall q :: q in r <==> q in qs && q.id != id
    ensures (forall i :: 0 <= i < |qs| ==> qs[i].id != id) ==> r == qs
  {
    if qs == [] then []
    else if qs[0].id == id then DeleteQuest(qs[1..], id)
    else [qs[0]] + DeleteQuest(qs[1..], id)
  }

  /** Deleting keeps the remaining quests in their original order: it acts on each part of a
      list separately. */
  lemma {:induction false} DeleteQuestAppend(a: seq<EditableQuest>, b: seq<EditableQuest>, id: string)
    ensures DeleteQuest(a + b, id) == DeleteQuest(a, id) + DeleteQuest(b, id)
  {
    if a == [] {
      assert a + b == b;
    } else {
      assert (a + b)[0] == a[0];
      assert (a + b)[1..] == a[1..] + b;
      DeleteQuestAppend(a[1..], b, id);
      if a[0].id != id {
        assert [a[0]] + (DeleteQuest(a[1..], id) + DeleteQuest(b, id))
            == ([a[0]] + DeleteQuest(a[1..], id)) + DeleteQuest(b, id);
      }
    }
  }

  // ---------------------------------------------------------------- validation

  /** The characters the string `trim` removes: white space and line terminators. */
  predicate IsJsWhitespace(c: char)
  {
    || c == '\t' || c == '\n' || c == '\U{000B}' || c == '\U{000C}' || c == '\r' || c == ' '
    || c == '\U{00A0}' || c == '\U{1680}' || ('\U{2000}' <= c <= '\U{200A}')
    || c == '\U{2028}' || c == '\U{2029}' || c == '\U{202F}' || c == '\U{205F}'
    || c == '\U{3000}' || c == '\U{FEFF}'
  }

  /** Drops leading white space: what is left is a suffix that is empty or starts with a
      character that is not white space. */
  function TrimStart(s: string): (r: string)
    ensures |r| <= |s| && r == s[|s| - |r|..]
    ensures forall i :: 0 <= i < |s| - |r| ==> IsJsWhitespace(s[i])
    ensures r != [] ==> !IsJsWhitespace(r[0])
  {
    if s != [] && IsJsWhitespace(s[0]) then TrimStart(s[1..]) else s
  }

  /** Drops trailing white space: what is left is a prefix that is empty or ends with a
      character that is not white space. */
  function TrimEnd(s: string): (r: string)
    ensures |r| <= |s| && r == s[..|r|]
    ensures forall i :: |r| <= i < |s| ==> IsJsWhitespace(s[i])
    ensures r != [] ==> !IsJsWhitespace(r[|r| - 1])
  {
    if s != [] && IsJsWhitespace(s[|s| - 1]) then TrimEnd(s[..|s| - 1]) else s
  }

  function Trim(s: string): string
  {
    TrimEnd(TrimStart(s))
  }

  /** A title is blank when trimming leaves nothing. */
  predicate IsBlank(s: string)
  {
    Trim(s) == ""
  }

  /** Trimming leaves nothing exactly when every character is white space. */
  lemma BlankIffAllWhitespace(s: string)
    ensures IsBlank(s) <==> forall i :: 0 <= i < |s| ==> IsJsWhitespace(s[i])
  {
    var t := TrimStart(s);
    if t != [] {
      assert t[0] == s[|s| - |t|];
    }
  }

  /** A quest the save step refuses: a blank title or an XP value that is not positive. */
  predicate Invalid(q: EditableQuest)
  {
    IsBlank(q.title) || q.xp <= 0
  }

  predicate HasInvalid(qs: seq<EditableQuest>)
  {
    exists i :: 0 <= i < |qs| && Invalid(qs[i])
  }

  /** The default catalog, seen through the editor, passes the save gate. */
  lemma DefaultCatalogSaves()
    ensures !HasInvalid(seq(|MainQuests|, i requires 0 <= i < |MainQuests| => ToEditable(MainQuests[i])))
    ensures !HasInvalid(seq(|SideQuests|, i requires 0 <= i < |SideQuests| => ToEditable(SideQuests[i])))
  {
    forall i | 0 <= i < |MainQuests| ensures !Invalid(ToEditable(MainQuests[i])) {
      BlankIffAllWhitespace(MainQuests[i].title);
      assert !IsJsWhitespace(MainQuests[i].title[0]);
    }
    forall i | 0 <= i < |SideQuests| ensures !Invalid(ToEditable(SideQuests[i])) {
      BlankIffAllWhitespace(SideQuests[i].title);
      assert !IsJsWhitespace(SideQuests[i].title[0]);
    }
  }

  /** A freshly added quest has an empty title, so a list holding one cannot be saved. */
  lemma AddedQuestBlocksSave(main: seq<EditableQuest>, side: seq<EditableQuest>, token: string)
    ensures HasInvalid(AddQuest(main, token) + side)
    ensures HasInvalid(main + AddQuest(side, token))
  {
    assert Invalid(NewQuest(token));
    assert (AddQuest(main, token) + side)[|main|] == NewQuest(token);
    assert (main + AddQuest(side, token))[|main| + |side|] == NewQuest(token);
  }

  /** An XP input that does not parse becomes 0, and a list with that quest cannot be saved. */
  lemma UnparsedXpBlocksSave(qs: seq<EditableQuest>, id: string, k: nat)
    requires k < |qs| && qs[k].id == id
    ensures HasInvalid(HandleQuestChange(qs, id, SetXp(XpInput(None))))
  {
    var r := HandleQuestChange(qs, id, SetXp(XpInput(None)));
    assert Invalid(r[k]);
  }

  // ---------------------------------------------------------------- save

  /** Gives every quest whose id starts with "new-" a "custom-" id; `tokens[i]` stands for the
      clock and random text drawn for the i-th quest. Nothing else changes. */
  function FinaliseIds(qs: seq<EditableQuest>, tokens: seq<string>): (r: seq<EditableQuest>)
    requires |tokens| == |qs|
    ensures |r| == |qs|
    ensures forall i :: 0 <= i < |qs| ==>
      r[i].title == qs[i].title && r[i].xp == qs[i].xp && r[i].stat == qs[i].stat
    ensures forall i :: 0 <= i < |qs| && StartsWith(qs[i].id, NewPrefix) ==>
      r[i].id == CustomPrefix + tokens[i] && StartsWith(r[i].id, CustomPrefix)
    ensures forall i :: 0 <= i < |qs| && !StartsWith(qs[i].id, NewPrefix) ==> r[i].id == qs[i].id
    ensures forall i :: 0 <= i < |qs| ==> !StartsWith(r[i].id, NewPrefix)
  {
    if qs == [] then []
    else
      var q := qs[0];
      var id := if StartsWith(q.id, NewPrefix) then CustomPrefix + tokens[0] else q.id;
      assert StartsWith(q.id, NewPrefix) ==> (CustomPrefix + tokens[0])[..|CustomPrefix|] == CustomPrefix;
      assert StartsWith(q.id, NewPrefix) ==> (CustomPrefix + tokens[0])[0] != NewPrefix[0];
      [q.(id := id)] + FinaliseIds(qs[1..], tokens[1..])
  }

  /** Rewriting ids does not change whether a list passes validation. */
  lemma FinaliseKeepsValidity(qs: seq<EditableQuest>, tokens: seq<string>)
    requires |tokens| == |qs|
    ensures HasInvalid(FinaliseIds(qs, tokens)) <==> HasInvalid(qs)
  {
    var r := FinaliseIds(qs, tokens);
    if HasInvalid(qs) {
      var i :| 0 <= i < |qs| && Invalid(qs[i]);
      assert Invalid(r[i]);
    }
    if HasInvalid(r) {
      var i :| 0 <= i < |r| && Invalid(r[i]);
      assert Invalid(qs[i]);
    }
  }

  /** A joined list has an invalid quest exactly when one of its parts has. */
  lemma HasInvalidAppend(a: seq<EditableQuest>, b: seq<EditableQuest>)
    ensures HasInvalid(a + b) <==> HasInvalid(a) || HasInvalid(b)
  {
    if HasInvalid(a) {
      var i :| 0 <= i < |a| && Invalid(a[i]);
      assert (a + b)[i] == a[i];
    }
    if HasInvalid(b) {
      var i :| 0 <= i < |b| && Invalid(b[i]);
      assert (a + b)[|a| + i] == b[i];
    }
    if HasInvalid(a + b) {
      var i :| 0 <= i < |a + b| && Invalid((a + b)[i]);
      if i >= |a| {
        assert (a + b)[i] == b[i - |a|];
      }
    }
  }

  datatype SaveOutcome = Rejected | Saved(main: seq<EditableQuest>, side: seq<EditableQuest>)

  /** The save button: refuses when any quest of either list is invalid, and otherwise hands
      on both lists with their new ids made permanent. */
  function HandleSave(main: seq<EditableQuest>, side: seq<EditableQuest>,
                      mainTokens: seq<string>, sideTokens: seq<string>): (r: SaveOutcome)
    requires |mainTokens| == |main| && |sideTokens| == |side|
    ensures r.Rejected? <==> HasInvalid(main) || HasInvalid(side)
    ensures r.Saved? ==> r.main == FinaliseIds(main, mainTokens) && r.side == FinaliseIds(side, sideTokens)
    ensures r.Saved? ==> !HasInvalid(r.main + r.side)
    ensures r.Saved? ==> forall q :: q in r.main + r.side ==> !StartsWith(q.id, NewPrefix)
  {
    var allQuests := main + side;
    HasInvalidAppend(main, side);
    if HasInvalid(allQuests) then Rejected
    else
      var finalMain := FinaliseIds(main, mainTokens);
      var finalSide := FinaliseIds(side, sideTokens);
      FinaliseKeepsValidity(main, mainTokens);
      FinaliseKeepsValidity(side, sideTokens);
      HasInvalidAppend(finalMain, finalSide);
      Saved(finalMain, finalSide)
  }
}
