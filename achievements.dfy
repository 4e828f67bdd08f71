// Achievements: unlocking, completing, selecting, and saving them in PlayerPrefs (AchievementManager.cs).
module Achievements {
  import opened Common
  import opened Prefs

  /** The `Achievement` record; the icon is not modelled. */
  class Achievement {
    const id: int
    const title: string
    const description: string
    var isUnlocked: bool
    var isCompleted: bool

    constructor (id: int, title: string, description: string)
      ensures this.id == id && this.title == title && this.description == description
      ensures !isUnlocked && !isCompleted
    {
      this.id := id;
      this.title := title;
      this.description := description;
      isUnlocked := false;
      isCompleted := false;
    }
  }

  /** The selection highlight of one entry of the on-screen list. */
  class AchievementItem {
    var selected: bool

    constructor ()
      ensures !selected
    {
      selected := false;
    }

    method SetSelected(selected: bool)
      modifies this`selected
      ensures this.selected == selected
    {
      this.selected := selected;
    }
  }

  /** The saved state of one achievement. */
  datatype Progress = Progress(id: int, isUnlocked: bool, isCompleted: bool)

  /** The state of a list of achievements, entry by entry. */
  function Snapshot(achievements: seq<Achievement>): (ps: seq<Progress>)
    reads achievements
    ensures |ps| == |achievements|
    ensures forall i :: 0 <= i < |ps| ==>
      ps[i] == Progress(achievements[i].id, achievements[i].isUnlocked, achievements[i].isCompleted)
  {
    if |achievements| == 0 then []
    else
      var last := achievements[|achievements| - 1];
      Snapshot(achievements[..|achievements| - 1]) + [Progress(last.id, last.isUnlocked, last.isCompleted)]
  }

  /** The state of a four-entry list, spelled out. */
  lemma SnapshotOfFour(a1: Achievement, a2: Achievement, a3: Achievement, a4: Achievement)
    ensures Snapshot([a1, a2, a3, a4]) == [Progress(a1.id, a1.isUnlocked, a1.isCompleted), Progress(a2.id, a2.isUnlocked, a2.isCompleted),
                                           Progress(a3.id, a3.isUnlocked, a3.isCompleted), Progress(a4.id, a4.isUnlocked, a4.isCompleted)]
  {
  }

  /** `List.Find` by id: the first entry with the id. */
  function FirstIndex(ps: seq<Progress>, id: int, from: nat := 0): (r: Option<nat>)
    ensures r.Some? ==> from <= r.value < |ps| && ps[r.value].id == id &&
                        forall j :: from <= j < r.value ==> ps[j].id != id
    ensures r.None? ==> forall j :: from <= j < |ps| ==> ps[j].id != id
    decreases |ps| - from
  {
    if from >= |ps| then None
    else if ps[from].id == id then Some(from)
    else FirstIndex(ps, id, from + 1)
  }

  /** `UnlockAchievement` on saved states: the first entry with the id becomes unlocked. */
  function UnlockIn(ps: seq<Progress>, id: int): seq<Progress>
  {
    match FirstIndex(ps, id)
      case None => ps
      case Some(k) => ps[k := ps[k].(isUnlocked := true)]
  }

  /** `CompleteAchievement` on saved states: the first entry with the id becomes unlocked and completed. */
  function CompleteIn(ps: seq<Progress>, id: int): seq<Progress>
  {
    match FirstIndex(ps, id)
      case None => ps
      case Some(k) => ps[k := ps[k].(isUnlocked := true, isCompleted := true)]
  }

  /** Every completed achievement is also unlocked. */
  predicate Consistent(ps: seq<Progress>)
  {
    forall i :: 0 <= i < |ps| && ps[i].isCompleted ==> ps[i].isUnlocked
  }

  /** The ids of a list of states. */
  function IdsOf(ps: seq<Progress>): seq<int>
  {
    if |ps| == 0 then [] else IdsOf(ps[..|ps| - 1]) + [ps[|ps| - 1].id]
  }

  lemma {:induction false} IdsOfIndex(ps: seq<Progress>)
    ensures |IdsOf(ps)| == |ps| && forall i :: 0 <= i < |ps| ==> IdsOf(ps)[i] == ps[i].id
  {
    if |ps| > 0 {
      IdsOfIndex(ps[..|ps| - 1]);
    }
  }

  /**
   * Unlocking and completing keep the ids, keep every completed achievement unlocked, and touch only
   * the first entry with the id; an unknown id changes nothing.
   */
  lemma UnlockCompleteKeep(ps: seq<Progress>, id: int)
    ensures IdsOf(UnlockIn(ps, id)) == IdsOf(ps) && IdsOf(CompleteIn(ps, id)) == IdsOf(ps)
    ensures Consistent(ps) ==> Consistent(UnlockIn(ps, id)) && Consistent(CompleteIn(ps, id))
    ensures (forall i :: 0 <= i < |ps| ==> ps[i].id != id) ==> UnlockIn(ps, id) == ps && CompleteIn(ps, id) == ps
  {
    UnlockCompleteKeepIds(ps, id);
    UnlockCompleteKeepConsistent(ps, id);
    UnlockCompleteUnknown(ps, id);
  }

  /** Unlocking and completing change flags only, never ids. */
  lemma UnlockCompleteKeepIds(ps: seq<Progress>, id: int)
    ensures IdsOf(UnlockIn(ps, id)) == IdsOf(ps) && IdsOf(CompleteIn(ps, id)) == IdsOf(ps)
  {
    var u := UnlockIn(ps, id);
    var c := CompleteIn(ps, id);
    assert |u| == |ps| && forall i :: 0 <= i < |ps| ==> u[i].id == ps[i].id;
    SameIds(u, ps);
    assert |c| == |ps| && forall i :: 0 <= i < |ps| ==> c[i].id == ps[i].id;
    SameIds(c, ps);
  }

  /** Neither operation clears an unlocked flag or sets a completed flag alone. */
  lemma UnlockCompleteKeepConsistent(ps: seq<Progress>, id: int)
    ensures Consistent(ps) ==> Consistent(UnlockIn(ps, id)) && Consistent(CompleteIn(ps, id))
  {
  }

  /** An id that no entry has changes nothing. */
  lemma UnlockCompleteUnknown(ps: seq<Progress>, id: int)
    ensures (forall i :: 0 <= i < |ps| ==> ps[i].id != id) ==> UnlockIn(ps, id) == ps && CompleteIn(ps, id) == ps
  {
  }

  /** Lists whose entries have the same ids, position by position, have the same ids. */
  lemma SameIds(ps: seq<Progress>, qs: seq<Progress>)
    requires |ps| == |qs| && forall i :: 0 <= i < |ps| ==> ps[i].id == qs[i].id
    ensures IdsOf(ps) == IdsOf(qs)
  {
    IdsOfIndex(ps);
    IdsOfIndex(qs);
  }

  /** After `CompleteAchievement(id)` the achievement with the id is both unlocked and completed. */
  lemma CompleteMarksFirst(ps: seq<Progress>, id: int, k: nat)
    requires k < |ps| && ps[k].id == id && forall j :: 0 <= j < k ==> ps[j].id != id
    ensures CompleteIn(ps, id)[k] == Progress(id, true, true)
    ensures UnlockIn(ps, id)[k] == Progress(id, true, ps[k].isCompleted)
  {
    assert FirstIndex(ps, id) == Some(k);
  }

  /** Completing twice is completing once, and unlocking a completed achievement changes nothing. */
  lemma CompleteIdempotent(ps: seq<Progress>, id: int)
    ensures CompleteIn(CompleteIn(ps, id), id) == CompleteIn(ps, id)
    ensures UnlockIn(CompleteIn(ps, id), id) == CompleteIn(ps, id)
    ensures UnlockIn(UnlockIn(ps, id), id) == UnlockIn(ps, id)
  {
    var c := CompleteIn(ps, id);
    var u := UnlockIn(ps, id);
    match FirstIndex(ps, id)
    case None =>
    case Some(k) =>
      assert FirstIndex(c, id) == Some(k) by { SameFirst(ps, c, id, k); }
      assert FirstIndex(u, id) == Some(k) by { SameFirst(ps, u, id, k); }
  }

  /** Two lists with the same ids find the same first entry. */
  lemma SameFirst(ps: seq<Progress>, qs: seq<Progress>, id: int, k: nat)
    requires |ps| == |qs| && forall i :: 0 <= i < |ps| ==> ps[i].id == qs[i].id
    requires FirstIndex(ps, id) == Some(k)
    ensures FirstIndex(qs, id) == Some(k)
  {
  }

  /** The PlayerPrefs key of an achievement's unlocked flag. */
  function UnlockedKey(id: int): string
  {
    "Achievement_" + IntToString(id) + "_Unlocked"
  }

  /** The PlayerPrefs key of an achievement's completed flag. */
  function CompletedKey(id: int): string
  {
    "Achievement_" + IntToString(id) + "_Completed"
  }

  function Flag(b: bool): int
  {
    if b then 1 else 0
  }

  /** Distinct ids have distinct keys, and no unlocked key is a completed key. */
  lemma KeysDistinct(a: int, b: int)
    ensures UnlockedKey(a) != CompletedKey(b)
    ensures a != b ==> UnlockedKey(a) != UnlockedKey(b) && CompletedKey(a) != CompletedKey(b)
  {
    var ua, ub, ca, cb := UnlockedKey(a), UnlockedKey(b), CompletedKey(a), CompletedKey(b);
    var sa, sb := IntToString(a), IntToString(b);
    assert ua[|ua| - 3] == 'k';
    if |ua| == |cb| {
      assert cb[|cb| - 3] == 't';
    }
    assert ua[12..|ua| - 9] == sa;
    assert ub[12..|ub| - 9] == sb;
    assert ca[12..|ca| - 10] == sa;
    assert cb[12..|cb| - 10] == sb;
    ParseIntToString(a);
    ParseIntToString(b);
  }

  /** The prefs after `SaveAchievements`: both flags of every entry, in list order. */
  function SavedEntries(entries: map<string, PrefValue>, ps: seq<Progress>): map<string, PrefValue>
  {
    if |ps| == 0 then entries
    else
      var p := ps[|ps| - 1];
      SavedEntries(entries, ps[..|ps| - 1])[UnlockedKey(p.id) := IntValue(Flag(p.isUnlocked))]
                                          [CompletedKey(p.id) := IntValue(Flag(p.isCompleted))]
  }

  /** Saving one more entry writes its two flags over what the entries before it left. */
  lemma SavedEntriesSnoc(entries: map<string, PrefValue>, ps: seq<Progress>, i: nat)
    requires i < |ps|
    ensures SavedEntries(entries, ps[..i + 1]) ==
      SavedEntries(entries, ps[..i])[UnlockedKey(ps[i].id) := IntValue(Flag(ps[i].isUnlocked))]
                                    [CompletedKey(ps[i].id) := IntValue(Flag(ps[i].isCompleted))]
  {
    assert ps[..i + 1][..i] == ps[..i];
  }

  /** What `LoadAchievements` sets an entry to: a flag is set when its key holds 1; absent keys read 0. */
  function Loaded(entries: map<string, PrefValue>, p: Progress): Progress
  {
    Progress(p.id, IntOf(entries, UnlockedKey(p.id), 0) == 1, IntOf(entries, CompletedKey(p.id), 0) == 1)
  }

  /** `LoadAchievements` on every entry. */
  function LoadedAll(entries: map<string, PrefValue>, ps: seq<Progress>): (r: seq<Progress>)
    ensures |r| == |ps| && forall i :: 0 <= i < |ps| ==> r[i] == Loaded(entries, ps[i])
  {
    if |ps| == 0 then [] else LoadedAll(entries, ps[..|ps| - 1]) + [Loaded(entries, ps[|ps| - 1])]
  }

  /** Ids no two entries share. */
  predicate UniqueIds(ps: seq<Progress>)
  {
    forall i, j :: 0 <= i < j < |ps| ==> ps[i].id != ps[j].id
  }

  /** Saving writes each entry's flags under its own keys and leaves keys of other ids alone. */
  lemma {:induction false} SavedFlags(entries: map<string, PrefValue>, ps: seq<Progress>, k: nat)
    requires UniqueIds(ps) && k < |ps|
    ensures IntOf(SavedEntries(entries, ps), UnlockedKey(ps[k].id), 0) == Flag(ps[k].isUnlocked)
    ensures IntOf(SavedEntries(entries, ps), CompletedKey(ps[k].id), 0) == Flag(ps[k].isCompleted)
  {
    var p := ps[|ps| - 1];
    var init := ps[..|ps| - 1];
    var m := SavedEntries(entries, init);
    var u, c := UnlockedKey(p.id), CompletedKey(p.id);
    var m1 := m[u := IntValue(Flag(p.isUnlocked))];
    assert SavedEntries(entries, ps) == m1[c := IntValue(Flag(p.isCompleted))];
    var uk, ck := UnlockedKey(ps[k].id), CompletedKey(ps[k].id);
    KeysDistinct(ps[k].id, p.id);
    KeysDistinct(p.id, ps[k].id);
    IntAfterSet(m, u, Flag(p.isUnlocked), uk, 0);
    IntAfterSet(m, u, Flag(p.isUnlocked), ck, 0);
    IntAfterSet(m1, c, Flag(p.isCompleted), uk, 0);
    IntAfterSet(m1, c, Flag(p.isCompleted), ck, 0);
    if k < |ps| - 1 {
      assert init[k] == ps[k];
      assert UniqueIds(init);
      SavedFlags(entries, init, k);
    }
  }

  /** Whatever was stored before, loading what was just saved gives back every entry (for unique ids). */
  lemma SaveLoadRoundTrip(entries: map<string, PrefValue>, ps: seq<Progress>)
    requires UniqueIds(ps)
    ensures LoadedAll(SavedEntries(entries, ps), ps) == ps
  {
    forall k | 0 <= k < |ps|
      ensures Loaded(SavedEntries(entries, ps), ps[k]) == ps[k]
    {
      SavedFlags(entries, ps, k);
    }
  }

  /** With nothing saved, every achievement loads locked and not completed. */
  lemma NothingSavedLoadsLocked(p: Progress)
    ensures Loaded(map[], p) == Progress(p.id, false, false)
  {
  }

  /** A flag saved as 1 but whose partner key holds a float loads as not set: only ints count. */
  lemma FloatFlagIgnored(p: Progress, x: real)
    ensures !Loaded(map[UnlockedKey(p.id) := FloatValue(x)], p).isUnlocked
  {
  }

  class AchievementManager {
    var achievements: seq<Achievement>
    var currentSelectedAchievement: Achievement?
    var currentSelectedItem: AchievementItem?
    const prefs: PlayerPrefs

    constructor (prefs: PlayerPrefs)
      ensures this.prefs == prefs && achievements == []
      ensures currentSelectedAchievement == null && currentSelectedItem == null
    {
      this.prefs := prefs;
      achievements := [];
      currentSelectedAchievement := null;
      currentSelectedItem := null;
    }

    function State(): seq<Progress> reads this, achievements
    {
      Snapshot(achievements)
    }

    /** `InitializeAchievements`: an empty list gets the four example achievements. */
    method InitializeAchievements()
      modifies this`achievements
      ensures old(|achievements|) != 0 ==> achievements == old(achievements)
      ensures old(|achievements|) == 0 ==>
        |achievements| == 4 &&
        fresh(achievements[0]) && fresh(achievements[1]) && fresh(achievements[2]) && fresh(achievements[3]) &&
        State() == [Progress(1, false, false), Progress(2, false, false), Progress(3, false, false), Progress(4, false, false)] &&
        achievements[0].title == "First Steps" && achievements[1].title == "Collector" &&
        achievements[2].title == "Speed Runner" && achievements[3].title == "Explorer"
    {
      if |achievements| == 0 {
        var a1 := new Achievement(1, "First Steps", "Complete your first level");
        var a2 := new Achievement(2, "Collector", "Collect 100 items");
        var a3 := new Achievement(3, "Speed Runner", "Complete a level in under 30 seconds");
        var a4 := new Achievement(4, "Explorer", "Discover all hidden areas");
        achievements := [a1, a2, a3, a4];
        SnapshotOfFour(a1, a2, a3, a4);
      }
    }

    /** `SelectAchievement`: the previous item loses its highlight and the new one gains it. */
    method SelectAchievement(achievement: Achievement, selectedItem: AchievementItem)
      modifies this`currentSelectedAchievement, this`currentSelectedItem, currentSelectedItem, selectedItem
      ensures currentSelectedAchievement == achievement && currentSelectedItem == selectedItem
      ensures selectedItem.selected
      ensures old(currentSelectedItem) != null && old(currentSelectedItem) != selectedItem ==>
        !old(currentSelectedItem).selected
    {
      if currentSelectedItem != null {
        currentSelectedItem.SetSelected(false);
      }
      currentSelectedAchievement := achievement;
      currentSelectedItem := selectedItem;
      selectedItem.SetSelected(true);
    }

    /** `achievements.Find(a => a.id == id)`. */
    method Find(id: int) returns (found: Achievement?)
      ensures FirstIndex(State(), id).None? ==> found == null
      ensures FirstIndex(State(), id).Some? ==> found == achievements[FirstIndex(State(), id).value]
    {
      var i := 0;
      while i < |achievements|
        invariant 0 <= i <= |achievements|
        invariant FirstIndex(State(), id) == FirstIndex(State(), id, i)
      {
        if achievements[i].id == id {
          return achievements[i];
        }
        i := i + 1;
      }
      return null;
    }

    /** `UnlockAchievement`: the first achievement with the id becomes unlocked. */
    method UnlockAchievement(id: int)
      modifies achievements
      ensures FirstIndex(old(State()), id).None? ==> State() == old(State())
      ensures FirstIndex(old(State()), id).Some? ==>
        var target := achievements[FirstIndex(old(State()), id).value];
        target.isUnlocked && target.isCompleted == old(target.isCompleted) &&
        forall i :: 0 <= i < |achievements| && achievements[i] != target ==> State()[i] == old(State())[i]
      ensures Distinct(achievements) ==> State() == UnlockIn(old(State()), id)
    {
      var achievement := Find(id);
      if achievement != null && !achievement.isUnlocked {
        achievement.isUnlocked := true;
      }
    }

    /** `CompleteAchievement`: the first achievement with the id becomes unlocked and completed. */
    method CompleteAchievement(id: int)
      modifies achievements
      ensures FirstIndex(old(State()), id).None? ==> State() == old(State())
      ensures FirstIndex(old(State()), id).Some? ==>
        var target := achievements[FirstIndex(old(State()), id).value];
        target.isUnlocked && target.isCompleted &&
        forall i :: 0 <= i < |achievements| && achievements[i] != target ==> State()[i] == old(State())[i]
      ensures Distinct(achievements) ==> State() == CompleteIn(old(State()), id)
    {
      var achievement := Find(id);
      if achievement != null {
        achievement.isUnlocked := true;
        achievement.isCompleted := true;
      }
    }

    /** `SaveAchievements`: both flags of every achievement as ints; flushing to disk is not modelled. */
    method SaveAchievements()
      modifies prefs
      ensures prefs.entries == SavedEntries(old(prefs.entries), State())
    {
      ghost var ps := State();
      var i := 0;
      while i < |achievements|
        invariant 0 <= i <= |achievements|
        invariant prefs.entries == SavedEntries(old(prefs.entries), ps[..i])
      {
        SavedEntriesSnoc(old(prefs.entries), ps, i);
        var achievement := achievements[i];
        assert ps[i] == Progress(achievement.id, achievement.isUnlocked, achievement.isCompleted);
        prefs.SetInt(UnlockedKey(achievement.id), Flag(achievement.isUnlocked));
        prefs.SetInt(CompletedKey(achievement.id), Flag(achievement.isCompleted));
        i := i + 1;
      }
      assert ps[..i] == ps == State();
    }

    /** `LoadAchievements`: every achievement takes both flags from the prefs. */
    method LoadAchievements()
      modifies achievements
      ensures State() == LoadedAll(prefs.entries, old(State()))
    {
      var i := 0;
      while i < |achievements|
        invariant 0 <= i <= |achievements|
        invariant forall j :: 0 <= j < i ==> IsLoaded(achievements[j], prefs.entries)
      {
        var achievement := achievements[i];
        var unlocked := prefs.GetInt(UnlockedKey(achievement.id), 0) == 1;
        var completed := prefs.GetInt(CompletedKey(achievement.id), 0) == 1;
        label before:
        achievement.isUnlocked, achievement.isCompleted := unlocked, completed;
        forall j | 0 <= j <= i ensures IsLoaded(achievements[j], prefs.entries) {
          if achievements[j] != achievement {
            assert old@before(IsLoaded(achievements[j], prefs.entries));
          }
        }
        i := i + 1;
      }
      SnapshotOfLoaded(achievements, prefs.entries, old(State()));
    }
  }

  /** An achievement holds the flags its keys carry in the prefs. */
  predicate IsLoaded(a: Achievement, entries: map<string, PrefValue>) reads a
  {
    a.isUnlocked == (IntOf(entries, UnlockedKey(a.id), 0) == 1) &&
    a.isCompleted == (IntOf(entries, CompletedKey(a.id), 0) == 1)
  }

  /** A list whose every achievement holds its loaded flags is the loaded list of any states with the same ids. */
  lemma SnapshotOfLoaded(achievements: seq<Achievement>, entries: map<string, PrefValue>, ps: seq<Progress>)
    requires |ps| == |achievements| && forall j :: 0 <= j < |ps| ==> ps[j].id == achievements[j].id
    requires forall j :: 0 <= j < |achievements| ==> IsLoaded(achievements[j], entries)
    ensures Snapshot(achievements) == LoadedAll(entries, ps)
  {
    var s, l := Snapshot(achievements), LoadedAll(entries, ps);
    forall j | 0 <= j < |s| ensures s[j] == l[j] {
      assert IsLoaded(achievements[j], entries);
    }
  }

  /** No entry of the list appears twice. */
  predicate Distinct(achievements: seq<Achievement>)
  {
    forall i, j :: 0 <= i < j < |achievements| ==> achievements[i] != achievements[j]
  }
}
