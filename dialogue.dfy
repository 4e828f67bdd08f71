// Option dialogues: which options can be picked, and what picking one does (OptionDialogueSystem.cs).
module OptionDialogue {
  import opened Common
  import opened ClassInfo
  import opened Clock
  import opened Timetable
  import opened DialogueActions

  datatype OptionType = Normal | Skill | Risky | Positive | Locked

  datatype OptionRequirement = OptionRequirement(requirementType: OptionType, requirementKey: string, requiredValue: int)

  datatype DialogueOption = DialogueOption(optionText: string, optionType: OptionType, hasRequirements: bool,
                                           requirements: seq<OptionRequirement>, closesDialogue: bool)

  datatype OptionDialogueDefinition = OptionDialogueDefinition(characterName: string, questionText: string,
                                                               actionSetId: string, options: seq<DialogueOption>)

  /** `CheckRequirement`: a placeholder that accepts every requirement. */
  predicate CheckRequirement(requirement: OptionRequirement) { true }

  /** The lower-cased option text mentions attending, a class, a lesson or a lecture. */
  predicate IsClassRelated(optionText: string)
  {
    var lower := ToLower(optionText);
    Contains(lower, "attend") || Contains(lower, "class") || Contains(lower, "lesson") || Contains(lower, "lecture")
  }

  /** The session rule: a class today that started at most one hour ago (both ends included). */
  predicate InSessionWindow(c: Class, day: Weekday, t: real)
  {
    c.dayOfWeek == day && t >= c.startTime && t <= c.startTime + 1.0
  }

  /** The first class in list order that is in session. */
  function SessionClass(classes: seq<Class>, day: Weekday, t: real): (r: Option<Class>)
    ensures r.Some? ==> exists i :: 0 <= i < |classes| && classes[i] == r.value && InSessionWindow(classes[i], day, t) &&
                          forall j :: 0 <= j < i ==> !InSessionWindow(classes[j], day, t)
    ensures r.None? ==> forall i :: 0 <= i < |classes| ==> !InSessionWindow(classes[i], day, t)
  {
    if |classes| == 0 then None
    else if InSessionWindow(classes[0], day, t) then Some(classes[0])
    else
      var r := SessionClass(classes[1..], day, t);
      assert forall i :: 1 <= i < |classes| ==> classes[i] == classes[1..][i - 1];
      r
  }

  /** `IsClassInSession`, with the clock and the timetable possibly missing. */
  predicate InSession(clock: DayTime?, manager: TimetableManager?)
    reads clock, manager
  {
    clock != null && manager != null && SessionClass(manager.weeklyClasses, clock.dayOfWeek, clock.Hours()).Some?
  }

  /** Whether an option can be picked, given whether a class is in session. */
  predicate Selectable(option: DialogueOption, inSession: bool)
  {
    (!option.hasRequirements || forall r :: r in option.requirements ==> CheckRequirement(r)) &&
    (!IsClassRelated(option.optionText) || inSession)
  }

  /** An option that does not mention classes can always be picked. */
  lemma NonClassOptionSelectable(option: DialogueOption, inSession: bool)
    requires !IsClassRelated(option.optionText)
    ensures Selectable(option, inSession)
  {
  }

  /** Requirements never change the verdict. */
  lemma RequirementsNeverBlock(option: DialogueOption, inSession: bool)
    ensures Selectable(option, inSession) == Selectable(option.(hasRequirements := false), inSession)
  {
  }

  /** A class-related option can be picked exactly while some class is in session. */
  lemma ClassOptionNeedsSession(option: DialogueOption, inSession: bool)
    requires IsClassRelated(option.optionText)
    ensures Selectable(option, inSession) <==> inSession
  {
  }

  /** The keyword test ignores letter case and finds keywords inside words. */
  lemma ClassRelatedExamples()
    ensures IsClassRelated("Attend Lecture")
    ensures IsClassRelated("CLASSROOM")
    ensures !IsClassRelated("Rest")
  {
    LoweredExamples();
    assert OccursAt(ToLower("Attend Lecture"), "attend", 0);
    assert OccursAt(ToLower("CLASSROOM"), "class", 0);
  }

  /** The lower-cased example texts, computed apart from the keyword search. */
  lemma LoweredExamples()
    ensures ToLower("Attend Lecture")[..6] == "attend"
    ensures ToLower("CLASSROOM")[..5] == "class"
    ensures |ToLower("Rest")| == 4
  {
  }

  method IsClassInSession(clock: DayTime?, manager: TimetableManager?) returns (inSession: bool)
    ensures inSession == InSession(clock, manager)
  {
    var name, found := FindSessionClass(clock, manager);
    return found;
  }

  /** `GetCurrentClassName`: the name of the first class in session, or "". */
  method GetCurrentClassName(clock: DayTime?, manager: TimetableManager?) returns (name: string)
    ensures !InSession(clock, manager) ==> name == ""
    ensures InSession(clock, manager) ==>
      name == SessionClass(manager.weeklyClasses, clock.dayOfWeek, clock.Hours()).value.className
  {
    var found;
    name, found := FindSessionClass(clock, manager);
  }

  /** The loop shared by `IsClassInSession` and `GetCurrentClassName`. */
  method FindSessionClass(clock: DayTime?, manager: TimetableManager?) returns (name: string, found: bool)
    ensures found == InSession(clock, manager)
    ensures !found ==> name == ""
    ensures found ==> name == SessionClass(manager.weeklyClasses, clock.dayOfWeek, clock.Hours()).value.className
  {
    if clock == null || manager == null {
      return "", false;
    }
    var day, t := clock.dayOfWeek, clock.Hours();
    var classes := manager.weeklyClasses;
    var i := 0;
    while i < |classes|
      invariant 0 <= i <= |classes|
      invariant SessionClass(classes, day, t) == SessionClass(classes[i..], day, t)
    {
      var c := classes[i];
      if c.dayOfWeek == day {
        var classEndTime := c.startTime + 1.0;
        if t >= c.startTime && t <= classEndTime {
          return c.className, true;
        }
      }
      assert classes[i..][1..] == classes[i + 1..];
      i := i + 1;
    }
    return "", false;
  }

  /** With only named classes, the name is empty exactly when no class is in session. */
  lemma CurrentNameEmptyIffNoSession(classes: seq<Class>, day: Weekday, t: real)
    requires forall i :: 0 <= i < |classes| ==> classes[i].className != ""
    ensures var s := SessionClass(classes, day, t);
      (if s.Some? then s.value.className else "") == "" <==> s.None?
  {
  }

  /** `CheckClassTimeRequirement`: class-related options need a class in session. */
  method CheckClassTimeRequirement(option: DialogueOption, clock: DayTime?, manager: TimetableManager?) returns (ok: bool)
    ensures ok == (!IsClassRelated(option.optionText) || InSession(clock, manager))
  {
    var optionTextLower := ToLower(option.optionText);
    var isClassRelated := Contains(optionTextLower, "attend") || Contains(optionTextLower, "class") ||
                          Contains(optionTextLower, "lesson") || Contains(optionTextLower, "lecture");
    if !isClassRelated {
      return true;
    }
    ok := IsClassInSession(clock, manager);
  }

  /** `CanSelectOption`: every requirement passes, then the class-time rule. */
  method CanSelectOption(option: DialogueOption, clock: DayTime?, manager: TimetableManager?) returns (canSelect: bool)
    ensures canSelect == Selectable(option, InSession(clock, manager))
  {
    if !option.hasRequirements {
      canSelect := CheckClassTimeRequirement(option, clock, manager);
      return;
    }
    var i := 0;
    while i < |option.requirements|
      invariant 0 <= i <= |option.requirements|
      invariant forall j :: 0 <= j < i ==> CheckRequirement(option.requirements[j])
    {
      if !CheckRequirement(option.requirements[i]) {
        return false;
      }
      i := i + 1;
    }
    canSelect := CheckClassTimeRequirement(option, clock, manager);
  }

  /**
   * `OnOptionSelected`: out-of-range indices are ignored; otherwise the dialogue's action set
   * runs the option's event (when there is an id and a handler), and the dialogue is concluded
   * when the option says so.
   */
  method OnOptionSelected(dialogue: Option<OptionDialogueDefinition>, optionIndex: nat,
                          handler: DialogueActionHandler?) returns (invoked: seq<nat>, concluded: bool)
    ensures concluded <==> dialogue.Some? && optionIndex < |dialogue.value.options| &&
                           dialogue.value.options[optionIndex].closesDialogue
    ensures (dialogue.None? || optionIndex >= |dialogue.value.options| ||
             dialogue.value.actionSetId == "" || handler == null) ==> invoked == []
    ensures dialogue.Some? && optionIndex < |dialogue.value.options| &&
            dialogue.value.actionSetId != "" && handler != null ==>
      invoked == ActionListeners(handler.actionSetLookup, dialogue.value.actionSetId, optionIndex)
  {
    if dialogue.None? || optionIndex >= |dialogue.value.options| {
      return [], false;
    }
    var selectedOption := dialogue.value.options[optionIndex];
    invoked := [];
    if dialogue.value.actionSetId != "" && handler != null {
      invoked := handler.ExecuteOptionAction(dialogue.value.actionSetId, optionIndex);
    }
    concluded := selectedOption.closesDialogue;
  }

  /**
   * The number-key rule of `Update`: key i+1 (for the first nine buttons) picks option i when its
   * button is interactable; picking an option that closes the dialogue clears the buttons, which
   * ends the scan.
   */
  function KeySelections(keysDown: set<int>, interactable: seq<bool>, closes: seq<bool>, i: nat): (r: seq<nat>)
    requires |closes| == |interactable|
    ensures forall k :: 0 <= k < |r| ==>
      i <= r[k] < |interactable| && r[k] < 9 && interactable[r[k]] && r[k] + 1 in keysDown
    ensures forall k, l :: 0 <= k < l < |r| ==> r[k] < r[l]
    ensures forall k :: 0 <= k < |r| - 1 ==> !closes[r[k]]
    decreases |interactable| - i
  {
    if i >= |interactable| || i >= 9 then []
    else if i + 1 in keysDown && interactable[i] then
      if closes[i] then [i] else [i] + KeySelections(keysDown, interactable, closes, i + 1)
    else KeySelections(keysDown, interactable, closes, i + 1)
  }

  /** Without number keys pressed nothing is picked. */
  lemma {:induction false} NoKeysNoSelection(interactable: seq<bool>, closes: seq<bool>, i: nat)
    requires |closes| == |interactable|
    ensures KeySelections({}, interactable, closes, i) == []
    decreases |interactable| - i
  {
    if i < |interactable| && i < 9 {
      NoKeysNoSelection(interactable, closes, i + 1);
    }
  }

  /** The scan of `Update` over the option buttons. */
  method NumberKeySelection(keysDown: set<int>, interactable: seq<bool>, closes: seq<bool>) returns (selected: seq<nat>)
    requires |closes| == |interactable|
    ensures selected == KeySelections(keysDown, interactable, closes, 0)
  {
    selected := [];
    var count := |interactable|;
    var i := 0;
    while i < count && i < 9
      invariant 0 <= i <= |interactable|
      invariant count == |interactable| || count == 0
      invariant count == 0 ==> selected == KeySelections(keysDown, interactable, closes, 0)
      invariant count != 0 ==>
        selected + KeySelections(keysDown, interactable, closes, i) == KeySelections(keysDown, interactable, closes, 0)
      decreases count - i
    {
      if i + 1 in keysDown && interactable[i] {
        ghost var before := selected;
        selected := selected + [i];
        if closes[i] {
          count := 0;
        } else {
          assert KeySelections(keysDown, interactable, closes, i) == [i] + KeySelections(keysDown, interactable, closes, i + 1);
          ConcatAssociative(before, [i], KeySelections(keysDown, interactable, closes, i + 1));
        }
      } else {
        assert KeySelections(keysDown, interactable, closes, i) == KeySelections(keysDown, interactable, closes, i + 1);
      }
      i := i + 1;
    }
  }
}
