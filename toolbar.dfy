// Toolbar selection by scroll wheel and number keys (ToolbarController.cs).
module Toolbar {
  import opened Common

  /** One scroll step: up moves left and wraps from 0 to the end, down moves right and wraps to 0. */
  function Scrolled(selected: int, delta: real, toolbarSize: int): int
  {
    if delta > 0.0 then (if selected - 1 < 0 then toolbarSize - 1 else selected - 1)
    else if delta < 0.0 then (if selected + 1 >= toolbarSize then 0 else selected + 1)
    else selected
  }

  /** Scrolling keeps the selection on the toolbar. */
  lemma ScrollStaysOnToolbar(selected: int, delta: real, toolbarSize: int)
    requires 0 <= selected < toolbarSize
    ensures 0 <= Scrolled(selected, delta, toolbarSize) < toolbarSize
  {
  }

  /** Scrolling up and then down, or down and then up, comes back to the same tool. */
  lemma ScrollRoundTrip(selected: int, toolbarSize: int)
    requires 0 <= selected < toolbarSize
    ensures Scrolled(Scrolled(selected, 1.0, toolbarSize), -1.0, toolbarSize) == selected
    ensures Scrolled(Scrolled(selected, -1.0, toolbarSize), 1.0, toolbarSize) == selected
  {
  }

  /** The lowest number key in `from..toolbarSize` pressed this frame. */
  function FirstKey(pressed: set<int>, from: int, toolbarSize: int): (r: Option<int>)
    ensures r.Some? ==> from <= r.value <= toolbarSize && r.value in pressed &&
                        forall j :: from <= j < r.value ==> j !in pressed
    ensures r.None? ==> forall j :: from <= j <= toolbarSize ==> j !in pressed
    decreases toolbarSize - from
  {
    if from > toolbarSize then None
    else if from in pressed then Some(from)
    else FirstKey(pressed, from + 1, toolbarSize)
  }

  /** The selection after one frame. */
  function Selected(selected: int, delta: real, pressed: set<int>, toolbarSize: int): int
  {
    match FirstKey(pressed, 1, toolbarSize)
      case Some(i) => i - 1
      case None => Scrolled(selected, delta, toolbarSize)
  }

  /** A number key wins over the wheel and selects the tool one to its left, always on the toolbar. */
  lemma KeySelects(selected: int, delta: real, pressed: set<int>, toolbarSize: int)
    requires 0 <= selected < toolbarSize
    ensures 0 <= Selected(selected, delta, pressed, toolbarSize) < toolbarSize
    ensures forall i :: 1 <= i <= toolbarSize && i in pressed ==>
      Selected(selected, delta, pressed, toolbarSize) <= i - 1
    ensures pressed == {} ==> Selected(selected, delta, pressed, toolbarSize) == Scrolled(selected, delta, toolbarSize)
  {
  }

  /** The `onChange` notifications of one frame: one for a scroll, one for a key. */
  function Notifications(selected: int, delta: real, pressed: set<int>, toolbarSize: int): seq<int>
  {
    (if delta != 0.0 then [Scrolled(selected, delta, toolbarSize)] else []) +
    (match FirstKey(pressed, 1, toolbarSize) case Some(i) => [i - 1] case None => [])
  }

  class ToolbarController {
    var toolbarSize: int
    var selectedTool: int
    /** The arguments `onChange` has been invoked with. */
    var changes: seq<int>

    constructor ()
      ensures toolbarSize == 7 && selectedTool == 0 && changes == []
    {
      toolbarSize := 7;
      selectedTool := 0;
      changes := [];
    }

    /** `Set`: the index is stored as given and announced. */
    method Set(id: int)
      modifies this`selectedTool, this`changes
      ensures selectedTool == id && changes == old(changes) + [id]
    {
      selectedTool := id;
      changes := changes + [selectedTool];
    }

    /** `Update` for one frame, given the wheel delta and the number keys pressed. */
    method Update(scrollDelta: real, pressed: set<int>)
      modifies this`selectedTool, this`changes
      ensures selectedTool == Selected(old(selectedTool), scrollDelta, pressed, toolbarSize)
      ensures changes == old(changes) + Notifications(old(selectedTool), scrollDelta, pressed, toolbarSize)
    {
      if scrollDelta != 0.0 {
        if scrollDelta > 0.0 {
          selectedTool := selectedTool - 1;
          selectedTool := if selectedTool < 0 then toolbarSize - 1 else selectedTool;
        } else {
          selectedTool := selectedTool + 1;
          selectedTool := if selectedTool >= toolbarSize then 0 else selectedTool;
        }
        changes := changes + [selectedTool];
      }
      ghost var afterScroll := changes;
      var i := 1;
      while i <= toolbarSize
        invariant 1 <= i <= toolbarSize + 1 || (toolbarSize < 1 && i == 1)
        invariant FirstKey(pressed, 1, toolbarSize) == FirstKey(pressed, i, toolbarSize)
        invariant selectedTool == Scrolled(old(selectedTool), scrollDelta, toolbarSize) && changes == afterScroll
      {
        if i in pressed {
          selectedTool := i - 1;
          changes := changes + [selectedTool];
          break;
        }
        i := i + 1;
      }
    }
  }
}
