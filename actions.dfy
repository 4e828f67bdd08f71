// Global dialogue actions: action sets looked up by id, one event per option (DialogueActionHandler.cs).
module DialogueActions {
  import opened Common

  /** A `UnityEvent`: the ids of the listeners it calls, in order. */
  datatype Event = Event(listeners: seq<nat>)

  /** `new UnityEvent()`: no listeners. */
  const NewEvent: Event := Event([])

  /** `ResizeActionList(n)`: truncate to n, or pad with fresh events up to n. */
  function Resized(actions: seq<Option<Event>>, n: nat): (r: seq<Option<Event>>)
    ensures |r| == n
    ensures forall i :: 0 <= i < |actions| && i < n ==> r[i] == actions[i]
    ensures forall i :: |actions| <= i < n ==> r[i] == Some(NewEvent)
  {
    if n <= |actions| then actions[..n] else actions + seq(n - |actions|, _ => Some(NewEvent))
  }

  /** Resizing twice to the same count is resizing once. */
  lemma ResizedIdempotent(actions: seq<Option<Event>>, n: nat)
    ensures Resized(Resized(actions, n), n) == Resized(actions, n)
  {
  }

  /** Resizing to the current count changes nothing. */
  lemma ResizedToSameCount(actions: seq<Option<Event>>)
    ensures Resized(actions, |actions|) == actions
  {
  }

  /** The index of the last entry equal to `id`, if any. */
  function LastIndexOf(ids: seq<string>, id: string): (r: Option<nat>)
    ensures r.Some? ==> r.value < |ids| && ids[r.value] == id &&
                        forall j :: r.value < j < |ids| ==> ids[j] != id
    ensures r.None? <==> id !in ids
  {
    if |ids| == 0 then None
    else if ids[|ids| - 1] == id then Some(|ids| - 1)
    else LastIndexOf(ids[..|ids| - 1], id)
  }

  lemma LastIndexOfSnoc(ids: seq<string>, i: nat, id: string)
    requires i < |ids|
    ensures LastIndexOf(ids[..i + 1], id) == if ids[i] == id then Some(i) else LastIndexOf(ids[..i], id)
    ensures id in ids[..i + 1] <==> id == ids[i] || id in ids[..i]
  {
    assert ids[..i + 1][..i] == ids[..i];
    assert ids[..i + 1] == ids[..i] + [ids[i]];
  }

  class DialogueActionSet {
    var actionSetId: string
    var description: string
    var optionActions: seq<Option<Event>>

    constructor ()
      ensures actionSetId == "" && description == "" && optionActions == []
    {
      actionSetId := "";
      description := "";
      optionActions := [];
    }

    /**
     * `ResizeActionList`: add fresh events while too short, remove the last while too long.
     * A negative count would make the second loop remove at index -1, which throws.
     */
    method ResizeActionList(targetCount: int)
      requires targetCount >= 0
      modifies this`optionActions
      ensures optionActions == Resized(old(optionActions), targetCount)
    {
      ghost var original := optionActions;
      while |optionActions| < targetCount
        invariant |original| <= |optionActions| <= targetCount || optionActions == original
        invariant |optionActions| >= |original| && optionActions[..|original|] == original
        invariant forall i :: |original| <= i < |optionActions| ==> optionActions[i] == Some(NewEvent)
        decreases targetCount - |optionActions|
      {
        optionActions := optionActions + [Some(NewEvent)];
      }
      while |optionActions| > targetCount
        invariant targetCount <= |optionActions|
        invariant |original| <= targetCount ==> optionActions == Resized(original, targetCount)
        invariant |original| > targetCount ==> optionActions == original[..|optionActions|]
        decreases |optionActions|
      {
        optionActions := optionActions[..|optionActions| - 1];
      }
    }
  }

  /** The ids of the sets, in list order. */
  function IdsOf(sets: seq<DialogueActionSet>): (ids: seq<string>)
    reads sets
    ensures |ids| == |sets| && forall i :: 0 <= i < |sets| ==> ids[i] == sets[i].actionSetId
  {
    if |sets| == 0 then [] else IdsOf(sets[..|sets| - 1]) + [sets[|sets| - 1].actionSetId]
  }

  /** The listeners that option `optionIndex` of action set `id` runs: none for an unknown id or index. */
  function ActionListeners(lookup: map<string, DialogueActionSet>, id: string, optionIndex: int): seq<nat>
    reads lookup.Values
  {
    if id in lookup && 0 <= optionIndex < |lookup[id].optionActions| && lookup[id].optionActions[optionIndex].Some?
    then lookup[id].optionActions[optionIndex].value.listeners
    else []
  }

  /** The lookup built from the first n sets: each non-empty id among them maps to the last set carrying it. */
  ghost predicate LookupOfPrefix(lookup: map<string, DialogueActionSet>, sets: seq<DialogueActionSet>, ids: seq<string>, n: nat)
    requires |ids| == |sets| && n <= |sets|
  {
    (forall id :: id in lookup <==> id != "" && id in ids[..n]) &&
    (forall id :: id in lookup ==>
       var last := LastIndexOf(ids[..n], id);
       last.Some? && lookup[id] == sets[last.value])
  }

  /** Entering the set at index i (under its id, when non-empty) extends the lookup by one set. */
  lemma LookupOfPrefixStep(before: map<string, DialogueActionSet>, after: map<string, DialogueActionSet>,
                           sets: seq<DialogueActionSet>, ids: seq<string>, i: nat)
    requires |ids| == |sets| && i < |sets| && LookupOfPrefix(before, sets, ids, i)
    requires after == if ids[i] != "" then before[ids[i] := sets[i]] else before
    ensures LookupOfPrefix(after, sets, ids, i + 1)
  {
    forall id ensures id in after <==> id != "" && id in ids[..i + 1] {
      LastIndexOfSnoc(ids, i, id);
    }
    forall id | id in after
      ensures var last := LastIndexOf(ids[..i + 1], id); last.Some? && after[id] == sets[last.value]
    {
      LastIndexOfSnoc(ids, i, id);
      if id != ids[i] {
        assert id in before && after[id] == before[id];
      }
    }
  }

  class DialogueActionHandler {
    var dialogueActionSets: seq<DialogueActionSet>
    var actionSetLookup: map<string, DialogueActionSet>

    constructor (sets: seq<DialogueActionSet>)
      ensures dialogueActionSets == sets && actionSetLookup == map[]
    {
      dialogueActionSets := sets;
      actionSetLookup := map[];
    }

    /** `BuildActionLookup`: each non-empty id maps to the last set that carries it. */
    method BuildActionLookup()
      modifies this`actionSetLookup
      ensures forall id :: id in actionSetLookup <==> id != "" && id in IdsOf(dialogueActionSets)
      ensures forall id :: id in actionSetLookup ==>
        (var last := LastIndexOf(IdsOf(dialogueActionSets), id);
         last.Some? && actionSetLookup[id] == dialogueActionSets[last.value])
    {
      var sets := dialogueActionSets;
      ghost var ids := IdsOf(sets);
      actionSetLookup := map[];
      var i := 0;
      while i < |sets|
        invariant 0 <= i <= |sets|
        invariant LookupOfPrefix(actionSetLookup, sets, ids, i)
      {
        var actionSet := sets[i];
        ghost var before := actionSetLookup;
        if actionSet.actionSetId != "" {
          actionSetLookup := actionSetLookup[actionSet.actionSetId := actionSet];
        }
        LookupOfPrefixStep(before, actionSetLookup, sets, ids, i);
        i := i + 1;
      }
      assert ids[..i] == ids == IdsOf(dialogueActionSets);
      forall id | id in actionSetLookup
        ensures var last := LastIndexOf(IdsOf(dialogueActionSets), id);
          last.Some? && actionSetLookup[id] == dialogueActionSets[last.value]
      {
        var last := LastIndexOf(ids[..i], id);
        assert last.Some? && actionSetLookup[id] == sets[last.value];
        assert LastIndexOf(IdsOf(dialogueActionSets), id) == last && dialogueActionSets == sets;
      }
    }

    /** `ExecuteOptionAction`: the listeners run, or none when the id or the index is unknown. */
    method ExecuteOptionAction(actionSetId: string, optionIndex: int) returns (invoked: seq<nat>)
      ensures actionSetId !in actionSetLookup ==> invoked == []
      ensures actionSetId in actionSetLookup ==>
        (var actions := actionSetLookup[actionSetId].optionActions;
         invoked == if 0 <= optionIndex < |actions| && actions[optionIndex].Some?
                    then actions[optionIndex].value.listeners else [])
      ensures invoked == ActionListeners(actionSetLookup, actionSetId, optionIndex)
    {
      if actionSetId in actionSetLookup {
        var actionSet := actionSetLookup[actionSetId];
        if 0 <= optionIndex < |actionSet.optionActions| {
          var action := actionSet.optionActions[optionIndex];
          if action.Some? {
            return action.value.listeners;
          }
        }
      }
      return [];
    }

    /** `GetActionSet`: null for an unknown id. */
    method GetActionSet(actionSetId: string) returns (actionSet: DialogueActionSet?)
      ensures actionSetId in actionSetLookup ==> actionSet == actionSetLookup[actionSetId]
      ensures actionSetId !in actionSetLookup ==> actionSet == null
    {
      if actionSetId in actionSetLookup {
        return actionSetLookup[actionSetId];
      }
      return null;
    }
  }
}
