/**
 * Expand/collapse state of one sidebar tree (lib/ui/src/components/sidebar/useExpanded.ts).
 *
 * The tree keeps a map from item id to "expanded". It is seeded with the
 * root ids and the ancestors of the highlighted item, updated by batches
 * `{ ids, value }`, forced open along the ancestry of the selected story,
 * and driven from the keyboard: Enter/Space select, ArrowLeft collapses or
 * climbs to the parent, ArrowRight expands.
 */
module TreeExpansion {
  import opened Wrappers

  // ---------------------------------------------------------------------------
  // The stories hash and the tree helpers read from it
  // ---------------------------------------------------------------------------

  /** One entry of the stories hash, reduced to what the tree helpers read. */
  datatype Entry = Entry(parent: Option<string>, isLeaf: bool)

  /** The stories hash: its entries by id, and its ids in key order. */
  datatype StoriesHash = StoriesHash(order: seq<string>, entries: map<string, Entry>)

  /** The parent of `id`, when the item and its parent are both in the hash. */
  function ParentOf(entries: map<string, Entry>, id: string): Option<string>
  {
    if id in entries && entries[id].parent.Some? && entries[id].parent.value in entries
    then entries[id].parent
    else None
  }

  /**
   * The chain of parents above `id`, nearest first, stopping at an item
   * without a parent in the hash, or before revisiting an id of `visited`.
   */
  function AncestorsFrom(entries: map<string, Entry>, id: string, visited: set<string>): (r: seq<string>)
    decreases entries.Keys - visited
    ensures forall a :: a in r ==> a in entries && a !in visited
    ensures r != [] ==> ParentOf(entries, id) == Some(r[0])
    ensures forall i :: 0 <= i < |r| - 1 ==> ParentOf(entries, r[i]) == Some(r[i + 1])
    ensures forall i, j :: 0 <= i < j < |r| ==> r[i] != r[j]
    ensures var last := if r == [] then id else r[|r| - 1];
            ParentOf(entries, last).None? || ParentOf(entries, last).value in visited + set a | a in r
  {
    var p := ParentOf(entries, id);
    if p.Some? && p.value !in visited then
      var rest := AncestorsFrom(entries, p.value, visited + {p.value});
      assert forall a :: a in [p.value] + rest <==> a == p.value || a in rest;
      [p.value] + rest
    else []
  }

  /** `getAncestorIds(data, id)`: the ancestors of `id`, nearest first; none for an unknown id. */
  function AncestorIds(data: StoriesHash, id: string): (r: seq<string>)
    ensures id !in r
    ensures id !in data.entries ==> r == []
  {
    AncestorsFrom(data.entries, id, {id})
  }

  /** The ids of `ids`, in order, that lie below `id`, leaving out leaves when `skipLeafs` is set. */
  function DescendantsIn(entries: map<string, Entry>, ids: seq<string>, id: string, skipLeafs: bool): (r: seq<string>)
    ensures forall d :: d in r <==>
      d in ids && d in entries && id in AncestorsFrom(entries, d, {d}) && !(skipLeafs && entries[d].isLeaf)
  {
    if ids == [] then []
    else
      var d := ids[0];
      var rest := DescendantsIn(entries, ids[1..], id, skipLeafs);
      if d in entries && id in AncestorsFrom(entries, d, {d}) && !(skipLeafs && entries[d].isLeaf)
      then [d] + rest
      else rest
  }

  /** `getDescendantIds(data, id, skipLeafs)`: every item of the hash that has `id` among its ancestors. */
  function DescendantIds(data: StoriesHash, id: string, skipLeafs: bool): (r: seq<string>)
    ensures forall d :: d in r <==>
      d in data.order && d in data.entries && id in AncestorIds(data, d) && !(skipLeafs && data.entries[d].isLeaf)
    ensures id !in r
  {
    DescendantsIn(data.entries, data.order, id, skipLeafs)
  }

  // ---------------------------------------------------------------------------
  // The expanded state and its reducer
  // ---------------------------------------------------------------------------

  /** `ExpandedState`: item id to "expanded". */
  type ExpandedState = map<string, bool>

  /** `ExpandAction`: set every listed id to `value`. */
  datatype ExpandAction = ExpandAction(ids: seq<string>, value: bool)

  /**
   * The reducer: fold the ids over a copy of the state, assigning `value`
   * to each. Listed ids end up with `value`, every other key keeps its
   * previous value, and nothing else is added.
   */
  function Reduce(state: ExpandedState, action: ExpandAction): (r: ExpandedState)
    decreases |action.ids|
    ensures forall k :: k in r <==> k in state || k in action.ids
    ensures forall id :: id in action.ids ==> r[id] == action.value
    ensures forall k :: k in state && k !in action.ids ==> r[k] == state[k]
  {
    if action.ids == [] then state
    else Reduce(state[action.ids[0] := action.value], ExpandAction(action.ids[1..], action.value))
  }

  /** Dispatching the same batch twice is the same as dispatching it once. */
  lemma ReduceIdempotent(state: ExpandedState, action: ExpandAction)
    ensures Reduce(Reduce(state, action), action) == Reduce(state, action)
  {
  }

  /** Dispatching two batches with the same value in turn is dispatching their concatenation. */
  lemma {:induction false} ReduceConcat(state: ExpandedState, ids1: seq<string>, ids2: seq<string>, value: bool)
    ensures Reduce(Reduce(state, ExpandAction(ids1, value)), ExpandAction(ids2, value))
         == Reduce(state, ExpandAction(ids1 + ids2, value))
  {
    var middle := Reduce(state, ExpandAction(ids1, value));
    var left := Reduce(middle, ExpandAction(ids2, value));
    var right := Reduce(state, ExpandAction(ids1 + ids2, value));
    forall k | k in left
      ensures k in right && left[k] == right[k]
    {
      if k in ids2 {
        assert k in ids1 + ids2;
      } else if k in ids1 {
        assert k in ids1 + ids2;
      } else {
        assert k in state;
        assert k !in ids1 + ids2;
      }
    }
    forall k | k in right
      ensures k in left
    {
      if k !in state && k !in ids1 {
        assert k in ids2;
      }
    }
  }

  /** The shared highlight reference: the highlighted item's id and the ref id of the tree it belongs to. */
  datatype Highlight = Highlight(itemId: string, refId: string)

  /**
   * `initializeExpanded`: every root id and, when the highlight belongs to
   * this tree, every ancestor of the highlighted item, all mapped to true.
   */
  function InitializeExpanded(refId: string, data: StoriesHash, highlight: Option<Highlight>, rootIds: seq<string>): (r: ExpandedState)
    ensures r.Keys == (set id | id in rootIds)
                    + (if highlight.Some? && highlight.value.refId == refId
                       then set a | a in AncestorIds(data, highlight.value.itemId)
                       else {})
    ensures forall id :: id in r ==> r[id]
  {
    var highlightedAncestors :=
      if highlight.Some? && highlight.value.refId == refId then AncestorIds(data, highlight.value.itemId) else [];
    Reduce(map[], ExpandAction(rootIds + highlightedAncestors, true))
  }

  // ---------------------------------------------------------------------------
  // Keyboard navigation
  // ---------------------------------------------------------------------------

  /** The attributes of a rendered tree item; `None` is an absent attribute. */
  datatype Element = Element(
    refId: Option<string>,        // data-ref-id
    nodeType: Option<string>,     // data-nodetype
    ariaExpanded: Option<string>, // aria-expanded
    parentId: Option<string>,     // data-parent-id
    highlightable: Option<string> // data-highlightable
  )

  /**
   * A keydown event. `targetInMenu` says whether the target and the
   * explorer menu are nested one in the other; `targetIsAction` whether the
   * target carries `data-action`.
   */
  datatype KeyEvent = KeyEvent(
    key: string,
    repeat: bool, shiftKey: bool, metaKey: bool, ctrlKey: bool, altKey: bool,
    targetInMenu: bool, targetIsAction: bool)

  /**
   * What the handler reads besides the event: the `isBrowsing` and `refId`
   * props, the stories hash, the rendered items of the container by
   * `data-item-id` (`None` when the container is not mounted), and the
   * current value of the shared highlight reference.
   */
  datatype View = View(
    isBrowsing: bool,
    refId: string,
    data: StoriesHash,
    container: Option<map<string, Element>>,
    highlight: Option<Highlight>)

  /** The single effect of one handled key press. */
  datatype KeyOutcome =
    | Ignored
    | Select(id: string)            // onSelectStoryId(id)
    | HighlightParent(id: string)   // setHighlightedItemId(id), scrolled into view
    | Dispatch(action: ExpandAction)

  const NavigationKeys: seq<string> := ["Enter", " ", "ArrowLeft", "ArrowRight"]
  const ActivationKeys: seq<string> := ["Enter", " "]
  const SelectableTypes: seq<string> := ["component", "story", "document"]

  predicate HasModifier(event: KeyEvent)
  {
    event.shiftKey || event.metaKey || event.ctrlKey || event.altKey
  }

  /** The highlighted item id, when the highlight belongs to this tree and is non-empty. */
  function HighlightedItemId(view: View): Option<string>
  {
    if view.highlight.Some? && view.highlight.value.refId == view.refId && view.highlight.value.itemId != ""
    then Some(view.highlight.value.itemId)
    else None
  }

  /** The highlighted element is rendered in this tree's container and tagged with this tree's ref id. */
  predicate ElementMatches(view: View)
  {
    && view.container.Some?
    && HighlightedItemId(view).Some?
    && HighlightedItemId(view).value in view.container.value
    && view.container.value[HighlightedItemId(view).value].refId == Some(view.refId)
  }

  /** Every guard clause of the handler lets the event through. */
  predicate Admitted(view: View, event: KeyEvent)
  {
    && view.isBrowsing && event.key != "" && view.container.Some? && HighlightedItemId(view).Some?
    && !event.repeat && !HasModifier(event)
    && event.key in NavigationKeys
    && ElementMatches(view)
    && event.targetInMenu
    && !(event.targetIsAction && event.key in ActivationKeys)
  }

  /** The parent element's id, when the element names a non-empty parent that is rendered and highlightable. */
  function HighlightableParent(container: map<string, Element>, element: Element): Option<string>
  {
    if element.parentId.Some? && element.parentId.value != "" && element.parentId.value in container
       && container[element.parentId.value].highlightable == Some("true")
    then element.parentId
    else None
  }

  /**
   * The expanded state of one tree. The stories hash, the DOM and the
   * highlight are owned elsewhere and passed in; only `expanded` lives here.
   */
  class ExpandedController {
    var expanded: ExpandedState

    /** The `useReducer` initialisation. */
    constructor (refId: string, data: StoriesHash, highlight: Option<Highlight>, rootIds: seq<string>)
      ensures expanded == InitializeExpanded(refId, data, highlight, rootIds)
    {
      expanded := InitializeExpanded(refId, data, highlight, rootIds);
    }

    /** `setExpanded(action)`: one step of the reducer. */
    method SetExpanded(action: ExpandAction)
      modifies this
      ensures expanded == Reduce(old(expanded), action)
    {
      expanded := Reduce(expanded, action);
    }

    /** The effect run when the selected story changes: open its whole ancestry. */
    method SyncSelection(data: StoriesHash, selectedStoryId: Option<string>)
      modifies this
      ensures selectedStoryId.Some? ==>
                forall a :: a in AncestorIds(data, selectedStoryId.value) ==> a in expanded && expanded[a]
      ensures forall k :: k in old(expanded) ==> k in expanded && (old(expanded)[k] ==> expanded[k])
      ensures forall k :: k in expanded && !expanded[k] ==> k in old(expanded) && expanded[k] == old(expanded)[k]
      ensures selectedStoryId.None? ==> expanded == old(expanded)
      ensures expanded == Reduce(old(expanded),
                ExpandAction(if selectedStoryId.Some? then AncestorIds(data, selectedStoryId.value) else [], true))
    {
      var ids := if selectedStoryId.Some? then AncestorIds(data, selectedStoryId.value) else [];
      SetExpanded(ExpandAction(ids, true));
    }

    /**
     * `navigateTree`: one keydown, through the handler's guard clauses to
     * at most one effect.
     */
    method NavigateTree(view: View, event: KeyEvent) returns (outcome: KeyOutcome)
      modifies this
      // The state changes only by the batch the outcome dispatches.
      ensures outcome.Dispatch? ==> expanded == Reduce(old(expanded), outcome.action)
      ensures !outcome.Dispatch? ==> expanded == old(expanded)
      // Guard clauses.
      ensures !view.isBrowsing || event.key == "" || view.container.None? || HighlightedItemId(view).None?
              ==> outcome == Ignored
      ensures event.repeat || HasModifier(event) ==> outcome == Ignored
      ensures event.key !in NavigationKeys ==> outcome == Ignored
      ensures !ElementMatches(view) ==> outcome == Ignored
      ensures !event.targetInMenu ==> outcome == Ignored
      ensures event.targetIsAction && event.key in ActivationKeys ==> outcome == Ignored
      ensures outcome != Ignored ==> Admitted(view, event)
      // Enter and Space.
      ensures Admitted(view, event) && event.key in ActivationKeys ==>
                var id := HighlightedItemId(view).value;
                var element := view.container.value[id];
                outcome == if element.nodeType.Some? && element.nodeType.value in SelectableTypes
                           then Select(id) else Ignored
      // ArrowLeft.
      ensures Admitted(view, event) && event.key == "ArrowLeft" ==>
                var id := HighlightedItemId(view).value;
                var element := view.container.value[id];
                var parent := HighlightableParent(view.container.value, element);
                outcome == if element.ariaExpanded == Some("true") then Dispatch(ExpandAction([id], false))
                           else if parent.Some? then HighlightParent(parent.value)
                           else Dispatch(ExpandAction(DescendantIds(view.data, id, true), false))
      // ArrowRight.
      ensures Admitted(view, event) && event.key == "ArrowRight" ==>
                var id := HighlightedItemId(view).value;
                var element := view.container.value[id];
                outcome == if element.ariaExpanded == Some("false") then Dispatch(ExpandAction([id], true))
                           else if element.ariaExpanded == Some("true")
                           then Dispatch(ExpandAction(DescendantIds(view.data, id, true), true))
                           else Ignored
      // A bulk update over the descendants leaves the highlighted item's own entry as it was.
      ensures Admitted(view, event) ==>
                var id := HighlightedItemId(view).value;
                var element := view.container.value[id];
                ( || (event.key == "ArrowLeft" && element.ariaExpanded != Some("true")
                      && HighlightableParent(view.container.value, element).None?)
                  || (event.key == "ArrowRight" && element.ariaExpanded == Some("true")) )
                ==> (id in expanded <==> id in old(expanded)) && (id in expanded ==> expanded[id] == old(expanded)[id])
    {
      outcome := Ignored;
      var highlightedItemId := HighlightedItemId(view);
      if !view.isBrowsing || event.key == "" || view.container.None? || highlightedItemId.None? {
        return;
      }
      if event.repeat || event.shiftKey || event.metaKey || event.ctrlKey || event.altKey {
        return;
      }
      if event.key !in NavigationKeys {
        return;
      }

      var container := view.container.value;
      var id := highlightedItemId.value;
      if id !in container || container[id].refId != Some(view.refId) {
        return;
      }
      var highlightedElement := container[id];

      if !event.targetInMenu {
        return;
      }
      if event.targetIsAction && event.key in ActivationKeys {
        return;
      }

      var nodeType := highlightedElement.nodeType;
      if event.key in ActivationKeys && nodeType.Some? && nodeType.value in SelectableTypes {
        outcome := Select(id);
      }

      var isExpanded := highlightedElement.ariaExpanded;

      if event.key == "ArrowLeft" {
        if isExpanded == Some("true") {
          outcome := Dispatch(ExpandAction([id], false));
          SetExpanded(outcome.action);
          return;
        }
        var parentId := HighlightableParent(container, highlightedElement);
        if parentId.Some? {
          outcome := HighlightParent(parentId.value);
          return;
        }
        var descendants := DescendantIds(view.data, id, true);
        outcome := Dispatch(ExpandAction(descendants, false));
        SetExpanded(outcome.action);
        return;
      }

      if event.key == "ArrowRight" {
        if isExpanded == Some("false") {
          outcome := Dispatch(ExpandAction([id], true));
          SetExpanded(outcome.action);
        } else if isExpanded == Some("true") {
          var descendants := DescendantIds(view.data, id, true);
          outcome := Dispatch(ExpandAction(descendants, true));
          SetExpanded(outcome.action);
        }
      }
    }

    /**
     * `updateExpanded`, the dispatcher handed to the tree's items: apply the
     * batch and, for a single id, ask for that id to be highlighted.
     */
    method UpdateExpanded(action: ExpandAction) returns (highlightRequest: Option<string>)
      modifies this
      ensures expanded == Reduce(old(expanded), action)
      ensures highlightRequest.Some? <==> |action.ids| == 1
      ensures highlightRequest.Some? ==> highlightRequest.value == action.ids[0]
    {
      SetExpanded(action);
      if |action.ids| == 1 {
        highlightRequest := Some(action.ids[0]);
      } else {
        highlightRequest := None;
      }
    }
  }
}
