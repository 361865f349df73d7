/**
 * The undo store: a bounded list of recent actions, newest first. Adding an
 * action puts it in front and drops the oldest once the list is full;
 * undoing an action hands it back and removes it; actions can be cleared all
 * at once or by the kind of record they touched. The fresh id and the
 * timestamp an added action receives are parameters. The payload an action
 * carries is left abstract as the type parameter `D`.
 */
module UndoStore {
  import opened ApiTypes
  import opened Seqs

  /** The record an action touched: 'project' | 'wall' | 'opening'. */
  datatype EntityType = ProjectEntity | WallEntity | OpeningEntity

  /** What the action did: 'create' | 'update' | 'delete'. */
  datatype ActionKind = CreateAction | UpdateAction | DeleteAction

  datatype UndoAction<D> = UndoAction(id: string, entity: EntityType, action: ActionKind, data: D,
                                      timestamp: int)

  /** The store keeps at most this many actions. */
  const MaxActions: nat := 10

  /** `s.slice(0, n)`: the first `n` elements, or all of them when there are fewer. */
  function Take<T>(s: seq<T>, n: nat): (r: seq<T>)
    ensures |r| == if n < |s| then n else |s|
    ensures r == s[..|r|]
  {
    if n < |s| then s[..n] else s
  }

  /** `[newAction, ...actions].slice(0, max)`: the new action in front, then
      the earlier actions in their order, the oldest dropped on overflow. */
  function Added<D>(actions: seq<UndoAction<D>>, newAction: UndoAction<D>, max: nat): (r: seq<UndoAction<D>>)
    requires max > 0
    ensures |r| == if |actions| + 1 < max then |actions| + 1 else max
    ensures r[0] == newAction
    ensures forall k :: 1 <= k < |r| ==> r[k] == actions[k - 1]
  {
    Take([newAction] + actions, max)
  }

  /** `actions.find(a => a.id === id)`: the first action with that id. */
  function Lookup<D(==)>(actions: seq<UndoAction<D>>, id: string): (r: Option<UndoAction<D>>)
    ensures r.None? <==> forall k :: 0 <= k < |actions| ==> actions[k].id != id
    ensures r.Some? ==> exists k :: 0 <= k < |actions| && actions[k] == r.value && r.value.id == id
                                    && forall j :: 0 <= j < k ==> actions[j].id != id
  {
    var i := FindIndex(actions, (a: UndoAction<D>) => a.id == id);
    if i.None? then None else Some(actions[i.value])
  }

  /** `actions.filter(a => a.id !== id)`. */
  function WithoutId<D(==)>(actions: seq<UndoAction<D>>, id: string): (r: seq<UndoAction<D>>)
    ensures forall k :: 0 <= k < |r| ==> r[k].id != id && r[k] in actions
    ensures forall k :: 0 <= k < |actions| && actions[k].id != id ==> actions[k] in r
  {
    Filter(actions, (a: UndoAction<D>) => a.id != id)
  }

  /** `actions.filter(a => a.type !== type)`. */
  function WithoutType<D(==)>(actions: seq<UndoAction<D>>, entity: EntityType): (r: seq<UndoAction<D>>)
    ensures forall k :: 0 <= k < |r| ==> r[k].entity != entity && r[k] in actions
    ensures forall k :: 0 <= k < |actions| && actions[k].entity != entity ==> actions[k] in r
  {
    Filter(actions, (a: UndoAction<D>) => a.entity != entity)
  }

  /** The `useRecentUndoAction` selector: the newest action, of the given
      type when one is given, or `None` when there is none. */
  function Recent<D(==)>(actions: seq<UndoAction<D>>, entity: Option<EntityType>): (r: Option<UndoAction<D>>)
    ensures entity.None? ==> r == if actions == [] then None else Some(actions[0])
    ensures entity.Some? ==> (r.None? <==> forall k :: 0 <= k < |actions| ==> actions[k].entity != entity.value)
    ensures r.Some? ==> r.value in actions
    ensures r.Some? && entity.Some? ==> r.value.entity == entity.value
  {
    var candidates := if entity.Some? then Filter(actions, (a: UndoAction<D>) => a.entity == entity.value)
                      else actions;
    if candidates == [] then None else Some(candidates[0])
  }

  /** The newest action of a type is the first action of that type in the list. */
  lemma RecentIsFirstOfType<D>(actions: seq<UndoAction<D>>, entity: EntityType)
    ensures var i := FindIndex(actions, (a: UndoAction<D>) => a.entity == entity);
            Recent(actions, Some(entity)) == if i.None? then None else Some(actions[i.value])
  {
    FilterHeadIsFind(actions, (a: UndoAction<D>) => a.entity == entity);
  }

  /** Adding keeps the list within the bound when it was within it. */
  lemma AddedStaysBounded<D>(actions: seq<UndoAction<D>>, newAction: UndoAction<D>, max: nat)
    requires max > 0 && |actions| <= max
    ensures |Added(actions, newAction, max)| <= max
    ensures |actions| < max ==> Added(actions, newAction, max) == [newAction] + actions
    ensures |actions| == max ==> Added(actions, newAction, max) == [newAction] + actions[..max - 1]
  {
    if |actions| == max {
      assert ([newAction] + actions)[..max] == [newAction] + actions[..max - 1];
    }
  }

  /** Undoing an id that is not in the list finds nothing and keeps the list. */
  lemma UndoUnknownKeepsList<D>(actions: seq<UndoAction<D>>, id: string)
    requires forall k :: 0 <= k < |actions| ==> actions[k].id != id
    ensures Lookup(actions, id).None?
    ensures WithoutId(actions, id) == actions
  {
    FilterKeepsAll(actions, (a: UndoAction<D>) => a.id != id);
  }

  /** Undoing leaves no action with that id, and keeps every other action
      exactly as often as before. */
  lemma UndoRemovesOnlyThatId<D>(actions: seq<UndoAction<D>>, id: string, x: UndoAction<D>)
    ensures multiset(WithoutId(actions, id))[x] == if x.id == id then 0 else multiset(actions)[x]
  {
    FilterMultiplicity(actions, (a: UndoAction<D>) => a.id != id, x);
  }

  /** Clearing a type keeps every action of another type exactly as often as
      before, in the order `Filter` keeps, and none of that type. */
  lemma ClearByTypeKeepsOthers<D>(actions: seq<UndoAction<D>>, entity: EntityType, x: UndoAction<D>)
    ensures multiset(WithoutType(actions, entity))[x] == if x.entity == entity then 0 else multiset(actions)[x]
  {
    FilterMultiplicity(actions, (a: UndoAction<D>) => a.entity != entity, x);
  }

  /** Undoing the action just added, under an id no earlier action has, hands
      it back and restores the list as it was, as long as nothing was dropped. */
  lemma UndoAfterAdd<D>(actions: seq<UndoAction<D>>, newAction: UndoAction<D>, max: nat)
    requires max > 0 && |actions| < max
    requires forall k :: 0 <= k < |actions| ==> actions[k].id != newAction.id
    ensures Lookup(Added(actions, newAction, max), newAction.id) == Some(newAction)
    ensures WithoutId(Added(actions, newAction, max), newAction.id) == actions
  {
    var id := newAction.id;
    var keep := (a: UndoAction<D>) => a.id != id;
    var s := Added(actions, newAction, max);
    AddedStaysBounded(actions, newAction, max);
    assert s == [newAction] + actions;
    FilterAppend([newAction], actions, keep);
    assert Filter([newAction], keep) == [];
    FilterKeepsAll(actions, keep);
  }

  /** The store: the action list and its bound. */
  class UndoHistory<D(==)> {
    var actions: seq<UndoAction<D>>
    const maxActions: nat

    ghost predicate Valid()
      reads this
    {
      maxActions > 0 && |actions| <= maxActions
    }

    /** The store starts empty and keeps at most ten actions. */
    constructor()
      ensures actions == [] && maxActions == MaxActions
      ensures Valid()
    {
      actions := [];
      maxActions := MaxActions;
    }

    /** `addAction`: the action, stamped with its id and time, goes in front. */
    method AddAction(entity: EntityType, action: ActionKind, data: D, id: string, timestamp: int)
      requires Valid()
      modifies this
      ensures Valid()
      ensures actions == Added(old(actions), UndoAction(id, entity, action, data, timestamp), maxActions)
    {
      var newAction := UndoAction(id, entity, action, data, timestamp);
      AddedStaysBounded(actions, newAction, maxActions);
      actions := Take([newAction] + actions, maxActions);
    }

    /** `undoAction`: the first action with that id, now removed with every
        other action of that id; `None`, with nothing changed, when there is none. */
    method Undo(id: string) returns (r: Option<UndoAction<D>>)
      requires Valid()
      modifies this
      ensures Valid()
      ensures r == Lookup(old(actions), id)
      ensures actions == WithoutId(old(actions), id)
    {
      r := Lookup(actions, id);
      if r.Some? {
        actions := Filter(actions, (a: UndoAction<D>) => a.id != id);
      } else {
        UndoUnknownKeepsList(actions, id);
      }
    }

    /** `clearActions`. */
    method ClearActions()
      requires Valid()
      modifies this
      ensures Valid() && actions == []
    {
      actions := [];
    }

    /** `clearActionsByType`. */
    method ClearActionsByType(entity: EntityType)
      requires Valid()
      modifies this
      ensures Valid()
      ensures actions == WithoutType(old(actions), entity)
    {
      actions := Filter(actions, (a: UndoAction<D>) => a.entity != entity);
    }
  }
}
