/**
 * The application store: open modals keyed by id, the toast queue, the
 * sidebar and theme preferences, the feature flags and the current user.
 * Every action overwrites one field and leaves the others as they were. The
 * fresh toast id is a parameter; the payload a modal carries is left
 * abstract as the type parameter `D`.
 */
module AppStore {
  import opened ApiTypes
  import opened Seqs

  datatype ModalState<D> = ModalState(isOpen: bool, modalType: Option<string>, data: Option<D>)

  datatype ToastStatus = ToastSuccess | ToastError | ToastWarning | ToastInfo

  datatype Toast = Toast(id: string, title: string, description: Option<string>, status: ToastStatus,
                         duration: Option<real>)

  /** A toast as `addToast` receives it: everything but the id. */
  datatype ToastRequest = ToastRequest(title: string, description: Option<string>, status: ToastStatus,
                                       duration: Option<real>)

  datatype Theme = Light | Dark | System

  /** The flags the store starts with. */
  const DefaultFeatures: map<string, bool> :=
    map["enableAdvancedCalculations" := true, "enableExportFeatures" := true, "enableCollaboration" := false]

  /** `features[feature] ?? false`: a flag the map does not hold reads as off. */
  function FlagValue(features: map<string, bool>, feature: string): (on: bool)
    ensures on ==> feature in features
    ensures feature in features ==> on == features[feature]
  {
    if feature in features then features[feature] else false
  }

  /** `{ ...modals, [id]: { isOpen: true, type, data } }`. */
  function Opened<D>(modals: map<string, ModalState<D>>, id: string, modalType: string, data: Option<D>)
    : (r: map<string, ModalState<D>>)
    ensures r.Keys == modals.Keys + {id}
    ensures r[id] == ModalState(true, Some(modalType), data)
    ensures forall k :: k in modals && k != id ==> r[k] == modals[k]
  {
    modals[id := ModalState(true, Some(modalType), data)]
  }

  /** `const { [id]: _, ...rest } = modals`: every modal but `id`. */
  function Closed<D>(modals: map<string, ModalState<D>>, id: string): (r: map<string, ModalState<D>>)
    ensures r.Keys == modals.Keys - {id}
    ensures forall k :: k in r ==> r[k] == modals[k]
  {
    modals - {id}
  }

  /** `[...toasts, { ...toast, id }]`. */
  function WithToast(toasts: seq<Toast>, toast: ToastRequest, id: string): (r: seq<Toast>)
    ensures |r| == |toasts| + 1 && r[..|toasts|] == toasts
    ensures r[|toasts|] == Toast(id, toast.title, toast.description, toast.status, toast.duration)
  {
    toasts + [Toast(id, toast.title, toast.description, toast.status, toast.duration)]
  }

  /** `toasts.filter(t => t.id !== id)`. */
  function WithoutToast(toasts: seq<Toast>, id: string): (r: seq<Toast>)
    ensures forall k :: 0 <= k < |r| ==> r[k].id != id && r[k] in toasts
    ensures forall k :: 0 <= k < |toasts| && toasts[k].id != id ==> toasts[k] in r
  {
    Filter(toasts, (t: Toast) => t.id != id)
  }

  /** `{ ...features, [feature]: enabled }`. */
  function WithFlag(features: map<string, bool>, feature: string, enabled: bool): (r: map<string, bool>)
    ensures FlagValue(r, feature) == enabled
    ensures forall f :: f != feature ==> FlagValue(r, f) == FlagValue(features, f)
  {
    features[feature := enabled]
  }

  /** The default flags: advanced calculations and exports on, collaboration
      off, and every other flag off because it is unknown. */
  lemma DefaultFlags(feature: string)
    ensures FlagValue(DefaultFeatures, "enableAdvancedCalculations")
    ensures FlagValue(DefaultFeatures, "enableExportFeatures")
    ensures !FlagValue(DefaultFeatures, "enableCollaboration")
    ensures feature !in {"enableAdvancedCalculations", "enableExportFeatures"} ==>
      !FlagValue(DefaultFeatures, feature)
  {
  }

  /** Closing a modal that was not open does nothing, and closing the modal
      just opened under a new id restores the modals as they were. */
  lemma CloseUndoesOpen<D>(modals: map<string, ModalState<D>>, id: string, modalType: string, data: Option<D>)
    ensures id !in modals ==> Closed(modals, id) == modals
    ensures id !in modals ==> Closed(Opened(modals, id, modalType, data), id) == modals
  {
  }

  /** Removing the toast just added under a fresh id restores the queue. */
  lemma RemoveUndoesAdd(toasts: seq<Toast>, toast: ToastRequest, id: string)
    requires forall k :: 0 <= k < |toasts| ==> toasts[k].id != id
    ensures WithoutToast(WithToast(toasts, toast, id), id) == toasts
  {
    var keep := (t: Toast) => t.id != id;
    var added := Toast(id, toast.title, toast.description, toast.status, toast.duration);
    FilterAppend(toasts, [added], keep);
    assert Filter([added], keep) == [];
    FilterKeepsAll(toasts, keep);
  }

  /** Removing a toast keeps every other toast exactly as often as before,
      and none with that id. */
  lemma RemoveToastKeepsOthers(toasts: seq<Toast>, id: string, x: Toast)
    ensures multiset(WithoutToast(toasts, id))[x] == if x.id == id then 0 else multiset(toasts)[x]
  {
    FilterMultiplicity(toasts, (t: Toast) => t.id != id, x);
  }

  class AppState<D> {
    var modals: map<string, ModalState<D>>
    var toasts: seq<Toast>
    var sidebarCollapsed: bool
    var theme: Theme
    var features: map<string, bool>
    var currentUserId: Option<string>

    /** The default state: no modals or toasts, an expanded sidebar, the
        system theme, the default flags and no user. */
    constructor()
      ensures modals == map[] && toasts == []
      ensures !sidebarCollapsed && theme == System
      ensures features == DefaultFeatures && currentUserId == None
    {
      modals := map[];
      toasts := [];
      sidebarCollapsed := false;
      theme := System;
      features := DefaultFeatures;
      currentUserId := None;
    }

    /** The `useFeatureFlag` selector. */
    function FeatureFlag(feature: string): (on: bool)
      reads this
      ensures on <==> feature in features && features[feature]
    {
      FlagValue(features, feature)
    }

    method OpenModal(id: string, modalType: string, data: Option<D>)
      modifies this
      ensures modals == Opened(old(modals), id, modalType, data)
      ensures toasts == old(toasts) && features == old(features)
      ensures sidebarCollapsed == old(sidebarCollapsed) && theme == old(theme)
      ensures currentUserId == old(currentUserId)
    {
      modals := modals[id := ModalState(true, Some(modalType), data)];
    }

    method CloseModal(id: string)
      modifies this
      ensures modals == Closed(old(modals), id)
      ensures toasts == old(toasts) && features == old(features)
      ensures sidebarCollapsed == old(sidebarCollapsed) && theme == old(theme)
      ensures currentUserId == old(currentUserId)
    {
      modals := modals - {id};
    }

    method CloseAllModals()
      modifies this
      ensures modals == map[]
      ensures toasts == old(toasts) && features == old(features)
      ensures sidebarCollapsed == old(sidebarCollapsed) && theme == old(theme)
      ensures currentUserId == old(currentUserId)
    {
      modals := map[];
    }

    method AddToast(toast: ToastRequest, id: string)
      modifies this
      ensures toasts == WithToast(old(toasts), toast, id)
      ensures modals == old(modals) && features == old(features)
      ensures sidebarCollapsed == old(sidebarCollapsed) && theme == old(theme)
      ensures currentUserId == old(currentUserId)
    {
      toasts := toasts + [Toast(id, toast.title, toast.description, toast.status, toast.duration)];
    }

    method RemoveToast(id: string)
      modifies this
      ensures toasts == WithoutToast(old(toasts), id)
      ensures modals == old(modals) && features == old(features)
      ensures sidebarCollapsed == old(sidebarCollapsed) && theme == old(theme)
      ensures currentUserId == old(currentUserId)
    {
      toasts := Filter(toasts, (t: Toast) => t.id != id);
    }

    method ClearAllToasts()
      modifies this
      ensures toasts == []
      ensures modals == old(modals) && features == old(features)
      ensures sidebarCollapsed == old(sidebarCollapsed) && theme == old(theme)
      ensures currentUserId == old(currentUserId)
    {
      toasts := [];
    }

    method SetSidebarCollapsed(collapsed: bool)
      modifies this
      ensures sidebarCollapsed == collapsed
      ensures modals == old(modals) && toasts == old(toasts) && features == old(features)
      ensures theme == old(theme) && currentUserId == old(currentUserId)
    {
      sidebarCollapsed := collapsed;
    }

    method SetTheme(newTheme: Theme)
      modifies this
      ensures theme == newTheme
      ensures modals == old(modals) && toasts == old(toasts) && features == old(features)
      ensures sidebarCollapsed == old(sidebarCollapsed) && currentUserId == old(currentUserId)
    {
      theme := newTheme;
    }

    method SetFeatureFlag(feature: string, enabled: bool)
      modifies this
      ensures features == WithFlag(old(features), feature, enabled)
      ensures FeatureFlag(feature) == enabled
      ensures forall f :: f != feature ==> FeatureFlag(f) == old(FeatureFlag(f))
      ensures modals == old(modals) && toasts == old(toasts)
      ensures sidebarCollapsed == old(sidebarCollapsed) && theme == old(theme)
      ensures currentUserId == old(currentUserId)
    {
      features := features[feature := enabled];
    }

    method SetCurrentUser(userId: Option<string>)
      modifies this
      ensures currentUserId == userId
      ensures modals == old(modals) && toasts == old(toasts) && features == old(features)
      ensures sidebarCollapsed == old(sidebarCollapsed) && theme == old(theme)
    {
      currentUserId := userId;
    }
  }
}
