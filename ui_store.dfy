/**
 * stores/ui-store.ts: the zustand store for sidebar, modal, notification,
 * theme and loading-flag state. As with the application-flow store, the
 * store is a class whose methods state the new state, and `UiState` is
 * the value the lemmas talk about.
 *
 * The notification id (from `Math.random`) and timestamp (from
 * `Date.now`) are parameters of `AddNotification`.
 */
module UiStore {

  datatype Theme = Light | Dark | System

  /** The keys of the `modals` object. */
  datatype Modal = VehicleSearchModal | LoanApplicationModal | OfferComparisonModal

  /** The keys of the `loading` object. */
  datatype LoadingKey = GlobalLoading | VehicleSearchLoading | LoanSubmissionLoading

  datatype NotificationType = Success | Error | Warning | Info

  datatype Notification = Notification(id: string, title: string, message: string, kind: NotificationType, timestamp: int)

  datatype UiState = UiState(
    sidebarOpen: bool,
    sidebarCollapsed: bool,
    modals: map<Modal, bool>,
    notifications: seq<Notification>,
    theme: Theme,
    loading: map<LoadingKey, bool>)

  /** The part of the state written to local storage. */
  datatype UiSnapshot = UiSnapshot(sidebarCollapsed: bool, theme: Theme)

  const AllModalsClosed: map<Modal, bool> :=
    map[VehicleSearchModal := false, LoanApplicationModal := false, OfferComparisonModal := false]

  const NothingLoading: map<LoadingKey, bool> :=
    map[GlobalLoading := false, VehicleSearchLoading := false, LoanSubmissionLoading := false]

  const InitialUi: UiState := UiState(true, false, AllModalsClosed, [], System, NothingLoading)

  /** `closeAllModals`: every key the modals object has, set to false. */
  function CloseAll(modals: map<Modal, bool>): (r: map<Modal, bool>)
    ensures r.Keys == modals.Keys
    ensures forall m :: m in r ==> !r[m]
  {
    map m | m in modals.Keys :: false
  }

  /** Closing all modals twice is closing them once. */
  lemma CloseAllIdempotent(modals: map<Modal, bool>)
    ensures CloseAll(CloseAll(modals)) == CloseAll(modals)
  {
  }

  /** `notifications.filter(n => n.id !== id)`. */
  function WithoutNotification(ns: seq<Notification>, id: string): (r: seq<Notification>)
    ensures forall n :: n in r <==> n in ns && n.id != id
    ensures |r| <= |ns|
  {
    if ns == [] then []
    else if ns[0].id == id then WithoutNotification(ns[1..], id)
    else [ns[0]] + WithoutNotification(ns[1..], id)
  }

  /** Filtering distributes over concatenation. */
  lemma {:induction false} WithoutNotificationAppend(a: seq<Notification>, b: seq<Notification>, id: string)
    ensures WithoutNotification(a + b, id) == WithoutNotification(a, id) + WithoutNotification(b, id)
  {
    if a == [] {
      assert a + b == b;
    } else {
      assert (a + b)[1..] == a[1..] + b;
      WithoutNotificationAppend(a[1..], b, id);
    }
  }

  /** Filtering out an id that no notification carries changes nothing. */
  lemma {:induction false} WithoutAbsentId(ns: seq<Notification>, id: string)
    requires forall k :: 0 <= k < |ns| ==> ns[k].id != id
    ensures WithoutNotification(ns, id) == ns
  {
    if ns != [] {
      WithoutAbsentId(ns[1..], id);
    }
  }

  /**
   * Removing a notification just added under a fresh id restores the list
   * as it was: the timer that removes it five seconds later undoes the add.
   */
  lemma AddThenRemove(ns: seq<Notification>, n: Notification)
    requires forall k :: 0 <= k < |ns| ==> ns[k].id != n.id
    ensures WithoutNotification(ns + [n], n.id) == ns
  {
    WithoutNotificationAppend(ns, [n], n.id);
    WithoutAbsentId(ns, n.id);
  }

  /** `partialize`: only the collapsed flag and the theme are persisted. */
  function Partialize(st: UiState): UiSnapshot {
    UiSnapshot(st.sidebarCollapsed, st.theme)
  }

  /** Two states persist alike exactly when they agree on the collapsed flag and the theme. */
  lemma PartializeKeepsCollapsedAndTheme(a: UiState, b: UiState)
    ensures Partialize(a) == Partialize(b) <==>
      a.(sidebarOpen := b.sidebarOpen, modals := b.modals, notifications := b.notifications,
         loading := b.loading) == b
  {
  }

  /** The modals object keeps exactly its three keys whatever the modal actions do. */
  lemma ModalKeysStay(modals: map<Modal, bool>, m: Modal, open: bool)
    requires modals.Keys == AllModalsClosed.Keys
    ensures modals[m := open].Keys == AllModalsClosed.Keys
    ensures CloseAll(modals) == AllModalsClosed
  {
  }

  /** The store; `State()` reads its data fields as one value. */
  class Ui {

    var sidebarOpen: bool
    var sidebarCollapsed: bool
    var modals: map<Modal, bool>
    var notifications: seq<Notification>
    var theme: Theme
    var loading: map<LoadingKey, bool>

    function State(): UiState
      reads this
    {
      UiState(sidebarOpen, sidebarCollapsed, modals, notifications, theme, loading)
    }

    constructor ()
      ensures State() == InitialUi
    {
      sidebarOpen := true;
      sidebarCollapsed := false;
      modals := AllModalsClosed;
      notifications := [];
      theme := System;
      loading := NothingLoading;
    }

    method SetSidebarOpen(open: bool)
      modifies this
      ensures State() == old(State()).(sidebarOpen := open)
    {
      sidebarOpen := open;
    }

    method SetSidebarCollapsed(collapsed: bool)
      modifies this
      ensures State() == old(State()).(sidebarCollapsed := collapsed)
    {
      sidebarCollapsed := collapsed;
    }

    method ToggleSidebar()
      modifies this
      ensures State() == old(State()).(sidebarOpen := !old(sidebarOpen))
    {
      sidebarOpen := !sidebarOpen;
    }

    method OpenModal(modal: Modal)
      modifies this
      ensures State() == old(State()).(modals := old(modals)[modal := true])
    {
      modals := modals[modal := true];
    }

    method CloseModal(modal: Modal)
      modifies this
      ensures State() == old(State()).(modals := old(modals)[modal := false])
    {
      modals := modals[modal := false];
    }

    method CloseAllModals()
      modifies this
      ensures State() == old(State()).(modals := CloseAll(old(modals)))
    {
      modals := CloseAll(modals);
    }

    method AddNotification(title: string, message: string, kind: NotificationType, id: string, timestamp: int)
      modifies this
      ensures State() == old(State()).(notifications :=
        old(notifications) + [Notification(id, title, message, kind, timestamp)])
    {
      notifications := notifications + [Notification(id, title, message, kind, timestamp)];
    }

    method RemoveNotification(id: string)
      modifies this
      ensures State() == old(State()).(notifications := WithoutNotification(old(notifications), id))
    {
      notifications := WithoutNotification(notifications, id);
    }

    method ClearNotifications()
      modifies this
      ensures State() == old(State()).(notifications := [])
    {
      notifications := [];
    }

    method SetTheme(t: Theme)
      modifies this
      ensures State() == old(State()).(theme := t)
    {
      theme := t;
    }

    method SetLoading(key: LoadingKey, value: bool)
      modifies this
      ensures State() == old(State()).(loading := old(loading)[key := value])
    {
      loading := loading[key := value];
    }
  }
}
