/** The admin dashboard component and its user-management tab, as one object whose fields are the
    component's state slots. Every handler that talks to the backend takes the outcome of its
    request as a parameter and records the request it sent in `sent`. */
module AdminDashboard {
  import opened Wrappers
  import opened Session
  import opened DashboardRows
  import Welcome

  datatype Tab = CustomerData | UserManagement

  datatype Stats = Stats(
    totalBookings: int, pendingBookings: int, confirmedBookings: int, cancelledBookings: int, recentBookings: int)

  datatype ToastKind = SuccessToast | ErrorToast

  datatype Toast = Toast(message: string, kind: ToastKind, isVisible: bool)

  datatype ModalKind = WarningModal | DangerModal

  /** The shared confirmation slot. `onConfirm` is the pending delete, named by its user id. */
  datatype Confirmation = Confirmation(isOpen: bool, title: string, message: string, onConfirm: Option<string>, kind: ModalKind)

  datatype UserForm = UserForm(email: string, password: string, role: string)

  datatype UserFormField = FormEmail | FormPassword | FormRole

  datatype BookingsPage = BookingsPage(bookings: seq<Booking>, pagination: Pagination)

  /** The requests the dashboard sends, in the order it sends them. */
  datatype Request =
    | GetStats
    | GetBookings(query: seq<(string, QueryValue)>)
    | PatchStatus(bookingId: string, status: BookingStatus)
    | GetUsers
    | PostUser(form: UserForm)
    | PutUser(userId: string, form: UserForm)
    | DeleteUser(userId: string)

  const EmptyUserForm := UserForm("", "", "user")
  const InitialPagination := Pagination(1, 1, 0, false, false)
  const ZeroStats := Stats(0, 0, 0, 0, 0)
  const HiddenToast := Toast("", SuccessToast, false)
  const ClosedConfirmation := Confirmation(false, "", "", None, WarningModal)

  const DashboardLoadError := "Failed to load dashboard data"
  const BookingsLoadError := "Failed to load bookings"
  const UsersLoadError := "Failed to load users"
  const StatusUpdated := "Booking status updated successfully"
  const StatusFailed := "Failed to update booking status"
  const UserCreated := "User created successfully"
  const CreateFailed := "Failed to create user"
  const UserUpdated := "User updated successfully"
  const UpdateFailed := "Failed to update user"
  const UserDeleted := "User deleted successfully"
  const DeleteFailed := "Failed to delete user"
  const DeleteTitle := "Delete User"
  const DeleteWarning := "Are you sure you want to delete this user? This action cannot be undone."

  /** The guard run when the dashboard mounts. `roleOf` stands for `JSON.parse(user).role`. */
  function DashboardGuard(st: Storage, roleOf: string -> string): (d: Decision)
    ensures d == Navigate(LoginRoute) <==> !HasSession(st)
    ensures d == Navigate(WelcomeRoute) <==> HasSession(st) && roleOf(st[UserKey]) != "admin"
    ensures d == Proceed <==> HasSession(st) && roleOf(st[UserKey]) == "admin"
  {
    if !HasSession(st) then Navigate(LoginRoute)
    else if roleOf(st[UserKey]) != "admin" then Navigate(WelcomeRoute)
    else Proceed
  }

  /** The dashboard and the welcome page never bounce a stored session back and forth: exactly one
      of them stays, and the other sends the user to it. Without a session both go to log in. */
  lemma GuardsAgree(st: Storage, roleOf: string -> string)
    ensures !HasSession(st) ==>
      DashboardGuard(st, roleOf) == Navigate(LoginRoute) && Welcome.WelcomeGuard(st, roleOf) == Navigate(LoginRoute)
    ensures HasSession(st) ==>
      (DashboardGuard(st, roleOf) == Proceed <==> Welcome.WelcomeGuard(st, roleOf) == Navigate(AdminRoute))
    ensures HasSession(st) ==>
      (Welcome.WelcomeGuard(st, roleOf) == Proceed <==> DashboardGuard(st, roleOf) == Navigate(WelcomeRoute))
  {
  }

  /** `{ ...prev, [name]: value }` on the user form. */
  function WithUserField(f: UserForm, k: UserFormField, v: string): (r: UserForm)
    ensures k == FormEmail ==> r == UserForm(v, f.password, f.role)
    ensures k == FormPassword ==> r == UserForm(f.email, v, f.role)
    ensures k == FormRole ==> r == UserForm(f.email, f.password, v)
  {
    match k
    case FormEmail => f.(email := v)
    case FormPassword => f.(password := v)
    case FormRole => f.(role := v)
  }

  /** Every state slot of the dashboard, as one value. */
  datatype View = View(
    activeTab: Tab, bookings: seq<Booking>, users: seq<ManagedUser>, stats: Stats, loading: bool,
    error: string, filters: Filters, pagination: Pagination, userForm: UserForm,
    editingUser: Option<ManagedUser>, toast: Toast, confirmation: Confirmation, sent: seq<Request>)

  /** What a bookings response does to the view (`setBookings`/`setPagination`, or the error text). */
  function OnBookings(v: View, o: Outcome<BookingsPage>): View
  {
    match o
    case Ok(p) => v.(bookings := p.bookings, pagination := p.pagination)
    case Threw => v.(error := BookingsLoadError)
    case _ => v
  }

  /** A bookings response never touches the loading flag. */
  lemma OnBookingsKeepsLoading(v: View, o: Outcome<BookingsPage>)
    ensures OnBookings(v, o).(loading := false) == OnBookings(v.(loading := false), o)
  {
  }

  /** What a users response does to the view. */
  function OnUsers(v: View, o: Outcome<seq<ManagedUser>>): View
  {
    match o
    case Ok(us) => v.(users := us)
    case Threw => v.(error := UsersLoadError)
    case _ => v
  }

  /** A 401 on a list fetch ends the session; every other outcome leaves storage alone. */
  function StorageAfter<T>(st: Storage, o: Outcome<T>): Storage
  {
    if o.Unauthorized? then ClearSession(st) else st
  }

  function RouteAfter<T>(route: Option<string>, o: Outcome<T>): Option<string>
  {
    if o.Unauthorized? then Some(LoginRoute) else route
  }

  class Dashboard {
    var activeTab: Tab
    var bookings: seq<Booking>
    var users: seq<ManagedUser>
    var stats: Stats
    var loading: bool
    var error: string
    var filters: Filters
    var pagination: Pagination
    var userForm: UserForm
    var editingUser: Option<ManagedUser>
    var toast: Toast
    var confirmation: Confirmation
    var sent: seq<Request>

    function Snapshot(): View
      reads this
    {
      View(activeTab, bookings, users, stats, loading, error, filters, pagination, userForm,
           editingUser, toast, confirmation, sent)
    }

    /** An open confirmation always carries the action it confirms. */
    ghost predicate Valid()
      reads this
    {
      confirmation.isOpen ==> confirmation.onConfirm.Some?
    }

    constructor ()
      ensures Valid()
      ensures Snapshot() == View(CustomerData, [], [], ZeroStats, true, "", NoFilters, InitialPagination,
                                 EmptyUserForm, None, HiddenToast, ClosedConfirmation, [])
    {
      activeTab := CustomerData;
      bookings := [];
      users := [];
      stats := ZeroStats;
      loading := true;
      error := "";
      filters := NoFilters;
      pagination := InitialPagination;
      userForm := EmptyUserForm;
      editingUser := None;
      toast := HiddenToast;
      confirmation := ClosedConfirmation;
      sent := [];
    }

    /** The mount effect: redirect, or report that the dashboard data load starts. */
    method Mount(b: BrowserState, roleOf: string -> string) returns (load: bool)
      modifies b
      ensures Snapshot() == old(Snapshot())
      ensures load <==> DashboardGuard(old(b.storage), roleOf) == Proceed
      ensures b.storage == old(b.storage)
      ensures b.route == match DashboardGuard(old(b.storage), roleOf)
                         case Navigate(p) => Some(p)
                         case Proceed => old(b.route)
    {
      var d := DashboardGuard(b.storage, roleOf);
      if d.Navigate? {
        b.NavigateTo(d.path);
      }
      load := d.Proceed?;
    }

    /** `fetchBookings(page, overrideFilters)`: the query uses the override when given, else the
        current filters; a 401 ends the session, other failures keep the table as it was. */
    method FetchBookings(b: BrowserState, page: int, overrideFilters: Option<Filters>, outcome: Outcome<BookingsPage>)
      requires Valid()
      modifies this, b
      ensures Valid()
      ensures Snapshot() == OnBookings(
        old(Snapshot()).(sent := old(sent) + [GetBookings(QueryParams(page, overrideFilters.GetOr(old(filters))))]),
        outcome)
      ensures b.storage == StorageAfter(old(b.storage), outcome)
      ensures b.route == RouteAfter(old(b.route), outcome)
    {
      var query := QueryParams(page, overrideFilters.GetOr(filters));
      sent := sent + [GetBookings(query)];
      match outcome {
        case Ok(p) =>
          bookings := p.bookings;
          pagination := p.pagination;
        case Unauthorized =>
          b.EndSession(LoginRoute);
        case Failed =>
        case Threw =>
          error := BookingsLoadError;
      }
    }

    /** `fetchDashboardData`: stats first; a thrown stats request skips the bookings fetch. */
    method FetchDashboardData(b: BrowserState, statsOutcome: Outcome<Stats>, bookingsOutcome: Outcome<BookingsPage>)
      requires Valid()
      modifies this, b
      ensures Valid()
      ensures statsOutcome.Threw? ==>
        Snapshot() == old(Snapshot()).(sent := old(sent) + [GetStats], error := DashboardLoadError, loading := false)
        && b.storage == old(b.storage) && b.route == old(b.route)
      ensures !statsOutcome.Threw? ==>
        Snapshot() == OnBookings(
          old(Snapshot()).(sent := old(sent) + [GetStats, GetBookings(QueryParams(1, old(filters)))],
                           stats := if statsOutcome.Ok? then statsOutcome.payload else old(stats),
                           loading := false),
          bookingsOutcome)
        && b.storage == StorageAfter(old(b.storage), bookingsOutcome)
        && b.route == RouteAfter(old(b.route), bookingsOutcome)
    {
      ghost var v0 := Snapshot();
      sent := sent + [GetStats];
      if statsOutcome.Threw? {
        error := DashboardLoadError;
        loading := false;
      } else {
        if statsOutcome.Ok? {
          stats := statsOutcome.payload;
        }
        ghost var mid := Snapshot();
        assert mid == v0.(sent := v0.sent + [GetStats], stats := if statsOutcome.Ok? then statsOutcome.payload else v0.stats);
        FetchBookings(b, 1, None, bookingsOutcome);
        ghost var fetched := Snapshot();
        loading := false;
        assert Snapshot() == fetched.(loading := false);
        ghost var request := mid.(sent := mid.sent + [GetBookings(QueryParams(1, mid.filters))]);
        OnBookingsKeepsLoading(request, bookingsOutcome);
        assert request.(loading := false) ==
          v0.(sent := v0.sent + [GetStats, GetBookings(QueryParams(1, v0.filters))],
              stats := if statsOutcome.Ok? then statsOutcome.payload else v0.stats,
              loading := false);
      }
    }

    /** `fetchUsers`: same response handling as the bookings list. */
    method FetchUsers(b: BrowserState, outcome: Outcome<seq<ManagedUser>>)
      requires Valid()
      modifies this, b
      ensures Valid()
      ensures Snapshot() == OnUsers(old(Snapshot()).(sent := old(sent) + [GetUsers]), outcome)
      ensures b.storage == StorageAfter(old(b.storage), outcome)
      ensures b.route == RouteAfter(old(b.route), outcome)
    {
      sent := sent + [GetUsers];
      match outcome {
        case Ok(us) =>
          users := us;
        case Unauthorized =>
          b.EndSession(LoginRoute);
        case Failed =>
        case Threw =>
          error := UsersLoadError;
      }
    }

    /** Switching tabs; the users effect runs only when the tab becomes the user-management tab. */
    method SelectTab(t: Tab) returns (fetchUsers: bool)
      modifies this
      ensures Snapshot() == old(Snapshot()).(activeTab := t)
      ensures fetchUsers <==> t == UserManagement && old(activeTab) != UserManagement
    {
      fetchUsers := t == UserManagement && activeTab != UserManagement;
      activeTab := t;
    }

    method HandleFilterChange(k: FilterField, value: string)
      modifies this
      ensures Snapshot() == old(Snapshot()).(filters := WithFilter(old(filters), k, value))
      ensures FilterValue(filters, k) == value
      ensures forall k' :: k' != k ==> FilterValue(filters, k') == FilterValue(old(filters), k')
    {
      filters := WithFilter(filters, k, value);
    }

    /** Apply: back to page 1 and fetch page 1 with the current filters. */
    method ApplyFilters(b: BrowserState, outcome: Outcome<BookingsPage>)
      requires Valid()
      modifies this, b
      ensures Valid()
      ensures Snapshot() == OnBookings(
        old(Snapshot()).(pagination := old(pagination).(currentPage := 1),
                         sent := old(sent) + [GetBookings(QueryParams(1, old(filters)))]),
        outcome)
      ensures b.storage == StorageAfter(old(b.storage), outcome)
      ensures b.route == RouteAfter(old(b.route), outcome)
    {
      pagination := pagination.(currentPage := 1);
      FetchBookings(b, 1, None, outcome);
    }

    /** Clear: empty filters, page 1, and the fetch uses the cleared filters, not the old ones. */
    method ClearFilters(b: BrowserState, outcome: Outcome<BookingsPage>)
      requires Valid()
      modifies this, b
      ensures Valid()
      ensures filters == NoFilters
      ensures sent == old(sent) + [GetBookings(QueryParams(1, NoFilters))]
      ensures Snapshot() == OnBookings(
        old(Snapshot()).(filters := NoFilters, pagination := old(pagination).(currentPage := 1),
                         sent := old(sent) + [GetBookings(QueryParams(1, NoFilters))]),
        outcome)
      ensures b.storage == StorageAfter(old(b.storage), outcome)
      ensures b.route == RouteAfter(old(b.route), outcome)
    {
      filters := NoFilters;
      pagination := pagination.(currentPage := 1);
      FetchBookings(b, 1, Some(NoFilters), outcome);
    }

    /** The Previous button: shown only with more than one page, enabled only when the server said `hasPrev`. */
    method GoToPreviousPage(b: BrowserState, outcome: Outcome<BookingsPage>)
      requires Valid() && pagination.totalPages > 1 && pagination.hasPrev
      modifies this, b
      ensures Valid()
      ensures Snapshot() == OnBookings(
        old(Snapshot()).(sent := old(sent) + [GetBookings(QueryParams(old(pagination).currentPage - 1, old(filters)))]),
        outcome)
      ensures b.storage == StorageAfter(old(b.storage), outcome)
      ensures b.route == RouteAfter(old(b.route), outcome)
    {
      FetchBookings(b, pagination.currentPage - 1, None, outcome);
    }

    /** The Next button: enabled only when the server said `hasNext`. */
    method GoToNextPage(b: BrowserState, outcome: Outcome<BookingsPage>)
      requires Valid() && pagination.totalPages > 1 && pagination.hasNext
      modifies this, b
      ensures Valid()
      ensures Snapshot() == OnBookings(
        old(Snapshot()).(sent := old(sent) + [GetBookings(QueryParams(old(pagination).currentPage + 1, old(filters)))]),
        outcome)
      ensures b.storage == StorageAfter(old(b.storage), outcome)
      ensures b.route == RouteAfter(old(b.route), outcome)
    {
      FetchBookings(b, pagination.currentPage + 1, None, outcome);
    }

    /** The status select: the row changes only once the PATCH answered ok, and then a dashboard
        refresh starts (not awaited; its response is a later `FetchDashboardData`). */
    method HandleStatusUpdate(bookingId: string, newStatus: BookingStatus, outcome: Outcome<()>) returns (refresh: bool)
      requires Valid()
      modifies this
      ensures Valid()
      ensures refresh <==> outcome.Ok?
      ensures outcome.Ok? ==>
        Snapshot() == old(Snapshot()).(sent := old(sent) + [PatchStatus(bookingId, newStatus)],
                                       bookings := SetStatus(old(bookings), bookingId, newStatus),
                                       toast := Toast(StatusUpdated, SuccessToast, true))
      ensures !outcome.Ok? ==>
        Snapshot() == old(Snapshot()).(sent := old(sent) + [PatchStatus(bookingId, newStatus)],
                                       toast := Toast(StatusFailed, ErrorToast, true))
    {
      sent := sent + [PatchStatus(bookingId, newStatus)];
      if outcome.Ok? {
        bookings := SetStatus(bookings, bookingId, newStatus);
        toast := Toast(StatusUpdated, SuccessToast, true);
        refresh := true;
      } else {
        toast := Toast(StatusFailed, ErrorToast, true);
        refresh := false;
      }
    }

    /** The dashboard's own logout goes to the welcome page, whose guard then sends the user to log in. */
    method HandleLogout(b: BrowserState)
      modifies b
      ensures b.storage == ClearSession(old(b.storage)) && b.route == Some(WelcomeRoute)
      ensures forall roleOf: string -> string :: Welcome.WelcomeGuard(b.storage, roleOf) == Navigate(LoginRoute)
    {
      b.EndSession(WelcomeRoute);
    }

    method CloseToast()
      modifies this
      ensures Snapshot() == old(Snapshot()).(toast := old(toast).(isVisible := false))
    {
      toast := toast.(isVisible := false);
    }

    method CloseConfirmation()
      requires Valid()
      modifies this
      ensures Valid()
      ensures Snapshot() == old(Snapshot()).(confirmation := old(confirmation).(isOpen := false))
    {
      confirmation := confirmation.(isOpen := false);
    }

    // ---------------------------------------------------------------------------------------------
    // The user-management tab

    method HandleUserFormChange(k: UserFormField, value: string)
      modifies this
      ensures Snapshot() == old(Snapshot()).(userForm := WithUserField(old(userForm), k, value))
    {
      userForm := WithUserField(userForm, k, value);
    }

    /** Create: on ok the returned user is appended and the form emptied; otherwise only a toast. */
    method HandleCreateUser(outcome: Outcome<ManagedUser>)
      requires Valid()
      modifies this
      ensures Valid()
      ensures outcome.Ok? ==>
        |users| == |old(users)| + 1 && users[..|old(users)|] == old(users) && users[|old(users)|] == outcome.payload
      ensures outcome.Ok? ==>
        Snapshot() == old(Snapshot()).(sent := old(sent) + [PostUser(old(userForm))],
                                       users := old(users) + [outcome.payload], userForm := EmptyUserForm,
                                       toast := Toast(UserCreated, SuccessToast, true))
      ensures !outcome.Ok? ==>
        Snapshot() == old(Snapshot()).(sent := old(sent) + [PostUser(old(userForm))],
                                       toast := Toast(CreateFailed, ErrorToast, true))
    {
      sent := sent + [PostUser(userForm)];
      if outcome.Ok? {
        users := users + [outcome.payload];
        userForm := EmptyUserForm;
        toast := Toast(UserCreated, SuccessToast, true);
      } else {
        toast := Toast(CreateFailed, ErrorToast, true);
      }
    }

    /** Update: on ok every entry with the edited id is replaced by the returned user, and the
        edit ends; otherwise only a toast. */
    method HandleUpdateUser(outcome: Outcome<ManagedUser>)
      requires Valid() && editingUser.Some?
      modifies this
      ensures Valid()
      ensures outcome.Ok? ==>
        Snapshot() == old(Snapshot()).(sent := old(sent) + [PutUser(old(editingUser).value.id, old(userForm))],
                                       users := ReplaceById(old(users), old(editingUser).value.id, outcome.payload),
                                       editingUser := None, userForm := EmptyUserForm,
                                       toast := Toast(UserUpdated, SuccessToast, true))
      ensures !outcome.Ok? ==>
        Snapshot() == old(Snapshot()).(sent := old(sent) + [PutUser(old(editingUser).value.id, old(userForm))],
                                       toast := Toast(UpdateFailed, ErrorToast, true))
    {
      var id := editingUser.value.id;
      sent := sent + [PutUser(id, userForm)];
      if outcome.Ok? {
        users := ReplaceById(users, id, outcome.payload);
        editingUser := None;
        userForm := EmptyUserForm;
        toast := Toast(UserUpdated, SuccessToast, true);
      } else {
        toast := Toast(UpdateFailed, ErrorToast, true);
      }
    }

    /** The form's submit routes to update while a user is being edited, to create otherwise. */
    method SubmitUserForm(outcome: Outcome<ManagedUser>)
      requires Valid()
      modifies this
      ensures Valid()
      ensures old(editingUser).None? ==> sent == old(sent) + [PostUser(old(userForm))]
      ensures old(editingUser).Some? ==> sent == old(sent) + [PutUser(old(editingUser).value.id, old(userForm))]
      ensures outcome.Ok? ==> editingUser == None && userForm == EmptyUserForm
      ensures !outcome.Ok? ==> users == old(users) && userForm == old(userForm) && editingUser == old(editingUser)
    {
      if editingUser.Some? {
        HandleUpdateUser(outcome);
      } else {
        HandleCreateUser(outcome);
      }
    }

    /** Delete asks first: it only opens the confirmation, holding the user id. */
    method HandleDeleteUser(userId: string)
      modifies this
      ensures Valid()
      ensures Snapshot() == old(Snapshot()).(confirmation := Confirmation(true, DeleteTitle, DeleteWarning, Some(userId), DangerModal))
    {
      confirmation := Confirmation(true, DeleteTitle, DeleteWarning, Some(userId), DangerModal);
    }

    /** The confirm button: removes the user's rows only on an ok response, and on every path
        closes and resets the confirmation. */
    method ConfirmDelete(outcome: Outcome<()>)
      requires Valid() && confirmation.isOpen
      modifies this
      ensures Valid()
      ensures confirmation == ClosedConfirmation
      ensures outcome.Ok? ==>
        Snapshot() == old(Snapshot()).(sent := old(sent) + [DeleteUser(old(confirmation).onConfirm.value)],
                                       users := RemoveById(old(users), old(confirmation).onConfirm.value),
                                       toast := Toast(UserDeleted, SuccessToast, true),
                                       confirmation := ClosedConfirmation)
      ensures !outcome.Ok? ==>
        Snapshot() == old(Snapshot()).(sent := old(sent) + [DeleteUser(old(confirmation).onConfirm.value)],
                                       toast := Toast(DeleteFailed, ErrorToast, true),
                                       confirmation := ClosedConfirmation)
    {
      var userId := confirmation.onConfirm.value;
      sent := sent + [DeleteUser(userId)];
      if outcome.Ok? {
        users := RemoveById(users, userId);
        toast := Toast(UserDeleted, SuccessToast, true);
      } else {
        toast := Toast(DeleteFailed, ErrorToast, true);
      }
      confirmation := ClosedConfirmation;
    }

    /** Edit fills the form from the row, password left blank. */
    method StartEdit(user: ManagedUser)
      modifies this
      ensures Snapshot() == old(Snapshot()).(editingUser := Some(user), userForm := UserForm(user.email, "", user.role))
    {
      editingUser := Some(user);
      userForm := UserForm(user.email, "", user.role);
    }

    method CancelEdit()
      modifies this
      ensures Snapshot() == old(Snapshot()).(editingUser := None, userForm := EmptyUserForm)
    {
      editingUser := None;
      userForm := EmptyUserForm;
    }
  }
}
