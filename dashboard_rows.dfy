/** The value-level pieces of the admin dashboard: its records, the row transformations its
    handlers apply to the bookings and users lists, the query it sends, and the footer range. */
module DashboardRows {
  import opened Wrappers

  datatype BookingStatus = Pending | Confirmed | Cancelled

  datatype Booking = Booking(
    id: string, srNo: int, date: string, name: string, email: string, mobileNumber: string,
    constructionTimeline: string, ownPlotOfLand: string, status: BookingStatus, emailSent: bool)

  /** A backend-managed account; `id` is the backend's `_id`. */
  datatype ManagedUser = ManagedUser(id: string, email: string, role: string, lastLogin: Option<string>, isActive: bool)

  datatype Filters = Filters(startDate: string, endDate: string, status: string, email: string)

  /** The `name` attribute of the four filter inputs. */
  datatype FilterField = StartDate | EndDate | StatusFilter | EmailFilter

  const NoFilters := Filters("", "", "", "")

  const PageSize := 10

  /** The pagination object as the server sends it; `hasPrev`/`hasNext` are not recomputed client-side. */
  datatype Pagination = Pagination(currentPage: int, totalPages: int, totalCount: int, hasPrev: bool, hasNext: bool)

  function FilterValue(f: Filters, k: FilterField): string
  {
    match k
    case StartDate => f.startDate
    case EndDate => f.endDate
    case StatusFilter => f.status
    case EmailFilter => f.email
  }

  function FilterKey(k: FilterField): string
  {
    match k
    case StartDate => "startDate"
    case EndDate => "endDate"
    case StatusFilter => "status"
    case EmailFilter => "email"
  }

  /** `{ ...prev, [name]: value }` for one of the four filter inputs. */
  function WithFilter(f: Filters, k: FilterField, v: string): (r: Filters)
    ensures FilterValue(r, k) == v
    ensures forall k' :: k' != k ==> FilterValue(r, k') == FilterValue(f, k')
  {
    match k
    case StartDate => f.(startDate := v)
    case EndDate => f.(endDate := v)
    case StatusFilter => f.(status := v)
    case EmailFilter => f.(email := v)
  }

  /** A value placed in `URLSearchParams`: the page number and limit are numbers, filters are text. */
  datatype QueryValue = Num(n: int) | Text(s: string)

  /** The parameters of `GET /api/admin/bookings`: `{ page, limit: 10, ...filters }`.
      Every filter key is sent, an empty one included. */
  function QueryParams(page: int, f: Filters): seq<(string, QueryValue)>
  {
    [("page", Num(page)), ("limit", Num(PageSize)),
     ("startDate", Text(f.startDate)), ("endDate", Text(f.endDate)),
     ("status", Text(f.status)), ("email", Text(f.email))]
  }

  /** Six distinct keys: the page, the limit of ten, and every filter key with its value. */
  lemma QueryParamsKeys(page: int, f: Filters)
    ensures |QueryParams(page, f)| == 6
    ensures ("page", Num(page)) in QueryParams(page, f) && ("limit", Num(PageSize)) in QueryParams(page, f)
    ensures forall k :: (FilterKey(k), Text(FilterValue(f, k))) in QueryParams(page, f)
    ensures forall i, j :: 0 <= i < j < |QueryParams(page, f)| ==> QueryParams(page, f)[i].0 != QueryParams(page, f)[j].0
  {
    var r := QueryParams(page, f);
    forall k ensures (FilterKey(k), Text(FilterValue(f, k))) in r {
      match k
      case StartDate => assert r[2] == (FilterKey(k), Text(FilterValue(f, k)));
      case EndDate => assert r[3] == (FilterKey(k), Text(FilterValue(f, k)));
      case StatusFilter => assert r[4] == (FilterKey(k), Text(FilterValue(f, k)));
      case EmailFilter => assert r[5] == (FilterKey(k), Text(FilterValue(f, k)));
    }
  }

  /** Two filter states produce the same query for a page exactly when they are equal. */
  lemma QueryDeterminesFilters(page: int, f: Filters, g: Filters)
    ensures QueryParams(page, f) == QueryParams(page, g) <==> f == g
  {
    if QueryParams(page, f) == QueryParams(page, g) {
      assert QueryParams(page, f)[2] == QueryParams(page, g)[2];
      assert QueryParams(page, f)[3] == QueryParams(page, g)[3];
      assert QueryParams(page, f)[4] == QueryParams(page, g)[4];
      assert QueryParams(page, f)[5] == QueryParams(page, g)[5];
    }
  }

  // ---------------------------------------------------------------------------------------------
  // Bookings: the status update after a successful PATCH

  /** `prev.map(b => b.id === id ? { ...b, status } : b)`. */
  function SetStatus(bs: seq<Booking>, id: string, s: BookingStatus): (r: seq<Booking>)
    ensures |r| == |bs|
    ensures forall i :: 0 <= i < |bs| && bs[i].id == id ==> r[i] == bs[i].(status := s)
    ensures forall i :: 0 <= i < |bs| && bs[i].id != id ==> r[i] == bs[i]
  {
    if bs == [] then []
    else [if bs[0].id == id then bs[0].(status := s) else bs[0]] + SetStatus(bs[1..], id, s)
  }

  function BookingIds(bs: seq<Booking>): (r: seq<string>)
    ensures |r| == |bs| && forall i :: 0 <= i < |bs| ==> r[i] == bs[i].id
  {
    if bs == [] then [] else [bs[0].id] + BookingIds(bs[1..])
  }

  /** The status update keeps the rows' identities and their order. */
  lemma SetStatusKeepsIds(bs: seq<Booking>, id: string, s: BookingStatus)
    ensures BookingIds(SetStatus(bs, id, s)) == BookingIds(bs)
  {
    var r := SetStatus(bs, id, s);
    assert forall i :: 0 <= i < |bs| ==> BookingIds(r)[i] == BookingIds(bs)[i];
  }

  /** Applying the same update twice is the same as applying it once. */
  lemma SetStatusIdempotent(bs: seq<Booking>, id: string, s: BookingStatus)
    ensures SetStatus(SetStatus(bs, id, s), id, s) == SetStatus(bs, id, s)
  {
  }

  /** An update for an id that is not on the page changes nothing. */
  lemma SetStatusAbsentId(bs: seq<Booking>, id: string, s: BookingStatus)
    requires forall i :: 0 <= i < |bs| ==> bs[i].id != id
    ensures SetStatus(bs, id, s) == bs
  {
  }

  // ---------------------------------------------------------------------------------------------
  // Users: replace after a successful PUT, remove after a successful DELETE

  /** `prev.map(u => u._id === id ? updated : u)`. */
  function ReplaceById(us: seq<ManagedUser>, id: string, updated: ManagedUser): (r: seq<ManagedUser>)
    ensures |r| == |us|
    ensures forall i :: 0 <= i < |us| ==> r[i] == if us[i].id == id then updated else us[i]
  {
    if us == [] then []
    else [if us[0].id == id then updated else us[0]] + ReplaceById(us[1..], id, updated)
  }

  /** When the server returns the record under the same id, replacing again changes nothing more. */
  lemma ReplaceByIdIdempotent(us: seq<ManagedUser>, id: string, updated: ManagedUser)
    requires updated.id == id
    ensures ReplaceById(ReplaceById(us, id, updated), id, updated) == ReplaceById(us, id, updated)
  {
  }

  /** `prev.filter(u => u._id !== id)`. */
  function RemoveById(us: seq<ManagedUser>, id: string): (r: seq<ManagedUser>)
    ensures |r| <= |us|
    ensures forall u :: u in r <==> u in us && u.id != id
    ensures forall u :: multiset(r)[u] == if u.id == id then 0 else multiset(us)[u]
  {
    if us == [] then []
    else
      assert us == [us[0]] + us[1..];
      (if us[0].id == id then [] else [us[0]]) + RemoveById(us[1..], id)
  }

  /** Removal works position by position: it commutes with concatenation, so survivors keep their order. */
  lemma {:induction false} RemoveByIdAppend(a: seq<ManagedUser>, b: seq<ManagedUser>, id: string)
    ensures RemoveById(a + b, id) == RemoveById(a, id) + RemoveById(b, id)
  {
    if a == [] {
      assert a + b == b;
    } else {
      assert (a + b)[0] == a[0];
      assert (a + b)[1..] == a[1..] + b;
      RemoveByIdAppend(a[1..], b, id);
    }
  }

  /** Every removed entry carried the id; a second removal changes nothing. */
  lemma RemoveByIdIdempotent(us: seq<ManagedUser>, id: string)
    ensures RemoveById(RemoveById(us, id), id) == RemoveById(us, id)
  {
    var r := RemoveById(us, id);
    assert forall i :: 0 <= i < |r| ==> r[i] in r;
    RemoveByIdAbsent(r, id);
  }

  /** A list that holds no entry with the id is left as it is. */
  lemma {:induction false} RemoveByIdAbsent(us: seq<ManagedUser>, id: string)
    requires forall i :: 0 <= i < |us| ==> us[i].id != id
    ensures RemoveById(us, id) == us
  {
    if us != [] {
      RemoveByIdAbsent(us[1..], id);
      assert us == [us[0]] + us[1..];
    }
  }

  // ---------------------------------------------------------------------------------------------
  // The pagination footer

  function Min(a: int, b: int): int
  {
    if a <= b then a else b
  }

  /** "Showing first to last of totalCount": rendered only when there is more than one page. */
  function FooterRange(p: Pagination): (r: Option<(int, int)>)
    ensures r.Some? <==> p.totalPages > 1
    ensures r.Some? ==> r.value.0 == (p.currentPage - 1) * PageSize + 1
    ensures r.Some? ==> r.value.1 <= p.currentPage * PageSize && r.value.1 <= p.totalCount
    ensures r.Some? ==> r.value.1 == p.currentPage * PageSize || r.value.1 == p.totalCount
  {
    if p.totalPages > 1
    then Some(((p.currentPage - 1) * PageSize + 1, Min(p.currentPage * PageSize, p.totalCount)))
    else None
  }

  /** A pagination the server computed consistently: page within range, pages = ceil(count / 10). */
  predicate Consistent(p: Pagination)
  {
    1 <= p.currentPage <= p.totalPages && p.totalPages == (p.totalCount + PageSize - 1) / PageSize
  }

  /** For a consistent pagination the footer shows a non-empty window of at most ten rows
      inside `1..totalCount`, and the windows of consecutive pages touch. */
  lemma FooterRangeWithinTotal(p: Pagination)
    requires Consistent(p) && p.totalPages > 1
    ensures FooterRange(p).Some?
    ensures 1 <= FooterRange(p).value.0 <= FooterRange(p).value.1 <= p.totalCount
    ensures FooterRange(p).value.1 - FooterRange(p).value.0 < PageSize
    ensures p.currentPage < p.totalPages ==> FooterRange(p).value.1 == p.currentPage * PageSize
  {
    var cp, tc := p.currentPage, p.totalCount;
    assert (cp - 1) * PageSize < tc by {
      assert cp <= (tc + 9) / 10;
    }
    if cp < p.totalPages {
      assert cp * PageSize <= tc by {
        assert cp + 1 <= (tc + 9) / 10;
      }
    }
  }
}
