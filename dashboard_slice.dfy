/** The dashboard store slice: the table and chart state, its reducers, and the
    pure parts of the two fetch thunks (request offset, page count, record
    transform, response-shape check and error wrapping). */
module DashboardSlice {
  import opened Wrappers
  import opened Users

  // ---------------------------------------------------------------------------
  // Pagination

  datatype Pagination = Pagination(page: int, limit: int, total: int, totalPages: int)

  /** A `Partial<PaginationInfo>` payload: `None` for a field the payload leaves out. */
  datatype PaginationPatch = PaginationPatch(
    page: Option<int>, limit: Option<int>, total: Option<int>, totalPages: Option<int>)

  const NoChange: PaginationPatch := PaginationPatch(None, None, None, None)

  function Override(present: Option<int>, current: int): int {
    if present.Some? then present.value else current
  }

  /** `{ ...state.pagination, ...action.payload }`: each field present in the
      payload replaces the current one, every other field is kept. */
  function Merge(p: Pagination, patch: PaginationPatch): (r: Pagination)
    ensures r.page == (if patch.page.Some? then patch.page.value else p.page)
    ensures r.limit == (if patch.limit.Some? then patch.limit.value else p.limit)
    ensures r.total == (if patch.total.Some? then patch.total.value else p.total)
    ensures r.totalPages == (if patch.totalPages.Some? then patch.totalPages.value else p.totalPages)
  {
    Pagination(
      Override(patch.page, p.page),
      Override(patch.limit, p.limit),
      Override(patch.total, p.total),
      Override(patch.totalPages, p.totalPages))
  }

  /** A patch followed by another is the one patch in which the later fields win. */
  function Then(first: PaginationPatch, second: PaginationPatch): PaginationPatch {
    PaginationPatch(
      if second.page.Some? then second.page else first.page,
      if second.limit.Some? then second.limit else first.limit,
      if second.total.Some? then second.total else first.total,
      if second.totalPages.Some? then second.totalPages else first.totalPages)
  }

  /** An empty payload changes nothing; a payload naming every field replaces the
      whole record; applying the same payload twice is applying it once; and two
      payloads in a row act as one in which the later fields win. */
  lemma MergeLaws(p: Pagination, a: PaginationPatch, b: PaginationPatch, q: Pagination)
    ensures Merge(p, NoChange) == p
    ensures Merge(p, PaginationPatch(Some(q.page), Some(q.limit), Some(q.total), Some(q.totalPages))) == q
    ensures Merge(Merge(p, a), a) == Merge(p, a)
    ensures Merge(Merge(p, a), b) == Merge(p, Then(a, b))
  {
  }

  /** `(page - 1) * limit`: the number of users before the requested page. */
  function Skip(page: int, limit: int): (s: int)
    ensures page >= 1 && limit >= 0 ==> s >= 0
    ensures limit > 0 ==> s % limit == 0 && s / limit == page - 1
  {
    PageMultiple(page - 1, limit);
    (page - 1) * limit
  }

  /** A whole number of pages of `limit` users is divisible by `limit`. */
  lemma PageMultiple(pages: int, limit: int)
    ensures limit > 0 ==> (pages * limit) % limit == 0 && (pages * limit) / limit == pages
  {
    if limit > 0 {
      var x := pages * limit;
      var q, r := x / limit, x % limit;
      assert x == q * limit + r;
      assert (q + 1) * limit == q * limit + limit;
      assert (pages + 1) * limit == x + limit;
      if q < pages {
        MultiplyMonotone(q + 1, pages, limit);
      } else if q > pages {
        MultiplyMonotone(pages + 1, q, limit);
      }
    }
  }

  /** `Math.ceil(total / limit)`: the fewest pages of `limit` users that hold
      `total` users. */
  function TotalPages(total: int, limit: int): (n: int)
    requires limit > 0
    ensures (n - 1) * limit < total <= n * limit
  {
    if total % limit == 0 then total / limit else total / limit + 1
  }

  /** The pages that start inside the data are exactly pages 1 to `totalPages`. */
  lemma PageStartsInsideData(page: int, limit: int, total: int)
    requires limit > 0 && total >= 0 && page >= 1
    ensures Skip(page, limit) < total <==> page <= TotalPages(total, limit)
  {
    var n := TotalPages(total, limit);
    if page <= n {
      MultiplyMonotone(page - 1, n - 1, limit);
    } else {
      MultiplyMonotone(n, page - 1, limit);
    }
  }

  lemma MultiplyMonotone(a: int, b: int, c: int)
    requires a <= b && c > 0
    ensures a * c <= b * c
  {
    assert b * c - a * c == (b - a) * c;
  }

  // ---------------------------------------------------------------------------
  // Records as the API delivers them

  /** One element of the API's `users` array. */
  datatype RawUser = RawUser(
    id: int,
    firstName: string,
    lastName: string,
    username: string,
    email: string,
    phone: string,
    domain: Option<string>,
    image: Option<string>,
    age: Option<real>,
    gender: Option<string>,
    birthDate: Option<string>,
    bloodGroup: Option<string>,
    height: Option<real>,
    weight: Option<real>,
    eyeColor: Option<string>,
    hair: Option<Hair>,
    address: Option<Address>,
    company: Option<Company>)

  const Https: string := "https://"

  /** The mapping callback of both thunks. */
  function ToUser(raw: RawUser): (u: User)
    ensures u.id == raw.id && u.username == raw.username && u.email == raw.email
    ensures u.phone == raw.phone && u.avatar == raw.image && u.age == raw.age
    ensures u.gender == raw.gender && u.birthDate == raw.birthDate
    ensures u.bloodGroup == raw.bloodGroup && u.height == raw.height
    ensures u.weight == raw.weight && u.eyeColor == raw.eyeColor
    ensures u.hair == raw.hair && u.address == raw.address && u.company == raw.company
    ensures u.name == raw.firstName + " " + raw.lastName
    ensures TruthyString(raw.domain) ==> u.website == "https://" + raw.domain.value
    ensures !TruthyString(raw.domain) ==> u.website == "https://" + raw.username + ".example.com"
  {
    User(
      raw.id,
      raw.firstName + " " + raw.lastName,
      raw.username,
      raw.email,
      raw.phone,
      if TruthyString(raw.domain) then Https + raw.domain.value else Https + raw.username + ".example.com",
      raw.image,
      raw.age,
      raw.gender,
      raw.birthDate,
      raw.bloodGroup,
      raw.height,
      raw.weight,
      raw.eyeColor,
      raw.hair,
      raw.address,
      raw.company)
  }

  function ToUsers(raws: seq<RawUser>): (us: seq<User>)
    ensures |us| == |raws|
    ensures forall i :: 0 <= i < |raws| ==> us[i] == ToUser(raws[i])
  {
    seq(|raws|, i requires 0 <= i < |raws| => ToUser(raws[i]))
  }

  /** Splits a display name at its first space. */
  function SplitName(name: string): (string, string) {
    if name == [] then ("", "")
    else if name[0] == ' ' then ("", name[1..])
    else
      var (first, last) := SplitName(name[1..]);
      ([name[0]] + first, last)
  }

  /** The display name is the first and last name joined by one space: when the
      first name has no space of its own, splitting at the first space gives
      both names back. */
  lemma {:induction false} NameSplitsBack(raw: RawUser)
    requires ' ' !in raw.firstName
    ensures SplitName(ToUser(raw).name) == (raw.firstName, raw.lastName)
  {
    SplitAfter(raw.firstName, raw.lastName);
  }

  lemma {:induction false} SplitAfter(first: string, last: string)
    requires ' ' !in first
    ensures SplitName(first + " " + last) == (first, last)
  {
    if first != [] {
      assert (first + " " + last)[1..] == first[1..] + " " + last;
      SplitAfter(first[1..], last);
      assert [first[0]] + first[1..] == first;
    }
  }

  /** The host a website points to: what follows "https://", if it starts so. */
  function Host(website: string): Option<string> {
    if |website| >= |Https| && website[..|Https|] == Https then Some(website[|Https|..]) else None
  }

  /** The website is always an https address, of the domain when there is one
      and of `<username>.example.com` otherwise. */
  lemma WebsiteHost(raw: RawUser)
    ensures TruthyString(raw.domain) ==> Host(ToUser(raw).website) == Some(raw.domain.value)
    ensures !TruthyString(raw.domain) ==> Host(ToUser(raw).website) == Some(raw.username + ".example.com")
  {
    var w := ToUser(raw).website;
    if TruthyString(raw.domain) {
      assert w == Https + raw.domain.value;
      assert w[..|Https|] == Https && w[|Https|..] == raw.domain.value;
    } else {
      assert w == Https + (raw.username + ".example.com");
      assert w[..|Https|] == Https && w[|Https|..] == raw.username + ".example.com";
    }
  }

  // ---------------------------------------------------------------------------
  // Response check and error wrapping

  /** The JSON value found at `data.users`; the elements of an array are records. */
  datatype JsonValue = Undefined | Null | Bool(b: bool) | Number(n: real) | Text(s: string)
                     | Object | Array(items: seq<RawUser>)

  predicate Truthy(v: JsonValue) {
    match v
    case Undefined => false
    case Null => false
    case Bool(b) => b
    case Number(n) => n != 0.0
    case Text(s) => s != ""
    case Object => true
    case Array(_) => true
  }

  /** The parsed body of a successful response. */
  datatype Response = Response(users: JsonValue, total: int)

  const InvalidFormat: string := "Invalid response format from API"
  const UsersFailure: string := "Failed to fetch users: "
  const ChartsFailure: string := "Failed to fetch all users for charts: "

  /** `if (!data.users || !Array.isArray(data.users)) throw ...`: the response is
      accepted exactly when `users` is an array (an array is always truthy, so
      the first test never decides). */
  function CheckUsers(v: JsonValue): (r: Result<seq<RawUser>, string>)
    ensures r.Ok? <==> v.Array?
    ensures r.Ok? ==> r.value == v.items
    ensures r.Err? ==> r.error == InvalidFormat
  {
    if !Truthy(v) || !v.Array? then Err(InvalidFormat) else Ok(v.items)
  }

  datatype UsersPage = UsersPage(users: seq<User>, pagination: Pagination)

  /** The body of `fetchUsers` after the response is parsed: the transformed
      page and its pagination, or the wrapped error message. */
  function FetchUsersResult(page: int, limit: int, data: Response): (r: Result<UsersPage, string>)
    requires limit > 0
    ensures data.users.Array? ==>
      (r.Ok? && r.value.users == ToUsers(data.users.items)
       && r.value.pagination == Pagination(page, limit, data.total, TotalPages(data.total, limit)))
    ensures !data.users.Array? ==> r == Err(UsersFailure + InvalidFormat)
  {
    match CheckUsers(data.users)
    case Err(e) => Err(UsersFailure + e)
    case Ok(raws) => Ok(UsersPage(ToUsers(raws), Pagination(page, limit, data.total, TotalPages(data.total, limit))))
  }

  /** The body of `fetchAllUsers` after the response is parsed. */
  function FetchAllUsersResult(data: Response): (r: Result<seq<User>, string>)
    ensures data.users.Array? ==> r == Ok(ToUsers(data.users.items))
    ensures !data.users.Array? ==> r == Err(ChartsFailure + InvalidFormat)
  {
    match CheckUsers(data.users)
    case Err(e) => Err(ChartsFailure + e)
    case Ok(raws) => Ok(ToUsers(raws))
  }

  // ---------------------------------------------------------------------------
  // The slice state and its reducers

  datatype DashboardState = DashboardState(
    users: seq<User>,
    allUsers: seq<User>,
    pagination: Pagination,
    loading: bool,
    chartsLoading: bool,
    error: Option<string>,
    chartsError: Option<string>)

  const InitialState: DashboardState :=
    DashboardState([], [], Pagination(1, 6, 0, 0), false, false, None, None)

  const UsersDefaultError: string := "Failed to fetch users"
  const ChartsDefaultError: string := "Failed to fetch users for charts"

  class Dashboard {
    var users: seq<User>
    var allUsers: seq<User>
    var pagination: Pagination
    var loading: bool
    var chartsLoading: bool
    var error: Option<string>
    var chartsError: Option<string>

    function State(): DashboardState
      reads this
    {
      DashboardState(users, allUsers, pagination, loading, chartsLoading, error, chartsError)
    }

    /** `initialState` */
    constructor ()
      ensures State() == InitialState
    {
      users, allUsers := [], [];
      pagination := Pagination(1, 6, 0, 0);
      loading, chartsLoading := false, false;
      error, chartsError := None, None;
    }

    method ClearError()
      modifies this`error
      ensures State() == old(State()).(error := None)
    {
      error := None;
    }

    method ClearChartsError()
      modifies this`chartsError
      ensures State() == old(State()).(chartsError := None)
    {
      chartsError := None;
    }

    method SetPagination(patch: PaginationPatch)
      modifies this`pagination
      ensures State() == old(State()).(pagination := Merge(old(pagination), patch))
    {
      pagination := Merge(pagination, patch);
    }

    method FetchUsersPending()
      modifies this`loading, this`error
      ensures State() == old(State()).(loading := true, error := None)
    {
      loading := true;
      error := None;
    }

    method FetchUsersFulfilled(payload: UsersPage)
      modifies this`loading, this`users, this`pagination
      ensures State() == old(State()).(loading := false, users := payload.users, pagination := payload.pagination)
    {
      loading := false;
      users := payload.users;
      pagination := payload.pagination;
    }

    /** `message` is the rejected action's `error.message`. */
    method FetchUsersRejected(message: Option<string>)
      modifies this`loading, this`error
      ensures State() == old(State()).(loading := false, error := Some(StringOr(message, UsersDefaultError)))
    {
      loading := false;
      error := Some(StringOr(message, UsersDefaultError));
    }

    method FetchAllUsersPending()
      modifies this`chartsLoading, this`chartsError
      ensures State() == old(State()).(chartsLoading := true, chartsError := None)
    {
      chartsLoading := true;
      chartsError := None;
    }

    method FetchAllUsersFulfilled(payload: seq<User>)
      modifies this`chartsLoading, this`allUsers
      ensures State() == old(State()).(chartsLoading := false, allUsers := payload)
    {
      chartsLoading := false;
      allUsers := payload;
    }

    method FetchAllUsersRejected(message: Option<string>)
      modifies this`chartsLoading, this`chartsError
      ensures State() == old(State()).(chartsLoading := false, chartsError := Some(StringOr(message, ChartsDefaultError)))
    {
      chartsLoading := false;
      chartsError := Some(StringOr(message, ChartsDefaultError));
    }

    /** One `fetchUsers` round once the response is parsed: pending, then
        fulfilled with the page or rejected with the wrapped message. The chart
        fields are untouched. */
    method LoadTablePage(page: int, limit: int, data: Response)
      requires limit > 0
      modifies this`loading, this`error, this`users, this`pagination
      ensures !loading
      ensures allUsers == old(allUsers) && chartsLoading == old(chartsLoading) && chartsError == old(chartsError)
      ensures data.users.Array? ==>
        (error == None && users == ToUsers(data.users.items)
         && pagination == Pagination(page, limit, data.total, TotalPages(data.total, limit)))
      ensures !data.users.Array? ==>
        (error == Some(UsersFailure + InvalidFormat) && users == old(users) && pagination == old(pagination))
    {
      FetchUsersPending();
      var outcome := FetchUsersResult(page, limit, data);
      match outcome {
        case Ok(p) => FetchUsersFulfilled(p);
        case Err(e) => FetchUsersRejected(Some(e));
      }
    }

    /** One `fetchAllUsers` round once the response is parsed. The table fields
        are untouched. */
    method LoadChartUsers(data: Response)
      modifies this`chartsLoading, this`chartsError, this`allUsers
      ensures !chartsLoading
      ensures users == old(users) && pagination == old(pagination)
      ensures loading == old(loading) && error == old(error)
      ensures data.users.Array? ==> chartsError == None && allUsers == ToUsers(data.users.items)
      ensures !data.users.Array? ==>
        (chartsError == Some(ChartsFailure + InvalidFormat) && allUsers == old(allUsers))
    {
      FetchAllUsersPending();
      var outcome := FetchAllUsersResult(data);
      match outcome {
        case Ok(us) => FetchAllUsersFulfilled(us);
        case Err(e) => FetchAllUsersRejected(Some(e));
      }
    }
  }
}
