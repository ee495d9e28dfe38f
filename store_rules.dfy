/** The state record of the app's global store and, for each store action, a
    function giving the record after the action from the record before it and
    the server's reply. Every action runs as one atomic transition. */
module StoreRules {
  import opened Values
  import opened JsNumber

  /** The user record the server returns at login; only `id` and `role` are read. */
  datatype User = User(id: string, role: string, profile: map<string, Json>)

  /** The login endpoint's success payload. */
  datatype Session = Session(user: User, token: string)

  /** Vehicle type to price string, e.g. "car" -> "40". */
  type PriceMap = map<string, string>

  /** `priceData`: the two rate tables, each possibly absent. */
  datatype PriceData = PriceData(dailyPrices: Option<PriceMap>, monthlyPrices: Option<PriceMap>)

  /** A staff record of the admin's roster, a JSON object with an `_id` key. */
  type Staff = map<string, Json>

  datatype StaffPerformance = StaffPerformance(username: string, checkIns: int, checkOuts: int, revenue: int)

  datatype TransactionLog = TransactionLog(
    id: string, kind: string, vehicleType: string, timestamp: string,
    staff: string, amount: int, paymentMethod: Option<string>)

  type Counts = map<string, int>

  /** The `data` object of the dashboard endpoint; every aggregate may be missing. */
  datatype DashboardPayload = DashboardPayload(
    checkins: Option<Counts>, checkouts: Option<Counts>, allData: Option<Counts>,
    vehicleTotalMoney: Option<Counts>, paymentMethod: Option<Counts>,
    staffData: Option<seq<StaffPerformance>>, transactionLogs: Option<seq<TransactionLog>>)

  /** The payload of the today-vehicles endpoint. */
  datatype TodayPayload = TodayPayload(
    checkinsCount: Counts, checkoutsCount: Counts, allDataCount: Counts,
    money: Counts, paymentMethod: Counts, fullData: seq<Json>)

  /** The vehicle-list endpoint answers under `vehicle` or under `vehicles`. */
  datatype ListPayload = ListPayload(vehicle: Option<seq<Json>>, vehicles: Option<seq<Json>>)

  /** A successful price update: the server's message and its copy of the updated table. */
  datatype PriceUpdate = PriceUpdate(message: string, prices: Option<PriceMap>)

  /** The persisted key-value pairs the store reads and writes, already parsed. */
  datatype Disk = Disk(
    token: Option<string>, user: Option<User>, role: Option<string>,
    staffPermission: Option<seq<string>>, prices: Option<map<string, Json>>)

  const EmptyDisk := Disk(None, None, None, None, None)

  /** The result of decoding a JWT: it failed, or it has an optional `exp` claim
      (a NumericDate, seconds since the epoch). */
  datatype Decoded = Undecodable | Claims(exp: Option<int>)

  /** The monthly-pass form as the modal hands it to the store. */
  datatype PassForm = PassForm(
    name: string, vehicleNo: string, mobile: string, vehicleType: string,
    duration: string, startDate: string, endDate: string, paymentMethod: string,
    amount: Option<int>)

  /** The body of the create-monthly-pass request. */
  datatype PassRequest = PassRequest(
    name: string, vehicleNo: string, mobile: string, vehicleType: string,
    startDate: string, duration: Option<nat>, endDate: string, amount: Option<int>,
    paymentMode: string)

  /** The session part of the store record. */
  datatype Auth = Auth(
    user: Option<User>, token: Option<string>, isLogged: bool, role: string,
    staffPermission: seq<string>, permissions: seq<string>, hydrated: bool, isHydrated: bool)

  /** The dashboard aggregates. */
  datatype Dashboard = Dashboard(
    checkins: Counts, checkouts: Counts, allData: Counts, vehicleTotalMoney: Counts,
    paymentMethod: Counts, staffData: seq<StaffPerformance>, transactionLogs: seq<TransactionLog>)

  /** Lists and reports no core action reads. */
  datatype Reports = Reports(
    vehicleListData: Option<seq<Json>>, reciept: Json, report: Option<Json>, revenueData: Option<Json>,
    selectedStaffRevenue: seq<Json>, totalRevenue: int, totalVehicles: int)

  /** Every field of the store record, grouped (`reciept` and the casing of the
      names follow the source), plus the persisted pairs. */
  datatype StoreState = StoreState(
    auth: Auth,
    isLoading: bool,
    prices: map<string, Json>,
    priceData: PriceData,
    staffs: seq<Staff>,
    dashboard: Dashboard,
    reports: Reports,
    monthlyPassActive: Option<Json>,
    monthlyPassExpired: Option<Json>,
    fullData: Option<seq<Json>>,
    disk: Disk)

  const EmptyDashboard := Dashboard(map[], map[], map[], map[], map[], [], [])

  const SignedOut := Auth(None, None, false, "", [], [], false, false)

  /** The record the store is created with, over whatever is persisted. */
  function Initial(disk: Disk): (s: StoreState)
    ensures !s.auth.isLogged && !s.auth.hydrated && !s.auth.isHydrated && !s.isLoading
    ensures s.auth.token.None? && s.auth.user.None? && s.auth.role == "" && s.auth.staffPermission == []
    ensures s.fullData.None? && s.disk == disk
  {
    StoreState(
      auth := SignedOut, isLoading := false, prices := map[], priceData := PriceData(None, None),
      staffs := [], dashboard := EmptyDashboard,
      reports := Reports(Some([]), Obj(map[]), None, None, [], 0, 0),
      monthlyPassActive := None, monthlyPassExpired := None, fullData := None, disk := disk)
  }

  /** What the store keeps true between actions: a logged-in store holds a token
      and a user, and `hydrated` is only ever set together with `isHydrated`. */
  predicate Consistent(s: StoreState) {
    (s.auth.isLogged ==> s.auth.token.Some? && s.auth.user.Some?) && (s.auth.hydrated ==> s.auth.isHydrated)
  }

  /** `get().token || await AsyncStorage.getItem("token")` is truthy. */
  predicate TokenAvailable(s: StoreState) {
    Present(s.auth.token) || Present(s.disk.token)
  }

  // ---------------------------------------------------------------------------
  // Session actions

  /** `hydrate`: role and permission cache are copied from storage. */
  function HydrateStep(s: StoreState): StoreState {
    s.(auth := s.auth.(role := OrEmpty(s.disk.role),
                       staffPermission := s.disk.staffPermission.GetOr([]),
                       isHydrated := true))
  }

  /** `logOut`: storage is cleared and every field of the initial record is
      reset; `fullData` is not among them and keeps its value. */
  function LogOutStep(s: StoreState): StoreState {
    Initial(EmptyDisk).(fullData := s.fullData)
  }

  /** `fetchPrices`: the reply replaces `priceData`; a failure leaves it. */
  function FetchPricesStep(s: StoreState, reply: Result<PriceData>): StoreState {
    match reply
    case Ok(p) => s.(priceData := p, isLoading := false)
    case Err(_) => s.(isLoading := false)
  }

  /** `getStaffPermission`: on success `permissions` (not `staffPermission`) is
      replaced; a missing token or a failed request is swallowed. */
  function GetStaffPermissionStep(s: StoreState, reply: Result<seq<string>>): StoreState {
    if !TokenAvailable(s) then s
    else match reply
      case Ok(p) => s.(auth := s.auth.(permissions := p))
      case Err(_) => s
  }

  /** The `exp` claim is truthy. */
  predicate ExpTruthy(exp: Option<int>) {
    exp.Some? && exp.value != 0
  }

  /** The condition under which `restoreSession` accepts a decoded token:
      `exp && exp * 1000 > Date.now()`. */
  predicate RestoreAccepts(decoded: Decoded, now: int) {
    decoded.Claims? && ExpTruthy(decoded.exp) && decoded.exp.value * 1000 > now
  }

  /** The record right after `restoreSession` accepted the stored session,
      before the permission and price requests. */
  function Restored(s: StoreState): StoreState
    requires s.disk.user.Some?
  {
    s.(auth := s.auth.(token := s.disk.token, user := s.disk.user, role := OrEmpty(s.disk.role),
                       staffPermission := s.disk.staffPermission.GetOr([]), isLogged := true),
       prices := s.disk.prices.GetOr(map[]))
  }

  /** `restoreSession` with the stored token decoded as `decoded`, the clock at
      `now` (milliseconds) and the replies of the two requests it may issue. */
  function RestoreSessionStep(s: StoreState, now: int, decoded: Decoded,
                              permReply: Result<seq<string>>, priceReply: Result<PriceData>): StoreState
  {
    var after :=
      if Present(s.disk.token) && s.disk.user.Some? then
        match decoded
        case Undecodable => s
        case Claims(_) =>
          if RestoreAccepts(decoded, now) then
            var restored := Restored(s);
            var checked := if s.disk.user.value.role == "staff" then GetStaffPermissionStep(restored, permReply) else restored;
            FetchPricesStep(checked, priceReply)
          else
            LogOutStep(s)
      else s;
    after.(auth := after.auth.(hydrated := true, isHydrated := true))
  }

  /** `loadPricesIfNotSet`: stored prices are loaded only into an empty `prices`. */
  function LoadPricesIfNotSetStep(s: StoreState): StoreState {
    if |s.prices| == 0 && s.disk.prices.Some? then s.(prices := s.disk.prices.value) else s
  }

  /** The aggregates of a dashboard reply, each falling back to empty on its own. */
  function DashboardOf(d: DashboardPayload): Dashboard {
    Dashboard(d.checkins.GetOr(map[]), d.checkouts.GetOr(map[]), d.allData.GetOr(map[]),
              d.vehicleTotalMoney.GetOr(map[]), d.paymentMethod.GetOr(map[]),
              d.staffData.GetOr([]), d.transactionLogs.GetOr([]))
  }

  /** `getDashboardData`: a missing token or failed request empties every aggregate. */
  function DashboardStep(s: StoreState, reply: Result<DashboardPayload>): StoreState {
    var d := if TokenAvailable(s) && reply.Ok? then DashboardOf(reply.value) else EmptyDashboard;
    s.(dashboard := d, isLoading := false)
  }

  /** `getTodayVehicles`: the only action that writes `fullData`. */
  function TodayVehiclesStep(s: StoreState, reply: Result<TodayPayload>): StoreState {
    match reply
    case Ok(d) =>
      s.(dashboard := s.dashboard.(checkins := d.checkinsCount, checkouts := d.checkoutsCount,
                                   allData := d.allDataCount, vehicleTotalMoney := d.money,
                                   paymentMethod := d.paymentMethod),
         fullData := Some(d.fullData))
    case Err(_) => s
  }

  /** The role-dependent part of `login`, after prices were fetched. */
  function LoginRoleStep(s: StoreState, u: User, permReply: Result<seq<string>>, dashReply: Result<DashboardPayload>): StoreState {
    if u.role == "staff" then
      var fetched := GetStaffPermissionStep(s, permReply);
      var p := fetched.auth.permissions;
      fetched.(auth := fetched.auth.(staffPermission := p, role := u.role),
               disk := fetched.disk.(staffPermission := Some(p), role := Some(u.role)))
    else
      var cleared := s.(auth := s.auth.(staffPermission := [], role := u.role),
                        disk := s.disk.(role := Some(u.role), staffPermission := Some([])));
      DashboardStep(cleared, dashReply)
  }

  /** `login`: the new record and the returned status. */
  function LoginStep(s: StoreState, reply: Result<Session>, priceReply: Result<PriceData>,
                     permReply: Result<seq<string>>, dashReply: Result<DashboardPayload>): (StoreState, Status)
  {
    match reply
    case Err(m) => (s.(isLoading := false), Failed(m))
    case Ok(session) =>
      var u := session.user;
      var saved := s.(isLoading := true, disk := s.disk.(user := Some(u), token := Some(session.token)));
      var roled := LoginRoleStep(FetchPricesStep(saved, priceReply), u, permReply, dashReply);
      (roled.(auth := roled.auth.(user := Some(u), token := Some(session.token), isLogged := true),
              isLoading := false), Done)
  }

  // ---------------------------------------------------------------------------
  // Prices

  /** `updateDailyPrices`: only `priceData.dailyPrices` is replaced; the error
      thrown is the server's message or a fixed fallback. */
  function UpdateDailyStep(s: StoreState, reply: Result<PriceUpdate>): (StoreState, Result<string>) {
    match reply
    case Ok(u) => (s.(priceData := s.priceData.(dailyPrices := u.prices)), Ok(u.message))
    case Err(m) => (s, Err(OrElse(m, "Failed to update daily prices")))
  }

  /** `updateMonthlyPrices`, the mirror image of `updateDailyPrices`. */
  function UpdateMonthlyStep(s: StoreState, reply: Result<PriceUpdate>): (StoreState, Result<string>) {
    match reply
    case Ok(u) => (s.(priceData := s.priceData.(monthlyPrices := u.prices)), Ok(u.message))
    case Err(m) => (s, Err(OrElse(m, "Failed to update monthly prices")))
  }

  // ---------------------------------------------------------------------------
  // Vehicle lists

  /** The query string of the check-in, check-out and vehicle-list requests. */
  function Query(vehicle: string, staffId: string): string {
    "vehicle=" + vehicle + (if staffId != "" then "&staffId=" + staffId else "")
  }

  /** The first position of `c` in `s`. */
  function IndexOf(s: string, c: char): (r: Option<nat>)
    ensures r.None? <==> c !in s
    ensures r.Some? ==> r.value < |s| && s[r.value] == c && c !in s[..r.value]
    decreases |s|
  {
    if s == [] then None
    else if s[0] == c then Some(0)
    else match IndexOf(s[1..], c)
      case None => None
      case Some(i) => assert s[1..][..i] == s[1..i + 1]; Some(i + 1)
  }

  /** Reads a query back into its vehicle filter and staff id (`""` when absent). */
  function ParseQuery(q: string): Option<(string, string)> {
    if |q| < 8 || q[..8] != "vehicle=" then None
    else
      var rest := q[8..];
      match IndexOf(rest, '&')
      case None => Some((rest, ""))
      case Some(i) =>
        var tail := rest[i..];
        if |tail| > 9 && tail[..9] == "&staffId=" then Some((rest[..i], tail[9..])) else None
  }

  /** The query builder is injective on vehicle filters without `&`: the staff
      segment appears exactly when a staff id is given, and both parts can be read back. */
  lemma QueryRoundTrip(vehicle: string, staffId: string)
    requires '&' !in vehicle
    ensures ParseQuery(Query(vehicle, staffId)) == Some((vehicle, staffId))
  {
    var q := Query(vehicle, staffId);
    assert q[..8] == "vehicle=";
    var rest := q[8..];
    if staffId == "" {
      assert rest == vehicle;
    } else {
      var seg := "&staffId=" + staffId;
      assert rest == vehicle + seg;
      assert rest[|vehicle|] == '&';
      assert rest[..|vehicle|] == vehicle;
      assert IndexOf(rest, '&') == Some(|vehicle|);
      assert rest[|vehicle|..] == seg;
    }
  }

  /** `fetchCheckins`/`fetchCheckouts` store the reply, or an empty map on failure. */
  function CountsOrEmpty(reply: Result<Counts>): Counts {
    if reply.Ok? then reply.value else map[]
  }

  /** `vehicleList`: `isLoading` is set and, on success, left set. */
  function VehicleListStep(s: StoreState, reply: Result<ListPayload>): (StoreState, Status) {
    match reply
    case Ok(d) =>
      (s.(isLoading := true,
          reports := s.reports.(vehicleListData := if d.vehicle.Some? then d.vehicle else d.vehicles)), Done)
    case Err(m) => (s.(isLoading := false), Failed(OrElse(m, "Something went wrong!")))
  }

  // ---------------------------------------------------------------------------
  // Staff roster

  /** The `_id` of a staff record is the given id. */
  predicate IdMatches(staff: Staff, id: string) {
    "_id" in staff && staff["_id"] == Str(id)
  }

  /** `staffs.map(staff => staff._id === staffId ? { ...staff, ...patch } : staff)`. */
  function PatchStaffs(staffs: seq<Staff>, staffId: string, patch: Staff): (r: seq<Staff>)
    ensures |r| == |staffs|
  {
    seq(|staffs|, i requires 0 <= i < |staffs| =>
      if IdMatches(staffs[i], staffId) then staffs[i] + patch else staffs[i])
  }

  /** `updateStaff`: patches the roster in place and echoes the server's record. */
  function UpdateStaffStep(s: StoreState, staffId: string, reply: Result<Staff>): (StoreState, Result<Staff>) {
    match reply
    case Ok(patch) => (s.(staffs := PatchStaffs(s.staffs, staffId, patch)), Ok(patch))
    case Err(m) => (s, Err(m))
  }

  // ---------------------------------------------------------------------------
  // Monthly passes

  const MissingFieldsMessage := "All required fields must be provided"

  /** The store's required-field check: any of eight fields empty (`endDate` included). */
  predicate MissingStoreField(f: PassForm) {
    f.name == "" || f.vehicleNo == "" || f.mobile == "" || f.vehicleType == "" ||
    f.duration == "" || f.startDate == "" || f.endDate == "" || f.paymentMethod == ""
  }

  /** The characters JavaScript's `\s` matches. */
  predicate IsJsWhitespace(c: char) {
    var n := c as int;
    n == 0x20 || 0x09 <= n <= 0x0D || n == 0xA0 || n == 0x1680 || 0x2000 <= n <= 0x200A ||
    n == 0x2028 || n == 0x2029 || n == 0x202F || n == 0x205F || n == 0x3000 || n == 0xFEFF
  }

  predicate IsLower(c: char) { 'a' <= c <= 'z' }
  predicate IsUpper(c: char) { 'A' <= c <= 'Z' }

  /** `toUpperCase` on ASCII letters: each lower-case letter becomes its
      upper-case partner, 32 code points below it; every other character is kept. */
  function ToUpper(s: string): (r: string)
    ensures |r| == |s|
    ensures forall i :: 0 <= i < |s| ==> IsLower(s[i]) ==> IsUpper(r[i]) && r[i] as int == s[i] as int - 32
    ensures forall i :: 0 <= i < |s| ==> !IsLower(s[i]) ==> r[i] == s[i]
    ensures forall i :: 0 <= i < |r| ==> !IsLower(r[i])
    ensures forall i :: 0 <= i < |r| ==> IsJsWhitespace(r[i]) == IsJsWhitespace(s[i])
  {
    seq(|s|, i requires 0 <= i < |s| => if IsLower(s[i]) then (s[i] as int - 32) as char else s[i])
  }

  /** `toLowerCase` on ASCII letters: each upper-case letter becomes its
      lower-case partner, 32 code points above it; every other character is kept. */
  function ToLower(s: string): (r: string)
    ensures |r| == |s|
    ensures forall i :: 0 <= i < |s| ==> IsUpper(s[i]) ==> IsLower(r[i]) && r[i] as int == s[i] as int + 32
    ensures forall i :: 0 <= i < |s| ==> !IsUpper(s[i]) ==> r[i] == s[i]
    ensures forall i :: 0 <= i < |r| ==> !IsUpper(r[i])
  {
    seq(|s|, i requires 0 <= i < |s| => if IsUpper(s[i]) then (s[i] as int + 32) as char else s[i])
  }

  /** `replace(/\s/g, "")`: the characters that are not whitespace, in their order. */
  function RemoveWhitespace(s: string): (r: string)
    ensures |r| <= |s|
    ensures forall i :: 0 <= i < |r| ==> !IsJsWhitespace(r[i])
    ensures forall c :: c in r <==> c in s && !IsJsWhitespace(c)
    decreases |s|
  {
    if s == [] then []
    else if IsJsWhitespace(s[0]) then RemoveWhitespace(s[1..])
    else [s[0]] + RemoveWhitespace(s[1..])
  }

  /** The vehicle number as sent: upper-cased, whitespace removed. */
  function NormalizeVehicleNo(s: string): (r: string)
    ensures forall i :: 0 <= i < |r| ==> !IsJsWhitespace(r[i]) && !IsLower(r[i])
  {
    var u := ToUpper(s);
    RemoveWhitespaceKeepsCase(u);
    RemoveWhitespace(u)
  }

  /** Removing whitespace only drops characters, so no lower-case letter appears. */
  lemma {:induction false} RemoveWhitespaceKeepsCase(s: string)
    requires forall i :: 0 <= i < |s| ==> !IsLower(s[i])
    ensures forall i :: 0 <= i < |RemoveWhitespace(s)| ==> !IsLower(RemoveWhitespace(s)[i])
    decreases |s|
  {
    if s != [] {
      RemoveWhitespaceKeepsCase(s[1..]);
    }
  }

  /** A string without whitespace passes through unchanged. */
  lemma {:induction false} RemoveWhitespaceIdentity(s: string)
    requires forall i :: 0 <= i < |s| ==> !IsJsWhitespace(s[i])
    ensures RemoveWhitespace(s) == s
    decreases |s|
  {
    if s != [] {
      RemoveWhitespaceIdentity(s[1..]);
    }
  }

  /** Normalising a vehicle number twice is normalising it once. */
  lemma NormalizeIdempotent(s: string)
    ensures NormalizeVehicleNo(NormalizeVehicleNo(s)) == NormalizeVehicleNo(s)
  {
    var n := NormalizeVehicleNo(s);
    assert ToUpper(n) == n;
    RemoveWhitespaceIdentity(n);
  }

  /** Upper-casing works character by character. */
  lemma ToUpperAppend(a: string, b: string)
    ensures ToUpper(a + b) == ToUpper(a) + ToUpper(b)
  {
  }

  /** Upper-casing and lower-casing undo each other on strings already in
      the other case. */
  lemma CaseRoundTrip(s: string)
    ensures (forall i :: 0 <= i < |s| ==> !IsUpper(s[i])) ==> ToLower(ToUpper(s)) == s
    ensures (forall i :: 0 <= i < |s| ==> !IsLower(s[i])) ==> ToUpper(ToLower(s)) == s
  {
  }

  /** Whitespace removal works character by character: a whitespace
      character disappears and any other is kept in place. */
  lemma {:induction false} RemoveWhitespaceAppend(a: string, b: string)
    ensures RemoveWhitespace(a + b) == RemoveWhitespace(a) + RemoveWhitespace(b)
    decreases |a|
  {
    if a == [] {
      assert a + b == b;
    } else {
      assert (a + b)[1..] == a[1..] + b;
      RemoveWhitespaceAppend(a[1..], b);
    }
  }

  lemma RemoveWhitespaceSingle(c: char)
    ensures RemoveWhitespace([c]) == if IsJsWhitespace(c) then [] else [c]
  {
  }

  /** Upper-casing before or after removing whitespace gives the same
      vehicle number. */
  lemma {:induction false} NormalizeCommutes(s: string)
    ensures NormalizeVehicleNo(s) == ToUpper(RemoveWhitespace(s))
    decreases |s|
  {
    if s != [] {
      var head, rest := [s[0]], s[1..];
      assert s == head + rest;
      ToUpperAppend(head, rest);
      RemoveWhitespaceAppend(ToUpper(head), ToUpper(rest));
      RemoveWhitespaceAppend(head, rest);
      ToUpperAppend(RemoveWhitespace(head), RemoveWhitespace(rest));
      NormalizeCommutes(rest);
    }
  }

  /** The vehicle number is normalised character by character: whitespace
      is dropped, and every other character is upper-cased in place. */
  lemma NormalizeCharByChar(a: string, b: string, c: char)
    ensures NormalizeVehicleNo(a + b) == NormalizeVehicleNo(a) + NormalizeVehicleNo(b)
    ensures NormalizeVehicleNo([c]) == if IsJsWhitespace(c) then [] else ToUpper([c])
  {
    ToUpperAppend(a, b);
    RemoveWhitespaceAppend(ToUpper(a), ToUpper(b));
    RemoveWhitespaceSingle(ToUpper([c])[0]);
    assert ToUpper([c]) == [ToUpper([c])[0]];
  }

  /** The request body built from a validated form. */
  function PassRequestOf(f: PassForm): PassRequest {
    PassRequest(
      name := f.name, vehicleNo := NormalizeVehicleNo(f.vehicleNo), mobile := f.mobile,
      vehicleType := ToLower(f.vehicleType), startDate := f.startDate,
      duration := NumberOf(f.duration), endDate := f.endDate, amount := f.amount,
      paymentMode := OrElse(f.paymentMethod, "cash"))
  }

  /** `createMonthlyPass`: the new record, the result, and the request body if a
      request was sent. */
  function CreatePassStep(s: StoreState, form: PassForm, reply: Result<Json>): (StoreState, Result<Json>, Option<PassRequest>) {
    if MissingStoreField(form) then (s, Err(MissingFieldsMessage), None)
    else if !TokenAvailable(s) then (s.(isLoading := false), Err("No token found"), None)
    else match reply
      case Ok(d) => (s.(isLoading := false), Ok(d), Some(PassRequestOf(form)))
      case Err(m) => (s.(isLoading := false), Err(OrElse(m, "Failed to create monthly pass")), Some(PassRequestOf(form)))
  }

  const BadStatusMessage := "Status must be 'active' or 'expired'"

  /** `getMonthlyPass`: the status picks the slot the reply is written to. */
  function GetPassStep(s: StoreState, status: string, reply: Result<Json>): (StoreState, Result<Json>) {
    if status != "active" && status != "expired" then (s, Err(BadStatusMessage))
    else if !TokenAvailable(s) then (s.(isLoading := false), Err("No token found"))
    else match reply
      case Err(m) => (s.(isLoading := false), Err(OrElse(m, "Failed to fetch passes")))
      case Ok(d) =>
        var written := if status == "active" then s.(monthlyPassActive := Some(d)) else s.(monthlyPassExpired := Some(d));
        (written.(isLoading := false), Ok(d))
  }

  /** `extendMonthlyPass`: on success the active list is fetched again. */
  function ExtendPassStep(s: StoreState, reply: Result<()>, refetch: Result<Json>): (StoreState, Status) {
    if !TokenAvailable(s) then (s.(isLoading := false), Failed("No token found"))
    else match reply
      case Err(m) => (s.(isLoading := false), Failed(OrElse(m, "Failed to extend pass")))
      case Ok(_) => (GetPassStep(s.(isLoading := true), "active", refetch).0, Done)
  }

  // ===========================================================================
  // Properties

  /** `hydrate` and `logOut` keep the store consistent. */
  lemma SessionStepsPreserveConsistency(s: StoreState)
    requires Consistent(s)
    ensures Consistent(HydrateStep(s)) && Consistent(LogOutStep(s))
  {
  }

  /** The steps `restoreSession` and `login` are built from never touch the session fields. */
  lemma SubStepsKeepSession(s: StoreState, price: Result<PriceData>, perm: Result<seq<string>>, dash: Result<DashboardPayload>)
    ensures FetchPricesStep(s, price).auth == s.auth
    ensures GetStaffPermissionStep(s, perm).auth == s.auth.(permissions := GetStaffPermissionStep(s, perm).auth.permissions)
    ensures DashboardStep(s, dash).auth == s.auth
  {
  }

  /** `restoreSession` keeps the store consistent. */
  lemma RestorePreservesConsistency(s: StoreState, now: int, decoded: Decoded, perm: Result<seq<string>>, price: Result<PriceData>)
    requires Consistent(s)
    ensures Consistent(RestoreSessionStep(s, now, decoded, perm, price))
  {
    if Present(s.disk.token) && s.disk.user.Some? && RestoreAccepts(decoded, now) {
      var restored := Restored(s);
      var checked := if s.disk.user.value.role == "staff" then GetStaffPermissionStep(restored, perm) else restored;
      SubStepsKeepSession(restored, price, perm, Err(""));
      SubStepsKeepSession(checked, price, perm, Err(""));
    }
  }

  /** `login` keeps the store consistent. */
  lemma LoginPreservesConsistency(s: StoreState, session: Result<Session>, perm: Result<seq<string>>,
                                  price: Result<PriceData>, dash: Result<DashboardPayload>)
    requires Consistent(s)
    ensures Consistent(LoginStep(s, session, price, perm, dash).0)
  {
  }

  /** After `logOut` nothing of the session is left, in memory or in storage,
      except `fullData`, which the reset list does not name. */
  lemma LogOutClearsSession(s: StoreState)
    ensures var r := LogOutStep(s);
      && r.auth == SignedOut && r.staffs == [] && r.priceData == PriceData(None, None)
      && r.prices == map[] && r.dashboard == EmptyDashboard
      && r.monthlyPassActive.None? && r.monthlyPassExpired.None? && !r.isLoading
      && r.disk.token.None? && r.disk == EmptyDisk
      && r.fullData == s.fullData
  {
  }

  /** Logging out twice is logging out once. */
  lemma LogOutIdempotent(s: StoreState)
    ensures LogOutStep(LogOutStep(s)) == LogOutStep(s)
  {
  }

  /** Whatever happens, `restoreSession` ends hydrated. */
  lemma RestoreAlwaysHydrates(s: StoreState, now: int, decoded: Decoded, perm: Result<seq<string>>, price: Result<PriceData>)
    ensures RestoreSessionStep(s, now, decoded, perm, price).auth.hydrated
    ensures RestoreSessionStep(s, now, decoded, perm, price).auth.isHydrated
  {
  }

  /** Without a stored token or user nothing but the hydration flags changes,
      so restoring is idempotent. */
  lemma RestoreWithoutStoredSession(s: StoreState, now: int, decoded: Decoded, perm: Result<seq<string>>, price: Result<PriceData>)
    requires !Present(s.disk.token) || s.disk.user.None?
    ensures RestoreSessionStep(s, now, decoded, perm, price) == s.(auth := s.auth.(hydrated := true, isHydrated := true))
    ensures var r := RestoreSessionStep(s, now, decoded, perm, price);
      RestoreSessionStep(r, now, decoded, perm, price) == r
  {
  }

  /** A session is restored exactly when token and user are stored and the
      token's `exp` is truthy and lies after `now`. */
  lemma RestoreLogsInIff(s: StoreState, now: int, decoded: Decoded, perm: Result<seq<string>>, price: Result<PriceData>)
    requires !s.auth.isLogged
    ensures RestoreSessionStep(s, now, decoded, perm, price).auth.isLogged
            <==> (Present(s.disk.token) && s.disk.user.Some? && RestoreAccepts(decoded, now))
  {
    if Present(s.disk.token) && s.disk.user.Some? && RestoreAccepts(decoded, now) {
      var restored := Restored(s);
      var checked := if s.disk.user.value.role == "staff" then GetStaffPermissionStep(restored, perm) else restored;
      SubStepsKeepSession(restored, price, perm, Err(""));
      SubStepsKeepSession(checked, price, perm, Err(""));
    }
  }

  /** The restored session is the stored one, and restoring writes nothing to storage. */
  lemma RestoreRecoversStoredSession(s: StoreState, now: int, decoded: Decoded, perm: Result<seq<string>>, price: Result<PriceData>)
    requires Present(s.disk.token) && s.disk.user.Some? && RestoreAccepts(decoded, now)
    ensures var r := RestoreSessionStep(s, now, decoded, perm, price);
      r.auth.token == s.disk.token && r.auth.user == s.disk.user && r.disk == s.disk
  {
    var restored := Restored(s);
    var checked := if s.disk.user.value.role == "staff" then GetStaffPermissionStep(restored, perm) else restored;
    SubStepsKeepSession(restored, price, perm, Err(""));
    SubStepsKeepSession(checked, price, perm, Err(""));
  }

  /** A restored staff session re-fetches its permissions into `permissions`;
      `staffPermission` keeps the stored cache. */
  lemma RestoreStaffPermissions(s: StoreState, now: int, decoded: Decoded, perm: Result<seq<string>>, price: Result<PriceData>)
    requires Present(s.disk.token) && s.disk.user.Some? && RestoreAccepts(decoded, now)
    ensures var r := RestoreSessionStep(s, now, decoded, perm, price);
      && r.auth.staffPermission == s.disk.staffPermission.GetOr([])
      && r.auth.role == OrEmpty(s.disk.role)
      && r.auth.permissions == (if s.disk.user.value.role == "staff" && perm.Ok? then perm.value else s.auth.permissions)
      && r.priceData == (if price.Ok? then price.value else s.priceData)
  {
    var restored := Restored(s);
    var checked := if s.disk.user.value.role == "staff" then GetStaffPermissionStep(restored, perm) else restored;
    SubStepsKeepSession(restored, price, perm, Err(""));
    SubStepsKeepSession(checked, price, perm, Err(""));
  }

  /** A stored session whose token decodes but is rejected is logged out, which
      clears storage; only the hydration flags are then set again. */
  lemma RestoreRejectedLogsOut(s: StoreState, now: int, decoded: Decoded, perm: Result<seq<string>>, price: Result<PriceData>)
    requires Present(s.disk.token) && s.disk.user.Some?
    requires decoded.Claims? && !RestoreAccepts(decoded, now)
    ensures var r := RestoreSessionStep(s, now, decoded, perm, price);
      r == LogOutStep(s).(auth := SignedOut.(hydrated := true, isHydrated := true)) && r.disk == EmptyDisk
  {
  }

  /** A token with `exp = 1` (1970) is never restored at any later time. */
  lemma ExpiredTokenNeverRestored(now: int)
    requires now >= 1000
    ensures !RestoreAccepts(Claims(Some(1)), now)
  {
  }

  /** `login` failure only clears the loading flag. */
  lemma LoginFailure(s: StoreState, m: string, price: Result<PriceData>, perm: Result<seq<string>>, dash: Result<DashboardPayload>)
    ensures LoginStep(s, Err(m), price, perm, dash) == (s.(isLoading := false), Failed(m))
  {
  }

  /** `login` success: user, token and persisted session are set, the store is
      logged in and no longer loading. */
  lemma LoginSuccess(s: StoreState, session: Session, price: Result<PriceData>, perm: Result<seq<string>>, dash: Result<DashboardPayload>)
    ensures var (r, status) := LoginStep(s, Ok(session), price, perm, dash);
      && status == Done && r.auth.isLogged && !r.isLoading
      && r.auth.user == Some(session.user) && r.auth.token == Some(session.token)
      && r.disk.user == Some(session.user) && r.disk.token == Some(session.token)
      && r.auth.role == session.user.role && r.disk.role == Some(session.user.role)
      && r.disk.staffPermission == Some(r.auth.staffPermission)
  {
  }

  /** For a staff login `staffPermission` is what `permissions` holds after the
      permission fetch: the fetched list, or the previous value when the fetch
      failed. Other roles get no permissions. */
  lemma LoginPermissions(s: StoreState, session: Session, price: Result<PriceData>, perm: Result<seq<string>>, dash: Result<DashboardPayload>)
    requires session.token != ""
    ensures var r := LoginStep(s, Ok(session), price, perm, dash).0;
      if session.user.role == "staff" then
        r.auth.staffPermission == r.auth.permissions
        && r.auth.staffPermission == (if perm.Ok? then perm.value else s.auth.permissions)
      else
        r.auth.staffPermission == [] && r.auth.permissions == s.auth.permissions
  {
  }

  /** A daily-price update never touches the monthly table, and vice versa; a
      failed update changes nothing and reports a non-empty message. */
  lemma PriceUpdatesAreScoped(s: StoreState, reply: Result<PriceUpdate>)
    ensures var r := UpdateDailyStep(s, reply).0;
      r.priceData.monthlyPrices == s.priceData.monthlyPrices && r == s.(priceData := r.priceData)
    ensures var r := UpdateMonthlyStep(s, reply).0;
      r.priceData.dailyPrices == s.priceData.dailyPrices && r == s.(priceData := r.priceData)
    ensures reply.Err? ==> UpdateDailyStep(s, reply).0 == s && UpdateMonthlyStep(s, reply).0 == s
    ensures reply.Err? ==> UpdateDailyStep(s, reply).1.Err? && UpdateDailyStep(s, reply).1.error != ""
    ensures reply.Err? ==> UpdateMonthlyStep(s, reply).1.Err? && UpdateMonthlyStep(s, reply).1.error != ""
    ensures reply.Ok? ==> UpdateDailyStep(s, reply).0.priceData.dailyPrices == reply.value.prices
    ensures reply.Ok? ==> UpdateMonthlyStep(s, reply).0.priceData.monthlyPrices == reply.value.prices
  {
  }

  /** `updateStaff` keeps length and order, merges the reply into the records
      whose `_id` matches, and leaves every other record as it was. */
  lemma PatchStaffsSpec(staffs: seq<Staff>, staffId: string, patch: Staff, i: int)
    requires 0 <= i < |staffs|
    ensures var r := PatchStaffs(staffs, staffId, patch);
      (IdMatches(staffs[i], staffId) ==>
         (&& r[i].Keys == staffs[i].Keys + patch.Keys
          && (forall k :: k in patch ==> r[i][k] == patch[k])
          && (forall k :: k in staffs[i] && k !in patch ==> r[i][k] == staffs[i][k])))
      && (!IdMatches(staffs[i], staffId) ==> r[i] == staffs[i])
  {
  }

  /** A failed `updateStaff` leaves the roster untouched. */
  lemma UpdateStaffFailure(s: StoreState, staffId: string, m: string)
    ensures UpdateStaffStep(s, staffId, Err(m)) == (s, Err(m))
  {
  }

  /** The example of patching id "2" in a two-record roster. */
  lemma PatchStaffsExample()
    ensures var a: Staff := map["_id" := Str("1"), "username" := Str("a")];
      var b: Staff := map["_id" := Str("2"), "username" := Str("b")];
      PatchStaffs([a, b], "2", map["username" := Str("c")])
        == [a, map["_id" := Str("2"), "username" := Str("c")]]
  {
    var a: Staff := map["_id" := Str("1"), "username" := Str("a")];
    var b: Staff := map["_id" := Str("2"), "username" := Str("b")];
    var p: Staff := map["username" := Str("c")];
    assert !IdMatches(a, "2") && IdMatches(b, "2");
    assert b + p == map["_id" := Str("2"), "username" := Str("c")];
  }

  /** A status other than "active" or "expired" is refused without any state
      change; otherwise only the slot of that status is written. */
  lemma GetPassSlots(s: StoreState, status: string, reply: Result<Json>)
    ensures status != "active" && status != "expired" ==> GetPassStep(s, status, reply) == (s, Err(BadStatusMessage))
    ensures var r := GetPassStep(s, status, reply).0;
      status == "active" ==>
        (r.monthlyPassExpired == s.monthlyPassExpired
         && r == s.(monthlyPassActive := r.monthlyPassActive, isLoading := false))
    ensures var r := GetPassStep(s, status, reply).0;
      status == "expired" ==>
        (r.monthlyPassActive == s.monthlyPassActive
         && r == s.(monthlyPassExpired := r.monthlyPassExpired, isLoading := false))
    ensures (status == "active" || status == "expired") && TokenAvailable(s) && reply.Ok? ==>
      GetPassStep(s, status, reply).1 == Ok(reply.value)
  {
  }

  /** An incomplete form is refused before any request with the fixed
      message. A request is sent exactly when the form is complete and a token
      is found; its body carries the form's fields as entered, except the
      vehicle number (upper-cased, whitespace removed), the vehicle type
      (lower-cased) and the duration (as a number), and its payment mode is
      the form's, never the "cash" default, because the check required one. */
  lemma CreatePassRequest(s: StoreState, form: PassForm, reply: Result<Json>)
    ensures MissingStoreField(form) ==> CreatePassStep(s, form, reply) == (s, Err(MissingFieldsMessage), None)
    ensures var (r, result, request) := CreatePassStep(s, form, reply);
      && (request.Some? <==> !MissingStoreField(form) && TokenAvailable(s))
      && (request.Some? ==>
            request.value == PassRequest(
              name := form.name, vehicleNo := ToUpper(RemoveWhitespace(form.vehicleNo)), mobile := form.mobile,
              vehicleType := ToLower(form.vehicleType), startDate := form.startDate,
              duration := NumberOf(form.duration), endDate := form.endDate, amount := form.amount,
              paymentMode := form.paymentMethod))
    ensures !MissingStoreField(form) ==> CreatePassStep(s, form, reply).0 == s.(isLoading := false)
  {
    NormalizeCommutes(form.vehicleNo);
  }

  /** With a token and a reply, each of the seven aggregates is the reply's
      or, when the reply lacks it, empty on its own; without a token or on a
      failed request every aggregate is emptied. Nothing outside the
      dashboard and the loading flag changes. */
  lemma DashboardFallbacks(s: StoreState, reply: Result<DashboardPayload>)
    ensures var r := DashboardStep(s, reply);
      TokenAvailable(s) && reply.Ok? ==>
        var d := reply.value;
        && r.dashboard.checkins == d.checkins.GetOr(map[])
        && r.dashboard.checkouts == d.checkouts.GetOr(map[])
        && r.dashboard.allData == d.allData.GetOr(map[])
        && r.dashboard.vehicleTotalMoney == d.vehicleTotalMoney.GetOr(map[])
        && r.dashboard.paymentMethod == d.paymentMethod.GetOr(map[])
        && r.dashboard.staffData == d.staffData.GetOr([])
        && r.dashboard.transactionLogs == d.transactionLogs.GetOr([])
    ensures !TokenAvailable(s) || reply.Err? ==> DashboardStep(s, reply).dashboard == EmptyDashboard
    ensures var r := DashboardStep(s, reply); r == s.(dashboard := r.dashboard, isLoading := false)
  {
  }

  /** The value `logOut` leaves in `fullData` is whatever `getTodayVehicles`
      wrote last. */
  lemma FullDataSurvivesLogOut(s: StoreState, d: TodayPayload)
    ensures LogOutStep(TodayVehiclesStep(s, Ok(d))).fullData == Some(d.fullData)
  {
  }
}
