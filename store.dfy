/** The app's global store as one mutable object. Each field is a field of the
    source's store record; each method is one action, taking the server's
    replies as arguments, and is specified by the step function of
    `StoreRules` that gives the record after it. */
module Store {
  import opened Values
  import opened StoreRules

  class AuthStore {
    /** Session fields: user, token, role, permissions and the hydration flags. */
    var auth: Auth
    var isLoading: bool
    var prices: map<string, Json>
    var priceData: PriceData
    var staffs: seq<Staff>
    /** Dashboard aggregates: counts, totals, staff performance and transaction logs. */
    var dashboard: Dashboard
    /** Report fields: vehicle list, receipt, reports and revenue. */
    var reports: Reports
    var monthlyPassActive: Option<Json>
    var monthlyPassExpired: Option<Json>
    var fullData: Option<seq<Json>>
    /** The persisted key-value pairs (AsyncStorage). */
    var disk: Disk

    /** The whole record as a value. */
    function Snapshot(): StoreState
      reads this
    {
      StoreState(auth, isLoading, prices, priceData, staffs, dashboard, reports,
                 monthlyPassActive, monthlyPassExpired, fullData, disk)
    }

    /** The store as created at process start over the persisted pairs. */
    constructor (persisted: Disk)
      ensures Snapshot() == Initial(persisted) && Consistent(Snapshot())
    {
      auth, isLoading, prices, priceData, staffs := SignedOut, false, map[], PriceData(None, None), [];
      dashboard := EmptyDashboard;
      reports := Reports(Some([]), Obj(map[]), None, None, [], 0, 0);
      monthlyPassActive, monthlyPassExpired, fullData := None, None, None;
      disk := persisted;
    }

    /** The token lookup `get().token || AsyncStorage.getItem("token")` finds one. */
    predicate HasToken()
      reads this
    {
      Present(auth.token) || Present(disk.token)
    }

    method Hydrate()
      requires Consistent(Snapshot())
      modifies this
      ensures Snapshot() == HydrateStep(old(Snapshot())) && Consistent(Snapshot())
    {
      auth := auth.(role := OrEmpty(disk.role), staffPermission := disk.staffPermission.GetOr([]),
                    isHydrated := true);
    }

    method LogOut()
      modifies this
      ensures Snapshot() == LogOutStep(old(Snapshot())) && Consistent(Snapshot())
    {
      ghost var before := Snapshot();
      disk := EmptyDisk;
      auth, isLoading, prices, priceData, staffs := SignedOut, false, map[], PriceData(None, None), [];
      dashboard := EmptyDashboard;
      reports := Reports(Some([]), Obj(map[]), None, None, [], 0, 0);
      monthlyPassActive, monthlyPassExpired := None, None;
      assert Snapshot() == Initial(EmptyDisk).(fullData := before.fullData);
    }

    method FetchPrices(reply: Result<PriceData>)
      modifies this
      ensures Consistent(old(Snapshot())) ==> Consistent(Snapshot())
      ensures Snapshot() == FetchPricesStep(old(Snapshot()), reply)
    {
      isLoading := true;
      if reply.Ok? {
        priceData, isLoading := reply.value, false;
      } else {
        isLoading := false;
      }
    }

    method GetStaffPermission(reply: Result<seq<string>>)
      modifies this
      ensures Consistent(old(Snapshot())) ==> Consistent(Snapshot())
      ensures Snapshot() == GetStaffPermissionStep(old(Snapshot()), reply)
    {
      if !HasToken() {
        return;
      }
      if reply.Ok? {
        auth := auth.(permissions := reply.value);
      }
    }

    method RestoreSession(now: int, decoded: Decoded, permReply: Result<seq<string>>, priceReply: Result<PriceData>)
      requires Consistent(Snapshot())
      modifies this
      ensures Snapshot() == RestoreSessionStep(old(Snapshot()), now, decoded, permReply, priceReply)
      ensures Consistent(Snapshot())
    {
      if Present(disk.token) && disk.user.Some? {
        match decoded {
          case Undecodable =>
          case Claims(exp) =>
            if ExpTruthy(exp) && exp.value * 1000 > now {
              var parsedUser := disk.user.value;
              auth := auth.(token := disk.token, user := disk.user, role := OrEmpty(disk.role),
                            staffPermission := disk.staffPermission.GetOr([]), isLogged := true);
              prices := disk.prices.GetOr(map[]);
              assert Snapshot() == Restored(old(Snapshot()));
              if parsedUser.role == "staff" {
                GetStaffPermission(permReply);
              }
              FetchPrices(priceReply);
            } else {
              LogOut();
            }
        }
      }
      auth := auth.(hydrated := true, isHydrated := true);
      RestorePreservesConsistency(old(Snapshot()), now, decoded, permReply, priceReply);
    }

    method LoadPricesIfNotSet()
      modifies this
      ensures Consistent(old(Snapshot())) ==> Consistent(Snapshot())
      ensures Snapshot() == LoadPricesIfNotSetStep(old(Snapshot()))
    {
      if |prices| == 0 && disk.prices.Some? {
        prices := disk.prices.value;
      }
    }

    method GetDashboardData(reply: Result<DashboardPayload>)
      modifies this
      ensures Consistent(old(Snapshot())) ==> Consistent(Snapshot())
      ensures Snapshot() == DashboardStep(old(Snapshot()), reply)
    {
      isLoading := true;
      if HasToken() && reply.Ok? {
        dashboard := DashboardOf(reply.value);
      } else {
        dashboard := EmptyDashboard;
      }
      isLoading := false;
    }

    method GetTodayVehicles(reply: Result<TodayPayload>)
      modifies this
      ensures Consistent(old(Snapshot())) ==> Consistent(Snapshot())
      ensures Snapshot() == TodayVehiclesStep(old(Snapshot()), reply)
    {
      if reply.Ok? {
        var d := reply.value;
        dashboard := dashboard.(checkins := d.checkinsCount, checkouts := d.checkoutsCount,
                                allData := d.allDataCount, vehicleTotalMoney := d.money,
                                paymentMethod := d.paymentMethod);
        fullData := Some(d.fullData);
      }
    }

    method Login(reply: Result<Session>, priceReply: Result<PriceData>,
                 permReply: Result<seq<string>>, dashReply: Result<DashboardPayload>) returns (status: Status)
      requires Consistent(Snapshot())
      modifies this
      ensures (Snapshot(), status) == LoginStep(old(Snapshot()), reply, priceReply, permReply, dashReply)
      ensures Consistent(Snapshot())
    {
      isLoading := true;
      match reply {
        case Err(m) =>
          isLoading := false;
          status := Failed(m);
        case Ok(session) =>
          var u := session.user;
          disk := disk.(user := Some(u), token := Some(session.token));
          FetchPrices(priceReply);
          ghost var priced := Snapshot();
          if u.role == "staff" {
            GetStaffPermission(permReply);
            var p := auth.permissions;
            auth := auth.(staffPermission := p, role := u.role);
            disk := disk.(staffPermission := Some(p), role := Some(u.role));
          } else {
            auth := auth.(staffPermission := [], role := u.role);
            disk := disk.(role := Some(u.role), staffPermission := Some([]));
            GetDashboardData(dashReply);
          }
          assert Snapshot() == LoginRoleStep(priced, u, permReply, dashReply);
          auth := auth.(user := Some(u), token := Some(session.token), isLogged := true);
          isLoading := false;
          status := Done;
      }
      LoginPreservesConsistency(old(Snapshot()), reply, permReply, priceReply, dashReply);
    }

    method UpdateDailyPrices(reply: Result<PriceUpdate>) returns (r: Result<string>)
      modifies this
      ensures Consistent(old(Snapshot())) ==> Consistent(Snapshot())
      ensures (Snapshot(), r) == UpdateDailyStep(old(Snapshot()), reply)
    {
      match reply {
        case Ok(u) =>
          priceData := priceData.(dailyPrices := u.prices);
          r := Ok(u.message);
        case Err(m) =>
          r := Err(OrElse(m, "Failed to update daily prices"));
      }
    }

    method UpdateMonthlyPrices(reply: Result<PriceUpdate>) returns (r: Result<string>)
      modifies this
      ensures Consistent(old(Snapshot())) ==> Consistent(Snapshot())
      ensures (Snapshot(), r) == UpdateMonthlyStep(old(Snapshot()), reply)
    {
      match reply {
        case Ok(u) =>
          priceData := priceData.(monthlyPrices := u.prices);
          r := Ok(u.message);
        case Err(m) =>
          r := Err(OrElse(m, "Failed to update monthly prices"));
      }
    }

    /** `fetchCheckins`: returns the query it sends. */
    method FetchCheckins(vehicle: string, staffId: string, reply: Result<Counts>) returns (query: string)
      modifies this
      ensures Consistent(old(Snapshot())) ==> Consistent(Snapshot())
      ensures query == Query(vehicle, staffId)
      ensures Snapshot() == old(Snapshot()).(dashboard := old(Snapshot()).dashboard.(checkins := CountsOrEmpty(reply)),
                                             isLoading := false)
    {
      isLoading := true;
      query := "vehicle=" + vehicle + (if staffId != "" then "&staffId=" + staffId else "");
      dashboard := dashboard.(checkins := if reply.Ok? then reply.value else map[]);
      isLoading := false;
    }

    /** `fetchCheckouts`: returns the query it sends. */
    method FetchCheckouts(vehicle: string, staffId: string, reply: Result<Counts>) returns (query: string)
      modifies this
      ensures Consistent(old(Snapshot())) ==> Consistent(Snapshot())
      ensures query == Query(vehicle, staffId)
      ensures Snapshot() == old(Snapshot()).(dashboard := old(Snapshot()).dashboard.(checkouts := CountsOrEmpty(reply)),
                                             isLoading := false)
    {
      isLoading := true;
      query := "vehicle=" + vehicle + (if staffId != "" then "&staffId=" + staffId else "");
      dashboard := dashboard.(checkouts := if reply.Ok? then reply.value else map[]);
      isLoading := false;
    }

    /** `vehicleList`: returns the request path `api/<checkType>?<query>`. */
    method VehicleList(vehicle: string, checkType: string, staffId: string, reply: Result<ListPayload>)
      returns (path: string, status: Status)
      modifies this
      ensures Consistent(old(Snapshot())) ==> Consistent(Snapshot())
      ensures path == "api/" + checkType + "?" + Query(vehicle, staffId)
      ensures (Snapshot(), status) == VehicleListStep(old(Snapshot()), reply)
    {
      isLoading := true;
      path := "api/" + checkType;
      path := path + "?" + ("vehicle=" + vehicle + (if staffId != "" then "&staffId=" + staffId else ""));
      match reply {
        case Ok(d) =>
          reports := reports.(vehicleListData := if d.vehicle.Some? then d.vehicle else d.vehicles);
          status := Done;
        case Err(m) =>
          isLoading := false;
          status := Failed(OrElse(m, "Something went wrong!"));
      }
    }

    /** `checkIn`: the request's outcome is passed through; only the loading flag moves. */
    method CheckIn(reply: Result<string>) returns (r: Result<string>)
      modifies this
      ensures Consistent(old(Snapshot())) ==> Consistent(Snapshot())
      ensures Snapshot() == old(Snapshot()).(isLoading := false)
      ensures r == reply
    {
      isLoading := true;
      r := reply;
      isLoading := false;
    }

    method UpdateStaff(staffId: string, reply: Result<Staff>) returns (r: Result<Staff>)
      modifies this
      ensures Consistent(old(Snapshot())) ==> Consistent(Snapshot())
      ensures (Snapshot(), r) == UpdateStaffStep(old(Snapshot()), staffId, reply)
    {
      match reply {
        case Ok(patch) =>
          staffs := PatchStaffs(staffs, staffId, patch);
          r := Ok(patch);
        case Err(m) =>
          r := Err(m);
      }
    }

    /** `createMonthlyPass`: also returns the request body, `None` when no request is sent. */
    method CreateMonthlyPass(form: PassForm, reply: Result<Json>) returns (r: Result<Json>, request: Option<PassRequest>)
      modifies this
      ensures Consistent(old(Snapshot())) ==> Consistent(Snapshot())
      ensures (Snapshot(), r, request) == CreatePassStep(old(Snapshot()), form, reply)
    {
      if MissingStoreField(form) {
        return Err(MissingFieldsMessage), None;
      }
      isLoading := true;
      if !HasToken() {
        isLoading := false;
        return Err("No token found"), None;
      }
      request := Some(PassRequestOf(form));
      match reply {
        case Ok(d) =>
          isLoading := false;
          r := Ok(d);
        case Err(m) =>
          isLoading := false;
          r := Err(OrElse(m, "Failed to create monthly pass"));
      }
    }

    method GetMonthlyPass(status: string, reply: Result<Json>) returns (r: Result<Json>)
      modifies this
      ensures Consistent(old(Snapshot())) ==> Consistent(Snapshot())
      ensures (Snapshot(), r) == GetPassStep(old(Snapshot()), status, reply)
    {
      if status != "active" && status != "expired" {
        return Err(BadStatusMessage);
      }
      isLoading := true;
      if !HasToken() {
        isLoading := false;
        return Err("No token found");
      }
      match reply {
        case Err(m) =>
          isLoading := false;
          r := Err(OrElse(m, "Failed to fetch passes"));
        case Ok(d) =>
          if status == "active" {
            monthlyPassActive := Some(d);
          } else {
            monthlyPassExpired := Some(d);
          }
          isLoading := false;
          r := Ok(d);
      }
    }

    method ExtendMonthlyPass(reply: Result<()>, refetch: Result<Json>) returns (status: Status)
      modifies this
      ensures Consistent(old(Snapshot())) ==> Consistent(Snapshot())
      ensures (Snapshot(), status) == ExtendPassStep(old(Snapshot()), reply, refetch)
    {
      isLoading := true;
      if !HasToken() {
        isLoading := false;
        return Failed("No token found");
      }
      match reply {
        case Err(m) =>
          isLoading := false;
          status := Failed(OrElse(m, "Failed to extend pass"));
        case Ok(_) =>
          var _ := GetMonthlyPass("active", refetch);
          status := Done;
      }
    }
  }
}
