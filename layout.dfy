/** The root layout: once the store is hydrated it re-checks the token's
    expiry (the JWT `exp` claim of RFC 7519, section 4.1.4, a NumericDate in
    seconds, against a clock in milliseconds) and chooses which screens are
    reachable. */
module RootLayout {
  import opened Values
  import opened StoreRules
  import opened Store

  /** The effect's condition `hydrated && token`. */
  predicate ExpiryCheckRuns(hydrated: bool, token: Option<string>) {
    hydrated && Present(token)
  }

  /** The effect logs out when decoding throws, or when `exp` is truthy and
      `exp * 1000 < now`. */
  predicate ShouldLogOut(decoded: Decoded, now: int) {
    match decoded
    case Undecodable => true
    case Claims(exp) => ExpTruthy(exp) && exp.value * 1000 < now
  }

  datatype Route = Tabs | Splash | Login | SignUp

  /** What the layout renders: a loading indicator, or a stack whose
      protected groups make `reachable` available. */
  datatype Screen = Loading | Stack(reachable: set<Route>)

  function Screens(hydrated: bool, isLogged: bool): (v: Screen)
    ensures v.Loading? <==> !hydrated
    ensures v.Stack? ==> (Tabs in v.reachable <==> isLogged)
    ensures v.Stack? ==> (Login in v.reachable <==> !isLogged) && (Splash in v.reachable <==> !isLogged)
                         && (SignUp in v.reachable <==> !isLogged)
  {
    if !hydrated then Loading
    else Stack((if isLogged then {Tabs} else {}) + (if !isLogged then {Splash, Login, SignUp} else {}))
  }

  /** The two guards are complementary: once hydrated, exactly one group of
      screens is reachable, and some screen always is. */
  lemma GuardsComplementary(isLogged: bool)
    ensures var v := Screens(true, isLogged);
      && (Tabs in v.reachable <==> Login !in v.reachable)
      && v.reachable != {}
  {
    var v := Screens(true, isLogged);
    if isLogged {
      assert Tabs in v.reachable;
    } else {
      assert Login in v.reachable;
    }
  }

  /** A token the store's restore accepts is never rejected by the layout
      at the same instant. */
  lemma RestoreAcceptedNotExpired(decoded: Decoded, now: int)
    requires RestoreAccepts(decoded, now)
    ensures !ShouldLogOut(decoded, now)
  {
  }

  /** The two checks disagree at the boundary: a token expiring exactly now,
      and a token without a truthy `exp`, are refused by the restore yet kept
      by the layout. */
  lemma ExpiryBoundaryDisagreement(exp: Option<int>, now: int)
    requires (ExpTruthy(exp) && exp.value * 1000 == now) || !ExpTruthy(exp)
    ensures !RestoreAccepts(Claims(exp), now)
    ensures !ShouldLogOut(Claims(exp), now)
  {
  }

  /** On a cold start (no token in memory) the expiry check never logs out
      the session restore just produced, when it sees the same decoded
      token at the same instant. */
  lemma RestoreThenCheckKeepsSession(s: StoreState, now: int, decoded: Decoded,
                                     perm: Result<seq<string>>, price: Result<PriceData>)
    requires s.auth.token.None?
    ensures var r := RestoreSessionStep(s, now, decoded, perm, price);
      !(ExpiryCheckRuns(r.auth.hydrated, r.auth.token) && ShouldLogOut(decoded, now))
  {
    var r := RestoreSessionStep(s, now, decoded, perm, price);
    if Present(s.disk.token) && s.disk.user.Some? && RestoreAccepts(decoded, now) {
      RestoreAcceptedNotExpired(decoded, now);
    } else {
      RestoreKeepsAbsentToken(s, now, decoded, perm, price);
    }
  }

  lemma RestoreKeepsAbsentToken(s: StoreState, now: int, decoded: Decoded,
                                perm: Result<seq<string>>, price: Result<PriceData>)
    requires s.auth.token.None?
    requires !(Present(s.disk.token) && s.disk.user.Some? && RestoreAccepts(decoded, now))
    ensures RestoreSessionStep(s, now, decoded, perm, price).auth.token.None?
  {
  }

  /** `logOut` also clears `hydrated`, and the session is restored only once,
      when the layout mounts: after any logout the layout renders only the
      loading indicator, with no screen reachable. */
  lemma LogOutShowsLoading(s: StoreState)
    ensures var r := LogOutStep(s); Screens(r.auth.hydrated, r.auth.isLogged) == Loading
  {
  }

  /** The expiry effect against the live store: `loggedOut` says whether it
      called `logOut`. */
  method ExpiryEffect(store: AuthStore, decoded: Decoded, now: int) returns (loggedOut: bool)
    modifies store
    ensures loggedOut <==> ExpiryCheckRuns(old(store.auth.hydrated), old(store.auth.token)) && ShouldLogOut(decoded, now)
    ensures loggedOut ==> store.Snapshot() == LogOutStep(old(store.Snapshot()))
    ensures !loggedOut ==> store.Snapshot() == old(store.Snapshot())
  {
    loggedOut := false;
    if store.auth.hydrated && Present(store.auth.token) {
      match decoded {
        case Undecodable =>
          store.LogOut();
          loggedOut := true;
        case Claims(exp) =>
          if ExpTruthy(exp) && exp.value * 1000 < now {
            store.LogOut();
            loggedOut := true;
          }
      }
    }
  }
}
