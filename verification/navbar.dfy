/** The navigation bar of src/Layout/Navbar.tsx: it owns the selected
    location and the open/closed flags of the mobile drawer and the two
    popups, and wires the popups' callbacks and the session's `logout` into
    them. */
module Nav {
  import opened Common
  import Auth
  import Api
  import Location
  import Login

  const LocationPlaceholder := "Select Location"

  /** The account control of the desktop bar. */
  datatype DesktopAccount = LoginButton | AvatarMenu

  /** The account control of the mobile drawer. */
  datatype DrawerAccount = DrawerLoginButton | DrawerLogoutButton

  function DesktopAccountControl(isLoggedIn: bool): (r: DesktopAccount)
    ensures r == LoginButton <==> !isLoggedIn
    ensures r == AvatarMenu <==> isLoggedIn
  {
    if !isLoggedIn then LoginButton else AvatarMenu
  }

  function DrawerAccountControl(isLoggedIn: bool): (r: DrawerAccount)
    ensures r == DrawerLoginButton <==> !isLoggedIn
    ensures r == DrawerLogoutButton <==> isLoggedIn
  {
    if !isLoggedIn then DrawerLoginButton else DrawerLogoutButton
  }

  /** Both places offer a login exactly when the other offers one. */
  lemma AccountControlsAgree(isLoggedIn: bool)
    ensures (DesktopAccountControl(isLoggedIn) == LoginButton) == (DrawerAccountControl(isLoggedIn) == DrawerLoginButton)
  {
  }

  class Navbar {
    var menuOpen: bool
    var showLogin: bool
    var showLocation: bool
    var selectedLocation: string
    var searchValue: string

    /** The session from `useAuth`, and the two popups the bar renders. */
    const session: Auth.Session
    const picker: Location.LocationPicker
    const loginPopup: Login.LoginModal

    /** The picker only offers preset cities, and the login modal works on
        the bar's own session. */
    ghost predicate Valid()
      reads this, picker
    {
      picker.Valid() && loginPopup.session == session
    }

    /** Every flag closed and the placeholder as location. */
    constructor (api: Api.ApiStore, session: Auth.Session)
      ensures Valid()
      ensures !menuOpen && !showLogin && !showLocation
      ensures selectedLocation == LocationPlaceholder && searchValue == ""
      ensures this.session == session && fresh(picker) && fresh(loginPopup)
      ensures loginPopup.api == api && loginPopup.session == session
      ensures picker.searchValue == "" && picker.options == [] && !picker.loading
      ensures loginPopup.State() == Login.ModalState(true, Login.EmptyLogin, Login.EmptyRegister)
    {
      menuOpen := false;
      showLogin := false;
      showLocation := false;
      selectedLocation := LocationPlaceholder;
      searchValue := "";
      this.session := session;
      picker := new Location.LocationPicker();
      loginPopup := new Login.LoginModal(api, session);
    }

    function AccountControl(): DesktopAccount
      reads this, session
    {
      DesktopAccountControl(session.isLoggedIn)
    }

    function DrawerControl(): DrawerAccount
      reads this, session
    {
      DrawerAccountControl(session.isLoggedIn)
    }

    // ---- the bar's own handlers ----

    /** The desktop location button. */
    method OpenLocation()
      modifies this
      ensures showLocation
      ensures menuOpen == old(menuOpen) && showLogin == old(showLogin)
      ensures selectedLocation == old(selectedLocation) && searchValue == old(searchValue)
    {
      showLocation := true;
    }

    /** The desktop Login button. */
    method OpenLogin()
      modifies this
      ensures showLogin
      ensures menuOpen == old(menuOpen) && showLocation == old(showLocation)
      ensures selectedLocation == old(selectedLocation) && searchValue == old(searchValue)
    {
      showLogin := true;
    }

    /** The mobile menu icon. */
    method OpenMenu()
      modifies this
      ensures menuOpen
      ensures showLogin == old(showLogin) && showLocation == old(showLocation)
      ensures selectedLocation == old(selectedLocation) && searchValue == old(searchValue)
    {
      menuOpen := true;
    }

    /** The drawer's own close control. */
    method CloseMenu()
      modifies this
      ensures !menuOpen
      ensures showLogin == old(showLogin) && showLocation == old(showLocation)
      ensures selectedLocation == old(selectedLocation) && searchValue == old(searchValue)
    {
      menuOpen := false;
    }

    /** The effect that runs whenever the route's path changes. */
    method PathChanged()
      modifies this
      ensures !menuOpen
      ensures showLogin == old(showLogin) && showLocation == old(showLocation)
      ensures selectedLocation == old(selectedLocation) && searchValue == old(searchValue)
    {
      menuOpen := false;
    }

    /** Typing into the desktop service search. */
    method EditSearch(value: string)
      modifies this
      ensures searchValue == value
      ensures menuOpen == old(menuOpen) && showLogin == old(showLogin) && showLocation == old(showLocation)
      ensures selectedLocation == old(selectedLocation)
    {
      searchValue := value;
    }

    /** The drawer's location button: open the picker, close the drawer. */
    method DrawerOpenLocation()
      modifies this
      ensures showLocation && !menuOpen
      ensures showLogin == old(showLogin)
      ensures selectedLocation == old(selectedLocation) && searchValue == old(searchValue)
    {
      showLocation := true;
      menuOpen := false;
    }

    /** The drawer's Login button: open the login modal, close the drawer. */
    method DrawerOpenLogin()
      modifies this
      ensures showLogin && !menuOpen
      ensures showLocation == old(showLocation)
      ensures selectedLocation == old(selectedLocation) && searchValue == old(searchValue)
    {
      showLogin := true;
      menuOpen := false;
    }

    /** The drawer's Become Provider button closes the drawer (the
        navigation itself is not modelled). */
    method DrawerBecomeProvider()
      modifies this
      ensures !menuOpen
      ensures showLogin == old(showLogin) && showLocation == old(showLocation)
      ensures selectedLocation == old(selectedLocation) && searchValue == old(searchValue)
    {
      menuOpen := false;
    }

    /** The drawer's Logout button: log out and close the drawer. */
    method DrawerLogout()
      modifies this, session
      ensures !session.isLoggedIn && !menuOpen
      ensures DrawerControl() == DrawerLoginButton && AccountControl() == LoginButton
      ensures showLogin == old(showLogin) && showLocation == old(showLocation)
      ensures selectedLocation == old(selectedLocation) && searchValue == old(searchValue)
    {
      session.Logout();
      menuOpen := false;
    }

    /** The avatar menu's Logout item: the same `logout`, nothing else. */
    method DropdownLogout()
      modifies session
      ensures !session.isLoggedIn
      ensures AccountControl() == LoginButton
    {
      session.Logout();
    }

    // ---- the callbacks handed to the popups ----

    /** `onSelectLocation` of the picker. */
    method SelectLocation(city: string)
      modifies this
      ensures selectedLocation == city && !showLocation
      ensures menuOpen == old(menuOpen) && showLogin == old(showLogin) && searchValue == old(searchValue)
    {
      selectedLocation := city;
      showLocation := false;
    }

    /** `onClose` of the picker: close it, keep the location. */
    method ClosePicker()
      modifies this
      ensures !showLocation
      ensures selectedLocation == old(selectedLocation)
      ensures menuOpen == old(menuOpen) && showLogin == old(showLogin) && searchValue == old(searchValue)
    {
      showLocation := false;
    }

    /** `onClose` of the login modal. */
    method CloseLogin()
      modifies this
      ensures !showLogin
      ensures menuOpen == old(menuOpen) && showLocation == old(showLocation)
      ensures selectedLocation == old(selectedLocation) && searchValue == old(searchValue)
    {
      showLogin := false;
    }

    /** Runs the callbacks a picker handler fired. */
    method DeliverPicker(e: Effects)
      modifies this
      ensures e.chosen.Some? ==> selectedLocation == e.chosen.value
      ensures e.chosen.None? ==> selectedLocation == old(selectedLocation)
      ensures showLocation == (old(showLocation) && e.chosen.None? && !e.close)
      ensures menuOpen == old(menuOpen) && showLogin == old(showLogin) && searchValue == old(searchValue)
    {
      if e.chosen.Some? {
        SelectLocation(e.chosen.value);
      }
      if e.close {
        ClosePicker();
      }
    }

    // ---- the popups' handlers, as the bar sees them ----

    /** Choosing a suggestion: it becomes the selected location, the picker
        closes and its search is cleared. */
    method PickerSelect(value: string)
      requires Valid()
      modifies this, picker
      ensures Valid()
      ensures selectedLocation == value && !showLocation
      ensures picker.searchValue == "" && picker.options == [] && picker.loading == old(picker.loading)
      ensures menuOpen == old(menuOpen) && showLogin == old(showLogin) && searchValue == old(searchValue)
    {
      var e := picker.HandleSelect(value);
      DeliverPicker(e);
    }

    /** Clicking a preset city: it becomes the selected location and the
        picker closes; the picker's search is left as it was. */
    method PickerCityClick(city: string)
      requires Valid()
      modifies this
      ensures Valid()
      ensures selectedLocation == city && !showLocation
      ensures menuOpen == old(menuOpen) && showLogin == old(showLogin) && searchValue == old(searchValue)
    {
      var e := picker.HandleCityClick(city);
      DeliverPicker(e);
    }

    /** "Use current location": a usable lookup becomes the selected
        location and closes the picker; every other outcome leaves the
        location and the picker as they were and only shows a toast. */
    method PickerDetect(geolocationAvailable: bool, position: Location.PositionResult,
                        lookup: Location.LookupResult)
      returns (notice: Option<Notice>)
      requires Valid()
      modifies this, picker
      ensures Valid()
      ensures notice.Some?
      ensures !geolocationAvailable ==> notice == Some(Notice(ErrorToast, Location.UnsupportedMessage))
      ensures geolocationAvailable && position.Fix? ==> notice == Location.LookupEffects(lookup).notice
      ensures geolocationAvailable && position.PositionError? ==>
        notice == Some(Notice(ErrorToast, Location.PositionErrorMessage(position.code)))
      ensures geolocationAvailable && position.Fix? && lookup.Json? && lookup.address.Some? ==>
        selectedLocation == Location.PlaceName(lookup.address.value) && !showLocation
      ensures !(geolocationAvailable && position.Fix? && lookup.Json? && lookup.address.Some?) ==>
        selectedLocation == old(selectedLocation) && showLocation == old(showLocation)
      ensures geolocationAvailable ==> !picker.loading
      ensures !geolocationAvailable ==> picker.loading == old(picker.loading)
      ensures picker.searchValue == old(picker.searchValue) && picker.options == old(picker.options)
      ensures menuOpen == old(menuOpen) && showLogin == old(showLogin) && searchValue == old(searchValue)
    {
      var requested, e := picker.DetectLocation(geolocationAvailable, position, lookup);
      DeliverPicker(e);
      notice := e.notice;
    }

    /** Submitting the login form inside the modal (in login mode, the only
        mode that shows it): a successful login closes the modal, empties the
        form and shows the success toast; a failed one stores the error and
        leaves the form; a form that fails its rules changes nothing. */
    method LoginSubmit<T>(outcome: Api.HttpOutcome<T>) returns (errors: seq<Login.FieldError>, notice: Option<Notice>)
      requires Valid()
      requires loginPopup.isLogin
      modifies this, loginPopup, loginPopup.api, session
      ensures Valid()
      ensures errors == Login.LoginErrors(old(loginPopup.loginFields))
      ensures loginPopup.isLogin && loginPopup.registerFields == old(loginPopup.registerFields)
      ensures errors != [] ==>
        && notice == None
        && session.isLoggedIn == old(session.isLoggedIn) && showLogin == old(showLogin)
        && loginPopup.loginFields == old(loginPopup.loginFields)
        && loginPopup.api.loading == old(loginPopup.api.loading)
        && loginPopup.api.error == old(loginPopup.api.error)
      ensures errors == [] ==> loginPopup.api.Valid() && !loginPopup.api.loading
      ensures errors == [] && outcome.Response? ==>
        && session.isLoggedIn && !showLogin && AccountControl() == AvatarMenu
        && loginPopup.loginFields == Login.EmptyLogin
        && loginPopup.api.error == None
        && notice == Some(Notice(SuccessToast, Login.LoginSucceeded))
      ensures errors == [] && outcome.Rejected? ==>
        && session.isLoggedIn == old(session.isLoggedIn) && showLogin == old(showLogin)
        && loginPopup.loginFields == old(loginPopup.loginFields)
        && loginPopup.api.error == Some(Api.FailureMessage(Api.LoginOp, outcome.err))
        && notice == None
      ensures menuOpen == old(menuOpen) && showLocation == old(showLocation)
      ensures selectedLocation == old(selectedLocation) && searchValue == old(searchValue)
    {
      var out;
      errors, out := loginPopup.SubmitLogin(outcome);
      if out.close {
        CloseLogin();
      }
      notice := out.notice;
    }
  }
}
