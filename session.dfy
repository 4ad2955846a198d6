/**
 * The client's session lifecycle (contexts/AuthContext.tsx): restoring the
 * user saved in local storage, login, logout with its clearing of stored
 * data, the cross-tab storage event, the inactivity deadline, and the
 * stored-session utilities.
 *
 * Local and session storage are maps from key to text. `JSON.parse` of a
 * stored text is a `decode` parameter whose result keeps what the session
 * reads, the `id` and `role` fields; `JSON.stringify` of a user is given as
 * its text. Window events, toasts and redirects are recorded in logs, and
 * the timers are explicit calls carrying the time.
 */
module Session {
  import opened Wrappers
  import opened Text

  /** What `JSON.parse` yields for a stored text, as far as the session looks at it. */
  datatype Decoded =
    | Unparsable
      /** The text `null`, which parses without error to a value that is not an object. */
    | Null
      /** Any other parsed value; `""` stands for an absent or falsy field (and a primitive has neither). */
    | Json(id: string, role: string)

  datatype SessionUser = SessionUser(id: string, role: string)

  datatype AuthEvent =
    | UserLoggedIn(userId: string)
    | ClearAllTimers
    | UserLoggedOut(clearAllData: bool, timestamp: int)
    | UserLoggedOutByStorageChange   // the only logout event carrying a reason, 'storage_change'
    | LoggedOutToast

  datatype Redirect = Redirect(href: string, at: int)

  const UserKey: string := "safeyatra_user"

  /** The keys logout removes by name when clearing all data. */
  const FixedKeys: seq<string> :=
    ["pilgrimResponses", "commandResponses", "userPreferences", "emergencyContacts", "lastKnownLocation"]

  /** Thirty minutes, in milliseconds. */
  const InactivityLimit: int := 30 * 60 * 1000

  const RedirectDelay: int := 100

  predicate HasSessionPrefix(key: string) {
    StartsWith(key, "safeyatra_") || StartsWith(key, "pilgrim_") || StartsWith(key, "command_")
    || StartsWith(key, "auth_") || StartsWith(key, "session_")
  }

  /** Whether logout removes `key`: always the user key, and with `clearAllData` every listed or prefixed key. */
  predicate RemovedByLogout(key: string, clearAllData: bool) {
    key == UserKey || (clearAllData && (key in FixedKeys || HasSessionPrefix(key)))
  }

  /** Local storage after a logout that completes. */
  function ClearedStorage(local: map<string, string>, clearAllData: bool): (r: map<string, string>)
    ensures UserKey !in r
    ensures clearAllData ==> forall k :: k in r ==> k !in FixedKeys && !HasSessionPrefix(k)
    ensures forall k :: k in r ==> k in local && r[k] == local[k]
    ensures forall k :: k in local && !RemovedByLogout(k, clearAllData) ==> k in r
    ensures !clearAllData ==> r == local - {UserKey}
  {
    map k | k in local && !RemovedByLogout(k, clearAllData) :: local[k]
  }

  /** `isUserSessionValid`: a stored user that parses and has an id and a role. */
  predicate IsUserSessionValid(local: map<string, string>, decode: string -> Decoded)
    ensures IsUserSessionValid(local, decode) <==>
      CurrentUser(local, decode).Some? && CurrentUser(local, decode).value.id != ""
      && CurrentUser(local, decode).value.role != ""
  {
    UserKey in local && local[UserKey] != ""
    && decode(local[UserKey]).Json? && decode(local[UserKey]).id != "" && decode(local[UserKey]).role != ""
  }

  /** `getCurrentUser`: whatever the stored user text parses to, without validation. */
  function CurrentUser(local: map<string, string>, decode: string -> Decoded): (r: Option<Decoded>)
    ensures r.Some? <==> UserKey in local && local[UserKey] != "" && decode(local[UserKey]).Json?
    ensures r.Some? ==> r.value == decode(local[UserKey])
  {
    if UserKey in local && local[UserKey] != "" && decode(local[UserKey]).Json? then Some(decode(local[UserKey]))
    else None
  }

  /** `hasRole`: the current user's role equals the required (non-empty) role. */
  predicate HasRole(local: map<string, string>, decode: string -> Decoded, requiredRole: string)
    requires requiredRole != ""
    ensures HasRole(local, decode, requiredRole) ==>
      UserKey in local && decode(local[UserKey]).Json? && decode(local[UserKey]).role == requiredRole
  {
    CurrentUser(local, decode).Some? && CurrentUser(local, decode).value.role == requiredRole
  }

  predicate IsAdmin(local: map<string, string>, decode: string -> Decoded) {
    HasRole(local, decode, "admin") || HasRole(local, decode, "administrator") || HasRole(local, decode, "command")
  }

  predicate IsPilgrim(local: map<string, string>, decode: string -> Decoded) {
    HasRole(local, decode, "pilgrim") || HasRole(local, decode, "user")
  }

  /** Administrator roles are admin, administrator and command; pilgrim roles pilgrim and user; none is both. */
  lemma RolePredicates(local: map<string, string>, decode: string -> Decoded)
    ensures IsAdmin(local, decode) <==>
      CurrentUser(local, decode).Some? && CurrentUser(local, decode).value.role in {"admin", "administrator", "command"}
    ensures IsPilgrim(local, decode) <==>
      CurrentUser(local, decode).Some? && CurrentUser(local, decode).value.role in {"pilgrim", "user"}
    ensures !(IsAdmin(local, decode) && IsPilgrim(local, decode))
  {
  }

  /** The stored user has at most one role. */
  lemma OneRoleAtATime(local: map<string, string>, decode: string -> Decoded, r1: string, r2: string)
    requires r1 != "" && r2 != ""
    requires HasRole(local, decode, r1) && HasRole(local, decode, r2)
    ensures r1 == r2
  {
  }

  /** A user with a role but no id has a role without a valid session. */
  lemma RoleWithoutValidSession(local: map<string, string>, decode: string -> Decoded)
    requires UserKey in local && local[UserKey] != ""
    requires decode(local[UserKey]) == Json("", "pilgrim")
    ensures HasRole(local, decode, "pilgrim") && !IsUserSessionValid(local, decode)
  {
  }

  /** After a completed logout no role is held. */
  lemma NoRoleAfterLogout(local: map<string, string>, clearAllData: bool, decode: string -> Decoded, role: string)
    requires role != ""
    ensures !HasRole(ClearedStorage(local, clearAllData), decode, role)
  {
  }

  /**
   * Local storage after another tab's write, as a `storage` event reports
   * it: no key is `clear()`, no new value a removal, otherwise a set.
   */
  function OtherTabWrite(local: map<string, string>, key: Option<string>, newValue: Option<string>)
    : (r: map<string, string>)
    ensures key.None? ==> r == map[]
    ensures key.Some? && newValue.None? ==> key.value !in r && forall k :: k in r <==> k in local && k != key.value
    ensures key.Some? && newValue.Some? ==> key.value in r && r[key.value] == newValue.value
    ensures key.Some? ==> forall k :: k in local && k != key.value ==> k in r && r[k] == local[k]
  {
    if key.None? then map[]
    else if newValue.None? then local - {key.value}
    else local[key.value := newValue.value]
  }

  /** After another tab removed the stored user, or cleared the storage, no session is valid and no role is held. */
  lemma NoRoleAfterCrossTabLogout(local: map<string, string>, key: Option<string>, decode: string -> Decoded,
                                  role: string)
    requires role != ""
    requires key == Some(UserKey) || key.None?
    ensures !IsUserSessionValid(OtherTabWrite(local, key, None), decode)
    ensures !HasRole(OtherTabWrite(local, key, None), decode, role)
  {
  }

  /** A completed logout always leaves a stored session that is not valid. */
  lemma LogoutInvalidatesSession(local: map<string, string>, clearAllData: bool, decode: string -> Decoded)
    ensures !IsUserSessionValid(ClearedStorage(local, clearAllData), decode)
  {
  }

  /** Removes each of `FixedKeys`. */
  method ClearListed(local: map<string, string>) returns (r: map<string, string>)
    ensures r == map k | k in local && k !in FixedKeys :: local[k]
  {
    r := local;
    var i := 0;
    while i < |FixedKeys|
      invariant 0 <= i <= |FixedKeys|
      invariant r == map k | k in local && k !in FixedKeys[..i] :: local[k]
    {
      r := r - {FixedKeys[i]};
      i := i + 1;
    }
    assert FixedKeys[..|FixedKeys|] == FixedKeys;
  }

  /** The scan over `localStorage.key(i)` collecting the keys with a session prefix. */
  method PrefixedKeys(local: map<string, string>) returns (keys: seq<string>)
    ensures forall k :: k in keys <==> k in local && HasSessionPrefix(k)
  {
    keys := [];
    var pending := local.Keys;
    while pending != {}
      invariant pending <= local.Keys
      invariant forall k :: k in keys <==> k in local && k !in pending && HasSessionPrefix(k)
      decreases |pending|
    {
      var key :| key in pending;
      if HasSessionPrefix(key) {
        keys := keys + [key];
      }
      pending := pending - {key};
    }
  }

  /** Removes every key of `keys`. */
  method RemoveKeys(local: map<string, string>, keys: seq<string>) returns (r: map<string, string>)
    ensures r == map k | k in local && k !in keys :: local[k]
  {
    r := local;
    var j := 0;
    while j < |keys|
      invariant 0 <= j <= |keys|
      invariant r == map k | k in local && k !in keys[..j] :: local[k]
    {
      r := r - {keys[j]};
      j := j + 1;
    }
    assert keys[..|keys|] == keys;
  }

  /** Logout's removals from local storage: the user key, then with `clearAllData` the listed and the prefixed keys. */
  method ClearForLogout(local: map<string, string>, clearAllData: bool) returns (r: map<string, string>)
    ensures r == ClearedStorage(local, clearAllData)
  {
    r := local - {UserKey};
    if clearAllData {
      var listed := ClearListed(r);
      var keysToRemove := PrefixedKeys(listed);
      r := RemoveKeys(listed, keysToRemove);
    }
    assert forall k :: k in r <==> k in ClearedStorage(local, clearAllData);
  }

  datatype LogoutOutcome = LoggedOut | LogoutError

  /** The provider's state together with the storage and the window it acts on. */
  class AuthProvider {
    var user: Option<SessionUser>
    var isLoading: bool
    var local: map<string, string>
    var session: map<string, string>
    /** When the inactivity timer fires, if it is armed. */
    var deadline: Option<int>
    var events: seq<AuthEvent>
    var redirect: Option<Redirect>
    var reloadRequested: bool

    /** The inactivity timer is armed exactly while there is a user. */
    ghost predicate Valid()
      reads this
    {
      deadline.Some? <==> user.Some?
    }

    /** `isAuthenticated`. */
    predicate IsAuthenticated()
      reads this
      ensures Valid() ==> (IsAuthenticated() <==> deadline.Some?)
    {
      user.Some?
    }

    constructor (local: map<string, string>, session: map<string, string>)
      ensures Valid()
      ensures user == None && isLoading && deadline == None
      ensures this.local == local && this.session == session
      ensures events == [] && redirect == None && !reloadRequested
    {
      user, isLoading, deadline := None, true, None;
      this.local, this.session := local, session;
      events, redirect, reloadRequested := [], None, false;
    }

    /**
     * `initializeAuth`: a stored user that parses and has an id and a role
     * becomes the user (arming the inactivity timer); any other non-empty
     * stored text is removed. Loading ends either way.
     */
    method Restore(decode: string -> Decoded, now: int)
      requires Valid() && user.None?
      modifies this
      ensures Valid() && !isLoading
      ensures user.Some? <==> IsUserSessionValid(old(local), decode)
      ensures user.Some? ==>
        (&& user.value == SessionUser(decode(old(local)[UserKey]).id, decode(old(local)[UserKey]).role)
         && local == old(local) && deadline == Some(now + InactivityLimit))
      ensures user.None? ==>
        local == (if UserKey in old(local) && old(local)[UserKey] != "" then old(local) - {UserKey} else old(local))
      ensures session == old(session) && events == old(events) && redirect == old(redirect)
      ensures reloadRequested == old(reloadRequested)
    {
      if UserKey in local && local[UserKey] != "" {
        var parsed := decode(local[UserKey]);
        if parsed.Json? && parsed.id != "" && parsed.role != "" {
          user := Some(SessionUser(parsed.id, parsed.role));
          deadline := Some(now + InactivityLimit);
        } else {
          local := local - {UserKey};
        }
      }
      isLoading := false;
    }

    /**
     * `login`: the user is set (re-arming the inactivity timer) and saved
     * under the user key; when the save fails the user stays set, no event
     * is sent and the call fails.
     */
    method Login(u: SessionUser, json: string, writable: bool, now: int) returns (saved: bool)
      requires Valid()
      modifies this
      ensures Valid()
      ensures user == Some(u) && deadline == Some(now + InactivityLimit)
      ensures saved == writable
      ensures saved ==> local == old(local)[UserKey := json] && events == old(events) + [UserLoggedIn(u.id)]
      ensures !saved ==> local == old(local) && events == old(events)
      ensures session == old(session) && isLoading == old(isLoading) && redirect == old(redirect)
      ensures reloadRequested == old(reloadRequested)
    {
      user := Some(u);
      deadline := Some(now + InactivityLimit);
      if !writable {
        return false;
      }
      local := local[UserKey := json];
      events := events + [UserLoggedIn(u.id)];
      return true;
    }

    /**
     * `logout`. The user and the user key always go. With `clearAllData`
     * the listed keys and every prefixed key are removed from local storage
     * and session storage is emptied; the events are sent, the redirect is
     * scheduled 100 ms later and the toast shown. `failure` stands for
     * storage throwing when the clearing starts: the catch removes the user
     * and the user key again and the error propagates.
     */
    method Logout(clearAllData: bool, redirectTo: Option<string>, showNotification: bool,
                  failure: bool, now: int)
      returns (outcome: LogoutOutcome)
      requires Valid()
      modifies this
      ensures Valid()
      ensures user.None? && deadline.None? && UserKey !in local && !isLoading
      ensures outcome == LogoutError <==> clearAllData && failure
      ensures outcome == LogoutError ==>
        local == old(local) - {UserKey} && session == old(session) && events == old(events)
        && redirect == old(redirect)
      ensures outcome == LoggedOut ==>
        local == ClearedStorage(old(local), clearAllData)
        && session == (if clearAllData then map[] else old(session))
        && events == old(events) + [ClearAllTimers, UserLoggedOut(clearAllData, now)]
                     + (if showNotification then [LoggedOutToast] else [])
        && redirect == (if redirectTo.Some? && redirectTo.value != ""
                        then Some(Redirect(redirectTo.value, now + RedirectDelay)) else old(redirect))
      ensures reloadRequested == old(reloadRequested)
    {
      isLoading := true;
      user := None;
      deadline := None;
      if clearAllData && failure {
        local := local - {UserKey};
        // the clearing throws; the catch removes the user and the key again
        user := None;
        local := local - {UserKey};
        isLoading := false;
        return LogoutError;
      }
      local := ClearForLogout(local, clearAllData);
      if clearAllData {
        session := map[];
      }
      events := events + [ClearAllTimers, UserLoggedOut(clearAllData, now)];
      if redirectTo.Some? && redirectTo.value != "" {
        redirect := Some(Redirect(redirectTo.value, now + RedirectDelay));
      }
      if showNotification {
        events := events + [LoggedOutToast];
      }
      isLoading := false;
      return LoggedOut;
    }

    /**
     * The `storage` listener, run after another tab wrote to the shared local
     * storage: the write is already applied here too. Only the removal of
     * the user key clears the user, with the reason `storage_change`; any
     * other event leaves the user as it was.
     */
    method StorageChanged(key: Option<string>, newValue: Option<string>)
      requires Valid()
      modifies this
      ensures Valid()
      ensures key == Some(UserKey) && newValue.None? ==>
        user.None? && deadline.None? && events == old(events) + [UserLoggedOutByStorageChange]
      ensures !(key == Some(UserKey) && newValue.None?) ==>
        user == old(user) && deadline == old(deadline) && events == old(events)
      ensures local == OtherTabWrite(old(local), key, newValue)
      ensures session == old(session) && isLoading == old(isLoading)
      ensures redirect == old(redirect) && reloadRequested == old(reloadRequested)
    {
      local := OtherTabWrite(local, key, newValue);
      if key == Some(UserKey) && newValue.None? {
        user := None;
        deadline := None;
        events := events + [UserLoggedOutByStorageChange];
      }
    }

    /** An activity event: listened to only while there is a user, it pushes the deadline to 30 minutes from now. */
    method Activity(now: int)
      requires Valid()
      modifies this
      ensures Valid()
      ensures old(user).Some? ==> deadline == Some(now + InactivityLimit)
      ensures old(user).None? ==> deadline == old(deadline)
      ensures user == old(user) && local == old(local) && session == old(session)
      ensures events == old(events) && isLoading == old(isLoading) && redirect == old(redirect)
      ensures reloadRequested == old(reloadRequested)
    {
      if user.Some? {
        deadline := Some(now + InactivityLimit);
      }
    }

    /**
     * The inactivity timer: once the deadline has passed it calls logout
     * with all data cleared, the notification shown and a redirect to "/".
     * It sends the same logout event as a manual logout, without a reason.
     */
    method InactivityTick(now: int, failure: bool) returns (fired: bool)
      requires Valid()
      modifies this
      ensures Valid()
      ensures fired <==> old(deadline).Some? && now >= old(deadline).value
      ensures !fired ==>
        user == old(user) && deadline == old(deadline) && local == old(local) && session == old(session)
        && events == old(events) && redirect == old(redirect) && isLoading == old(isLoading)
      ensures fired ==> user.None? && deadline.None? && UserKey !in local
      ensures fired && !failure ==>
        local == ClearedStorage(old(local), true) && session == map[]
        && events == old(events) + [ClearAllTimers, UserLoggedOut(true, now), LoggedOutToast]
        && redirect == Some(Redirect("/", now + RedirectDelay))
      ensures |old(events)| <= |events| && UserLoggedOutByStorageChange !in events[|old(events)|..]
      ensures reloadRequested == old(reloadRequested)
    {
      fired := deadline.Some? && now >= deadline.value;
      if fired {
        var _ := Logout(true, Some("/"), true, failure, now);
      }
    }

    /** `clearAllUserData`: both storages are emptied and the page is reloaded. */
    method ClearAllUserData()
      modifies this
      ensures local == map[] && session == map[] && reloadRequested
      ensures user == old(user) && deadline == old(deadline) && events == old(events)
      ensures isLoading == old(isLoading) && redirect == old(redirect)
    {
      local := map[];
      session := map[];
      reloadRequested := true;
    }
  }
}
