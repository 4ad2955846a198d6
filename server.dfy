/**
 * The demo backend (server-standalone.mjs): an in-memory store of users,
 * one-time codes, alerts, heatmap samples and command-channel messages, and
 * the route logic of `send-otp`, `verify-otp`, the pilgrim SOS and the
 * command communication channel.
 *
 * Each JavaScript `Map` is a Dafny `map` keyed by id together with the
 * sequence of its keys in insertion order, which is the order
 * `Array.from(map.values())` yields. The clock, `randomUUID` and
 * `Math.random` are parameters: `now` in epoch milliseconds, a fresh id that
 * the caller guarantees is unused, and the integer part of the random draw.
 */
module Server {
  import opened Wrappers
  import opened Text
  import opened Ordering
  import opened Schema

  /** A user as the backend stores it: the role is whatever text the request carried. */
  datatype StoredUser = StoredUser(
    id: string, name: string, role: string, verified: bool, email: Option<string>,
    phone: Option<string>, employeeId: Option<string>, createdAt: Timestamp)

  /** An alert as the backend stores it; the SOS route may store one without a location. */
  datatype StoredAlert = StoredAlert(
    id: string, alertType: AlertType, status: AlertStatus, priority: Priority,
    location: Option<GeoPoint>, description: string, reportedBy: string, timestamp: Timestamp)

  /** The alert fields `createAlert` is given; it adds the id and the timestamp. */
  datatype AlertData = AlertData(
    alertType: AlertType, status: AlertStatus, priority: Priority,
    location: Option<GeoPoint>, description: string, reportedBy: string)

  /** A command-channel message as stored; the route copies absent fields as absent. */
  datatype StoredMessage = StoredMessage(
    id: string, message: Option<string>, unit: Option<string>, userId: Option<string>,
    userName: Option<string>, priority: string, timestamp: Timestamp)

  /** The message fields `createCommunication` is given. */
  datatype MessageData = MessageData(
    message: Option<string>, unit: Option<string>, userId: Option<string>,
    userName: Option<string>, priority: string)

  datatype Overview = Overview(
    totalPilgrims: int, activeAlerts: nat, dronesActive: string, responseTime: string)

  /** All the store's fields at once, so a method can state its whole new state. */
  datatype StoreState = StoreState(
    users: map<string, StoredUser>, userOrder: seq<string>,
    otps: map<string, OtpVerification>,
    alerts: map<string, StoredAlert>, alertOrder: seq<string>,
    heatmaps: map<string, Heatmap>, heatmapOrder: seq<string>,
    communications: map<string, StoredMessage>, messageOrder: seq<string>)

  predicate Distinct(s: seq<string>) {
    forall i, j :: 0 <= i < j < |s| ==> s[i] != s[j]
  }

  /** `order` lists every key of `m` exactly once. */
  predicate Listed<V>(m: map<string, V>, order: seq<string>) {
    Distinct(order) && (forall k :: k in m ==> k in order) && (forall k :: k in order ==> k in m)
  }

  /** `Array.from(m.values())`, given the insertion order of the keys. */
  function InOrder<V>(m: map<string, V>, order: seq<string>): seq<V>
    requires forall k :: k in order ==> k in m
  {
    seq(|order|, i requires 0 <= i < |order| => m[order[i]])
  }

  lemma ValuesInOrder<V>(m: map<string, V>, order: seq<string>)
    requires Listed(m, order)
    ensures forall v :: v in InOrder(m, order) <==> v in m.Values
  {
    forall v
      ensures v in InOrder(m, order) <==> v in m.Values
    {
      if v in m.Values {
        var k :| k in m && m[k] == v;
        var i :| 0 <= i < |order| && order[i] == k;
        assert InOrder(m, order)[i] == v;
      }
    }
  }

  /**
   * `.filter(alert => alert.status === 'active')`: the active alerts of `s`,
   * in their order (see the lemmas below).
   */
  function ActiveOnly(s: seq<StoredAlert>): (r: seq<StoredAlert>)
    ensures |r| <= |s|
    ensures forall a :: a in r <==> a in s && a.status == Active
  {
    if s == [] then []
    else ActiveOnly(s[..|s| - 1]) + (if s[|s| - 1].status == Active then [s[|s| - 1]] else [])
  }

  /** The filter keeps each active alert exactly as often as it occurs, and no other. */
  lemma {:induction false} ActiveOnlyMultiplicity(s: seq<StoredAlert>, a: StoredAlert)
    ensures multiset(ActiveOnly(s))[a] == if a.status == Active then multiset(s)[a] else 0
  {
    if s != [] {
      assert s == s[..|s| - 1] + [s[|s| - 1]];
      ActiveOnlyMultiplicity(s[..|s| - 1], a);
    }
  }

  /** An alert appended to the list is kept after the earlier ones exactly when it is active. */
  lemma ActiveOnlyAppend(s: seq<StoredAlert>, a: StoredAlert)
    ensures ActiveOnly(s + [a]) == ActiveOnly(s) + (if a.status == Active then [a] else [])
  {
    assert (s + [a])[..|s|] == s;
  }

  /** The filter distributes over concatenation: it keeps the order of the list it filters. */
  lemma {:induction false} ActiveOnlyConcat(s: seq<StoredAlert>, t: seq<StoredAlert>)
    ensures ActiveOnly(s + t) == ActiveOnly(s) + ActiveOnly(t)
  {
    if t == [] {
      assert s + t == s;
    } else {
      var p, a := t[..|t| - 1], t[|t| - 1];
      assert t == p + [a];
      var x := if a.status == Active then [a] else [];
      calc {
        ActiveOnly(s + t);
        { assert s + t == (s + p) + [a]; }
        ActiveOnly((s + p) + [a]);
        { ActiveOnlyAppend(s + p, a); }
        ActiveOnly(s + p) + x;
        { ActiveOnlyConcat(s, p); }
        ActiveOnly(s) + ActiveOnly(p) + x;
        { ActiveOnlyAppend(p, a); }
        ActiveOnly(s) + ActiveOnly(t);
      }
    }
  }

  /** Listing a map extended by a key not yet listed appends that key's value. */
  lemma InOrderAppend<V>(m: map<string, V>, order: seq<string>, k: string, v: V)
    requires forall j :: j in order ==> j in m
    requires k !in order
    ensures InOrder(m[k := v], order + [k]) == InOrder(m, order) + [v]
  {
  }

  /** The number of active alerts, counted over the keys rather than the list. */
  lemma {:induction false} ActiveCount(m: map<string, StoredAlert>, order: seq<string>)
    requires Distinct(order) && forall k :: k in order ==> k in m
    ensures |ActiveOnly(InOrder(m, order))| == |set k | k in order && m[k].status == Active|
  {
    if order != [] {
      var p := order[..|order| - 1];
      var last := order[|order| - 1];
      assert order == p + [last];
      assert InOrder(m, order) == InOrder(m, p) + [m[last]];
      ActiveOnlyAppend(InOrder(m, p), m[last]);
      ActiveCount(m, p);
      ActiveKeysAppend(m, p, last);
    }
  }

  /** Listing one more key adds one active key exactly when its alert is active. */
  lemma ActiveKeysAppend(m: map<string, StoredAlert>, p: seq<string>, last: string)
    requires last !in p && last in m && forall k :: k in p ==> k in m
    ensures |set k | k in p + [last] && m[k].status == Active|
         == |set k | k in p && m[k].status == Active| + (if m[last].status == Active then 1 else 0)
  {
    var all := set k | k in p + [last] && m[k].status == Active;
    var before := set k | k in p && m[k].status == Active;
    if m[last].status == Active {
      assert all == before + {last};
    } else {
      assert all == before;
    }
  }

  predicate MatchesIdentifier(u: StoredUser, identifier: string) {
    u.email == Some(identifier) || u.phone == Some(identifier)
  }

  /** Index of the first user whose email or phone equals `identifier` (`Array.find`). */
  function FindUser(s: seq<StoredUser>, identifier: string): (r: Option<nat>)
    ensures r.Some? ==> (r.value < |s| && MatchesIdentifier(s[r.value], identifier)
      && forall j :: 0 <= j < r.value ==> !MatchesIdentifier(s[j], identifier))
    ensures r.None? ==> forall j :: 0 <= j < |s| ==> !MatchesIdentifier(s[j], identifier)
  {
    if s == [] then None
    else if MatchesIdentifier(s[0], identifier) then Some(0)
    else match FindUser(s[1..], identifier)
      case None => None
      case Some(i) => Some(i + 1)
  }

  /** Appending a user never changes an earlier match, and a first match is found at the end. */
  lemma {:induction false} FindUserAppend(s: seq<StoredUser>, u: StoredUser, identifier: string)
    ensures FindUser(s, identifier).Some? ==> FindUser(s + [u], identifier) == FindUser(s, identifier)
    ensures FindUser(s, identifier).None? && MatchesIdentifier(u, identifier)
      ==> FindUser(s + [u], identifier) == Some(|s|)
  {
    if s != [] {
      assert (s + [u])[1..] == s[1..] + [u];
      FindUserAppend(s[1..], u, identifier);
    }
  }

  /** `value || fallback` for a request field: an absent or empty text falls back. */
  function OrElse(value: Option<string>, fallback: string): (r: string)
    ensures value.Some? && value.value != "" ==> r == value.value
    ensures value.None? || value.value == "" ==> r == fallback
  {
    if value.Some? && value.value != "" then value.value else fallback
  }

  /** True when the stored entry for `identifier` holds `otp` and has not yet expired at `now`. */
  predicate OtpAccepted(otps: map<string, OtpVerification>, identifier: string, otp: string, now: int) {
    identifier in otps && otps[identifier].otp == otp && now < otps[identifier].expiresAt
  }

  /** Once a code is refused for lateness it is refused at every later time; codes never revive. */
  lemma ExpiryIsFinal(otps: map<string, OtpVerification>, identifier: string, otp: string, now: int, later: int)
    requires identifier in otps && now >= otps[identifier].expiresAt && later >= now
    ensures !OtpAccepted(otps, identifier, otp, now) && !OtpAccepted(otps, identifier, otp, later)
  {
  }

  /** Without a stored entry, or with a different code, nothing is accepted. */
  lemma OnlyTheStoredCodeIsAccepted(otps: map<string, OtpVerification>, identifier: string, otp: string, now: int)
    requires OtpAccepted(otps, identifier, otp, now)
    ensures identifier in otps && otp == otps[identifier].otp
    ensures forall t :: t <= now ==> OtpAccepted(otps, identifier, otp, t)
  {
  }

  /** The entry for `identifier` with `verified` set; nothing else changes. */
  function MarkVerified(otps: map<string, OtpVerification>, identifier: string)
    : (r: map<string, OtpVerification>)
    requires identifier in otps
    ensures r.Keys == otps.Keys
    ensures r[identifier] == otps[identifier].(verified := true)
    ensures forall k :: k in otps && k != identifier ==> r[k] == otps[k]
  {
    otps[identifier := otps[identifier].(verified := true)]
  }

  /**
   * A successful verification does not consume the code: the same code is
   * accepted again at any time before the expiry.
   */
  lemma VerifyDoesNotConsume(
    otps: map<string, OtpVerification>, identifier: string, otp: string, now: int, later: int)
    requires OtpAccepted(otps, identifier, otp, now)
    requires later < otps[identifier].expiresAt
    ensures OtpAccepted(MarkVerified(otps, identifier), identifier, otp, later)
  {
  }

  /**
   * After a code is stored for `identifier` at `issued`, the caller's `otp` at
   * `now` is accepted exactly when it is that code and `now` is strictly
   * before `issued + OtpLifetime` (ten minutes); codes of other identifiers are not affected.
   */
  lemma StoreThenVerify(
    otps: map<string, OtpVerification>, identifier: string, code: string, issued: int,
    otp: string, now: int, other: string)
    requires other != identifier
    ensures OtpAccepted(otps[identifier := OtpVerification(identifier, code, issued + OtpLifetime, false)],
                        identifier, otp, now)
      <==> otp == code && now < issued + OtpLifetime
    ensures OtpAccepted(otps[identifier := OtpVerification(identifier, code, issued + OtpLifetime, false)],
                        other, otp, now)
      <==> OtpAccepted(otps, other, otp, now)
  {
  }

  /** Ten minutes, in milliseconds. */
  const OtpLifetime: int := 10 * 60 * 1000

  /** The code `send-otp` issues for the integer part `draw` of `Math.random() * 900000`. */
  function OtpCode(draw: nat): (code: string)
    requires draw < 900000
    ensures |code| == 6
    ensures forall i :: 0 <= i < 6 ==> IsDigit(code[i])
    ensures 100000 <= DecimalValue(code) <= 999999
    ensures DecimalValue(code) == 100000 + draw
  {
    assert Pow10(1) == 10 && Pow10(2) == 100 && Pow10(3) == 1000 && Pow10(4) == 10000;
    assert Pow10(5) == 100000 && Pow10(6) == 1000000;
    DecimalLength(100000 + draw, 6);
    DecimalRoundTrip(100000 + draw);
    NatToString(100000 + draw)
  }

  /** Distinct draws give distinct codes. */
  lemma OtpCodeInjective(d1: nat, d2: nat)
    requires d1 < 900000 && d2 < 900000
    requires OtpCode(d1) == OtpCode(d2)
    ensures d1 == d2
  {
  }

  /** The user `verify-otp` creates for an unknown identifier with a present role. */
  function NewUser(identifier: string, role: string, employeeId: Option<string>, id: string, now: Timestamp)
    : (u: StoredUser)
    ensures u.id == id && u.role == role && u.verified && u.createdAt == now
    ensures u.email.Some? <==> '@' in identifier
    ensures u.phone.Some? <==> '@' !in identifier
    ensures MatchesIdentifier(u, identifier)
    ensures role == "pilgrim" ==> u.name == "Pilgrim User"
    ensures role != "pilgrim" ==> u.name == Capitalize(role) + " Officer"
    ensures u.employeeId.Some? <==> employeeId.Some? && employeeId.value != ""
    ensures u.employeeId.Some? ==> u.employeeId == employeeId
  {
    var name := if role == "pilgrim" then "Pilgrim User" else Capitalize(role) + " Officer";
    StoredUser(
      id, name, role, true,
      if '@' in identifier then Some(identifier) else None,
      if '@' in identifier then None else Some(identifier),
      if employeeId.Some? && employeeId.value != "" then employeeId else None,
      now)
  }

  /** The alert the SOS route builds from the request body. */
  function SosAlertData(location: Option<GeoPoint>, description: Option<string>, userId: Option<string>)
    : (a: AlertData)
    ensures a.alertType == Emergency && a.status == Active && a.priority == Critical
    ensures a.location == location
    ensures a.description == OrElse(description, "SOS Emergency Alert")
    ensures a.reportedBy == OrElse(userId, "anonymous")
  {
    AlertData(Emergency, Active, Critical, location,
              OrElse(description, "SOS Emergency Alert"), OrElse(userId, "anonymous"))
  }

  /** Sample heatmap areas seeded at start-up. */
  const SampleHeatmaps: seq<Heatmap> := [
    Heatmap("", 23.1815, 75.7804, Safe, 1000, 250, "Main Ghat", 0),
    Heatmap("", 23.1820, 75.7800, Moderate, 800, 600, "Bridge Junction", 0),
    Heatmap("", 23.1810, 75.7810, Crowded, 1200, 1100, "Temple Complex", 0),
    Heatmap("", 23.1825, 75.7795, Safe, 500, 150, "Parking Area", 0),
    Heatmap("", 23.1830, 75.7815, Moderate, 600, 400, "Food Court", 0)
  ]

  /** Sample alerts seeded at start-up. */
  const SampleAlerts: seq<AlertData> := [
    AlertData(MedicalAlert, Active, High,
              Some(GeoPoint(23.1815, 75.7804, Some("Main Ghat Area"))),
              "Cardiac incident reported at Main Ghat Area", "user1"),
    AlertData(Crowd, Active, Medium,
              Some(GeoPoint(23.1823, 75.7798, Some("Bridge Junction"))),
              "Overcrowding detected at Bridge Junction", "system")
  ]

  function StoreAlertData(a: AlertData, id: string, now: Timestamp): StoredAlert {
    StoredAlert(id, a.alertType, a.status, a.priority, a.location, a.description, a.reportedBy, now)
  }

  function StoreMessageData(m: MessageData, id: string, now: Timestamp): StoredMessage {
    StoredMessage(id, m.message, m.unit, m.userId, m.userName, m.priority, now)
  }

  function MessageTime(m: StoredMessage): int {
    m.timestamp
  }

  /** The sample heatmap areas stored one by one under the given ids, stamped `now`. */
  method SeedHeatmaps(heatmapIds: seq<string>, now: Timestamp) returns (hs: map<string, Heatmap>)
    requires |heatmapIds| == 5 && Distinct(heatmapIds)
    ensures Listed(hs, heatmapIds)
    ensures forall i :: 0 <= i < 5 ==> hs[heatmapIds[i]] == SampleHeatmaps[i].(id := heatmapIds[i], timestamp := now)
    ensures forall k :: k in hs ==> hs[k].id == k
  {
    hs := map[];
    var i := 0;
    while i < 5
      invariant 0 <= i <= 5
      invariant Listed(hs, heatmapIds[..i])
      invariant forall j :: 0 <= j < i ==>
        hs[heatmapIds[j]] == SampleHeatmaps[j].(id := heatmapIds[j], timestamp := now)
    {
      hs := hs[heatmapIds[i] := SampleHeatmaps[i].(id := heatmapIds[i], timestamp := now)];
      i := i + 1;
    }
    assert heatmapIds[..5] == heatmapIds;
  }

  class MemStorage {
    var users: map<string, StoredUser>
    var userOrder: seq<string>
    var otps: map<string, OtpVerification>
    var alerts: map<string, StoredAlert>
    var alertOrder: seq<string>
    var heatmaps: map<string, Heatmap>
    var heatmapOrder: seq<string>
    var communications: map<string, StoredMessage>
    var messageOrder: seq<string>

    /** Every map is listed by its order sequence, and every record sits under its own id. */
    ghost predicate Valid()
      reads this
    {
      && Listed(users, userOrder) && Listed(alerts, alertOrder)
      && Listed(heatmaps, heatmapOrder) && Listed(communications, messageOrder)
      && (forall k :: k in users ==> users[k].id == k)
      && (forall k :: k in alerts ==> alerts[k].id == k)
      && (forall k :: k in heatmaps ==> heatmaps[k].id == k)
      && (forall k :: k in communications ==> communications[k].id == k)
      && (forall k :: k in otps ==> otps[k].identifier == k)
    }

    function State(): StoreState
      reads this
    {
      StoreState(users, userOrder, otps, alerts, alertOrder, heatmaps, heatmapOrder,
                 communications, messageOrder)
    }

    /**
     * The store with its sample data: five heatmap areas and two active
     * alerts under the given fresh ids, stamped `now`; no users, codes or
     * messages.
     */
    constructor (heatmapIds: seq<string>, alertIds: seq<string>, now: Timestamp)
      requires |heatmapIds| == 5 && Distinct(heatmapIds)
      requires |alertIds| == 2 && Distinct(alertIds)
      ensures Valid()
      ensures users == map[] && userOrder == [] && otps == map[]
      ensures communications == map[] && messageOrder == []
      ensures heatmapOrder == heatmapIds && alertOrder == alertIds
      ensures forall i :: 0 <= i < 5 ==>
        heatmaps[heatmapIds[i]] == SampleHeatmaps[i].(id := heatmapIds[i], timestamp := now)
      ensures forall i :: 0 <= i < 2 ==>
        alerts[alertIds[i]] == StoreAlertData(SampleAlerts[i], alertIds[i], now)
      ensures |ActiveAlerts()| == 2
    {
      users, userOrder, otps := map[], [], map[];
      communications, messageOrder := map[], [];
      var hs := SeedHeatmaps(heatmapIds, now);
      heatmaps, heatmapOrder := hs, heatmapIds;
      var a0 := StoreAlertData(SampleAlerts[0], alertIds[0], now);
      var a1 := StoreAlertData(SampleAlerts[1], alertIds[1], now);
      alerts := map[alertIds[0] := a0, alertIds[1] := a1];
      alertOrder := alertIds;
      new;
      ActiveCount(alerts, alertOrder);
      assert (set k | k in alertOrder && alerts[k].status == Active) == {alertIds[0], alertIds[1]};
    }

    /** `getUserByIdentifier`: the first user, in creation order, whose email or phone is `identifier`. */
    function UserByIdentifier(identifier: string): (r: Option<StoredUser>)
      reads this
      requires Valid()
      ensures r.Some? ==> r.value in users.Values && MatchesIdentifier(r.value, identifier)
      ensures r.None? ==> forall u :: u in users.Values ==> !MatchesIdentifier(u, identifier)
      ensures var found := FindUser(InOrder(users, userOrder), identifier);
        (r.None? <==> found.None?) && (found.Some? ==> r == Some(users[userOrder[found.value]]))
    {
      ValuesInOrder(users, userOrder);
      var s := InOrder(users, userOrder);
      match FindUser(s, identifier)
      case None => None
      case Some(i) => Some(s[i])
    }

    /** `createUser`: the given fields plus a fresh id and the creation time; no other user changes. */
    method CreateUser(name: string, role: string, verified: bool, email: Option<string>, phone: Option<string>,
                      employeeId: Option<string>, id: string, now: Timestamp)
      returns (u: StoredUser)
      requires Valid() && id !in users
      modifies this
      ensures Valid()
      ensures u == StoredUser(id, name, role, verified, email, phone, employeeId, now)
      ensures State() == old(State()).(users := old(users)[id := u], userOrder := old(userOrder) + [id])
      ensures forall x :: old(UserByIdentifier(x)).Some? ==> UserByIdentifier(x) == old(UserByIdentifier(x))
    {
      u := StoredUser(id, name, role, verified, email, phone, employeeId, now);
      InOrderAppend(users, userOrder, id, u);
      users := users[id := u];
      userOrder := userOrder + [id];
      forall x | old(UserByIdentifier(x)).Some?
        ensures UserByIdentifier(x) == old(UserByIdentifier(x))
      {
        FindUserAppend(old(InOrder(users, userOrder)), u, x);
      }
    }

    /** `storeOTP`: any earlier entry for `identifier` is replaced by an unverified one. */
    method StoreOtp(identifier: string, otp: string, expiresAt: int)
      requires Valid()
      modifies this
      ensures Valid()
      ensures State() == old(State()).(otps := old(otps)[identifier := OtpVerification(identifier, otp, expiresAt, false)])
    {
      otps := otps[identifier := OtpVerification(identifier, otp, expiresAt, false)];
    }

    /**
     * `verifyOTP`: true exactly when the stored code for `identifier` equals
     * `otp` and `now` is strictly before its expiry; only then is that entry
     * marked verified. The flag is never read, so the code stays usable.
     */
    method VerifyOtp(identifier: string, otp: string, now: int) returns (ok: bool)
      requires Valid()
      modifies this
      ensures Valid()
      ensures ok <==> OtpAccepted(old(otps), identifier, otp, now)
      ensures ok ==> State() == old(State()).(otps := MarkVerified(old(otps), identifier))
      ensures !ok ==> State() == old(State())
    {
      if identifier !in otps {
        return false;
      }
      var stored := otps[identifier];
      if stored.otp == otp && now < stored.expiresAt {
        otps := MarkVerified(otps, identifier);
        return true;
      }
      return false;
    }

    /** `getActiveAlerts`: exactly the stored alerts whose status is active, in creation order. */
    function ActiveAlerts(): (r: seq<StoredAlert>)
      reads this
      requires Valid()
      ensures forall a :: a in r <==> a in alerts.Values && a.status == Active
      ensures |r| == |set k | k in alerts && alerts[k].status == Active|
      ensures r == ActiveOnly(InOrder(alerts, alertOrder))
    {
      ValuesInOrder(alerts, alertOrder);
      ActiveCount(alerts, alertOrder);
      assert (set k | k in alertOrder && alerts[k].status == Active)
          == (set k | k in alerts && alerts[k].status == Active);
      ActiveOnly(InOrder(alerts, alertOrder))
    }

    /** `createAlert`: one alert is added under a fresh id; no other alert changes. */
    method CreateAlert(data: AlertData, id: string, now: Timestamp) returns (alert: StoredAlert)
      requires Valid() && id !in alerts
      modifies this
      ensures Valid()
      ensures alert == StoreAlertData(data, id, now)
      ensures State() == old(State()).(alerts := old(alerts)[id := alert], alertOrder := old(alertOrder) + [id])
      ensures ActiveAlerts() == old(ActiveAlerts()) + (if alert.status == Active then [alert] else [])
    {
      alert := StoreAlertData(data, id, now);
      InOrderAppend(alerts, alertOrder, id, alert);
      ActiveOnlyAppend(InOrder(alerts, alertOrder), alert);
      alerts := alerts[id := alert];
      alertOrder := alertOrder + [id];
    }

    /** `getHeatmapData`: every stored heatmap area, in creation order. */
    function HeatmapData(): (r: seq<Heatmap>)
      reads this
      requires Valid()
      ensures |r| == |heatmapOrder|
      ensures forall i :: 0 <= i < |r| ==> heatmapOrder[i] in heatmaps && r[i] == heatmaps[heatmapOrder[i]]
      ensures forall h :: h in r <==> h in heatmaps.Values
    {
      ValuesInOrder(heatmaps, heatmapOrder);
      InOrder(heatmaps, heatmapOrder)
    }

    /** `getCommunications`: every stored message, newest first. */
    function Communications(): (r: seq<StoredMessage>)
      reads this
      requires Valid()
      ensures |r| == |messageOrder|
      ensures forall m :: m in r <==> m in communications.Values
      ensures SortedDesc(r, MessageTime)
      ensures forall t :: WithKey(r, MessageTime, t) == WithKey(InOrder(communications, messageOrder), MessageTime, t)
    {
      ValuesInOrder(communications, messageOrder);
      var s := InOrder(communications, messageOrder);
      var r := SortDesc(s, MessageTime);
      assert forall m :: m in r <==> m in multiset(s);
      assert forall t :: WithKey(r, MessageTime, t) == WithKey(s, MessageTime, t) by {
        forall t ensures WithKey(r, MessageTime, t) == WithKey(s, MessageTime, t) {
          SortDescStable(s, MessageTime, t);
        }
      }
      r
    }

    /** `createCommunication`: one message is added under a fresh id; no other message changes. */
    method CreateCommunication(data: MessageData, id: string, now: Timestamp) returns (message: StoredMessage)
      requires Valid() && id !in communications
      modifies this
      ensures Valid()
      ensures message == StoreMessageData(data, id, now)
      ensures State() == old(State()).(communications := old(communications)[id := message],
                                       messageOrder := old(messageOrder) + [id])
    {
      message := StoreMessageData(data, id, now);
      communications := communications[id := message];
      messageOrder := messageOrder + [id];
    }

    /** `getOverviewStats`: fixed figures plus the number of active alerts. */
    function OverviewStats(): (r: Overview)
      reads this
      requires Valid()
      ensures r.activeAlerts == |set k | k in alerts && alerts[k].status == Active|
      ensures r.totalPilgrims == 2847325 && r.dronesActive == "24/28" && r.responseTime == "3m 42s"
    {
      ActiveCount(alerts, alertOrder);
      assert (set k | k in alertOrder && alerts[k].status == Active)
          == (set k | k in alerts && alerts[k].status == Active);
      Overview(2847325, |ActiveAlerts()|, "24/28", "3m 42s")
    }
  }

  // ---------------------------------------------------------------- routes

  datatype SendOtpResponse = OtpSent(message: string, otp: string, expiresIn: string)

  /**
   * `POST /api/auth/send-otp`: a six-digit code valid for ten minutes is
   * stored for the identifier and echoed back in the response.
   */
  method SendOtp(storage: MemStorage, identifier: string, draw: nat, now: int)
    returns (resp: SendOtpResponse)
    requires storage.Valid() && draw < 900000
    modifies storage
    ensures storage.Valid()
    ensures resp == OtpSent("OTP sent successfully", OtpCode(draw), "10 minutes")
    ensures storage.State() == old(storage.State()).(otps := old(storage.otps)[identifier :=
      OtpVerification(identifier, OtpCode(draw), now + OtpLifetime, false)])
  {
    var otp := OtpCode(draw);
    storage.StoreOtp(identifier, otp, now + OtpLifetime);
    resp := OtpSent("OTP sent successfully", otp, "10 minutes");
  }

  datatype VerifyOtpResponse =
    | LoginSuccessful(user: StoredUser)
    | InvalidOrExpired   // 400 "Invalid or expired OTP"
    | AuthenticationFailed   // 500 "Authentication failed"

  /**
   * `POST /api/auth/verify-otp`. A rejected code answers 400 and changes
   * nothing. An accepted one reuses the first user matching the identifier,
   * or creates exactly one; when no user matches and the request has no
   * role, building the name fails and the route answers 500, with the code
   * already marked verified and no user created.
   */
  method VerifyOtpRoute(storage: MemStorage, identifier: string, otp: string, role: Option<string>,
                        employeeId: Option<string>, freshId: string, now: Timestamp)
    returns (resp: VerifyOtpResponse)
    requires storage.Valid() && freshId !in storage.users
    modifies storage
    ensures storage.Valid()
    ensures !OtpAccepted(old(storage.otps), identifier, otp, now) ==>
      resp == InvalidOrExpired && storage.State() == old(storage.State())
    ensures OtpAccepted(old(storage.otps), identifier, otp, now) ==>
      storage.otps == MarkVerified(old(storage.otps), identifier)
      && storage.alerts == old(storage.alerts) && storage.communications == old(storage.communications)
      && storage.heatmaps == old(storage.heatmaps)
    ensures OtpAccepted(old(storage.otps), identifier, otp, now) && old(storage.UserByIdentifier(identifier)).Some? ==>
      resp == LoginSuccessful(old(storage.UserByIdentifier(identifier)).value)
      && storage.users == old(storage.users) && storage.userOrder == old(storage.userOrder)
    ensures (OtpAccepted(old(storage.otps), identifier, otp, now) && old(storage.UserByIdentifier(identifier)).None?
      && role.None?) ==>
      resp == AuthenticationFailed
      && storage.users == old(storage.users) && storage.userOrder == old(storage.userOrder)
    ensures (OtpAccepted(old(storage.otps), identifier, otp, now) && old(storage.UserByIdentifier(identifier)).None?
      && role.Some?) ==>
      resp == LoginSuccessful(NewUser(identifier, role.value, employeeId, freshId, now))
      && storage.users == old(storage.users)[freshId := NewUser(identifier, role.value, employeeId, freshId, now)]
      && storage.userOrder == old(storage.userOrder) + [freshId]
  {
    var isValid := storage.VerifyOtp(identifier, otp, now);
    if !isValid {
      return InvalidOrExpired;
    }
    var user := storage.UserByIdentifier(identifier);
    if user.Some? {
      return LoginSuccessful(user.value);
    }
    if role.None? {
      return AuthenticationFailed;
    }
    var u := NewUser(identifier, role.value, employeeId, freshId, now);
    var created := storage.CreateUser(u.name, u.role, u.verified, u.email, u.phone, u.employeeId, freshId, now);
    return LoginSuccessful(created);
  }

  /**
   * Logging in twice with the same identifier finds the user the first login
   * created: after a user matching `identifier` is appended to a list with no
   * match, the lookup returns that user.
   */
  lemma SecondLoginReusesUser(s: seq<StoredUser>, identifier: string, role: string,
                              employeeId: Option<string>, id: string, now: Timestamp)
    requires FindUser(s, identifier).None?
    ensures FindUser(s + [NewUser(identifier, role, employeeId, id, now)], identifier) == Some(|s|)
  {
    FindUserAppend(s, NewUser(identifier, role, employeeId, id, now), identifier);
  }

  datatype SosResponse = SosSent(alert: StoredAlert) | SosFailed   // 500 "Failed to send SOS alert"

  /**
   * `POST /api/pilgrim/sos`: an emergency alert is always stored; the
   * response is the alert when the request had a location, and 500 when it
   * had none (the log line after the store reads the missing location).
   */
  method Sos(storage: MemStorage, location: Option<GeoPoint>, description: Option<string>,
             userId: Option<string>, freshId: string, now: Timestamp)
    returns (resp: SosResponse)
    requires storage.Valid() && freshId !in storage.alerts
    modifies storage
    ensures storage.Valid()
    ensures storage.State() == old(storage.State()).(
      alerts := old(storage.alerts)[freshId := StoreAlertData(SosAlertData(location, description, userId), freshId, now)],
      alertOrder := old(storage.alertOrder) + [freshId])
    ensures location.Some? <==> resp.SosSent?
    ensures resp.SosSent? ==> resp.alert == StoreAlertData(SosAlertData(location, description, userId), freshId, now)
  {
    var alert := storage.CreateAlert(SosAlertData(location, description, userId), freshId, now);
    if alert.location.None? {
      return SosFailed;
    }
    return SosSent(alert);
  }

  /** `POST /api/admin/communication`: the message is stored with priority defaulting to "normal". */
  method PostCommunication(storage: MemStorage, message: Option<string>, unit: Option<string>,
                           userId: Option<string>, userName: Option<string>, priority: Option<string>,
                           freshId: string, now: Timestamp)
    returns (stored: StoredMessage)
    requires storage.Valid() && freshId !in storage.communications
    modifies storage
    ensures storage.Valid()
    ensures stored == StoredMessage(freshId, message, unit, userId, userName, OrElse(priority, "normal"), now)
    ensures storage.State() == old(storage.State()).(
      communications := old(storage.communications)[freshId := stored],
      messageOrder := old(storage.messageOrder) + [freshId])
  {
    stored := storage.CreateCommunication(
      MessageData(message, unit, userId, userName, OrElse(priority, "normal")), freshId, now);
  }
}
