/**
 * The team-communication feed (components/communication-feed.tsx): each
 * database snapshot of the `communication` node becomes the newest twenty
 * messages, newest first; sending pushes the trimmed draft as a normal
 * message from the signed-in user's unit. The database is foreign: a
 * snapshot is an input and the push's success is a parameter.
 */
module CommunicationFeed {
  import opened Wrappers
  import opened Text
  import opened Ordering

  /** A message as it is read back from the database, keyed by its push id. */
  datatype FeedItem = FeedItem(
    id: string, message: string, unit: string, userId: string, userName: string,
    priority: string, timestamp: int)

  /** The message body a push writes (the item without its id). */
  datatype Payload = Payload(
    message: string, unit: string, userId: string, userName: string, priority: string, timestamp: int)

  /** The signed-in user, as far as the feed uses it. */
  datatype Sender = Sender(id: string, name: string, role: string)

  const FeedLimit: nat := 20

  function Time(m: FeedItem): int {
    m.timestamp
  }

  /** The shown messages for the entries of a snapshot: sorted newest first and cut to twenty. */
  function Shown(entries: seq<FeedItem>): (r: seq<FeedItem>)
    ensures |r| <= FeedLimit
    ensures |r| == if |entries| <= FeedLimit then |entries| else FeedLimit
    ensures SortedDesc(r, Time)
    ensures multiset(r) <= multiset(entries)
    ensures forall t :: WithKey(r, Time, t) <= WithKey(entries, Time, t)
  {
    var sorted := SortDesc(entries, Time);
    var r := Take(sorted, FeedLimit);
    assert sorted == r + sorted[|r|..];
    assert multiset(sorted) == multiset(r) + multiset(sorted[|r|..]);
    assert forall t :: WithKey(r, Time, t) <= WithKey(entries, Time, t) by {
      forall t ensures WithKey(r, Time, t) <= WithKey(entries, Time, t) {
        SortDescStable(entries, Time, t);
        TakeWithKey(sorted, FeedLimit, Time, t);
      }
    }
    r
  }

  /**
   * The subscription callback: a null snapshot keeps the shown list, any
   * other snapshot replaces it by its newest twenty messages.
   */
  function OnSnapshot(shown: seq<FeedItem>, snapshot: Option<seq<FeedItem>>): (r: seq<FeedItem>)
    ensures snapshot.None? ==> r == shown
    ensures snapshot.Some? ==> r == Shown(snapshot.value)
  {
    if snapshot.None? then shown else Shown(snapshot.value)
  }

  /** The top-twenty property: a snapshot message that is not shown is no newer than any shown one. */
  lemma {:induction false} ShownAreNewest(entries: seq<FeedItem>, x: FeedItem, y: FeedItem)
    requires x in Shown(entries) && y in entries && y !in Shown(entries)
    ensures y.timestamp <= x.timestamp
  {
    var sorted := SortDesc(entries, Time);
    var shown := Shown(entries);
    assert shown == sorted[..|shown|];
    assert y in multiset(sorted);
    var j :| 0 <= j < |sorted| && sorted[j] == y;
    var i :| 0 <= i < |shown| && shown[i] == x;
    assert j >= |shown|;
    assert sorted[i] == x;
  }

  /**
   * `sendMessage`'s request: none for a blank draft or without a user,
   * otherwise the trimmed draft from the user's role as unit, with normal
   * priority and the current time.
   */
  function SendRequest(draft: string, user: Option<Sender>, now: int): (r: Option<Payload>)
    ensures r.None? <==> Trim(draft) == "" || user.None?
    ensures r.Some? ==>
      (&& r.value.message == Trim(draft) && r.value.message != ""
       && r.value.unit == user.value.role && r.value.userId == user.value.id
       && r.value.userName == user.value.name
       && r.value.priority == "normal" && r.value.timestamp == now)
  {
    if Trim(draft) == "" || user.None? then None
    else Some(Payload(Trim(draft), user.value.role, user.value.id, user.value.name, "normal", now))
  }

  /** The draft after `sendMessage`: cleared only when a request was made and its push succeeded. */
  function DraftAfterSend(draft: string, user: Option<Sender>, pushSucceeded: bool): (r: string)
    ensures r == "" <==> draft == "" || (SendRequest(draft, user, 0).Some? && pushSucceeded)
    ensures r != "" ==> r == draft
  {
    if SendRequest(draft, user, 0).Some? && pushSucceeded then "" else draft
  }

  /** A sent message carries no leading or trailing space. */
  lemma SentMessageIsTrimmed(draft: string, user: Option<Sender>, now: int)
    requires SendRequest(draft, user, now).Some?
    ensures Trim(SendRequest(draft, user, now).value.message) == SendRequest(draft, user, now).value.message
  {
    TrimIdempotent(draft);
  }

  /** The read-outs of `formatTimestamp`. */
  datatype Stamp = JustNow | MinutesAgo(minutes: int) | HoursAgo(hours: int) | OnDate(timestamp: int)

  /**
   * `formatTimestamp`: whole minutes elapsed (rounded down); under one is
   * "now", under an hour minutes, under a day hours, otherwise the date.
   */
  function FormatTimestamp(timestamp: int, now: int): (r: Stamp)
    ensures r.JustNow? <==> (now - timestamp) / 60000 < 1
    ensures r.MinutesAgo? ==>
      1 <= r.minutes < 60 && r.minutes * 60000 <= now - timestamp < (r.minutes + 1) * 60000
    ensures r.HoursAgo? ==>
      1 <= r.hours < 24 && r.hours * 3600000 <= now - timestamp < (r.hours + 1) * 3600000
    ensures r.OnDate? <==> now - timestamp >= 1440 * 60000
    ensures r.OnDate? ==> r.timestamp == timestamp
  {
    var minutes := (now - timestamp) / 60000;
    if minutes < 1 then JustNow
    else if minutes < 60 then MinutesAgo(minutes)
    else if minutes < 1440 then HoursAgo(minutes / 60)
    else OnDate(timestamp)
  }

  /** A timestamp in the future reads as "now". */
  lemma FutureIsNow(timestamp: int, now: int)
    requires timestamp > now
    ensures FormatTimestamp(timestamp, now) == JustNow
  {
  }

  function StampText(s: Stamp): string {
    match s
    case JustNow => "now"
    case MinutesAgo(m) => IntToString(m) + "m ago"
    case HoursAgo(h) => IntToString(h) + "h ago"
    case OnDate(_) => "date"
  }

  /** The read-outs other than a date render as different texts, so "now", the minutes and the hours are told apart. */
  lemma StampTextInjective(a: Stamp, b: Stamp)
    requires !a.OnDate? && !b.OnDate?
    requires StampText(a) == StampText(b)
    ensures a == b
  {
    if !a.JustNow? && !b.JustNow? {
      StampTextOfCount(a);
      StampTextOfCount(b);
      AgoReadOutInjective(StampNumber(a), StampUnit(a), StampNumber(b), StampUnit(b));
    }
  }

  /** A minutes or hours read-out is its number, its unit letter and " ago". */
  lemma StampTextOfCount(a: Stamp)
    requires a.MinutesAgo? || a.HoursAgo?
    ensures StampText(a) == IntToString(StampNumber(a)) + [StampUnit(a)] + " ago"
  {
  }

  /** The number a minutes or hours read-out shows. */
  function StampNumber(a: Stamp): int
    requires a.MinutesAgo? || a.HoursAgo?
  {
    if a.MinutesAgo? then a.minutes else a.hours
  }

  function StampUnit(a: Stamp): char
    requires a.MinutesAgo? || a.HoursAgo?
  {
    if a.MinutesAgo? then 'm' else 'h'
  }

  /** `getUnitInitial`: the upper-cased first character of the unit. */
  function UnitInitial(unit: string): (r: string)
    ensures unit == "" <==> r == ""
    ensures unit != "" ==> r == [Upper(unit[0])]
  {
    Initial(unit)
  }

  /** `getUnitColor`: the four staff units have their colours, anything else gray. */
  function UnitColor(unit: string): (r: string)
    ensures unit == "police" ==> r == "bg-blue-500"
    ensures unit == "medical" ==> r == "bg-red-500"
    ensures unit == "coordinator" ==> r == "bg-green-500"
    ensures unit == "administrator" ==> r == "bg-gray-700"
    ensures unit !in {"police", "medical", "coordinator", "administrator"} ==> r == "bg-gray-500"
  {
    match unit
    case "police" => "bg-blue-500"
    case "medical" => "bg-red-500"
    case "coordinator" => "bg-green-500"
    case "administrator" => "bg-gray-700"
    case _ => "bg-gray-500"
  }

  /** The message input is shown only to a signed-in user who is not a pilgrim. */
  predicate CanCompose(user: Option<Sender>) {
    user.Some? && user.value.role != "pilgrim"
  }

  /**
   * A message typed in the shown input goes out under the sender's own
   * role, which is never the pilgrim unit; only a blank draft sends nothing.
   */
  lemma ComposedMessagesNeverFromPilgrims(draft: string, user: Option<Sender>, now: int)
    requires CanCompose(user)
    ensures SendRequest(draft, user, now).Some? <==> Trim(draft) != ""
    ensures SendRequest(draft, user, now).Some? ==> SendRequest(draft, user, now).value.unit != "pilgrim"
  {
  }
}
