/**
 * The notification store of the mobile client: an in-memory list of the user's
 * notifications, newest first, fed by a SignalR hub ("ReceiveNotification" pushes)
 * and by one page of history fetched over HTTP, plus the hub connection itself.
 *
 * Dates: `new Date()` reads the clock, which the model takes as a parameter `now`;
 * `new Date(text)` parses, which the model keeps symbolic as `ParsedFrom(text)`.
 */
module NotificationStore {
  import opened Wrappers

  /** Capacity applied by `addNotification` (and only there). */
  const MAX_NOTIFICATIONS: nat := 100

  /** The time value of a JavaScript `Date`. */
  datatype Instant = Clock(ms: int) | ParsedFrom(text: string)

  /** The `createdAt` field, typed `string | Date`: absent, still a string, or a `Date`. */
  datatype Stamp = Unset | Text(text: string) | Date(at: Instant)

  /** A notification as the store keeps it. `kind` is the store's `type` field. */
  datatype Notification = Notification(
    id: string, kind: string, data: string, read: bool, createdAt: Stamp, status: string)

  /** The record a "ReceiveNotification" push carries, once parsed from JSON. */
  datatype Inbound = Inbound(
    id: string, kind: string, data: string, read: bool, createdAt: string, status: string)

  /** The outcome of the history request `GET notification/all`. */
  datatype FetchReply = RequestFailed | Response(isSuccess: bool, page: seq<Notification>)

  /** A SignalR hub connection, identified by the object the builder returned. */
  datatype Hub = Hub(serial: nat)

  /** How `initializeConnection` ended. */
  datatype InitOutcome = NoUser | StartFailed | JoinFailed | Connected

  /** One push, with the clock reading when the store handled it. */
  datatype Arrival = Arrival(note: Notification, at: int)

  // ---------------------------------------------------------------- createdAt

  /** `createdAt ? new Date(createdAt) : new Date()`: a falsy value (absent or the
      empty string) becomes the current time, a string is parsed, a `Date` keeps
      its time value. The result is always a `Date`. */
  function Normalized(c: Stamp, now: int): (r: Stamp)
    ensures r.Date?
    ensures c.Date? ==> r == c
    ensures (c.Unset? || c == Text("")) ==> r == Date(Clock(now))
    ensures c.Text? && c.text != "" ==> r == Date(ParsedFrom(c.text))
  {
    match c
    case Unset => Date(Clock(now))
    case Text(t) => if t == "" then Date(Clock(now)) else Date(ParsedFrom(t))
    case Date(_) => c
  }

  /** The `map` of `setNotifications` and of the fetch: each entry with its
      `createdAt` normalised and every other field kept, in the same order. */
  function Processed(list: seq<Notification>, now: int): (r: seq<Notification>)
    ensures |r| == |list|
    ensures forall i :: 0 <= i < |list| ==>
      r[i] == list[i].(createdAt := Normalized(list[i].createdAt, now))
  {
    if list == [] then []
    else [list[0].(createdAt := Normalized(list[0].createdAt, now))] + Processed(list[1..], now)
  }

  /** Normalising an already processed list changes nothing, whatever the clock says. */
  lemma {:induction false} ProcessedIdempotent(list: seq<Notification>, now: int, later: int)
    ensures Processed(Processed(list, now), later) == Processed(list, now)
  {
    var p := Processed(list, now);
    var q := Processed(p, later);
    forall i | 0 <= i < |p| ensures q[i] == p[i] {
      assert p[i].createdAt.Date?;
    }
  }

  // ---------------------------------------------------------------- arrivals

  /** `arr.slice(0, k)`. */
  function Take<T>(s: seq<T>, k: nat): (r: seq<T>)
  {
    if |s| <= k then s else s[..k]
  }

  /** The entry `addNotification` stores: the record with `read` forced to false
      and `createdAt` set to the arrival time. */
  function Stamped(n: Notification, now: int): (r: Notification)
    ensures r.id == n.id && r.kind == n.kind && r.data == n.data && r.status == n.status
    ensures !r.read && r.createdAt == Date(Clock(now))
  {
    n.(read := false, createdAt := Date(Clock(now)))
  }

  /** `[stamped, ...notifications].slice(0, MAX_NOTIFICATIONS)`. */
  function WithArrival(list: seq<Notification>, n: Notification, now: int): (r: seq<Notification>)
    ensures 0 < |r| <= MAX_NOTIFICATIONS && r[0] == Stamped(n, now)
  {
    Take([Stamped(n, now)] + list, MAX_NOTIFICATIONS)
  }

  /** After an arrival the list holds min(old + 1, 100) entries, so never more
      than `MAX_NOTIFICATIONS`, even when it held more before. */
  lemma ArrivalLength(list: seq<Notification>, n: Notification, now: int)
    ensures |WithArrival(list, n, now)| == if |list| + 1 <= MAX_NOTIFICATIONS then |list| + 1 else MAX_NOTIFICATIONS
    ensures |WithArrival(list, n, now)| <= MAX_NOTIFICATIONS
  {
  }

  /** The new entry is at the front, unread and stamped with the arrival time;
      its id, type, data and status are those of the record. */
  lemma ArrivalAtFront(list: seq<Notification>, n: Notification, now: int)
    ensures var r := WithArrival(list, n, now);
      && |r| > 0 && r[0].id == n.id && r[0].kind == n.kind && r[0].data == n.data
      && r[0].status == n.status && !r[0].read && r[0].createdAt == Date(Clock(now))
  {
  }

  /** Existing entries move down by one place in their old order. Below capacity
      all of them stay; otherwise only the first 99 stay and every entry from
      position 99 on is dropped (one entry for a full list, more for a list that
      `setNotifications` or the fetch made longer than the capacity). */
  lemma ArrivalShiftsExisting(list: seq<Notification>, n: Notification, now: int)
    ensures var r := WithArrival(list, n, now);
      && (forall i :: 0 <= i < |r| - 1 ==> r[i + 1] == list[i])
      && (|list| < MAX_NOTIFICATIONS ==> r[1..] == list)
      && (|list| >= MAX_NOTIFICATIONS ==> r[1..] == list[..MAX_NOTIFICATIONS - 1])
  {
  }

  /** No deduplication: a record whose id is already listed is added again, and
      the list still grows while below capacity. */
  lemma ArrivalKeepsDuplicates(list: seq<Notification>, n: Notification, now: int)
    requires exists k :: 0 <= k < |list| && list[k].id == n.id
    requires |list| < MAX_NOTIFICATIONS
    ensures var r := WithArrival(list, n, now);
      && |r| == |list| + 1 && r[0].id == n.id
      && exists j :: 1 <= j < |r| && r[j].id == n.id
  {
    var r := WithArrival(list, n, now);
    var k :| 0 <= k < |list| && list[k].id == n.id;
    assert r[k + 1] == list[k];
  }

  /** The list after a run of pushes, handled in order. */
  function AfterArrivals(list: seq<Notification>, arrivals: seq<Arrival>): seq<Notification>
    decreases |arrivals|
  {
    if arrivals == [] then list
    else AfterArrivals(WithArrival(list, arrivals[0].note, arrivals[0].at), arrivals[1..])
  }

  /** The stamped entries of a run of pushes, latest first. */
  function NewestFirst(arrivals: seq<Arrival>): (r: seq<Notification>)
    ensures |r| == |arrivals|
    decreases |arrivals|
  {
    if arrivals == [] then []
    else NewestFirst(arrivals[1..]) + [Stamped(arrivals[0].note, arrivals[0].at)]
  }

  /** Over any run of pushes, the list is the stamped pushes, latest first, ahead
      of the old entries, cut to `MAX_NOTIFICATIONS`: the capacity holds after
      every push and eviction only ever removes the oldest entries. */
  lemma {:induction false} AfterArrivalsIsNewestFirst(list: seq<Notification>, arrivals: seq<Arrival>)
    requires arrivals != []
    ensures AfterArrivals(list, arrivals) == Take(NewestFirst(arrivals) + list, MAX_NOTIFICATIONS)
    ensures |AfterArrivals(list, arrivals)| <= MAX_NOTIFICATIONS
    decreases |arrivals|
  {
    var a := arrivals[0];
    var l1 := WithArrival(list, a.note, a.at);
    var rest := arrivals[1..];
    if rest == [] {
      assert NewestFirst(arrivals) == [Stamped(a.note, a.at)];
    } else {
      AfterArrivalsIsNewestFirst(l1, rest);
      var front := NewestFirst(rest);
      assert NewestFirst(arrivals) == front + [Stamped(a.note, a.at)];
      TakeAppend(front, Take([Stamped(a.note, a.at)] + list, MAX_NOTIFICATIONS), [Stamped(a.note, a.at)] + list);
      assert front + ([Stamped(a.note, a.at)] + list) == NewestFirst(arrivals) + list;
    }
  }

  /** Cutting the tail first does not change a cut to `MAX_NOTIFICATIONS`. */
  lemma TakeAppend(front: seq<Notification>, cut: seq<Notification>, whole: seq<Notification>)
    requires cut == Take(whole, MAX_NOTIFICATIONS)
    ensures Take(front + cut, MAX_NOTIFICATIONS) == Take(front + whole, MAX_NOTIFICATIONS)
  {
    if |whole| > MAX_NOTIFICATIONS {
      if |front| >= MAX_NOTIFICATIONS {
        assert (front + cut)[..MAX_NOTIFICATIONS] == front[..MAX_NOTIFICATIONS];
        assert (front + whole)[..MAX_NOTIFICATIONS] == front[..MAX_NOTIFICATIONS];
      } else {
        assert (front + cut)[..MAX_NOTIFICATIONS] == (front + whole)[..MAX_NOTIFICATIONS];
      }
    }
  }

  // ---------------------------------------------------------------- pushes and history

  /** The "ReceiveNotification" handler's record: id, type, data and status copied,
      `read` false and `createdAt` parsed; any other field of the push is dropped. */
  function FromInbound(raw: Inbound): (r: Notification)
    ensures r.id == raw.id && r.kind == raw.kind && r.data == raw.data && r.status == raw.status
    ensures !r.read && r.createdAt == Date(ParsedFrom(raw.createdAt))
  {
    Notification(raw.id, raw.kind, raw.data, false, Date(ParsedFrom(raw.createdAt)), raw.status)
  }

  /** A pushed notification enters the list unread, with the arrival time as its
      date: the server's `read` flag and its `createdAt` are both discarded. */
  lemma PushedEntry(list: seq<Notification>, raw: Inbound, now: int)
    ensures WithArrival(list, FromInbound(raw), now)[0]
         == Notification(raw.id, raw.kind, raw.data, false, Date(Clock(now)), raw.status)
  {
  }

  /** The list after the history request: the processed page when the server
      answered with `isSuccess`, otherwise the old list. No capacity is applied. */
  function AfterFetch(list: seq<Notification>, reply: FetchReply, now: int): (r: seq<Notification>)
    ensures !(reply.Response? && reply.isSuccess) ==> r == list
    ensures reply.Response? && reply.isSuccess ==> |r| == |reply.page|
  {
    if reply.Response? && reply.isSuccess then Processed(reply.page, now) else list
  }

  /** The fetch replaces the list exactly on a successful answer, with an entry for
      every entry of the page in the same order and with the same ids. */
  lemma FetchReplacesOnlyOnSuccess(list: seq<Notification>, reply: FetchReply, now: int)
    ensures !(reply.Response? && reply.isSuccess) ==> AfterFetch(list, reply, now) == list
    ensures reply.Response? && reply.isSuccess ==>
      var r := AfterFetch(list, reply, now);
      |r| == |reply.page| && forall i :: 0 <= i < |r| ==> r[i].id == reply.page[i].id && r[i].createdAt.Date?
  {
  }

  // ---------------------------------------------------------------- the store

  /** The store's state: the hub connection (or null) and the notification list. */
  class NotificationState {
    var connection: Option<Hub>
    var notifications: seq<Notification>

    constructor ()
      ensures connection == None && notifications == []
    {
      connection := None;
      notifications := [];
    }

    /** `addNotification`. */
    method AddNotification(n: Notification, now: int)
      modifies this
      ensures notifications == WithArrival(old(notifications), n, now)
      ensures |notifications| <= MAX_NOTIFICATIONS
      ensures connection == old(connection)
    {
      notifications := WithArrival(notifications, n, now);
    }

    /** `setNotifications`: replaces the list with the processed one, uncut. */
    method SetNotifications(list: seq<Notification>, now: int)
      modifies this
      ensures notifications == Processed(list, now)
      ensures connection == old(connection)
    {
      notifications := Processed(list, now);
    }

    /** `fetchInitialNotifications` once its request has settled; a failed request
        is caught and logged, so this never fails. */
    method FetchInitialNotifications(reply: FetchReply, now: int)
      modifies this
      ensures notifications == AfterFetch(old(notifications), reply, now)
      ensures connection == old(connection)
    {
      if reply.Response? && reply.isSuccess {
        notifications := Processed(reply.page, now);
      }
    }

    /** `clearNotifications`. */
    method ClearNotifications()
      modifies this
      ensures notifications == []
      ensures connection == old(connection)
    {
      notifications := [];
    }

    /** `disconnectSignalR`: with a connection, stops it and forgets it; if
        `stop` rejects, the rejection propagates (`threw`) and the connection stays.
        Without a connection it does nothing. */
    method DisconnectSignalR(stopSucceeds: bool) returns (threw: bool)
      modifies this
      ensures threw <==> old(connection).Some? && !stopSucceeds
      ensures connection == (if threw then old(connection) else None)
      ensures notifications == old(notifications)
    {
      threw := false;
      if connection.Some? {
        if stopSucceeds {
          connection := None;
        } else {
          threw := true;
        }
      }
    }

    /** The "ReceiveNotification" handler: maps the pushed record and adds it. */
    method ReceiveNotification(raw: Inbound, now: int)
      modifies this
      ensures notifications == WithArrival(old(notifications), FromInbound(raw), now)
      ensures connection == old(connection)
    {
      AddNotification(FromInbound(raw), now);
    }

    /** `initializeConnection`. An empty `userId` stands for a missing one. The hub
        is started, joined to the user's group, the first page of history
        (page 1, 10 entries) is fetched, and only then is the hub stored. A failed
        `start` or group join is caught and logged: the store is left as it was.
        A failed history request is caught inside the fetch and does not stop the
        rest. `orphaned` is the hub this call leaves running without the store
        holding it, since nothing here calls `stop`: the new hub when it started
        but failed to join, or the previously stored hub when a second call
        connects and overwrites it (that hub stays in the user's group with its
        push handler registered). `hub` is the hub the builder has just made, a
        new object each call (a serial not used before), so it is never the one
        already stored. */
    method InitializeConnection(userId: string, hub: Hub, started: bool, joined: bool,
                                history: FetchReply, now: int)
      returns (outcome: InitOutcome, orphaned: Option<Hub>)
      modifies this
      ensures outcome == (if userId == "" then NoUser else if !started then StartFailed
                          else if !joined then JoinFailed else Connected)
      ensures outcome == Connected ==>
        connection == Some(hub) && notifications == AfterFetch(old(notifications), history, now)
      ensures outcome != Connected ==>
        connection == old(connection) && notifications == old(notifications)
      ensures orphaned == (if outcome == Connected then old(connection)
                           else if outcome == JoinFailed then Some(hub) else None)
    {
      if userId == "" {
        return NoUser, None;
      }
      if !started {
        return StartFailed, None;
      }
      if !joined {
        return JoinFailed, Some(hub);
      }
      orphaned := connection;
      FetchInitialNotifications(history, now);
      connection := Some(hub);
      outcome := Connected;
    }
  }
}
