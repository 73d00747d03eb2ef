/**
 * The repository's notification service. Notifications are rows kept by a
 * persistence handler, here a map from id to row with the next free id; the
 * current user, which the service asks the permission resolver for, is a field.
 * Reading is confined to the current user's notifications, marking as read is
 * guarded (a zero id and then a foreign owner are refused) and idempotent, and
 * every domain object is built from its row without losing a field.
 */
module Notifications {
  import opened Wrappers

  const NOTIFICATION := "Notification"

  /** The defaults of `loadNotifications`: the first page of 25. */
  const DEFAULT_OFFSET: nat := 0
  const DEFAULT_LIMIT: nat := 25

  /** A notification row of the persistence layer; `created` is a Unix timestamp. */
  datatype SpiNotification = SpiNotification(
    id: int, ownerId: int, isPending: bool, notificationType: string, created: int, data: map<string, string>)

  /** A point in time, as built from `@<timestamp>`. */
  datatype DateTime = DateTime(timestamp: int)

  /** A notification of the public interface. */
  datatype Notification = Notification(
    id: int, ownerId: int, isPending: bool, notificationType: string, created: DateTime, data: map<string, string>)

  /** What a caller supplies to create a notification. */
  datatype CreateStruct = CreateStruct(ownerId: int, notificationType: string, isPending: bool, data: map<string, string>)

  /** The two exceptions of the service, with their constructor arguments. */
  datatype Error = NotFound(kind: string, identifier: int) | Unauthorized(identifier: int, kind: string)

  /** The persistence handler's rows by id. */
  type Store = map<int, SpiNotification>

  // ---------------------------------------------------------------------------
  // Domain objects
  // ---------------------------------------------------------------------------

  /** The domain object carries every field of its row, the creation time as the same instant. */
  function BuildDomainObject(spi: SpiNotification): (n: Notification)
    ensures n.id == spi.id && n.ownerId == spi.ownerId && n.isPending == spi.isPending
    ensures n.notificationType == spi.notificationType && n.data == spi.data
    ensures n.created.timestamp == spi.created
  {
    Notification(spi.id, spi.ownerId, spi.isPending, spi.notificationType, DateTime(spi.created), spi.data)
  }

  /** Two rows that build the same domain object are the same row: nothing is lost. */
  lemma BuildDomainObjectIsInjective(a: SpiNotification, b: SpiNotification)
    requires BuildDomainObject(a) == BuildDomainObject(b)
    ensures a == b
  {
    assert a.created == BuildDomainObject(a).created.timestamp;
  }

  /** The row the persistence handler stores for a create struct, given its id and the clock's time. */
  function CreatedRow(createStruct: CreateStruct, id: int, now: int): (row: SpiNotification)
  {
    SpiNotification(id, createStruct.ownerId, createStruct.isPending, createStruct.notificationType, now, createStruct.data)
  }

  /** Creating copies owner, type, pending flag and data from the struct, and the clock's time. */
  lemma CreatedNotificationCopiesStruct(createStruct: CreateStruct, id: int, now: int)
    ensures var n := BuildDomainObject(CreatedRow(createStruct, id, now));
            && n.id == id && n.ownerId == createStruct.ownerId && n.notificationType == createStruct.notificationType
            && n.isPending == createStruct.isPending && n.data == createStruct.data && n.created == DateTime(now)
  {
  }

  // ---------------------------------------------------------------------------
  // Queries on the store
  // ---------------------------------------------------------------------------

  /** Every row is stored under its own id, and the ids are below the next free one. */
  ghost predicate WellFormed(store: Store, nextId: int)
  {
    nextId >= 1 && forall id :: id in store ==> 1 <= id < nextId && store[id].id == id
  }

  function OwnedIds(store: Store, user: int): set<int>
  {
    set id | id in store.Keys && store[id].ownerId == user
  }

  function PendingIds(store: Store, user: int): set<int>
  {
    set id | id in store.Keys && store[id].ownerId == user && store[id].isPending
  }

  /** The handler's count of the user's notifications. */
  function CountNotifications(store: Store, user: int): (count: nat)
  {
    |OwnedIds(store, user)|
  }

  /** The handler's count of the user's notifications still pending. */
  function CountPendingNotifications(store: Store, user: int): (count: nat)
  {
    |PendingIds(store, user)|
  }

  lemma PendingCountAtMostCount(store: Store, user: int)
    ensures CountPendingNotifications(store, user) <= CountNotifications(store, user)
  {
    assert PendingIds(store, user) <= OwnedIds(store, user);
    SubsetCardinality(PendingIds(store, user), OwnedIds(store, user));
  }

  lemma SubsetCardinality(a: set<int>, b: set<int>)
    requires a <= b
    ensures |a| <= |b|
  {
    assert b == a + (b - a);
  }

  /** The user's rows with ids from `hi` down to 1, newest first. */
  function OwnedDescending(store: Store, user: int, hi: int): (rows: seq<SpiNotification>)
    decreases hi
  {
    if hi < 1 then []
    else (if hi in store && store[hi].ownerId == user then [store[hi]] else []) + OwnedDescending(store, user, hi - 1)
  }

  ghost function OwnedUpTo(store: Store, user: int, hi: int): set<int>
  {
    set id | id in store && store[id].ownerId == user && 1 <= id <= hi
  }

  /** Every row of the list is the stored row under its id, and belongs to `user`. */
  ghost predicate RowsOfUser(rows: seq<SpiNotification>, store: Store, user: int)
  {
    forall k :: 0 <= k < |rows| ==> rows[k].id in store && store[rows[k].id] == rows[k] && rows[k].ownerId == user
  }

  ghost predicate IdsWithin(rows: seq<SpiNotification>, hi: int)
  {
    forall k :: 0 <= k < |rows| ==> 1 <= rows[k].id <= hi
  }

  /** Strictly decreasing ids: newest first, no row twice. */
  ghost predicate NewestFirst(rows: seq<SpiNotification>)
  {
    forall k, l :: 0 <= k < l < |rows| ==> rows[k].id > rows[l].id
  }

  lemma {:induction false} OwnedDescendingRows(store: Store, user: int, hi: int)
    requires forall id :: id in store ==> store[id].id == id
    ensures RowsOfUser(OwnedDescending(store, user, hi), store, user)
    ensures IdsWithin(OwnedDescending(store, user, hi), hi)
    ensures NewestFirst(OwnedDescending(store, user, hi))
    decreases hi
  {
    if hi >= 1 {
      var rows := OwnedDescending(store, user, hi);
      var head := if hi in store && store[hi].ownerId == user then [store[hi]] else [];
      var tail := OwnedDescending(store, user, hi - 1);
      OwnedDescendingRows(store, user, hi - 1);
      assert rows == head + tail;
      forall k | 0 <= k < |rows|
        ensures rows[k].id in store && store[rows[k].id] == rows[k] && rows[k].ownerId == user && 1 <= rows[k].id <= hi
      {
        if k >= |head| {
          assert rows[k] == tail[k - |head|];
        }
      }
      forall k, l | 0 <= k < l < |rows| ensures rows[k].id > rows[l].id {
        assert rows[l] == tail[l - |head|];
        if k >= |head| {
          assert rows[k] == tail[k - |head|];
        }
      }
    }
  }

  /** Raising the bound by one adds `hi` to the owned ids exactly when the user owns it. */
  lemma OwnedUpToStep(store: Store, user: int, hi: int)
    ensures OwnedUpTo(store, user, hi)
         == OwnedUpTo(store, user, hi - 1) + (if hi in store && store[hi].ownerId == user && 1 <= hi then {hi} else {})
    ensures hi !in OwnedUpTo(store, user, hi - 1)
  {
  }

  /** The list holds one row per owned id up to `hi`. */
  lemma {:induction false} OwnedDescendingCount(store: Store, user: int, hi: int)
    ensures |OwnedDescending(store, user, hi)| == |OwnedUpTo(store, user, hi)|
    decreases hi
  {
    if hi < 1 {
      assert OwnedUpTo(store, user, hi) == {};
    } else {
      OwnedDescendingCount(store, user, hi - 1);
      OwnedUpToStep(store, user, hi);
    }
  }

  /** Every stored row of the user is listed. */
  lemma {:induction false} OwnedDescendingComplete(store: Store, user: int, hi: int, id: int)
    requires id in store && store[id].ownerId == user && 1 <= id <= hi
    ensures store[id] in OwnedDescending(store, user, hi)
    decreases hi
  {
    if id < hi {
      OwnedDescendingComplete(store, user, hi - 1, id);
    }
  }

  /** The handler's list of the user's notifications, newest first. */
  function UserNotifications(store: Store, user: int, nextId: int): (rows: seq<SpiNotification>)
  {
    OwnedDescending(store, user, nextId - 1)
  }

  /** The user's list has exactly as many rows as the user's count. */
  lemma UserNotificationsMatchCount(store: Store, user: int, nextId: int)
    requires WellFormed(store, nextId)
    ensures |UserNotifications(store, user, nextId)| == CountNotifications(store, user)
  {
    OwnedDescendingCount(store, user, nextId - 1);
    assert OwnedUpTo(store, user, nextId - 1) == OwnedIds(store, user);
  }

  /** The window `[offset, offset + limit)` of a list, cut at its end. */
  function Page<T>(rows: seq<T>, offset: nat, limit: nat): (page: seq<T>)
    ensures |page| <= limit
    ensures offset + limit <= |rows| ==> |page| == limit
    ensures offset >= |rows| ==> page == []
    ensures offset < |rows| ==> |page| == (if offset + limit <= |rows| then limit else |rows| - offset)
    ensures forall k :: 0 <= k < |page| ==> offset + k < |rows| && page[k] == rows[offset + k]
  {
    var start := if offset < |rows| then offset else |rows|;
    var end := if offset + limit < |rows| then offset + limit else |rows|;
    rows[start..end]
  }

  /** The items of a loaded list: the domain objects of the page, or nothing when the count is zero. */
  function LoadedItems(store: Store, user: int, nextId: int, offset: nat, limit: nat): (items: seq<Notification>)
    ensures |items| <= limit
    ensures CountNotifications(store, user) == 0 ==> items == []
    ensures CountNotifications(store, user) > 0 ==>
              var page := Page(UserNotifications(store, user, nextId), offset, limit);
              |items| == |page| && forall k :: 0 <= k < |items| ==> items[k] == BuildDomainObject(page[k])
  {
    if CountNotifications(store, user) > 0 then
      var page := Page(UserNotifications(store, user, nextId), offset, limit);
      seq(|page|, k requires 0 <= k < |page| => BuildDomainObject(page[k]))
    else []
  }

  /** A page of the user's list holds the user's stored rows, newest first. */
  lemma PageOfUserNotifications(store: Store, user: int, nextId: int, offset: nat, limit: nat)
    requires WellFormed(store, nextId)
    ensures |Page(UserNotifications(store, user, nextId), offset, limit)| <= limit
    ensures RowsOfUser(Page(UserNotifications(store, user, nextId), offset, limit), store, user)
    ensures NewestFirst(Page(UserNotifications(store, user, nextId), offset, limit))
  {
    var rows := UserNotifications(store, user, nextId);
    var page := Page(rows, offset, limit);
    OwnedDescendingRows(store, user, nextId - 1);
    forall k | 0 <= k < |page| ensures page[k].id in store && store[page[k].id] == page[k] && page[k].ownerId == user {
      assert page[k] == rows[offset + k];
    }
    forall k, l | 0 <= k < l < |page| ensures page[k].id > page[l].id {
      assert page[k] == rows[offset + k] && page[l] == rows[offset + l];
    }
  }

  /** Every item is the domain object of the stored row under its id, and belongs to `user`. */
  ghost predicate ItemsOfUser(items: seq<Notification>, store: Store, user: int)
  {
    forall k :: 0 <= k < |items| ==>
      items[k].id in store && items[k] == BuildDomainObject(store[items[k].id]) && items[k].ownerId == user
  }

  ghost predicate ItemsNewestFirst(items: seq<Notification>)
  {
    forall k, l :: 0 <= k < l < |items| ==> items[k].id > items[l].id
  }

  /**
   * A loaded list holds at most `limit` notifications, each the current user's own,
   * built from its stored row, newest first.
   */
  lemma LoadedItemsAreOwnPage(store: Store, user: int, nextId: int, offset: nat, limit: nat)
    requires WellFormed(store, nextId)
    ensures |LoadedItems(store, user, nextId, offset, limit)| <= limit
    ensures ItemsOfUser(LoadedItems(store, user, nextId, offset, limit), store, user)
    ensures ItemsNewestFirst(LoadedItems(store, user, nextId, offset, limit))
  {
    PageOfUserNotifications(store, user, nextId, offset, limit);
  }

  /** Skipping the load when the count is zero loses nothing: the user has no rows then. */
  lemma NothingToLoadWithoutCount(store: Store, user: int, nextId: int, offset: nat, limit: nat)
    requires WellFormed(store, nextId)
    requires CountNotifications(store, user) == 0
    ensures Page(UserNotifications(store, user, nextId), offset, limit) == []
  {
    UserNotificationsMatchCount(store, user, nextId);
  }

  /** The first page is the whole list when it fits: it holds every notification of the user. */
  lemma FirstPageIsEverything(store: Store, user: int, nextId: int, limit: nat)
    requires WellFormed(store, nextId)
    requires CountNotifications(store, user) <= limit
    ensures |LoadedItems(store, user, nextId, 0, limit)| == CountNotifications(store, user)
    ensures forall id :: id in store && store[id].ownerId == user ==>
              BuildDomainObject(store[id]) in LoadedItems(store, user, nextId, 0, limit)
  {
    var rows := UserNotifications(store, user, nextId);
    var items := LoadedItems(store, user, nextId, 0, limit);
    UserNotificationsMatchCount(store, user, nextId);
    assert Page(rows, 0, limit) == rows;
    forall id | id in store && store[id].ownerId == user
      ensures BuildDomainObject(store[id]) in items
    {
      OwnedDescendingComplete(store, user, nextId - 1, id);
      var k :| 0 <= k < |rows| && rows[k] == store[id];
      assert items[k] == BuildDomainObject(rows[k]);
    }
  }

  /**
   * Loading one notification: it is returned exactly when it is stored and its owner
   * is set and is the current user; every refusal is NotFound.
   */
  function GetNotification(store: Store, user: int, notificationId: int): (r: Result<Notification, Error>)
    ensures r.Ok? <==> notificationId in store && store[notificationId].ownerId != 0 && store[notificationId].ownerId == user
    ensures r.Ok? ==> r.value == BuildDomainObject(store[notificationId]) && r.value.ownerId == user
    ensures r.Err? ==> r.error == NotFound(NOTIFICATION, notificationId)
  {
    if notificationId !in store then Err(NotFound(NOTIFICATION, notificationId))
    else
      var spi := store[notificationId];
      if spi.ownerId == 0 || user != spi.ownerId then Err(NotFound(NOTIFICATION, notificationId))
      else Ok(BuildDomainObject(spi))
  }

  /** What one loads by id is also in the user's list. */
  lemma GetNotificationIsListed(store: Store, user: int, nextId: int, notificationId: int)
    requires WellFormed(store, nextId)
    requires GetNotification(store, user, notificationId).Ok?
    ensures store[notificationId] in UserNotifications(store, user, nextId)
  {
    OwnedDescendingComplete(store, user, nextId - 1, notificationId);
  }

  /** A current user id of zero can load no notification at all. */
  lemma ZeroUserGetsNothing(store: Store, notificationId: int)
    ensures GetNotification(store, 0, notificationId).Err?
  {
  }

  // ---------------------------------------------------------------------------
  // Marking as read
  // ---------------------------------------------------------------------------

  /**
   * The store after marking `notification` as read for `user`, with the guards in
   * the order of the service: a zero id, then a foreign owner, then an already
   * read notification, all judged on the passed object. The update sets the
   * pending flag of the stored row with that id, if there is one.
   */
  function MarkAsRead(store: Store, user: int, notification: Notification): (r: Result<Store, Error>)
    ensures notification.id == 0 ==> r == Err(NotFound(NOTIFICATION, 0))
    ensures notification.id != 0 && notification.ownerId != user ==> r == Err(Unauthorized(notification.id, NOTIFICATION))
    ensures r.Ok? <==> notification.id != 0 && notification.ownerId == user
    ensures r.Ok? && !notification.isPending ==> r.value == store
  {
    if notification.id == 0 then Err(NotFound(NOTIFICATION, notification.id))
    else if notification.ownerId != user then Err(Unauthorized(notification.id, NOTIFICATION))
    else if !notification.isPending then Ok(store)
    else if notification.id in store then Ok(store[notification.id := store[notification.id].(isPending := false)])
    else Ok(store)
  }

  /** A successful mark changes only the pending flag of that one row, to false. */
  lemma MarkAsReadChangesOnlyThatFlag(store: Store, user: int, notification: Notification)
    requires MarkAsRead(store, user, notification).Ok?
    ensures var after := MarkAsRead(store, user, notification).value;
            && after.Keys == store.Keys
            && (forall id :: id in store && id != notification.id ==> after[id] == store[id])
            && (notification.id in store ==>
                  after[notification.id] == (if notification.isPending then store[notification.id].(isPending := false) else store[notification.id]))
  {
  }

  /** Marking twice is marking once, whether the same object or the re-loaded one is passed again. */
  lemma MarkAsReadIsIdempotent(store: Store, user: int, notification: Notification)
    requires MarkAsRead(store, user, notification).Ok?
    ensures var after := MarkAsRead(store, user, notification).value;
            && MarkAsRead(after, user, notification) == Ok(after)
            && MarkAsRead(after, user, notification.(isPending := false)) == Ok(after)
  {
    var after := MarkAsRead(store, user, notification).value;
    if notification.isPending && notification.id in store {
      assert after[notification.id := after[notification.id].(isPending := false)] == after;
    }
  }

  /** Marking as read keeps every user's count and never raises a pending count. */
  lemma MarkAsReadCounts(store: Store, user: int, notification: Notification, anyUser: int)
    requires MarkAsRead(store, user, notification).Ok?
    ensures var after := MarkAsRead(store, user, notification).value;
            && CountNotifications(after, anyUser) == CountNotifications(store, anyUser)
            && CountPendingNotifications(after, anyUser) <= CountPendingNotifications(store, anyUser)
  {
    var after := MarkAsRead(store, user, notification).value;
    MarkAsReadChangesOnlyThatFlag(store, user, notification);
    assert OwnedIds(after, anyUser) == OwnedIds(store, anyUser);
    assert PendingIds(after, anyUser) <= PendingIds(store, anyUser);
    SubsetCardinality(PendingIds(after, anyUser), PendingIds(store, anyUser));
  }

  /**
   * Authorisation is judged on the passed object, not on the stored row: an object
   * that names the current user as owner, under the id of another user's pending
   * row, clears that row's pending flag.
   */
  lemma MarkAsReadTrustsPassedOwner(store: Store, user: int, notification: Notification)
    requires notification.id != 0 && notification.ownerId == user && notification.isPending
    requires notification.id in store && store[notification.id].ownerId != user
    ensures MarkAsRead(store, user, notification).Ok?
    ensures var after := MarkAsRead(store, user, notification).value;
            after[notification.id].ownerId == store[notification.id].ownerId && !after[notification.id].isPending
  {
  }

  // ---------------------------------------------------------------------------
  // Creating and deleting
  // ---------------------------------------------------------------------------

  /** Deleting removes the row with the passed object's id, whoever owns it. */
  function Deleted(store: Store, notification: Notification): (after: Store)
    ensures after.Keys == store.Keys - {notification.id}
    ensures forall id :: id in after ==> after[id] == store[id]
  {
    store - {notification.id}
  }

  /** The owner's count drops by one when the deleted id was stored; every other count is kept. */
  lemma DeletedCounts(store: Store, notification: Notification, anyUser: int)
    ensures CountNotifications(Deleted(store, notification), anyUser)
               == CountNotifications(store, anyUser)
                  - (if notification.id in store && store[notification.id].ownerId == anyUser then 1 else 0)
  {
    var after := Deleted(store, notification);
    assert OwnedIds(after, anyUser) == OwnedIds(store, anyUser) - {notification.id};
  }

  /** Storing a created row at the next free id adds one to its owner's count and keeps the store well formed. */
  lemma CreatedCounts(store: Store, nextId: int, createStruct: CreateStruct, now: int, anyUser: int)
    requires WellFormed(store, nextId)
    ensures var after := store[nextId := CreatedRow(createStruct, nextId, now)];
            && nextId !in store
            && WellFormed(after, nextId + 1)
            && CountNotifications(after, anyUser)
               == CountNotifications(store, anyUser) + (if createStruct.ownerId == anyUser then 1 else 0)
  {
    assert nextId !in store;
    OwnedIdsAfterInsert(store, nextId, CreatedRow(createStruct, nextId, now), anyUser);
  }

  /** Storing a row under a free id adds that id to its owner's ids and to no one else's. */
  lemma OwnedIdsAfterInsert(store: Store, id: int, row: SpiNotification, user: int)
    requires id !in store
    ensures OwnedIds(store[id := row], user) == OwnedIds(store, user) + (if row.ownerId == user then {id} else {})
    ensures id !in OwnedIds(store, user)
  {
  }

  // ---------------------------------------------------------------------------
  // The service
  // ---------------------------------------------------------------------------

  /** A notification list as loadNotifications fills it. */
  class NotificationList {
    var totalCount: int
    var items: seq<Notification>

    constructor ()
      ensures totalCount == 0 && items == []
    {
      totalCount := 0;
      items := [];
    }
  }

  class NotificationService {
    /** The persistence handler's rows, and the id its next created row gets. */
    var store: Store
    var nextId: int
    /** The user the permission resolver reports as current. */
    const currentUserId: int

    ghost predicate Valid()
      reads this
    {
      WellFormed(store, nextId)
    }

    constructor (currentUserId: int)
      ensures Valid() && store == map[] && nextId == 1 && this.currentUserId == currentUserId
    {
      store := map[];
      nextId := 1;
      this.currentUserId := currentUserId;
    }

    method LoadNotifications(offset: nat, limit: nat) returns (list: NotificationList)
      ensures fresh(list)
      ensures list.totalCount == CountNotifications(store, currentUserId)
      ensures list.items == LoadedItems(store, currentUserId, nextId, offset, limit)
    {
      list := new NotificationList();
      list.totalCount := CountNotifications(store, currentUserId);
      if list.totalCount > 0 {
        var page := Page(UserNotifications(store, currentUserId, nextId), offset, limit);
        list.items := seq(|page|, k requires 0 <= k < |page| => BuildDomainObject(page[k]));
      }
    }

    /** `loadNotifications()` with the default offset and limit. */
    method LoadDefaultNotifications() returns (list: NotificationList)
      ensures fresh(list)
      ensures list.totalCount == CountNotifications(store, currentUserId)
      ensures list.items == LoadedItems(store, currentUserId, nextId, DEFAULT_OFFSET, DEFAULT_LIMIT)
    {
      list := LoadNotifications(DEFAULT_OFFSET, DEFAULT_LIMIT);
    }

    method GetNotificationById(notificationId: int) returns (r: Result<Notification, Error>)
      ensures r == GetNotification(store, currentUserId, notificationId)
    {
      r := GetNotification(store, currentUserId, notificationId);
    }

    method MarkNotificationAsRead(notification: Notification) returns (r: Result<(), Error>)
      modifies this
      ensures nextId == old(nextId)
      ensures var m := MarkAsRead(old(store), currentUserId, notification);
              && (m.Ok? ==> r == Ok(()) && store == m.value)
              && (m.Err? ==> r == Err(m.error) && store == old(store))
      ensures old(Valid()) ==> Valid()
    {
      var m := MarkAsRead(store, currentUserId, notification);
      if m.Err? {
        return Err(m.error);
      }
      store := m.value;
      r := Ok(());
    }

    method GetPendingNotificationCount() returns (count: int)
      ensures count == CountPendingNotifications(store, currentUserId)
    {
      count := CountPendingNotifications(store, currentUserId);
    }

    method GetNotificationCount() returns (count: int)
      ensures count == CountNotifications(store, currentUserId)
    {
      count := CountNotifications(store, currentUserId);
    }

    method DeleteNotification(notification: Notification)
      modifies this
      ensures store == Deleted(old(store), notification) && nextId == old(nextId)
      ensures old(Valid()) ==> Valid()
    {
      store := Deleted(store, notification);
    }

    /** Stores the struct's row at the next free id, timestamped `now`, and returns its domain object. */
    method CreateNotification(createStruct: CreateStruct, now: int) returns (n: Notification)
      requires Valid()
      modifies this
      ensures Valid()
      ensures old(nextId) !in old(store)
      ensures store == old(store)[old(nextId) := CreatedRow(createStruct, old(nextId), now)] && nextId == old(nextId) + 1
      ensures n == BuildDomainObject(store[old(nextId)])
    {
      var row := CreatedRow(createStruct, nextId, now);
      CreatedCounts(store, nextId, createStruct, now, createStruct.ownerId);
      store := store[nextId := row];
      nextId := nextId + 1;
      n := BuildDomainObject(row);
    }
  }
}
