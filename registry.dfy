/**
 * The user registry, `bot_data['users']`: a map from user id to the profile
 * seen first and the number of photos handled for that user, plus the
 * administrator's totals over it.
 */
module Registry {
  import opened Wrappers
  import opened Chat

  /** The effective user of an update, as the chat platform reports it. */
  datatype TelegramUser = TelegramUser(id: int, firstName: string, username: Option<string>)

  /** One entry of the registry. */
  datatype UserRecord = UserRecord(firstName: string, username: Option<string>, requests: nat)

  type Users = map<int, UserRecord>

  /** track_user: insert-if-absent; nothing happens without an effective user or for a known id. */
  function Track(users: Users, user: Option<TelegramUser>): (r: Users)
    ensures user.None? ==> r == users
    ensures user.Some? ==> r.Keys == users.Keys + {user.value.id}
    ensures forall id :: id in users ==> r[id] == users[id]
    ensures user.Some? && user.value.id !in users ==>
              r[user.value.id] == UserRecord(user.value.firstName, user.value.username, 0)
  {
    if user.Some? && user.value.id !in users then
      users[user.value.id := UserRecord(user.value.firstName, user.value.username, 0)]
    else
      users
  }

  /** `bot_data['users'][id]['requests'] += 1`; the id is always registered by track_user first. */
  function Bump(users: Users, id: int): (r: Users)
    requires id in users
    ensures r.Keys == users.Keys
    ensures r[id].requests == users[id].requests + 1
    ensures r[id].firstName == users[id].firstName && r[id].username == users[id].username
    ensures forall other :: other in users && other != id ==> r[other] == users[other]
  {
    users[id := users[id].(requests := users[id].requests + 1)]
  }

  /**
   * `order` lists the registered ids in insertion order, each exactly once:
   * the iteration order of the Python dict the registry is.
   */
  ghost predicate Ordered(users: Users, order: seq<int>) {
    && (forall i :: 0 <= i < |order| ==> order[i] in users)
    && (forall id :: id in users ==> id in order)
    && (forall i, j :: 0 <= i < j < |order| ==> order[i] != order[j])
  }

  /** The insertion order after track_user. */
  function TrackOrder(users: Users, order: seq<int>, user: Option<TelegramUser>): (r: seq<int>)
    ensures user.Some? && user.value.id !in users ==> r == order + [user.value.id]
    ensures user.None? || user.value.id in users ==> r == order
  {
    if user.Some? && user.value.id !in users then order + [user.value.id] else order
  }

  /** The sum of the `requests` fields of the records under `ids`, in the order given. */
  function SumAlong(users: Users, ids: seq<int>): (sum: nat)
    requires forall i :: 0 <= i < |ids| ==> ids[i] in users
  {
    if |ids| == 0 then 0
    else SumAlong(users, ids[..|ids| - 1]) + users[ids[|ids| - 1]].requests
  }

  /** `sum(user.get('requests', 0) for user in users_data.values())` */
  ghost function TotalRequests(users: Users, order: seq<int>): (total: nat)
    requires Ordered(users, order)
    ensures forall id :: id in users ==> users[id].requests <= total
    ensures |users| == 0 ==> total == 0
  {
    SumAlongBounds(users, order);
    SumAlong(users, order)
  }

  /** Every counter along `ids` is at most their sum. */
  lemma {:induction false} SumAlongBounds(users: Users, ids: seq<int>)
    requires forall i :: 0 <= i < |ids| ==> ids[i] in users
    ensures forall i :: 0 <= i < |ids| ==> users[ids[i]].requests <= SumAlong(users, ids)
  {
    if |ids| > 0 {
      SumAlongBounds(users, ids[..|ids| - 1]);
      forall i | 0 <= i < |ids| - 1
        ensures users[ids[i]].requests <= SumAlong(users, ids)
      {
        assert ids[..|ids| - 1][i] == ids[i];
      }
    }
  }

  /** Two registries whose counters agree on `ids` have the same sum along `ids`. */
  lemma {:induction false} SumAlongAgree(a: Users, b: Users, ids: seq<int>)
    requires forall i :: 0 <= i < |ids| ==> ids[i] in a && ids[i] in b
    requires forall i :: 0 <= i < |ids| ==> a[ids[i]].requests == b[ids[i]].requests
    ensures SumAlong(a, ids) == SumAlong(b, ids)
  {
    if |ids| > 0 {
      SumAlongAgree(a, b, ids[..|ids| - 1]);
    }
  }

  /** Bumping an id that occurs once along `ids` raises the sum along `ids` by one. */
  lemma {:induction false} SumAlongBump(users: Users, ids: seq<int>, id: int)
    requires id in users && id in ids
    requires forall i :: 0 <= i < |ids| ==> ids[i] in users
    requires forall i, j :: 0 <= i < j < |ids| ==> ids[i] != ids[j]
    ensures SumAlong(Bump(users, id), ids) == SumAlong(users, ids) + 1
  {
    var front := ids[..|ids| - 1];
    if ids[|ids| - 1] == id {
      SumAlongAgree(Bump(users, id), users, front);
    } else {
      assert id in front by {
        var k :| 0 <= k < |ids| && ids[k] == id;
        assert front[k] == id;
      }
      SumAlongBump(users, front, id);
    }
  }

  /** Registering a user keeps the insertion order exact, adds at most one entry and never changes the request total. */
  lemma TrackKeepsTotal(users: Users, order: seq<int>, user: Option<TelegramUser>)
    requires Ordered(users, order)
    ensures Ordered(Track(users, user), TrackOrder(users, order, user))
    ensures |Track(users, user)| == if user.Some? && user.value.id !in users then |users| + 1 else |users|
    ensures TotalRequests(Track(users, user), TrackOrder(users, order, user)) == TotalRequests(users, order)
  {
    if user.Some? && user.value.id !in users {
      var r := Track(users, user);
      var order' := TrackOrder(users, order, user);
      assert order'[..|order'| - 1] == order;
      SumAlongAgree(r, users, order);
    }
  }

  /** A second track_user for the same id, whatever profile it carries, changes nothing. */
  lemma TrackIdempotent(users: Users, order: seq<int>, first: TelegramUser, again: TelegramUser)
    requires again.id == first.id
    ensures Track(Track(users, Some(first)), Some(again)) == Track(users, Some(first))
    ensures TrackOrder(Track(users, Some(first)), TrackOrder(users, order, Some(first)), Some(again))
         == TrackOrder(users, order, Some(first))
    ensures Track(users, Some(first))[first.id].requests == if first.id in users then users[first.id].requests else 0
  {
  }

  /** One handled photo raises the administrator's request total by exactly one. */
  lemma BumpAddsOne(users: Users, order: seq<int>, id: int)
    requires Ordered(users, order) && id in users
    ensures Ordered(Bump(users, id), order)
    ensures |Bump(users, id)| == |users|
    ensures TotalRequests(Bump(users, id), order) == TotalRequests(users, order) + 1
  {
    SumAlongBump(users, order, id);
  }

  class UserRegistry {
    var users: Users
    var order: seq<int>

    ghost predicate Valid()
      reads this
    {
      Ordered(users, order)
    }

    /** setup_bot_data: the registry starts empty. */
    constructor ()
      ensures Valid() && users == map[] && order == []
    {
      users, order := map[], [];
    }

    /** track_user */
    method TrackUser(user: Option<TelegramUser>)
      requires Valid()
      modifies this
      ensures Valid()
      ensures users == Track(old(users), user)
      ensures order == TrackOrder(old(users), old(order), user)
    {
      TrackKeepsTotal(users, order, user);
      if user.None? {
        return;
      }
      var u := user.value;
      if u.id !in users {
        users := users[u.id := UserRecord(u.firstName, u.username, 0)];
        order := order + [u.id];
      }
    }

    /** The counter increment of auto_remove_background. */
    method RecordAttempt(id: int)
      requires Valid() && id in users
      modifies this
      ensures Valid()
      ensures users == Bump(old(users), id) && order == old(order)
    {
      BumpAddsOne(users, order, id);
      var record := users[id];
      users := users[id := record.(requests := record.requests + 1)];
    }

    /** admin_command: the guard and the two totals. */
    method AdminReport(callerId: int, adminId: int) returns (reply: Notice)
      requires Valid()
      ensures callerId != adminId ==> reply == Reply(DeniedText)
      ensures callerId == adminId ==> reply == AdminPanel(|users|, TotalRequests(users, order))
    {
      if callerId != adminId {
        return Reply(DeniedText);
      }
      var total := 0;
      for i := 0 to |order|
        invariant total == SumAlong(users, order[..i])
      {
        assert order[..i + 1][..i] == order[..i];
        total := total + users[order[i]].requests;
      }
      assert order[..|order|] == order;
      reply := AdminPanel(|users|, total);
    }
  }
}
