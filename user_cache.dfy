/** The admin user hooks' optimistic cache updates: each mutation rewrites
    the cached user list and counters before the server answers, keeps a
    snapshot, and puts the snapshot back if the server refuses. */
module UserCache {
  import opened Wrappers
  import opened JsString

  /** A field of a cached user record. */
  datatype Value = Str(s: string) | Bool(b: bool)

  /** A user record, field name to value. */
  type User = map<string, Value>

  predicate HasId(u: User, id: string) {
    "_id" in u && u["_id"] == Str(id)
  }

  /** `adminCounts.data`: each counter may be missing. */
  datatype Counts = Counts(activeUsers: Option<int>, activeVendors: Option<int>)

  /** `(x || 0)`: a missing or zero counter reads as 0. */
  function CountOf(x: Option<int>): int { x.GetOr(0) }

  // ---------------------------------------------------------------- the updaters

  /** The create updater's list: `[...old, { ...newUser, _id }]`. */
  function Appended(users: seq<User>, newUser: User, id: string): (r: seq<User>)
    ensures |r| == |users| + 1 && r[..|users|] == users
    ensures HasId(r[|users|], id)
    ensures forall k :: k in newUser && k != "_id" ==> k in r[|users|] && r[|users|][k] == newUser[k]
    ensures r[|users|].Keys == newUser.Keys + {"_id"}
  {
    users + [newUser["_id" := Str(id)]]
  }

  /** The update updater's list: `{ ...user, ...userData }` for the users
      with the id, the others as they are. */
  function MergedById(users: seq<User>, id: string, data: User): (r: seq<User>)
    ensures |r| == |users|
    ensures forall i :: 0 <= i < |users| && !HasId(users[i], id) ==> r[i] == users[i]
    ensures forall i :: 0 <= i < |users| && HasId(users[i], id) ==>
      r[i].Keys == users[i].Keys + data.Keys &&
      forall k :: k in r[i] ==> r[i][k] == if k in data then data[k] else users[i][k]
  {
    if users == [] then []
    else [if HasId(users[0], id) then users[0] + data else users[0]] + MergedById(users[1..], id, data)
  }

  /** The activate and deactivate updaters' list: `isActive` set on the
      users with the id. */
  function WithActive(users: seq<User>, id: string, active: bool): (r: seq<User>)
    ensures |r| == |users|
    ensures forall i :: 0 <= i < |users| ==>
      r[i] == if HasId(users[i], id) then users[i]["isActive" := Bool(active)] else users[i]
  {
    if users == [] then []
    else
      var head := if HasId(users[0], id) then users[0]["isActive" := Bool(active)] else users[0];
      [head] + WithActive(users[1..], id, active)
  }

  /** `previousUsers?.data?.data?.find((u) => u._id === userId)` */
  function FindUser(users: seq<User>, id: string): (r: Option<User>)
    ensures r.Some? <==> exists i :: 0 <= i < |users| && HasId(users[i], id)
    ensures r.Some? ==> exists i :: (0 <= i < |users| && users[i] == r.value && HasId(users[i], id)
      && forall j :: 0 <= j < i ==> !HasId(users[j], id))
  {
    if users == [] then None
    else if HasId(users[0], id) then Some(users[0])
    else
      var r := FindUser(users[1..], id);
      assert forall i :: 1 <= i < |users| ==> users[i] == users[1..][i - 1];
      r
  }

  /** `user?.role === role` */
  predicate RoleIs(u: Option<User>, role: string) {
    u.Some? && "role" in u.value && u.value["role"] == Str(role)
  }

  /** The activate (`delta` 1) and deactivate (`delta` -1) counter updater:
      the snapshot user's role picks the counter, and any other role leaves
      both as they were. */
  function Adjusted(c: Counts, u: Option<User>, delta: int): (r: Counts)
    ensures RoleIs(u, "user") ==> r.activeUsers == Some(CountOf(c.activeUsers) + delta)
    ensures !RoleIs(u, "user") ==> r.activeUsers == c.activeUsers
    ensures RoleIs(u, "vendor") ==> r.activeVendors == Some(CountOf(c.activeVendors) + delta)
    ensures !RoleIs(u, "vendor") ==> r.activeVendors == c.activeVendors
  {
    Counts(
      if RoleIs(u, "user") then Some(CountOf(c.activeUsers) + delta) else c.activeUsers,
      if RoleIs(u, "vendor") then Some(CountOf(c.activeVendors) + delta) else c.activeVendors)
  }

  /** The create counter updater: one more active user whatever the new
      user's role. */
  function CreatedCounts(c: Counts): (r: Counts)
    ensures r.activeUsers == Some(CountOf(c.activeUsers) + 1) && r.activeVendors == c.activeVendors
  {
    c.(activeUsers := Some(CountOf(c.activeUsers) + 1))
  }

  // ---------------------------------------------------------------- properties

  /** Merging the same data twice is merging it once, as long as the data
      does not change the id it was matched on. */
  lemma {:induction false} MergeIdempotent(users: seq<User>, id: string, data: User)
    requires "_id" !in data || data["_id"] == Str(id)
    ensures MergedById(MergedById(users, id, data), id, data) == MergedById(users, id, data)
  {
    if users != [] {
      MergeIdempotent(users[1..], id, data);
      var once := if HasId(users[0], id) then users[0] + data else users[0];
      assert HasId(once, id) <==> HasId(users[0], id);
      if HasId(users[0], id) {
        assert once + data == once;
      }
      assert MergedById(users, id, data)[1..] == MergedById(users[1..], id, data);
    }
  }

  /** The last activation state wins. */
  lemma {:induction false} LastActivationWins(users: seq<User>, id: string, a: bool, b: bool)
    ensures WithActive(WithActive(users, id, a), id, b) == WithActive(users, id, b)
  {
    if users != [] {
      LastActivationWins(users[1..], id, a, b);
      var u := users[0];
      assert HasId(u["isActive" := Bool(a)], id) <==> HasId(u, id);
      assert u["isActive" := Bool(a)]["isActive" := Bool(b)] == u["isActive" := Bool(b)];
      assert WithActive(users, id, a)[1..] == WithActive(users[1..], id, a);
    }
  }

  /** Activating and then deactivating the same user brings the counters
      back, except that a missing counter comes back as 0. */
  lemma ActivateThenDeactivate(c: Counts, u: Option<User>)
    ensures Adjusted(Adjusted(c, u, 1), u, -1) ==
      Counts(if RoleIs(u, "user") then Some(CountOf(c.activeUsers)) else c.activeUsers,
             if RoleIs(u, "vendor") then Some(CountOf(c.activeVendors)) else c.activeVendors)
  {
  }

  /** Nothing stops a counter from going below zero: deactivating a user
      takes one from whatever count is cached, a missing one read as 0. */
  lemma DeactivateCanGoNegative(c: Option<int>, vendors: Option<int>, u: Option<User>)
    requires RoleIs(u, "user")
    ensures Adjusted(Counts(c, vendors), u, -1).activeUsers == Some(CountOf(c) - 1)
    ensures CountOf(c) <= 0 ==> Adjusted(Counts(c, vendors), u, -1).activeUsers.value < 0
    ensures Adjusted(Counts(c, vendors), u, -1).activeVendors == vendors
  {
  }

  /** `checkMobileExists`: the reply's `exists` flag, and `false` whenever the
      request fails. The add-user dialog defines a function with the same
      body, and it is modelled by this one too. */
  function MobileExists(reply: Result<bool, string>): (r: bool)
    ensures r <==> reply.Ok? && reply.value
  {
    match reply
    case Ok(found) => found
    case Err(_) => false
  }

  /** The four mutations of the hook. */
  datatype Mutation = CreateUser | UpdateUser | ActivateUser | DeactivateUser

  /** The toast of a mutation's `onError`: the server's message, or the
      mutation's own fallback. */
  function FailureToast(m: Mutation, serverMessage: Option<string>): (r: string)
    ensures r != ""
    ensures serverMessage.Some? && serverMessage.value != "" ==> r == serverMessage.value
    ensures serverMessage.None? || serverMessage.value == "" ==> r == match m
      case CreateUser => "Failed to create user"
      case UpdateUser => "Failed to update user"
      case ActivateUser => "Error activating user"
      case DeactivateUser => "Error deactivating user"
  {
    OrElse(serverMessage, match m
      case CreateUser => "Failed to create user"
      case UpdateUser => "Failed to update user"
      case ActivateUser => "Error activating user"
      case DeactivateUser => "Error deactivating user")
  }

  // ---------------------------------------------------------------- the cache

  /** What `onMutate` hands to `onError`. */
  datatype Snapshot = Snapshot(users: Option<seq<User>>, counts: Option<Counts>, vendors: Option<seq<User>>)

  /** The three cached queries; `None` is a query with no data (no
      `data.data` or no `data`). */
  class QueryCache {
    var users: Option<seq<User>>
    var counts: Option<Counts>
    var vendors: Option<seq<User>>

    constructor (users0: Option<seq<User>>, counts0: Option<Counts>, vendors0: Option<seq<User>>)
      ensures users == users0 && counts == counts0 && vendors == vendors0
    {
      users := users0;
      counts := counts0;
      vendors := vendors0;
    }

    /** `createUser`'s `onMutate`; `now` is `Date.now().toString()`. */
    method CreateMutate(newUser: User, now: string) returns (snap: Snapshot)
      modifies this`users, this`counts
      ensures snap == Snapshot(old(users), old(counts), None)
      ensures users == if old(users).Some? then Some(Appended(old(users).value, newUser, now)) else None
      ensures counts == if old(counts).Some? then Some(CreatedCounts(old(counts).value)) else None
    {
      snap := Snapshot(users, counts, None);
      if users.Some? { users := Some(Appended(users.value, newUser, now)); }
      if counts.Some? { counts := Some(CreatedCounts(counts.value)); }
    }

    /** `updateUser`'s `onMutate`: only the list is touched and saved. */
    method UpdateMutate(userId: string, userData: User) returns (snap: Snapshot)
      modifies this`users
      ensures snap == Snapshot(old(users), None, None)
      ensures users == if old(users).Some? then Some(MergedById(old(users).value, userId, userData)) else None
    {
      snap := Snapshot(users, None, None);
      if users.Some? { users := Some(MergedById(users.value, userId, userData)); }
    }

    /** `activateUser`'s (`active`) and `deactivateUser`'s `onMutate`: the
        counters move by the role of the user as found in the snapshot. */
    method ToggleMutate(userId: string, active: bool) returns (snap: Snapshot)
      modifies this`users, this`counts
      ensures snap == Snapshot(old(users), old(counts), old(vendors))
      ensures users == if old(users).Some? then Some(WithActive(old(users).value, userId, active)) else None
      ensures var found := if old(users).Some? then FindUser(old(users).value, userId) else None;
        counts == if old(counts).Some? then Some(Adjusted(old(counts).value, found, if active then 1 else -1)) else None
    {
      snap := Snapshot(users, counts, vendors);
      var found := if users.Some? then FindUser(users.value, userId) else None;
      if users.Some? { users := Some(WithActive(users.value, userId, active)); }
      if counts.Some? { counts := Some(Adjusted(counts.value, found, if active then 1 else -1)); }
    }

    /** Every `onError`: each query with a saved value gets it back. */
    method Rollback(snap: Snapshot)
      modifies this
      ensures users == if snap.users.Some? then snap.users else old(users)
      ensures counts == if snap.counts.Some? then snap.counts else old(counts)
      ensures vendors == if snap.vendors.Some? then snap.vendors else old(vendors)
    {
      if snap.users.Some? { users := snap.users; }
      if snap.counts.Some? { counts := snap.counts; }
      if snap.vendors.Some? { vendors := snap.vendors; }
    }
  }

  /** A create the server refuses leaves the cache as it was. */
  method FailedCreateRestores(cache: QueryCache, newUser: User, now: string)
    modifies cache
    ensures cache.users == old(cache.users) && cache.counts == old(cache.counts) && cache.vendors == old(cache.vendors)
  {
    var snap := cache.CreateMutate(newUser, now);
    cache.Rollback(snap);
  }

  /** A refused update leaves the cache as it was; it never touches the
      counters. */
  method FailedUpdateRestores(cache: QueryCache, userId: string, userData: User)
    modifies cache
    ensures cache.users == old(cache.users) && cache.counts == old(cache.counts) && cache.vendors == old(cache.vendors)
  {
    var snap := cache.UpdateMutate(userId, userData);
    cache.Rollback(snap);
  }

  /** A refused activation or deactivation leaves the cache as it was. */
  method FailedToggleRestores(cache: QueryCache, userId: string, active: bool)
    modifies cache
    ensures cache.users == old(cache.users) && cache.counts == old(cache.counts) && cache.vendors == old(cache.vendors)
  {
    var snap := cache.ToggleMutate(userId, active);
    cache.Rollback(snap);
  }
}
