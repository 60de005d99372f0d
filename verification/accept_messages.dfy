/** The accept-messages endpoints of src/app/api/accept-messages/route.ts.
    The user collection is reduced to each account's `isAcceptingMessage`
    flag keyed by account id, and the session resolved by `auth()` is a
    parameter: absent, or carrying the caller's id. */
module AcceptMessages {
  import opened Wrappers

  /** An account id, as carried by the session. */
  type UserId = string

  /** Each account's accepting-messages flag. */
  type Store = map<UserId, bool>

  const Ok: int := 200
  const Unauthorized: int := 401
  const NotFound: int := 404

  /** The reply to POST and the store after it; `updated` is the flag of the
      returned `updatedUser`, when there is one. */
  datatype PostReply = PostReply(success: bool, status: int, updated: Option<bool>, store: Store)

  /** The reply to GET; `accepting` is `isAcceptingMessages`, when present. */
  datatype GetReply = GetReply(success: bool, status: int, accepting: Option<bool>)

  /** `POST /api/accept-messages`: set the caller's own flag.
      `findByIdAndUpdate` does not create missing accounts, and a missing
      account is answered with 401. */
  function Post(store: Store, session: Option<UserId>, acceptMessages: bool): (r: PostReply)
    ensures session.None? ==> !r.success && r.status == Unauthorized && r.store == store
    ensures session.Some? && session.value !in store ==>
      !r.success && r.status == Unauthorized && r.store == store
    ensures r.success <==> session.Some? && session.value in store
    ensures r.success <==> r.status == Ok
    ensures r.updated.Some? <==> r.success
    ensures r.success ==>
      && r.store == store[session.value := acceptMessages]
      && r.updated == Some(acceptMessages)
    ensures r.store.Keys == store.Keys
    ensures forall u | u in store && session != Some(u) :: r.store[u] == store[u]
  {
    match session
    case None => PostReply(false, Unauthorized, None, store)
    case Some(id) =>
      if id !in store then PostReply(false, Unauthorized, None, store)
      else
        var store' := store[id := acceptMessages];
        PostReply(true, Ok, Some(store'[id]), store')
  }

  /** `GET /api/accept-messages`: read the caller's own flag. */
  function Get(store: Store, session: Option<UserId>): (r: GetReply)
    ensures session.None? ==> !r.success && r.status == Unauthorized
    ensures session.Some? && session.value !in store ==> !r.success && r.status == NotFound
    ensures r.success <==> session.Some? && session.value in store
    ensures r.success <==> r.status == Ok
    ensures r.accepting.Some? <==> r.success
    ensures r.success ==> r.accepting == Some(store[session.value])
  {
    match session
    case None => GetReply(false, Unauthorized, None)
    case Some(id) =>
      if id !in store then GetReply(false, NotFound, None)
      else GetReply(true, Ok, Some(store[id]))
  }

  /** No stale read: a successful POST of `v` is seen by the caller's next GET. */
  lemma PostThenGet(store: Store, id: UserId, v: bool)
    requires Post(store, Some(id), v).success
    ensures Get(Post(store, Some(id), v).store, Some(id)) == GetReply(true, Ok, Some(v))
  {
  }

  /** A POST by one user is invisible to every other user's GET. */
  lemma PostIsolated(store: Store, id: UserId, other: UserId, v: bool)
    requires other != id
    ensures Get(Post(store, Some(id), v).store, Some(other)) == Get(store, Some(other))
  {
  }

  /** Writing back the value just read leaves the store as it was, and a
      second identical POST changes nothing further. */
  lemma PostIdempotent(store: Store, session: Option<UserId>, v: bool)
    ensures var once := Post(store, session, v).store;
      Post(once, session, v).store == once
    ensures Get(store, session).success ==>
      Post(store, session, Get(store, session).accepting.value).store == store
  {
  }

  /** The last of two POSTs by the same caller wins. */
  lemma LastPostWins(store: Store, session: Option<UserId>, v: bool, w: bool)
    ensures Post(Post(store, session, v).store, session, w).store == Post(store, session, w).store
  {
  }

  /** The dashboard's toggle (POST of the negation of the value it read)
      flips the flag, and toggling twice restores the store. */
  lemma ToggleTwiceRestores(store: Store, id: UserId)
    requires id in store
    ensures var once := Post(store, Some(id), !store[id]).store;
      && once[id] == !store[id]
      && Post(once, Some(id), !once[id]).store == store
  {
  }

  /** Without a session neither endpoint succeeds or changes anything. */
  lemma UnauthenticatedIsRefused(store: Store, v: bool)
    ensures Post(store, None, v) == PostReply(false, Unauthorized, None, store)
    ensures Get(store, None) == GetReply(false, Unauthorized, None)
  {
  }

  /** The two endpoints disagree on a vanished account: POST answers 401,
      GET answers 404. */
  lemma MissingAccountStatuses(store: Store, id: UserId, v: bool)
    requires id !in store
    ensures Post(store, Some(id), v).status == Unauthorized
    ensures Get(store, Some(id)).status == NotFound
  {
  }
}
