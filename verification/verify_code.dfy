/** The verification-code endpoint of src/app/api/verify-code/route.ts: a
    format check on the submitted code, a lookup of the account by username,
    then a comparison of the stored code and expiry that either marks the
    account verified or reports why not. Time is integer milliseconds since
    the epoch, the value JavaScript `Date` objects compare by. */
module VerifyCode {

  /** The fields of an account the endpoint reads or writes. */
  datatype Account = Account(verifyCode: string, verifyCodeExpiry: int, isVerified: bool)

  /** Accounts keyed by username. */
  type Store = map<string, Account>

  /** The five ways a redemption can end. */
  datatype Outcome = FormatError | UserNotFound | Verified | Expired | Mismatch

  /** The HTTP reply and the store after the request. */
  datatype Reply = Reply(outcome: Outcome, success: bool, status: int, store: Store)

  /** The HTTP status sent back for each outcome. An unknown user is
      answered with 500, not 404. */
  function StatusOf(o: Outcome): (status: int)
    ensures status == 200 <==> o == Verified
    ensures o == UserNotFound <==> status == 500
    ensures status in {200, 400, 500}
  {
    match o
    case FormatError => 400
    case UserNotFound => 500
    case Verified => 200
    case Expired => 400
    case Mismatch => 400
  }

  /** The account is past its expiry: `new Date(expiry) > new Date()` fails,
      so the moment of expiry itself already counts as expired. */
  predicate IsExpired(a: Account, now: int) {
    !(a.verifyCodeExpiry > now)
  }

  /** The account with its verified flag set and nothing else touched. */
  function MarkVerified(a: Account): (b: Account)
    ensures b.isVerified
    ensures b.verifyCode == a.verifyCode && b.verifyCodeExpiry == a.verifyCodeExpiry
  {
    a.(isVerified := true)
  }

  /** The decision for an account that was found. The success test comes
      first, then expiry, so an expired code is reported as expired even when
      it matches. */
  function Judge(a: Account, code: string, now: int): (o: Outcome)
    ensures o in {Verified, Expired, Mismatch}
    ensures o == Verified <==> a.verifyCode == code && !IsExpired(a, now)
    ensures o == Expired <==> IsExpired(a, now)
    ensures o == Mismatch <==> a.verifyCode != code && !IsExpired(a, now)
  {
    var isCodeValid := a.verifyCode == code;
    var isCodeNotExpired := a.verifyCodeExpiry > now;
    if isCodeValid && isCodeNotExpired then Verified
    else if !isCodeNotExpired then Expired
    else Mismatch
  }

  /** `POST /api/verify-code`. `codeFormatOk` stands for `verifySchema`, whose
      definition is not part of this model. */
  function Redeem(store: Store, username: string, code: string, now: int, codeFormatOk: string -> bool): (r: Reply)
    ensures r.success <==> r.outcome == Verified
    ensures r.status == StatusOf(r.outcome)
    ensures !codeFormatOk(code) ==> r.outcome == FormatError && r.status == 400 && r.store == store
    ensures codeFormatOk(code) && username !in store ==> r.outcome == UserNotFound && r.status == 500 && r.store == store
    ensures r.outcome == Verified <==>
      codeFormatOk(code) && username in store && store[username].verifyCode == code && store[username].verifyCodeExpiry > now
    ensures r.outcome == Expired <==>
      codeFormatOk(code) && username in store && store[username].verifyCodeExpiry <= now
    ensures r.outcome == Mismatch <==>
      codeFormatOk(code) && username in store && store[username].verifyCode != code && store[username].verifyCodeExpiry > now
    ensures r.outcome == Verified ==> r.store == store[username := MarkVerified(store[username])]
    ensures r.outcome != Verified ==> r.store == store
  {
    if !codeFormatOk(code) then
      Reply(FormatError, false, StatusOf(FormatError), store)
    else if username !in store then
      Reply(UserNotFound, false, StatusOf(UserNotFound), store)
    else
      var account := store[username];
      var o := Judge(account, code, now);
      var store' := if o == Verified then store[username := MarkVerified(account)] else store;
      Reply(o, o == Verified, StatusOf(o), store')
  }

  /** Redemption only ever sets `isVerified`: no account appears or
      disappears, no code or expiry changes, and a verified account stays
      verified. */
  lemma RedeemOnlySetsVerified(store: Store, username: string, code: string, now: int, codeFormatOk: string -> bool)
    ensures Redeem(store, username, code, now, codeFormatOk).store.Keys == store.Keys
    ensures forall u | u in store ::
      var after := Redeem(store, username, code, now, codeFormatOk).store[u];
      && after.verifyCode == store[u].verifyCode
      && after.verifyCodeExpiry == store[u].verifyCodeExpiry
      && (store[u].isVerified ==> after.isVerified)
    ensures forall u | u in store && u != username ::
      Redeem(store, username, code, now, codeFormatOk).store[u] == store[u]
  {
  }

  /** A failed redemption leaves the verified flag where it was. */
  lemma FailureKeepsFlag(store: Store, username: string, code: string, now: int, codeFormatOk: string -> bool)
    requires username in store
    requires Redeem(store, username, code, now, codeFormatOk).outcome != Verified
    ensures Redeem(store, username, code, now, codeFormatOk).store[username].isVerified == store[username].isVerified
  {
  }

  /** The code is not consumed: repeating a successful call with the same
      code at the same moment succeeds again and leaves the same store. */
  lemma RedeemIdempotent(store: Store, username: string, code: string, now: int, codeFormatOk: string -> bool)
    requires Redeem(store, username, code, now, codeFormatOk).outcome == Verified
    ensures var first := Redeem(store, username, code, now, codeFormatOk);
      Redeem(first.store, username, code, now, codeFormatOk) == first
  {
  }

  /** Any later attempt before expiry with the same code also succeeds. */
  lemma RedeemRepeatableUntilExpiry(store: Store, username: string, code: string, now: int, later: int, codeFormatOk: string -> bool)
    requires Redeem(store, username, code, now, codeFormatOk).outcome == Verified
    requires now <= later < store[username].verifyCodeExpiry
    ensures Redeem(Redeem(store, username, code, now, codeFormatOk).store, username, code, later, codeFormatOk).outcome == Verified
  {
  }

  /** Expiry is monotone in time: once a call reports `Expired`, the same
      call at any later moment reports `Expired` too, whatever code is sent. */
  lemma ExpiryIsPermanent(store: Store, username: string, code: string, other: string, now: int, later: int, codeFormatOk: string -> bool)
    requires Redeem(store, username, code, now, codeFormatOk).outcome == Expired
    requires now <= later
    requires codeFormatOk(other)
    ensures Redeem(store, username, other, later, codeFormatOk).outcome == Expired
  {
  }

  /** Expiry takes precedence over the code comparison, and the boundary is
      strict: at `now == expiry` even the right code is refused. */
  lemma ExpiredAtBoundary(store: Store, username: string, codeFormatOk: string -> bool)
    requires username in store
    requires codeFormatOk(store[username].verifyCode)
    ensures var a := store[username];
      Redeem(store, username, a.verifyCode, a.verifyCodeExpiry, codeFormatOk).outcome == Expired
    ensures var a := store[username];
      Redeem(store, username, a.verifyCode, a.verifyCodeExpiry - 1, codeFormatOk).outcome == Verified
  {
  }
}
