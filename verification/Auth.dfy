/** The session value and the errors that the login path distinguishes. */
module Auth {
  datatype AccountId = AccountId(name: string)

  /** Seconds a stored token lives, and how long before its expiry it is due for refresh. */
  const TOKEN_TTL := 3 * 60 * 60
  const REFRESH_WINDOW := 10 * 60

  datatype Session = Session(token: string, accountId: AccountId, expiry: int, refreshAt: int) {
    predicate ShouldRefresh(now: int) {
      now >= refreshAt
    }

    predicate IsExpired(now: int) {
      now >= expiry
    }
  }

  /** The zero value a fresh attempt's result field holds. */
  const NO_ACCOUNT := AccountId("")
  const NO_SESSION := Session("", NO_ACCOUNT, 0, 0)

  /** The session SaveToken stores for a token acknowledged at `now`. */
  function StampSession(account: AccountId, token: string, now: int): (s: Session)
    ensures s.accountId == account
    ensures !s.ShouldRefresh(now)
    ensures forall t :: s.IsExpired(t) ==> s.ShouldRefresh(t)
  {
    Session(token, account, now + TOKEN_TTL, now + (TOKEN_TTL - REFRESH_WINDOW))
  }

  datatype Category = AccountCategory | TimeoutCategory | UnknownCategory | OtherCategory

  /** What a step of a login or a logout may fail with. */
  datatype Error =
    | InvalidParam
    | GatewayError(category: Category)
    | StoreError(category: Category)
    | SessionNotStored
    | SessionNotReturned
    | ContextDone

  function CategoryOf(e: Error): Category {
    match e
    case InvalidParam => OtherCategory
    case GatewayError(c) => c
    case StoreError(c) => c
    case SessionNotStored => UnknownCategory
    case SessionNotReturned => OtherCategory
    case ContextDone => TimeoutCategory
  }

  /** Whether the Gateway said that the session it holds is not one it will accept. */
  predicate SessionUnusable(e: Error) {
    CategoryOf(e) == AccountCategory
  }

  datatype Outcome = Success(session: Session) | Failure(error: Error)
}
