/**
 * The `@PreAuthenticated` around-advice: a call to an annotated method runs
 * only when someone is logged in, and otherwise fails with `UNAUTHORIZED`.
 */
module PreAuthenticatedAspect {

  import opened Common
  import SecurityFrameworkService

  /**
   * The error code carried by a service exception. The code table
   * (`GlobalErrorCodeConstants`) is not part of this model; `UNAUTHORIZED`
   * is the code 401 there.
   */
  datatype ErrorCode = ErrorCode(code: int)

  const UNAUTHORIZED: ErrorCode := ErrorCode(401)

  /** How an invocation ends: a returned value, or a thrown exception (opaque when the wrapped body throws it). */
  datatype Outcome<R, E> =
    | Returned(value: R)
    | ServiceException(errorCode: ErrorCode)
    | Thrown(exception: E)

  /** What `around` produces, and how many times the wrapped body (`joinPoint.proceed()`) ran. */
  datatype Invocation<R, E> = Invocation(outcome: Outcome<R, E>, bodyRuns: nat)

  /**
   * `around(joinPoint, preAuthenticated)`. The annotation's attributes are not
   * read and the aspect has no fields, so the only inputs are the login user
   * and the wrapped body.
   */
  function Around<R, E>(user: Option<SecurityFrameworkService.LoginUser>, proceed: () -> Outcome<R, E>): (inv: Invocation<R, E>)
    ensures inv.bodyRuns <= 1
    ensures inv.bodyRuns == 0 <==> user.None?
    ensures user.None? ==> inv.outcome == ServiceException(UNAUTHORIZED)
    ensures user.Some? ==> inv.outcome == proceed()
  {
    if user.None? then
      Invocation(ServiceException(UNAUTHORIZED), 0)
    else
      Invocation(proceed(), 1)
  }

  /** Only the presence of a login user matters, not who it is. */
  lemma DecisionDependsOnlyOnPresence<R, E>(u1: SecurityFrameworkService.LoginUser, u2: SecurityFrameworkService.LoginUser, proceed: () -> Outcome<R, E>)
    ensures Around(Some(u1), proceed) == Around(Some(u2), proceed)
  {
  }

  /** A rejected call is the same whatever the wrapped body would have done. */
  lemma RejectionIgnoresBody<R, E>(p1: () -> Outcome<R, E>, p2: () -> Outcome<R, E>)
    ensures Around(None, p1) == Around(None, p2)
  {
  }
}
