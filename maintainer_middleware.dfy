/** The staff gate put in front of maintainer routes: an unauthenticated
    request is answered 401, an authenticated non-staff user 403, and any other
    request is handed on unchanged to the next handler. */
module MaintainerMiddleware {
  import opened Common

  /** What the gate answers: a rejection with its HTTP status, or exactly the
      response produced by the next handler. */
  datatype Verdict<R> = Rejected(status: int) | Passed(response: R)

  /** `handle($request, $next)`. `user` is `auth()->user()`'s usertype, `None` when
      `auth()->check()` fails; `next` is the rest of the pipeline. */
  function Handle<Req, R>(user: Option<Usertype>, request: Req, next: Req -> R): (r: Verdict<R>)
    ensures user.None? <==> r == Rejected(401)
    ensures (user.Some? && !IsStaff(user.value)) <==> r == Rejected(403)
    ensures r.Passed? <==> user.Some? && IsStaff(user.value)
    ensures r.Passed? ==> r.response == next(request)
  {
    if user.None? then Rejected(401)
    else if !IsStaff(user.value) then Rejected(403)
    else Passed(next(request))
  }

  /** The authentication check wins over the role check: a request without a
      user is refused 401 whatever the role test would say, and the next handler
      is reached only by admins and maintainers. */
  lemma AuthenticationBeforeRole<Req, R>(request: Req, next: Req -> R)
    ensures Handle(None, request, next) == Rejected(401)
    ensures Handle(Some(Admin), request, next) == Passed(next(request))
    ensures Handle(Some(Maintainer), request, next) == Passed(next(request))
    ensures forall u :: u != Admin && u != Maintainer ==> Handle(Some(u), request, next) == Rejected(403)
  {
  }
}
