/**
  The client's two-attempt fallback (frontend/src/components/ChatBot.jsx):
  post the request to the primary route; if that rejects, post the same
  request once to the backup route; if that rejects too, give up. Posting is
  an oracle from (route, request) to the `response` text or a rejection.
 */
module Fallback {
  import opened Protocol

  datatype Route = PrimaryRoute | BackupRoute

  datatype Attempt = Attempt(route: Route, request: ChatRequest)

  /** Waiting on the primary, waiting on the backup, or settled. */
  datatype Phase = TryPrimary | TryBackup | Answered(reply: string) | GaveUp

  predicate Pending(ph: Phase) {
    ph.TryPrimary? || ph.TryBackup?
  }

  function RouteOf(ph: Phase): Route
    requires Pending(ph)
  {
    if ph.TryPrimary? then PrimaryRoute else BackupRoute
  }

  /** Attempts the controller may still make from a phase. */
  function AttemptsLeft(ph: Phase): nat {
    match ph
    case TryPrimary => 2
    case TryBackup => 1
    case _ => 0
  }

  /** One transition, on the outcome of the attempt the phase is waiting for:
      a reply settles the turn, a rejection moves to the next route, and
      there is no route after the backup. */
  function Step(ph: Phase, outcome: Call<string>): (next: Phase)
    requires Pending(ph)
    ensures AttemptsLeft(next) < AttemptsLeft(ph)
    ensures !Pending(next) <==> outcome.Ok? || ph.TryBackup?
    ensures next.GaveUp? <==> ph.TryBackup? && outcome.Fail?
    ensures outcome.Ok? ==> next == Answered(outcome.value)
  {
    match outcome
    case Ok(text) => Answered(text)
    case Fail => if ph.TryPrimary? then TryBackup else GaveUp
  }

  datatype Run = Run(final: Phase, attempts: seq<Attempt>)

  /** Run the machine from `ph` until it settles, recording every post. */
  function Drive(ph: Phase, request: ChatRequest, post: (Route, ChatRequest) -> Call<string>): (r: Run)
    ensures !Pending(r.final)
    ensures |r.attempts| <= AttemptsLeft(ph)
    ensures Pending(ph) ==> |r.attempts| >= 1 && r.attempts[0] == Attempt(RouteOf(ph), request)
    ensures forall i | 0 <= i < |r.attempts| :: r.attempts[i].request == request
    decreases AttemptsLeft(ph)
  {
    if !Pending(ph) then Run(ph, [])
    else
      var route := RouteOf(ph);
      var rest := Drive(Step(ph, post(route, request)), request, post);
      Run(rest.final, [Attempt(route, request)] + rest.attempts)
  }

  /** One user turn: at most two attempts, the backup only after the primary
      rejected, both with the same request; the reply is the first resolved
      answer, and the turn gives up exactly when both routes reject. */
  function RunFallback(request: ChatRequest, post: (Route, ChatRequest) -> Call<string>): (r: Run)
    ensures !Pending(r.final)
    ensures 1 <= |r.attempts| <= 2
    ensures r.attempts[0] == Attempt(PrimaryRoute, request)
    ensures |r.attempts| == 2 <==> post(PrimaryRoute, request).Fail?
    ensures |r.attempts| == 2 ==> r.attempts[1] == Attempt(BackupRoute, request)
    ensures post(PrimaryRoute, request).Ok? ==> r.final == Answered(post(PrimaryRoute, request).value)
    ensures post(PrimaryRoute, request).Fail? && post(BackupRoute, request).Ok? ==>
              r.final == Answered(post(BackupRoute, request).value)
    ensures r.final.GaveUp? <==> post(PrimaryRoute, request).Fail? && post(BackupRoute, request).Fail?
  {
    Drive(TryPrimary, request, post)
  }
}
