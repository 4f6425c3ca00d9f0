/** The bounded, abort-aware retry around one notice request (`fetchNoticePayload`). */
module NoticeFetch {
  import opened RequestCore

  datatype Body = Json(payload: Payload) | BodyLost | BodyAborted | BodyMalformed

  /** `Network` is the TypeError a failed fetch raises; an aborted one raises an AbortError. */
  datatype Answer = Response(status: nat, body: Body) | NetworkDown | FetchAborted | FetchFailed

  datatype Fault = AbortError | HttpError(status: nat) | NetworkError | OtherError

  datatype Loading = Loaded(payload: Payload) | Rejected(fault: Fault)

  /** What the surroundings do: whether the signal is seen aborted when an attempt begins or while
      the client waits to retry after it, and what the network answers. */
  datatype Surroundings = Surroundings(
    aborted: nat -> bool, answer: nat -> Answer, abortedInWait: nat -> bool)

  const TRANSIENT_STATUSES: set<nat> := {502, 503, 504}

  predicate Ok(status: nat) { 200 <= status <= 299 }

  predicate Usable(a: Answer) { a.Response? && 200 <= a.status <= 299 && a.body.Json? }

  /** Failures worth a second attempt: a transient status, or a network failure of the request
      or of its body. */
  predicate Retryable(a: Answer) {
    || a.NetworkDown?
    || (a.Response? && (a.status == 502 || a.status == 503 || a.status == 504))
    || (a.Response? && 200 <= a.status <= 299 && a.body.BodyLost?)
  }

  predicate SecondAttemptMade(s: Surroundings) {
    !s.aborted(1) && Retryable(s.answer(1)) && !s.abortedInWait(1) && !s.aborted(2)
  }

  /** The fault an answer that yields no payload ends in when no attempt is left. */
  function FaultOf(a: Answer): Fault {
    match a
    case NetworkDown => NetworkError
    case FetchAborted => AbortError
    case FetchFailed => OtherError
    case Response(status, body) =>
      if status < 200 || status > 299 then HttpError(status)
      else if body.BodyLost? then NetworkError
      else if body.BodyAborted? then AbortError
      else OtherError
  }

  /** At most two fetches are issued and none after an observed abort; a payload comes back exactly
      when the first answer is usable, or the first is retryable and a second, issued one is usable;
      otherwise the fault names what went wrong last. */
  method FetchNoticePayload(s: Surroundings) returns (r: Loading, issued: nat)
    ensures issued <= 2
    ensures issued == 0 <==> s.aborted(1)
    ensures issued == 2 <==> SecondAttemptMade(s)
    ensures r.Loaded? <==>
      (!s.aborted(1) && Usable(s.answer(1))) || (SecondAttemptMade(s) && Usable(s.answer(2)))
    ensures r.Loaded? ==> r.payload == s.answer(issued).body.payload
    ensures r.Rejected? && issued == 2 ==> r.fault == FaultOf(s.answer(2))
    ensures r.Rejected? && issued == 1 ==>
      r.fault == if Retryable(s.answer(1)) then AbortError else FaultOf(s.answer(1))
    ensures r.Rejected? && issued == 0 ==> r.fault == AbortError
  {
    issued := 0;
    var attempt := 1;
    while attempt <= 2
      invariant 1 <= attempt <= 2
      invariant issued == attempt - 1
      invariant attempt == 2 ==> !s.aborted(1) && Retryable(s.answer(1)) && !s.abortedInWait(1)
      decreases 2 - attempt
    {
      if s.aborted(attempt) { return Rejected(AbortError), issued; }
      issued := issued + 1;
      var answer := s.answer(attempt);
      var fault := OtherError;
      match answer {
        case Response(status, body) =>
          if status in TRANSIENT_STATUSES && attempt < 2 {
            if s.abortedInWait(attempt) { return Rejected(AbortError), issued; }
            attempt := attempt + 1;
            continue;
          }
          if !Ok(status) {
            fault := HttpError(status);
          } else {
            match body {
              case Json(payload) => return Loaded(payload), issued;
              case BodyLost => fault := NetworkError;
              case BodyAborted => fault := AbortError;
              case BodyMalformed => fault := OtherError;
            }
          }
        case NetworkDown => fault := NetworkError;
        case FetchAborted => fault := AbortError;
        case FetchFailed => fault := OtherError;
      }
      if fault == AbortError { return Rejected(fault), issued; }
      if attempt < 2 && fault == NetworkError {
        if s.abortedInWait(attempt) { return Rejected(AbortError), issued; }
        attempt := attempt + 1;
        continue;
      }
      return Rejected(fault), issued;
    }
    assert false;
  }
}
