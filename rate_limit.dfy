/** check_rate_limit: a one-slot limiter over the `secure_updates_last_request` transient, which
    holds the time of the last allowed request and expires an hour after it is written. */
module RateLimit {
  import opened Php

  const CooldownSeconds := 5
  const HourInSeconds := 3600

  /** A stored transient: its value and the time after which WordPress treats it as gone. */
  datatype Transient = Transient(value: int, timeout: int)

  /** get_transient: the stored value until it expires (its timeout lies before `now`). */
  function GetTransient(stored: Option<Transient>, now: int): Option<int>
  {
    if stored.Some? && !(stored.value.timeout < now) then Some(stored.value.value) else None
  }

  /** The request is refused: a live, truthy (non-zero) last-request time lies less than the
      cooldown before `now`. */
  predicate Throttled(stored: Option<Transient>, now: int)
  {
    match GetTransient(stored, now)
    case None => false
    case Some(last) => last != 0 && now - last < CooldownSeconds
  }

  /** One call of check_rate_limit at time `now`: its answer and the transient afterwards. */
  function Step(stored: Option<Transient>, now: int): (bool, Option<Transient>)
  {
    if Throttled(stored, now) then (false, stored)
    else (true, Some(Transient(now, now + HourInSeconds)))
  }

  /** The transient as check_rate_limit writes it. */
  predicate Written(stored: Option<Transient>)
  {
    stored.Some? ==> stored.value.timeout == stored.value.value + HourInSeconds
  }

  /** For a transient written by check_rate_limit, expiry never matters: a call is refused
      exactly when the last request is non-zero and less than five seconds old. */
  lemma ThrottledIffRecent(stored: Option<Transient>, now: int)
    requires Written(stored)
    ensures Throttled(stored, now) <==>
      stored.Some? && stored.value.value != 0 && now - stored.value.value < CooldownSeconds
  {
  }

  /** A refused call leaves the transient as it was; an allowed one records `now`. */
  lemma StepFrame(stored: Option<Transient>, now: int)
    ensures !Step(stored, now).0 ==> Step(stored, now).1 == stored
    ensures Step(stored, now).0 ==> Step(stored, now).1 == Some(Transient(now, now + HourInSeconds))
    ensures Written(stored) ==> Written(Step(stored, now).1)
  {
  }

  /** What an allowed call writes is read back as its own time for exactly one hour, and as
      nothing afterwards. */
  lemma AllowedCallReadBack(stored: Option<Transient>, at: int, now: int)
    requires Step(stored, at).0
    ensures GetTransient(Step(stored, at).1, now) == if now <= at + HourInSeconds then Some(at) else None
  {
  }

  /** Once the cooldown has elapsed, an earlier refusal does not block the next attempt. */
  lemma CooldownElapsedAllows(stored: Option<Transient>, now: int)
    requires stored.None? || now - stored.value.value >= CooldownSeconds
    ensures Step(stored, now).0
  {
  }

  /** The answers to a sequence of calls at the given times, starting from `stored`. */
  function Outcomes(stored: Option<Transient>, times: seq<int>): (r: seq<bool>)
    ensures |r| == |times|
    decreases |times|
  {
    if times == [] then []
    else [Step(stored, times[0]).0] + Outcomes(Step(stored, times[0]).1, times[1..])
  }

  /** While every call is refused the transient does not change, so the first call that is
      not refused is answered from the starting transient. */
  lemma {:induction false} RefusedCallsKeepState(stored: Option<Transient>, times: seq<int>, j: nat)
    requires j < |times|
    requires forall k :: 0 <= k < j ==> !Outcomes(stored, times)[k]
    ensures Outcomes(stored, times)[j] == Step(stored, times[j]).0
    decreases j
  {
    if j > 0 {
      assert !Outcomes(stored, times)[0];
      var rest := times[1..];
      forall k | 0 <= k < j - 1
        ensures !Outcomes(stored, rest)[k]
      {
        assert Outcomes(stored, times)[k + 1] == Outcomes(stored, rest)[k];
      }
      RefusedCallsKeepState(stored, rest, j - 1);
      assert Outcomes(stored, times)[j] == Outcomes(stored, rest)[j - 1];
    }
  }

  /** Two successive allowed calls (every call between them refused) are at least the cooldown
      apart, provided the earlier one was not made at time 0, which PHP reads back as "no
      last request". */
  lemma {:induction false} AllowedCallsAreSpaced(stored: Option<Transient>, times: seq<int>, i: nat, j: nat)
    requires i < j < |times|
    requires Outcomes(stored, times)[i] && Outcomes(stored, times)[j]
    requires forall k :: i < k < j ==> !Outcomes(stored, times)[k]
    requires times[i] != 0
    ensures times[j] - times[i] >= CooldownSeconds
    decreases i
  {
    var next := Step(stored, times[0]).1;
    var rest := times[1..];
    assert forall k :: 0 <= k < |rest| ==> Outcomes(stored, times)[k + 1] == Outcomes(next, rest)[k];
    if i > 0 {
      AllowedCallsAreSpaced(next, rest, i - 1, j - 1);
    } else {
      assert next == Some(Transient(times[0], times[0] + HourInSeconds));
      RefusedCallsKeepState(next, rest, j - 1);
      assert !Throttled(next, rest[j - 1]);
    }
  }

  /** The stored last-request time, with the one method that reads and writes it. */
  class RateLimiter {
    var lastRequest: Option<Transient>

    ghost predicate Valid()
      reads this
    {
      Written(lastRequest)
    }

    constructor ()
      ensures Valid() && lastRequest == None
    {
      lastRequest := None;
    }

    /** check_rate_limit at time `now`: refuses, changing nothing, while a live non-zero last
        request is less than five seconds old; otherwise records `now` for an hour and allows. */
    method CheckRateLimit(now: int) returns (allowed: bool)
      requires Valid()
      modifies this
      ensures Valid()
      ensures (allowed, lastRequest) == Step(old(lastRequest), now)
      ensures allowed <==> !(old(lastRequest).Some? && old(lastRequest).value.value != 0
                             && now - old(lastRequest).value.value < CooldownSeconds)
    {
      ThrottledIffRecent(lastRequest, now);
      var last := GetTransient(lastRequest, now);
      if last.Some? && last.value != 0 {
        if now - last.value < CooldownSeconds {
          return false;
        }
      }
      lastRequest := Some(Transient(now, now + HourInSeconds));
      return true;
    }
  }
}
