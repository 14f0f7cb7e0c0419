/**
 * Restart predicates: after a non-fatal failure a module asks the predicate
 * whether to restart the sensor silently. `restartTimeouts(n)` restarts every
 * reason except TIMEOUT, and TIMEOUT only n times, counted by a private
 * counter; `neverRestart` never restarts; the default is `restartTimeouts(5)`.
 */
module RestartPredicates {
  import opened Reasons

  /** One call of `invoke(reason, restartCount)`. */
  datatype Consult = Consult(reason: FailureReason, restartCount: int)

  /** The predicates the library provides. */
  datatype PolicyKind = RestartTimeouts(limit: int) | NeverRestart

  const DefaultTimeoutRestarts := 5

  /** How many of the consultations in `history` were about a timeout. */
  function TimeoutsSeen(history: seq<Consult>): (n: nat)
    ensures n <= |history|
  {
    if history == [] then 0
    else TimeoutsSeen(history[..|history| - 1]) + (if history[|history| - 1].reason == Timeout then 1 else 0)
  }

  /** The answer of a predicate of kind `kind` that has already been
      consulted on `history`, when asked about `reason`. */
  function Answer(kind: PolicyKind, history: seq<Consult>, reason: FailureReason): bool
  {
    match kind
    case RestartTimeouts(n) => reason != Timeout || TimeoutsSeen(history) < n
    case NeverRestart => false
  }

  /** The answers to the consultations `calls`, made one after the other on a
      predicate that has already seen `history`. */
  function Answers(kind: PolicyKind, history: seq<Consult>, calls: seq<Consult>): (r: seq<bool>)
    ensures |r| == |calls|
    decreases |calls|
  {
    if calls == [] then []
    else [Answer(kind, history, calls[0].reason)] + Answers(kind, history + [calls[0]], calls[1..])
  }

  /** A predicate object. `timeoutRestarts` is the private counter of the
      anonymous class returned by `restartTimeouts`; `history` records every
      call, for the specification only. */
  class RestartPredicate {
    const kind: PolicyKind
    var timeoutRestarts: int
    ghost var history: seq<Consult>

    ghost predicate Valid()
      reads this
    {
      timeoutRestarts == if kind.RestartTimeouts? then TimeoutsSeen(history) else 0
    }

    constructor (kind: PolicyKind)
      ensures Valid() && this.kind == kind && history == [] && timeoutRestarts == 0
    {
      this.kind := kind;
      timeoutRestarts := 0;
      history := [];
    }

    /** `reason != TIMEOUT || timeoutRestarts++ < timeoutRestartCount`: the
        counter moves only when the left operand is false. */
    method Invoke(reason: FailureReason, restartCount: int) returns (restart: bool)
      requires Valid()
      modifies this
      ensures Valid()
      ensures restart == Answer(kind, old(history), reason)
      ensures history == old(history) + [Consult(reason, restartCount)]
      ensures timeoutRestarts == old(timeoutRestarts) + (if kind.RestartTimeouts? && reason == Timeout then 1 else 0)
    {
      ghost var h := history + [Consult(reason, restartCount)];
      assert h[..|h| - 1] == history;
      match kind {
        case RestartTimeouts(n) =>
          if reason != Timeout {
            restart := true;
          } else {
            restart := timeoutRestarts < n;
            timeoutRestarts := timeoutRestarts + 1;
          }
        case NeverRestart =>
          restart := false;
      }
      history := h;
    }
  }

  /** `RestartPredicates.restartTimeouts(n)`: a new instance with its own counter at 0. */
  method RestartTimeoutsPredicate(timeoutRestartCount: int) returns (p: RestartPredicate)
    ensures fresh(p) && p.Valid()
    ensures p.kind == RestartTimeouts(timeoutRestartCount) && p.history == [] && p.timeoutRestarts == 0
  {
    p := new RestartPredicate(RestartTimeouts(timeoutRestartCount));
  }

  /** `RestartPredicates.defaultPredicate()` is `restartTimeouts(5)`. */
  method DefaultPredicate() returns (p: RestartPredicate)
    ensures fresh(p) && p.Valid()
    ensures p.kind == RestartTimeouts(DefaultTimeoutRestarts) && p.history == []
  {
    p := RestartTimeoutsPredicate(DefaultTimeoutRestarts);
  }

  /** `RestartPredicates.neverRestart()`. */
  method NeverRestartPredicate() returns (p: RestartPredicate)
    ensures fresh(p) && p.Valid()
    ensures p.kind == NeverRestart && p.history == []
  {
    p := new RestartPredicate(NeverRestart);
  }

  // ---------------------------------------------------------------------
  // Properties of the answers

  /** Appending one consultation adds one to the timeout count exactly when
      it is a timeout. */
  lemma TimeoutsSeenSnoc(history: seq<Consult>, c: Consult)
    ensures TimeoutsSeen(history + [c]) == TimeoutsSeen(history) + (if c.reason == Timeout then 1 else 0)
  {
    assert (history + [c])[..|history|] == history;
  }

  /** The i-th answer of a run is the answer given to `calls[i]` after all the
      consultations before it. */
  lemma {:induction false} AnswersAt(kind: PolicyKind, history: seq<Consult>, calls: seq<Consult>, i: int)
    requires 0 <= i < |calls|
    ensures Answers(kind, history, calls)[i] == Answer(kind, history + calls[..i], calls[i].reason)
    decreases i
  {
    if i == 0 {
      assert history + calls[..0] == history;
    } else {
      AnswersAt(kind, history + [calls[0]], calls[1..], i - 1);
      assert history + [calls[0]] + calls[1..][..i - 1] == history + calls[..i];
    }
  }

  /** restartTimeouts(n) restarts every reason other than TIMEOUT, whatever the
      count argument and whatever came before. */
  lemma NonTimeoutsAlwaysRestart(n: int, calls: seq<Consult>, i: int)
    requires 0 <= i < |calls| && calls[i].reason != Timeout
    ensures Answers(RestartTimeouts(n), [], calls)[i]
  {
    AnswersAt(RestartTimeouts(n), [], calls, i);
  }

  /** A TIMEOUT is restarted exactly when fewer than n timeouts came before it:
      the first n timeouts of a fresh predicate are restarted, every later one
      is not. */
  lemma TimeoutBudget(n: int, calls: seq<Consult>, i: int)
    requires 0 <= i < |calls| && calls[i].reason == Timeout
    ensures Answers(RestartTimeouts(n), [], calls)[i] <==> TimeoutsSeen(calls[..i]) < n
  {
    AnswersAt(RestartTimeouts(n), [], calls, i);
    assert [] + calls[..i] == calls[..i];
  }

  /** The count of timeouts in a run made of timeouts only is its length. */
  lemma {:induction false} AllTimeoutsSeen(calls: seq<Consult>)
    requires forall j :: 0 <= j < |calls| ==> calls[j].reason == Timeout
    ensures TimeoutsSeen(calls) == |calls|
  {
    if calls != [] {
      AllTimeoutsSeen(calls[..|calls| - 1]);
    }
  }

  /** Consecutive timeouts on a fresh restartTimeouts(n): true on exactly the
      first n calls, false on every later one. */
  lemma ConsecutiveTimeouts(n: int, calls: seq<Consult>, i: int)
    requires forall j :: 0 <= j < |calls| ==> calls[j].reason == Timeout
    requires 0 <= i < |calls|
    ensures Answers(RestartTimeouts(n), [], calls)[i] <==> i < n
  {
    TimeoutBudget(n, calls, i);
    AllTimeoutsSeen(calls[..i]);
  }

  /** The restartCount argument is ignored: two runs with the same reasons get
      the same answers, so interleaved non-timeouts do not spend the budget. */
  lemma {:induction false} CountIgnored(kind: PolicyKind, history: seq<Consult>, history': seq<Consult>,
                                        calls: seq<Consult>, calls': seq<Consult>)
    requires TimeoutsSeen(history) == TimeoutsSeen(history')
    requires |calls| == |calls'|
    requires forall j :: 0 <= j < |calls| ==> calls[j].reason == calls'[j].reason
    ensures Answers(kind, history, calls) == Answers(kind, history', calls')
    decreases |calls|
  {
    if calls != [] {
      TimeoutsSeenSnoc(history, calls[0]);
      TimeoutsSeenSnoc(history', calls'[0]);
      CountIgnored(kind, history + [calls[0]], history' + [calls'[0]], calls[1..], calls'[1..]);
    }
  }

  /** neverRestart answers false to every call. */
  lemma NeverRestartNeverRestarts(history: seq<Consult>, calls: seq<Consult>, i: int)
    requires 0 <= i < |calls|
    ensures !Answers(NeverRestart, history, calls)[i]
  {
    AnswersAt(NeverRestart, history, calls, i);
  }

  /** The default predicate: five timeouts pass and the sixth fails. */
  lemma DefaultPassesFiveTimeouts()
    ensures Answers(RestartTimeouts(DefaultTimeoutRestarts), [],
                    [Consult(Timeout, 0), Consult(Timeout, 1), Consult(Timeout, 2),
                     Consult(Timeout, 3), Consult(Timeout, 4), Consult(Timeout, 5)])
         == [true, true, true, true, true, false]
  {
    var calls := [Consult(Timeout, 0), Consult(Timeout, 1), Consult(Timeout, 2),
                  Consult(Timeout, 3), Consult(Timeout, 4), Consult(Timeout, 5)];
    forall i | 0 <= i < 6
      ensures Answers(RestartTimeouts(DefaultTimeoutRestarts), [], calls)[i] == (i < 5)
    {
      ConsecutiveTimeouts(DefaultTimeoutRestarts, calls, i);
    }
  }

  /** The consultations of the mixed test: AUTHENTICATION_FAILED, TIMEOUT,
      AUTHENTICATION_FAILED, then five TIMEOUTs, with counts 0 to 7. */
  function MixedConsultations(): (calls: seq<Consult>)
    ensures |calls| == 8
  {
    [Consult(AuthenticationFailed, 0), Consult(Timeout, 1), Consult(AuthenticationFailed, 2),
     Consult(Timeout, 3), Consult(Timeout, 4), Consult(Timeout, 5), Consult(Timeout, 6),
     Consult(Timeout, 7)]
  }

  /** Mixed authentication failures and timeouts on the default predicate:
      the two AUTHENTICATION_FAILED calls leave all five timeout restarts. */
  lemma DefaultMixedFailuresAndTimeouts(calls: seq<Consult>)
    requires calls == MixedConsultations()
    ensures Answers(RestartTimeouts(DefaultTimeoutRestarts), [], calls)
         == [true, true, true, true, true, true, true, false]
  {
    var k := RestartTimeouts(DefaultTimeoutRestarts);
    MixedPrefixCounts(calls);
    forall i | 0 <= i < 8
      ensures Answers(k, [], calls)[i] == (i < 7)
    {
      if calls[i].reason == Timeout {
        TimeoutBudget(DefaultTimeoutRestarts, calls, i);
      } else {
        NonTimeoutsAlwaysRestart(DefaultTimeoutRestarts, calls, i);
      }
    }
  }

  /** The timeout counts of the prefixes of the mixed test. */
  lemma MixedPrefixCounts(calls: seq<Consult>)
    requires calls == MixedConsultations()
    ensures TimeoutsSeen(calls[..1]) == 0 && TimeoutsSeen(calls[..3]) == 1
    ensures TimeoutsSeen(calls[..4]) == 2 && TimeoutsSeen(calls[..5]) == 3
    ensures TimeoutsSeen(calls[..6]) == 4 && TimeoutsSeen(calls[..7]) == 5
  {
    var i := 0;
    while i < 7
      invariant 0 <= i <= 7
      invariant TimeoutsSeen(calls[..i]) == [0, 0, 1, 1, 2, 3, 4, 5][i]
      invariant i >= 1 ==> TimeoutsSeen(calls[..1]) == 0
      invariant i >= 3 ==> TimeoutsSeen(calls[..3]) == 1
      invariant i >= 4 ==> TimeoutsSeen(calls[..4]) == 2
      invariant i >= 5 ==> TimeoutsSeen(calls[..5]) == 3
      invariant i >= 6 ==> TimeoutsSeen(calls[..6]) == 4
    {
      TimeoutsSeenSnoc(calls[..i], calls[i]);
      assert calls[..i] + [calls[i]] == calls[..i + 1];
      i := i + 1;
    }
  }
}
