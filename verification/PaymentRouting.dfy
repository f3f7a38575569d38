/** The payment failover cascade over provider calls. */
module PaymentRouting {
  import opened Wrappers
  import F = Failover
  import Lists
  import opened ProviderCalls

  /** An event of the provider contacted last, or the thrown "routing exhausted". */
  datatype RouteResult = Event(provider: string, status: EventStatus) | Exhausted

  /** One provider call of a cascade, the HTTP attempts it made and what it reported. */
  datatype Try = Try(provider: string, attempts: nat, outcome: Outcome)

  function Asked(tries: seq<Try>): seq<string> { Lists.Map((t: Try) => t.provider, tries) }

  /** What the caller is answered when the cascade ends with this try. */
  function AnswerOf(t: Try): RouteResult {
    match t.outcome
    case Returned(status) => Event(t.provider, status)
    case TimedOut => Event(t.provider, EvUnknown)
    case Threw(ambiguous) => if ambiguous == Some(false) then Exhausted else Event(t.provider, EvUnknown)
  }

  predicate Uncharged(calls: string -> Call, t: Try) { NothingCharged(calls(t.provider), t.attempts) }

  predicate BelievedDecline(calls: string -> Call, t: Try) { DeclinedRetry(calls(t.provider), t.attempts) }

  /** Some attempt of some contacted provider may have moved money. */
  ghost predicate Charged(calls: string -> Call, tries: seq<Try>) { exists t :: t in tries && !Uncharged(calls, t) }

  ghost predicate NoneBelieved(calls: string -> Call, tries: seq<Try>) {
    forall t | t in tries :: !BelievedDecline(calls, t)
  }

  /** Each provider was left uncharged unless a decline of a retried ambiguous
      attempt was believed. */
  ghost predicate Accounted(calls: string -> Call, tries: seq<Try>) {
    forall t | t in tries :: Uncharged(calls, t) <==> !BelievedDecline(calls, t)
  }

  /** A result fit to be recorded: it reports no failure when money may have moved. */
  predicate RouteSound(r: RouteResult, charged: bool) {
    charged ==> r.Event? && r.status != EvFailed
  }

  /** The selected provider first, then each time the best-ranked one not asked yet. */
  ghost predicate BestFirst(selected: string, ranked: seq<string>, tries: seq<Try>) {
    F.BestFirst(selected, Lists.Without(ranked, selected), Asked(tries))
  }

  ghost predicate Reported(calls: string -> Call, tries: seq<Try>) {
    forall t | t in tries :: Reports(calls(t.provider), t.attempts, t.outcome)
  }

  ghost predicate AllUncharged(tries: seq<Try>) { forall t | t in tries :: ClaimsUncharged(t.outcome) }

  // ---------------------------------------------------------------- the cascade, try by try

  /** Between two provider calls. */
  ghost predicate Underway(calls: string -> Call, selected: string, ranked: seq<string>, tries: seq<Try>) {
    BestFirst(selected, ranked, tries) && Reported(calls, tries) && AllUncharged(tries) && Accounted(calls, tries)
  }

  ghost predicate IsNext(selected: string, ranked: seq<string>, tries: seq<Try>, id: string) {
    F.IsNext(selected, Lists.Without(ranked, selected), Asked(tries), id)
  }

  lemma OneMoreTry(selected: string, ranked: seq<string>, tries: seq<Try>, t: Try)
    requires BestFirst(selected, ranked, tries) && IsNext(selected, ranked, tries, t.provider)
    ensures BestFirst(selected, ranked, tries + [t])
    ensures Lists.Elements(Asked(tries + [t])) == Lists.Elements(Asked(tries)) + {t.provider}
    ensures (tries + [t])[..|tries|] == tries
  {
    assert Asked(tries + [t]) == Asked(tries) + [t.provider];
    F.OneMore(selected, Lists.Without(ranked, selected), Asked(tries), t.provider);
  }

  /** Who was asked, in which order, and the answer: every outcome but the last claims
      that no money moved, and the last one is the answer. */
  ghost predicate InOrder(calls: string -> Call, selected: string, ranked: seq<string>, r: RouteResult,
      tries: seq<Try>)
  {
    && tries != [] && BestFirst(selected, ranked, tries) && Reported(calls, tries)
    && AllUncharged(tries[..|tries| - 1]) && r == AnswerOf(tries[|tries| - 1])
  }

  /** A provider that may have charged is the last one contacted, and not reported
      failed, exactly as far as no decline of a retried ambiguous attempt was
      believed; candidates are only left untried after an outcome that stops the
      cascade, or at the cap. */
  ghost predicate Truthful(
      calls: string -> Call, selected: string, ranked: seq<string>, cap: int, r: RouteResult, tries: seq<Try>)
  {
    && tries != [] && Accounted(calls, tries[..|tries| - 1])
    && (!RouteSound(r, true) ==>
          && Accounted(calls, tries) && (NoneBelieved(calls, tries) ==> !Charged(calls, tries))
          && (|tries| >= cap || forall x | x in ranked :: x in Asked(tries)))
  }

  lemma Stopped(calls: string -> Call, selected: string, ranked: seq<string>, cap: int, before: seq<Try>, t: Try)
    requires Underway(calls, selected, ranked, before) && IsNext(selected, ranked, before, t.provider)
    requires Reports(calls(t.provider), t.attempts, t.outcome) && RouteSound(AnswerOf(t), true)
    ensures InOrder(calls, selected, ranked, AnswerOf(t), before + [t])
    ensures Truthful(calls, selected, ranked, cap, AnswerOf(t), before + [t])
  {
    OneMoreTry(selected, ranked, before, t);
  }

  lemma GoesOn(calls: string -> Call, selected: string, ranked: seq<string>, before: seq<Try>, t: Try)
    requires Underway(calls, selected, ranked, before) && IsNext(selected, ranked, before, t.provider)
    requires Reports(calls(t.provider), t.attempts, t.outcome) && ClaimsUncharged(t.outcome)
    requires Uncharged(calls, t) <==> !BelievedDecline(calls, t)
    ensures Underway(calls, selected, ranked, before + [t])
    ensures Lists.Elements(Asked(before + [t])) == Lists.Elements(Asked(before)) + {t.provider}
  {
    OneMoreTry(selected, ranked, before, t);
  }

  lemma {:induction false} Ended(calls: string -> Call, selected: string, ranked: seq<string>, cap: int,
      tries: seq<Try>)
    requires Underway(calls, selected, ranked, tries) && tries != []
    requires |tries| >= cap || Lists.FirstOutside(Lists.Without(ranked, selected), Lists.Elements(Asked(tries))) == None
    ensures InOrder(calls, selected, ranked, AnswerOf(tries[|tries| - 1]), tries)
    ensures Truthful(calls, selected, ranked, cap, AnswerOf(tries[|tries| - 1]), tries)
  {
    assert Asked(tries)[0] == selected;
    if |tries| < cap {
      forall x | x in ranked ensures x in Asked(tries) {
        if x != selected { assert x in Lists.Without(ranked, selected); }
      }
    }
  }

  /** One provider call: when its outcome claims that no money moved, that is so
      exactly if no decline of a retried ambiguous attempt was believed. */
  method TryProvider(id: string, calls: string -> Call) returns (o: Outcome, t: Try)
    ensures t.provider == id && t.outcome == o && Reports(calls(id), t.attempts, o)
    ensures ClaimsUncharged(o) ==> (Uncharged(calls, t) <==> !BelievedDecline(calls, t))
  {
    var n;
    o, n := ProcessRequest(calls(id));
    ReportIsTrue(calls(id), n, o);
    t := Try(id, n, o);
  }

  /** One whole routing: what it was asked, the calls it made and what it answered. */
  datatype Routing = Routing(
    calls: string -> Call, selected: string, ranked: seq<string>, cap: int, result: RouteResult, tries: seq<Try>)

  ghost predicate IsRouting(x: Routing) {
    && InOrder(x.calls, x.selected, x.ranked, x.result, x.tries)
    && Truthful(x.calls, x.selected, x.ranked, x.cap, x.result, x.tries)
    && |x.tries| <= Max(1, x.cap)
  }

  /** A routing that reports no charge made one exactly if it believed a decline of a
      retried ambiguous attempt. */
  lemma ChargedExactlyWhenBelieved(x: Routing)
    requires IsRouting(x) && !RouteSound(x.result, true)
    ensures Charged(x.calls, x.tries) <==> !NoneBelieved(x.calls, x.tries)
  {
  }

  /** What the caller is told is what the last provider asked reported: its own status; an
      unknown outcome for a timeout or an error that does not deny the charge; exhaustion
      for one that does. Before it there were only declines and denied charges. */
  lemma AnsweredAsReported(x: Routing)
    requires IsRouting(x)
    ensures x.tries != [] && x.tries[0].provider == x.selected
    ensures var last := x.tries[|x.tries| - 1];
      match last.outcome
      case Returned(status) => x.result == Event(last.provider, status)
      case TimedOut => x.result == Event(last.provider, EvUnknown)
      case Threw(None) => x.result == Event(last.provider, EvUnknown)
      case Threw(Some(ambiguous)) => x.result == if ambiguous then Event(last.provider, EvUnknown) else Exhausted
    ensures forall i | 0 <= i < |x.tries| - 1 :: x.tries[i].outcome in {Returned(EvFailed), Threw(Some(false))}
  {
    assert Asked(x.tries)[0] == x.tries[0].provider;
    forall i | 0 <= i < |x.tries| - 1 ensures x.tries[i].outcome in {Returned(EvFailed), Threw(Some(false))} {
      assert x.tries[i] in x.tries[..|x.tries| - 1];
    }
  }

  /** A provider that declined or was not reached is not the end: unless the attempts are
      used up, everybody ranked was asked. */
  lemma NobodyIsLeftOut(x: Routing, id: string)
    requires IsRouting(x) && id in x.ranked
    requires x.result == Exhausted || x.result.status == EvFailed
    ensures |x.tries| >= x.cap || exists t | t in x.tries :: t.provider == id
  {
    if |x.tries| < x.cap {
      assert id in Asked(x.tries);
      var i :| 0 <= i < |x.tries| && Asked(x.tries)[i] == id;
      assert x.tries[i].provider == id;
    }
  }

  method RoutePaymentAttempts(selected: string, ranked: seq<string>, calls: string -> Call, maxRoutingAttempts: int)
    returns (r: RouteResult, tries: seq<Try>)
    ensures IsRouting(Routing(calls, selected, ranked, maxRoutingAttempts, r, tries))
  {
    var fallbackOrder := Lists.Without(ranked, selected);
    var attemptedIds: set<string> := {};
    var current := selected;
    tries := [];
    var attempt := 1;
    while true
      invariant |tries| == attempt - 1 && attempt <= Max(1, maxRoutingAttempts)
      invariant attemptedIds == Lists.Elements(Asked(tries))
      invariant Underway(calls, selected, ranked, tries) && IsNext(selected, ranked, tries, current)
      decreases maxRoutingAttempts - attempt
    {
      var o, t := TryProvider(current, calls);
      ghost var before := tries;
      tries, attemptedIds := tries + [t], attemptedIds + {current};
      if o == TimedOut || (o.Threw? && o.ambiguous != Some(false)) {
        Stopped(calls, selected, ranked, maxRoutingAttempts, before, t);
        return Event(current, EvUnknown), tries;
      }
      if o.Returned? && o.status != EvFailed {
        Stopped(calls, selected, ranked, maxRoutingAttempts, before, t);
        return Event(current, o.status), tries;
      }
      GoesOn(calls, selected, ranked, before, t);
      var next := Lists.FirstOutside(fallbackOrder, attemptedIds);
      if next == None || attempt >= maxRoutingAttempts {
        Ended(calls, selected, ranked, maxRoutingAttempts, tries);
        return if o.Returned? then Event(current, o.status) else Exhausted, tries;
      }
      current := next.value;
      attempt := attempt + 1;
    }
  }
}
