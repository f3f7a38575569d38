/** Routing one message: the requested channel's cascade, then, only if the caller
    opted in, the fallback channels. */
module MessageRouting {
  import opened Wrappers
  import opened ChannelPolicy
  import F = Failover
  import L = Lists
  import K = KeywordGrammar

  // ---------------------------------------------------------------- what the world answers

  datatype Consent = OptedIn | OptedOut | Unrecorded | LookupFailed

  /** One provider asked to send: before the call the sender's own opt-out is looked
      up, and an opt-out or a failed lookup ends the send. */
  datatype Outcome = Delivered | ProviderFailed | SenderBlocked | SenderLookupFailed

  /** `providers` are the online, production-eligible messaging providers and the
      channels they declare; `ranked` the order a channel's pool is tried in, `pick`
      the scored choice in it; `thread` and `rule` the providers continuity and the
      routing rules name for a channel. */
  datatype World = World(
    providers: map<string, set<Channel>>, ranked: Channel -> seq<string>, pick: Channel -> nat,
    thread: (Channel, string) -> Option<string>, rule: Channel -> Option<string>,
    consent: (string, Channel) -> Consent, outcome: (Channel, string, string) -> Outcome, maxAttempts: nat)

  predicate Capable(w: World, id: string, channel: Channel) { id in w.providers && channel in w.providers[id] }

  /** The registry ranks exactly the providers able to send on the channel. */
  ghost predicate WellRanked(w: World) {
    forall channel, id :: id in w.ranked(channel) <==> Capable(w, id, channel)
  }

  // ---------------------------------------------------------------- one channel

  datatype Attempt = Attempt(channel: Channel, address: string, provider: string)

  datatype ChannelResult = Sent(provider: string) | Unavailable | Blocked | Aborted

  function OutcomeOf(w: World, a: Attempt): Outcome { w.outcome(a.channel, a.address, a.provider) }

  /** Override, then the thread's provider, then a routing rule's, then the scored pool;
      each only if it can send on this channel. An override, usable or not, leaves the
      thread aside. */
  function SelectProvider(w: World, channel: Channel, address: string, override: Option<string>): (r: Option<string>)
    requires WellRanked(w)
    ensures r.Some? ==> Capable(w, r.value, channel)
    ensures r == None ==> w.ranked(channel) == []
  {
    var thread, rule, ranked := w.thread(channel, address), w.rule(channel), w.ranked(channel);
    if override.Some? && Capable(w, override.value, channel) then override
    else if override == None && thread.Some? && Capable(w, thread.value, channel) then thread
    else if rule.Some? && Capable(w, rule.value, channel) then rule
    else if ranked == [] then None
    else
      assert ranked[w.pick(channel) % |ranked|] in ranked;
      Some(ranked[w.pick(channel) % |ranked|])
  }

  function Asked(log: seq<Attempt>): seq<string> { L.Map((a: Attempt) => a.provider, log) }

  /** The other providers of the channel, best first, if alternates are allowed. */
  function FallbackOrder(w: World, channel: Channel, selected: string, alternates: bool): seq<string> {
    if alternates then L.Without(w.ranked(channel), selected) else []
  }

  ghost predicate AllAt(log: seq<Attempt>, channel: Channel, address: string) {
    forall a | a in log :: a.channel == channel && a.address == address
  }

  /** All but the last attempt failed. */
  ghost predicate FailedBefore(w: World, log: seq<Attempt>) {
    forall i | 0 <= i < |log| - 1 :: OutcomeOf(w, log[i]) == ProviderFailed
  }

  /** One channel's attempts: the selected provider, then each time the best-ranked one
      not asked yet, all at one address, each after the failure of the one before. */
  ghost predicate Cascade(
      w: World, channel: Channel, address: string, selected: Option<string>, alternates: bool, log: seq<Attempt>)
  {
    && AllAt(log, channel, address)
    && (log != [] ==>
          && selected.Some?
          && F.BestFirst(selected.value, FallbackOrder(w, channel, selected.value, alternates), Asked(log)))
    && FailedBefore(w, log)
  }

  /** The channel is exhausted: nobody was selected, or the last attempt failed too and
      nobody is left or the attempts are used up. */
  ghost predicate Exhausted(w: World, channel: Channel, selected: Option<string>, alternates: bool, log: seq<Attempt>) {
    if selected == None then log == []
    else
      && log != [] && OutcomeOf(w, log[|log| - 1]) == ProviderFailed
      && (|log| >= w.maxAttempts
          || L.FirstOutside(FallbackOrder(w, channel, selected.value, alternates), L.Elements(Asked(log))) == None)
  }

  function AnswerTo(r: ChannelResult): Outcome {
    match r
    case Sent(_) => Delivered
    case Blocked => SenderBlocked
    case Aborted => SenderLookupFailed
    case Unavailable => ProviderFailed
  }

  /** The last attempt decides. */
  ghost predicate ChannelAnswer(
      w: World, channel: Channel, selected: Option<string>, alternates: bool, log: seq<Attempt>, r: ChannelResult)
  {
    if r == Unavailable then Exhausted(w, channel, selected, alternates, log)
    else log != [] && OutcomeOf(w, log[|log| - 1]) == AnswerTo(r) && (r.Sent? ==> log[|log| - 1].provider == r.provider)
  }

  /** Only providers of the channel are asked, none twice. */
  lemma AskedAreCapable(
      w: World, channel: Channel, address: string, override: Option<string>, alternates: bool, log: seq<Attempt>,
      i: nat)
    requires WellRanked(w) && i < |log|
    requires Cascade(w, channel, address, SelectProvider(w, channel, address, override), alternates, log)
    ensures Capable(w, log[i].provider, channel)
    ensures forall j | 0 <= j < i :: log[j].provider != log[i].provider
  {
    var selected := SelectProvider(w, channel, address, override).value;
    var order, asked := FallbackOrder(w, channel, selected, alternates), Asked(log);
    forall j | 0 <= j < i ensures asked[j] != asked[i] { F.NoneTwice(selected, order, asked, j, i); }
    if i > 0 { assert L.FirstOutside(order, L.Elements(asked[..i])) == Some(asked[i]); }
  }

  lemma Appended(w: World, log: seq<Attempt>, a: Attempt)
    requires FailedBefore(w, log) && (log != [] ==> OutcomeOf(w, log[|log| - 1]) == ProviderFailed)
    ensures FailedBefore(w, log + [a]) && Asked(log + [a]) == Asked(log) + [a.provider]
    ensures AllAt(log, a.channel, a.address) ==> AllAt(log + [a], a.channel, a.address)
  {
  }

  lemma OneMoreAttempt(
      w: World, channel: Channel, address: string, selected: string, alternates: bool, log: seq<Attempt>, id: string)
    requires Cascade(w, channel, address, Some(selected), alternates, log)
    requires F.IsNext(selected, FallbackOrder(w, channel, selected, alternates), Asked(log), id)
    requires log != [] ==> OutcomeOf(w, log[|log| - 1]) == ProviderFailed
    ensures var all := log + [Attempt(channel, address, id)];
      && Cascade(w, channel, address, Some(selected), alternates, all)
      && L.Elements(Asked(all)) == L.Elements(Asked(log)) + {id}
  {
    Appended(w, log, Attempt(channel, address, id));
    AskedNext(selected, FallbackOrder(w, channel, selected, alternates), Asked(log), id);
  }

  lemma AskedNext(selected: string, order: seq<string>, asked: seq<string>, id: string)
    requires (asked != [] ==> F.BestFirst(selected, order, asked)) && F.IsNext(selected, order, asked, id)
    ensures F.BestFirst(selected, order, asked + [id]) && L.Elements(asked + [id]) == L.Elements(asked) + {id}
  {
    F.OneMore(selected, order, asked, id);
  }

  /** A whole cascade on one channel and its answer. */
  ghost predicate OnChannel(
      w: World, channel: Channel, address: string, override: Option<string>, policy: Effective, log: seq<Attempt>,
      r: ChannelResult)
    requires WellRanked(w)
  {
    var selected := SelectProvider(w, channel, address, override);
    && Cascade(w, channel, address, selected, policy.allowAlternateProvider, log)
    && ChannelAnswer(w, channel, selected, policy.allowAlternateProvider, log, r)
    && |log| <= Max(1, w.maxAttempts)
  }

  method SendOnChannel(w: World, channel: Channel, address: string, override: Option<string>, policy: Effective)
      returns (r: ChannelResult, log: seq<Attempt>)
    requires WellRanked(w)
    ensures OnChannel(w, channel, address, override, policy, log, r)
  {
    log := [];
    var selected, alternates := SelectProvider(w, channel, address, override), policy.allowAlternateProvider;
    if selected == None { return Unavailable, []; }
    var order := FallbackOrder(w, channel, selected.value, alternates);
    var current := selected.value;
    var attempted: set<string> := {};
    while true
      invariant Cascade(w, channel, address, selected, alternates, log) &&
        F.IsNext(selected.value, order, Asked(log), current)
      invariant log != [] ==> OutcomeOf(w, log[|log| - 1]) == ProviderFailed
      invariant |log| < Max(1, w.maxAttempts)
      invariant attempted == L.Elements(Asked(log)) && current !in attempted && current in w.ranked(channel)
      decreases (set id | id in w.ranked(channel)) - attempted
    {
      var attempt := Attempt(channel, address, current);
      OneMoreAttempt(w, channel, address, selected.value, alternates, log, current);
      attempted := attempted + {current};
      log := log + [attempt];
      match OutcomeOf(w, attempt)
      case Delivered => return Sent(current), log;
      case SenderBlocked => return Blocked, log;
      case SenderLookupFailed => return Aborted, log;
      case ProviderFailed =>
        var next := L.FirstOutside(order, attempted);
        if next == None || |log| >= w.maxAttempts { return Unavailable, log; }
        current := next.value;
    }
  }

  // ---------------------------------------------------------------- the whole message

  datatype Event = Event(requestedChannel: Channel, selectedChannel: Channel, fallbackReason: Option<string>)

  datatype MessageResult =
    | Stamped(event: Event)
    | InvalidPolicy(field: string)
    | ConsentBlocked
    | ChannelUnavailable
    | ConsentLookupFailed

  /** chk_events_channel_fallback_reason: a change of channel, and only that, has a
      reason that is not blank. */
  predicate SatisfiesCheck(requested: Option<Channel>, selected: Option<Channel>, reason: Option<string>) {
    requested.Some? && selected.Some? ==>
      if requested == selected then reason == None else reason.Some? && K.Trim(reason.value) != ""
  }

  /** The row an event is stored as. */
  predicate StoredRowIsValid(e: Event) {
    SatisfiesCheck(Some(e.requestedChannel), Some(e.selectedChannel), e.fallbackReason)
  }

  function FallbackAddress(policy: Effective, recipient: string, channel: Channel): Option<string> {
    if channel in policy.fallbackRecipients then Some(policy.fallbackRecipients[channel])
    else if AddressSuitsChannel(recipient, channel) then Some(recipient)
    else None
  }

  /** A failed lookup rules the channel out; consent must be recorded if required. */
  predicate ConsentsToFallback(consent: Consent, policy: Effective) {
    consent != LookupFailed && consent != OptedOut && (policy.requiresConsent ==> consent == OptedIn)
  }

  predicate KnownOptOut(w: World, recipient: string, requested: Channel, confirmation: bool) {
    recipient != "" && !confirmation && w.consent(recipient, requested) == OptedOut
  }

  /** What happened on one fallback channel: it was skipped, or attempts were made. */
  datatype Leg = Leg(channel: Channel, log: seq<Attempt>, answer: ChannelResult)

  predicate Usable(w: World, policy: Effective, recipient: string, channel: Channel) {
    var address := FallbackAddress(policy, recipient, channel);
    address.Some? && ConsentsToFallback(w.consent(address.value, channel), policy)
  }

  /** Skipped without an address or consent, else its cascade at that address. An
      override names a provider for the requested channel only. */
  ghost predicate LegHolds(w: World, policy: Effective, recipient: string, leg: Leg)
    requires WellRanked(w)
  {
    if Usable(w, policy, recipient, leg.channel)
    then
      var address := FallbackAddress(policy, recipient, leg.channel).value;
      OnChannel(w, leg.channel, address, None, policy, leg.log, leg.answer)
    else leg.log == [] && leg.answer == Unavailable
  }

  predicate Ends(answer: ChannelResult) { answer.Sent? || answer.Aborted? }

  predicate NoneEnds(legs: seq<Leg>) { forall i | 0 <= i < |legs| :: !Ends(legs[i].answer) }

  /** The caller's fallback channels in the caller's order, up to the first that ends
      the message. */
  ghost predicate LegsInOrder(w: World, policy: Effective, recipient: string, legs: seq<Leg>)
    requires WellRanked(w)
  {
    && |legs| <= |policy.fallbackChannels|
    && (forall i | 0 <= i < |legs| ::
        legs[i].channel == policy.fallbackChannels[i] && LegHolds(w, policy, recipient, legs[i]))
    && (legs != [] ==> NoneEnds(legs[..|legs| - 1]))
  }

  ghost predicate FallbackAnswer(policy: Effective, requested: Channel, legs: seq<Leg>, r: MessageResult) {
    if legs != [] && Ends(legs[|legs| - 1].answer) then
      var leg := legs[|legs| - 1];
      if leg.answer.Sent? then r.Stamped? && IsStampOf(r.event, requested, leg.channel) else r == ConsentLookupFailed
    else r == ChannelUnavailable && |legs| == |policy.fallbackChannels|
  }

  /** The stamp of a message sent on this channel: its row meets the check. */
  predicate IsStampOf(e: Event, requested: Channel, sentOn: Channel) {
    e.requestedChannel == requested && e.selectedChannel == sentOn && StoredRowIsValid(e)
  }

  /** The answer once the requested channel has answered: only its exhaustion leads on. */
  ghost predicate MessageAnswer(policy: Effective, requested: Channel, primary: ChannelResult, legs: seq<Leg>,
      r: MessageResult)
  {
    if primary == Unavailable && policy.allowChannelSwitch then FallbackAnswer(policy, requested, legs, r)
    else
      && legs == []
      && match primary
         case Sent(_) => r.Stamped? && IsStampOf(r.event, requested, requested)
         case Blocked => r == ConsentBlocked
         case Aborted => r == ConsentLookupFailed
         case Unavailable => r == ChannelUnavailable
  }

  /** One message under an accepted policy: `first` and `legs` are the attempts made on
      the requested channel and after it. */
  ghost predicate Routed(
      w: World, policy: Effective, recipient: string, requested: Channel, override: Option<string>, confirmation: bool,
      r: MessageResult, first: seq<Attempt>, legs: seq<Leg>)
    requires WellRanked(w)
  {
    if KnownOptOut(w, recipient, requested, confirmation) then r == ConsentBlocked && first == [] && legs == []
    else if w.providers == map[] then r == ChannelUnavailable && first == [] && legs == []
    else
      exists primary :: OnChannel(w, requested, recipient, override, policy, first, primary)
        && LegsInOrder(w, policy, recipient, legs) && MessageAnswer(policy, requested, primary, legs, r)
  }

  const FALLBACK_REASON := "Sent on fallback"

  lemma ReasonIsNotBlank()
    ensures K.Trim(FALLBACK_REASON) != ""
  {
    NotBlank(FALLBACK_REASON);
  }

  lemma NotBlank(s: string)
    requires s != "" && !K.IsSpace(s[0])
    ensures K.Trim(s) != ""
  {
    assert K.TrimLeft(s) == s;
    TrimRightKeepsSome(s);
  }

  lemma {:induction false} TrimRightKeepsSome(s: string)
    requires s != "" && !K.IsSpace(s[0])
    ensures K.TrimRight(s) != ""
    decreases |s|
  {
    if K.IsSpace(s[|s| - 1]) { TrimRightKeepsSome(s[..|s| - 1]); }
  }

  /** The stamp put on a sent event. */
  function Stamp(requested: Channel, sentOn: Channel): (e: Event)
    ensures IsStampOf(e, requested, sentOn)
  {
    ReasonIsNotBlank();
    Event(requested, sentOn, if requested == sentOn then None else Some(FALLBACK_REASON))
  }

  lemma OneMoreLeg(w: World, policy: Effective, recipient: string, legs: seq<Leg>, leg: Leg)
    requires WellRanked(w) && LegsInOrder(w, policy, recipient, legs) && NoneEnds(legs)
    requires |legs| < |policy.fallbackChannels| && leg.channel == policy.fallbackChannels[|legs|]
    requires LegHolds(w, policy, recipient, leg)
    ensures LegsInOrder(w, policy, recipient, legs + [leg])
    ensures !Ends(leg.answer) ==> NoneEnds(legs + [leg])
  {
  }

  function EndOf(requested: Channel, leg: Leg): MessageResult {
    if leg.answer.Sent? then Stamped(Stamp(requested, leg.channel)) else ConsentLookupFailed
  }

  lemma LegEnds(policy: Effective, requested: Channel, legs: seq<Leg>, leg: Leg)
    ensures Ends(leg.answer) ==> FallbackAnswer(policy, requested, legs + [leg], EndOf(requested, leg))
  {
  }

  lemma NoLegEnds(policy: Effective, requested: Channel, legs: seq<Leg>)
    requires NoneEnds(legs) && |legs| == |policy.fallbackChannels|
    ensures FallbackAnswer(policy, requested, legs, ChannelUnavailable)
  {
  }

  method RouteMessage(
      w: World, recipient: string, requested: Channel, override: Option<string>, rawPolicy: Raw, confirmation: bool)
      returns (r: MessageResult, first: seq<Attempt>, legs: seq<Leg>)
    requires WellRanked(w)
    ensures r.InvalidPolicy? <==> !Acceptable(rawPolicy)
    ensures r.InvalidPolicy? ==> first == [] && legs == []
    ensures Acceptable(rawPolicy) ==>
      exists p :: Reads(rawPolicy, p) &&
        Routed(w, EffectivePolicy(p, requested), recipient, requested, override, confirmation, r, first, legs)
  {
    first, legs := [], [];
    var parsed := ParseChannelPolicy(rawPolicy);
    if parsed.Bad? { return InvalidPolicy(parsed.field), [], []; }
    var policy := EffectivePolicy(parsed.policy, requested);
    r, first, legs := RouteUnder(w, recipient, requested, override, policy, confirmation);
  }

  method RouteUnder(
      w: World, recipient: string, requested: Channel, override: Option<string>, policy: Effective, confirmation: bool)
      returns (r: MessageResult, first: seq<Attempt>, legs: seq<Leg>)
    requires WellRanked(w) && requested !in policy.fallbackChannels
    ensures Routed(w, policy, recipient, requested, override, confirmation, r, first, legs)
    ensures !r.InvalidPolicy?
  {
    first, legs := [], [];
    if recipient != "" && !confirmation && w.consent(recipient, requested) == OptedOut {
      return ConsentBlocked, [], [];
    }
    if w.providers == map[] { return ChannelUnavailable, [], []; }
    var primary;
    primary, first := SendOnChannel(w, requested, recipient, override, policy);
    match primary
    case Sent(_) => r := Stamped(Stamp(requested, requested));
    case Blocked => r := ConsentBlocked;
    case Aborted => r := ConsentLookupFailed;
    case Unavailable =>
      if policy.allowChannelSwitch {
        r, legs := TryFallbacks(w, policy, recipient, requested);
      } else {
        r := ChannelUnavailable;
      }
  }

  method TryFallback(w: World, policy: Effective, recipient: string, channel: Channel) returns (leg: Leg)
    requires WellRanked(w)
    ensures leg.channel == channel && LegHolds(w, policy, recipient, leg)
  {
    var address := FallbackAddress(policy, recipient, channel);
    if address == None { return Leg(channel, [], Unavailable); }
    if !ConsentsToFallback(w.consent(address.value, channel), policy) { return Leg(channel, [], Unavailable); }
    var answer, log := SendOnChannel(w, channel, address.value, None, policy);
    return Leg(channel, log, answer);
  }

  /** The second loop. */
  method TryFallbacks(w: World, policy: Effective, recipient: string, requested: Channel)
      returns (r: MessageResult, legs: seq<Leg>)
    requires WellRanked(w) && requested !in policy.fallbackChannels
    ensures LegsInOrder(w, policy, recipient, legs) && FallbackAnswer(policy, requested, legs, r)
    ensures !r.InvalidPolicy?
  {
    legs := [];
    var i := 0;
    while i < |policy.fallbackChannels|
      invariant |legs| == i <= |policy.fallbackChannels|
      invariant LegsInOrder(w, policy, recipient, legs) && NoneEnds(legs)
    {
      var channel := policy.fallbackChannels[i];
      var leg := TryFallback(w, policy, recipient, channel);
      OneMoreLeg(w, policy, recipient, legs, leg);
      LegEnds(policy, requested, legs, leg);
      legs := legs + [leg];
      i := i + 1;
      if leg.answer.Sent? { return Stamped(Stamp(requested, channel)), legs; }
      if leg.answer.Aborted? { return ConsentLookupFailed, legs; }
    }
    NoLegEnds(policy, requested, legs);
    return ChannelUnavailable, legs;
  }

  // ---------------------------------------------------------------- what the caller is promised

  function Attempts(legs: seq<Leg>): seq<Attempt> {
    if legs == [] then [] else Attempts(legs[..|legs| - 1]) + legs[|legs| - 1].log
  }

  /** An attempt on another channel the caller and the recipient agreed to. */
  predicate Agreed(w: World, policy: Effective, recipient: string, requested: Channel, a: Attempt) {
    && policy.allowChannelSwitch && a.channel in policy.fallbackChannels && a.channel != requested
    && FallbackAddress(policy, recipient, a.channel) == Some(a.address)
    && w.consent(a.address, a.channel) == OptedIn
  }

  ghost predicate AllAgreed(w: World, policy: Effective, recipient: string, requested: Channel, log: seq<Attempt>) {
    forall i | 0 <= i < |log| :: Agreed(w, policy, recipient, requested, log[i])
  }

  ghost predicate NoneDelivered(w: World, log: seq<Attempt>) {
    forall i | 0 <= i < |log| :: OutcomeOf(w, log[i]) != Delivered
  }

  ghost predicate DeliveredLast(w: World, log: seq<Attempt>, channel: Channel) {
    && log != [] && NoneDelivered(w, log[..|log| - 1])
    && OutcomeOf(w, log[|log| - 1]) == Delivered && log[|log| - 1].channel == channel
  }

  lemma AnsweredUndelivered(
      w: World, channel: Channel, address: string, override: Option<string>, policy: Effective, log: seq<Attempt>,
      r: ChannelResult)
    requires WellRanked(w) && OnChannel(w, channel, address, override, policy, log, r)
    ensures if r.Sent? then DeliveredLast(w, log, channel) else NoneDelivered(w, log)
  {
  }

  /** A leg's attempts were all agreed to, and only its last may have delivered. */
  lemma LegIsAgreed(w: World, policy: Effective, recipient: string, requested: Channel, leg: Leg)
    requires WellRanked(w) && LegHolds(w, policy, recipient, leg) && leg.channel in policy.fallbackChannels
    requires policy.allowChannelSwitch && policy.requiresConsent && requested !in policy.fallbackChannels
    ensures AllAgreed(w, policy, recipient, requested, leg.log)
    ensures if leg.answer.Sent? then DeliveredLast(w, leg.log, leg.channel) else NoneDelivered(w, leg.log)
  {
    if Usable(w, policy, recipient, leg.channel) {
      var address := FallbackAddress(policy, recipient, leg.channel).value;
      AnsweredUndelivered(w, leg.channel, address, None, policy, leg.log, leg.answer);
    }
  }

  lemma Joined(w: World, policy: Effective, recipient: string, requested: Channel, before: seq<Attempt>,
      log: seq<Attempt>)
    requires NoneDelivered(w, before)
    ensures NoneDelivered(w, log) ==> NoneDelivered(w, before + log)
    ensures forall c :: DeliveredLast(w, log, c) ==> DeliveredLast(w, before + log, c)
    ensures AllAgreed(w, policy, recipient, requested, before) && AllAgreed(w, policy, recipient, requested, log) ==>
      AllAgreed(w, policy, recipient, requested, before + log)
  {
    forall c | DeliveredLast(w, log, c) ensures DeliveredLast(w, before + log, c) {
      assert (before + log)[..|before + log| - 1] == before + log[..|log| - 1];
    }
  }

  /** All fallback attempts were agreed to; at most one delivered, the last. */
  lemma {:induction false} LegsAreAgreed(w: World, policy: Effective, recipient: string, requested: Channel,
      legs: seq<Leg>)
    requires WellRanked(w) && LegsInOrder(w, policy, recipient, legs)
    requires policy.allowChannelSwitch && policy.requiresConsent && requested !in policy.fallbackChannels
    ensures AllAgreed(w, policy, recipient, requested, Attempts(legs))
    ensures
      if legs != [] && legs[|legs| - 1].answer.Sent? then DeliveredLast(w, Attempts(legs), legs[|legs| - 1].channel)
      else NoneDelivered(w, Attempts(legs))
  {
    if legs != [] {
      var init, leg := legs[..|legs| - 1], legs[|legs| - 1];
      LegsAreAgreed(w, policy, recipient, requested, init);
      LegIsAgreed(w, policy, recipient, requested, leg);
      Joined(w, policy, recipient, requested, Attempts(init), leg.log);
    }
  }

  /** Another channel is only used with the caller's opt-in, at an address with a
      recorded opt-in, and after everyone asked on the requested one had failed. */
  ghost predicate NoSilentChange(
      w: World, policy: Effective, recipient: string, requested: Channel, first: seq<Attempt>, rest: seq<Attempt>)
  {
    && (forall a | a in first :: a.channel == requested && a.address == recipient)
    && AllAgreed(w, policy, recipient, requested, rest)
    && (rest != [] ==> forall a | a in first :: OutcomeOf(w, a) == ProviderFailed)
  }

  /** The event says where the one delivered attempt went. */
  ghost predicate AccountsFor(w: World, requested: Channel, log: seq<Attempt>, r: MessageResult) {
    if r.Stamped? then
      && IsStampOf(r.event, requested, r.event.selectedChannel)
      && DeliveredLast(w, log, r.event.selectedChannel)
    else NoneDelivered(w, log)
  }

  lemma {:induction false} ChannelIsNeverChangedSilently(
      w: World, policy: Effective, recipient: string, requested: Channel, override: Option<string>, confirmation: bool,
      r: MessageResult, first: seq<Attempt>, legs: seq<Leg>)
    requires WellRanked(w) && policy.requiresConsent && requested !in policy.fallbackChannels
    requires Routed(w, policy, recipient, requested, override, confirmation, r, first, legs)
    ensures NoSilentChange(w, policy, recipient, requested, first, Attempts(legs))
    ensures AccountsFor(w, requested, first + Attempts(legs), r)
  {
    if KnownOptOut(w, recipient, requested, confirmation) || w.providers == map[] {
    } else {
      var primary :| OnChannel(w, requested, recipient, override, policy, first, primary)
        && LegsInOrder(w, policy, recipient, legs) && MessageAnswer(policy, requested, primary, legs, r);
      if primary == Unavailable && policy.allowChannelSwitch {
        SwitchIsNotSilent(w, policy, recipient, requested, override, r, first, legs);
      } else {
        AnsweredUndelivered(w, requested, recipient, override, policy, first, primary);
        assert first + [] == first;
      }
    }
  }

  lemma {:induction false} SwitchIsNotSilent(
      w: World, policy: Effective, recipient: string, requested: Channel, override: Option<string>,
      r: MessageResult, first: seq<Attempt>, legs: seq<Leg>)
    requires WellRanked(w) && policy.requiresConsent && policy.allowChannelSwitch &&
      requested !in policy.fallbackChannels
    requires OnChannel(w, requested, recipient, override, policy, first, Unavailable)
    requires LegsInOrder(w, policy, recipient, legs) && FallbackAnswer(policy, requested, legs, r)
    ensures NoSilentChange(w, policy, recipient, requested, first, Attempts(legs))
    ensures AccountsFor(w, requested, first + Attempts(legs), r)
  {
    AnsweredUndelivered(w, requested, recipient, override, policy, first, Unavailable);
    LegsAreAgreed(w, policy, recipient, requested, legs);
    Joined(w, policy, recipient, requested, first, Attempts(legs));
  }

  lemma AgreementNeeded(w: World, policy: Effective, recipient: string, requested: Channel, rest: seq<Attempt>)
    requires AllAgreed(w, policy, recipient, requested, rest)
    ensures rest != [] ==> policy.allowChannelSwitch && exists address, channel ::
      w.consent(address, channel) == OptedIn
  {
    if rest != [] { assert w.consent(rest[0].address, rest[0].channel) == OptedIn; }
  }

  /** Without the caller's opt-in, or the recipient's, every attempt is on the channel
      asked for, to the recipient's own address. */
  lemma WithoutAgreementNoChange(
      w: World, policy: Effective, recipient: string, requested: Channel, first: seq<Attempt>, rest: seq<Attempt>)
    requires NoSilentChange(w, policy, recipient, requested, first, rest)
    requires !policy.allowChannelSwitch || forall address, channel :: w.consent(address, channel) != OptedIn
    ensures rest == [] && forall a | a in first + rest :: a.channel == requested && a.address == recipient
  {
    AgreementNeeded(w, policy, recipient, requested, rest);
  }

  // ---------------------------------------------------------------- who is asked, and when nobody is

  predicate CanSend(w: World, id: Option<string>, channel: Channel) {
    id.Some? && id.value in w.providers && channel in w.providers[id.value]
  }

  /** The provider asked first: the caller's if it can send on the channel; else, if the
      caller named none, the thread's; else the rule's; else one of the pool. */
  lemma FirstAsked(
      w: World, channel: Channel, address: string, override: Option<string>, policy: Effective, log: seq<Attempt>,
      r: ChannelResult)
    requires WellRanked(w) && OnChannel(w, channel, address, override, policy, log, r)
    ensures CanSend(w, override, channel) ==> log != [] && Some(log[0].provider) == override
    ensures var thread := w.thread(channel, address);
      override == None && CanSend(w, thread, channel) ==> log != [] && Some(log[0].provider) == thread
    ensures var thread, rule := w.thread(channel, address), w.rule(channel);
      !CanSend(w, override, channel) && (override.Some? || !CanSend(w, thread, channel)) && CanSend(w, rule, channel)
      ==> log != [] && Some(log[0].provider) == rule
    ensures (exists id :: CanSend(w, Some(id), channel)) ==> log != [] && CanSend(w, Some(log[0].provider), channel)
  {
    var selected := SelectProvider(w, channel, address, override);
    if id :| CanSend(w, Some(id), channel) {
      assert Capable(w, id, channel) && id in w.ranked(channel);
      assert selected.Some? && log != [] && log[0].provider == Asked(log)[0];
    }
  }

  /** With alternates, each further provider is the best-ranked of those not asked yet. */
  lemma NextAskedIsBestRanked(
      w: World, channel: Channel, address: string, override: Option<string>, policy: Effective, log: seq<Attempt>,
      r: ChannelResult, i: nat)
    requires WellRanked(w) && OnChannel(w, channel, address, override, policy, log, r) && 1 <= i < |log|
    ensures policy.allowAlternateProvider
    ensures exists k | 0 <= k < |w.ranked(channel)| ::
      && w.ranked(channel)[k] == log[i].provider
      && L.IsFirstOutside(w.ranked(channel), L.Elements(Asked(log[..i])), k)
  {
    var selected, asked := SelectProvider(w, channel, address, override).value, Asked(log);
    assert Asked(log[..i]) == asked[..i];
    assert asked[..i][0] == selected;
    L.FirstOutsideWithout(w.ranked(channel), selected, L.Elements(asked[..i]));
    assert L.FirstOutside(w.ranked(channel), L.Elements(asked[..i])) == Some(asked[i]);
  }

  lemma ExhaustedMeansAllAsked(
      w: World, channel: Channel, selected: string, log: seq<Attempt>, id: string)
    requires WellRanked(w) && Exhausted(w, channel, Some(selected), true, log) && CanSend(w, Some(id), channel)
    requires Asked(log)[0] == selected
    ensures |log| >= w.maxAttempts || id in Asked(log)
  {
    var asked := Asked(log);
    assert id in w.ranked(channel) && selected in L.Elements(asked);
    L.FirstOutsideWithout(w.ranked(channel), selected, L.Elements(asked));
  }

  lemma NoAlternateIsAsked(
      w: World, channel: Channel, address: string, selected: Option<string>, log: seq<Attempt>)
    requires Cascade(w, channel, address, selected, false, log)
    ensures |log| <= 1
  {
    if log != [] { F.OnlyTheSelected(selected.value, Asked(log)); }
  }

  /** A channel is given up only once its attempts are used up or, with alternates,
      every provider able to send on it was asked; without, one was. */
  lemma GivenUpAfterAllWereAsked(
      w: World, channel: Channel, address: string, override: Option<string>, policy: Effective, log: seq<Attempt>,
      id: string)
    requires WellRanked(w) && OnChannel(w, channel, address, override, policy, log, Unavailable)
    requires CanSend(w, Some(id), channel)
    ensures log != [] && forall a | a in log :: OutcomeOf(w, a) == ProviderFailed
    ensures policy.allowAlternateProvider ==> |log| >= w.maxAttempts || id in Asked(log)
    ensures !policy.allowAlternateProvider ==> |log| == 1
  {
    var selected := SelectProvider(w, channel, address, override);
    UnavailableAsked(w, channel, address, override, policy, log, id);
    if policy.allowAlternateProvider {
      ExhaustedMeansAllAsked(w, channel, selected.value, log, id);
    } else {
      NoAlternateIsAsked(w, channel, address, selected, log);
    }
  }

  lemma UnavailableAsked(
      w: World, channel: Channel, address: string, override: Option<string>, policy: Effective, log: seq<Attempt>,
      id: string)
    requires WellRanked(w) && OnChannel(w, channel, address, override, policy, log, Unavailable)
    requires CanSend(w, Some(id), channel)
    ensures var selected := SelectProvider(w, channel, address, override);
      && log != [] && selected.Some? && Asked(log)[0] == selected.value
      && Exhausted(w, channel, selected, policy.allowAlternateProvider, log)
      && Cascade(w, channel, address, selected, policy.allowAlternateProvider, log)
    ensures forall a | a in log :: OutcomeOf(w, a) == ProviderFailed
  {
    FirstAsked(w, channel, address, override, policy, log, Unavailable);
  }

  /** A recipient known to have opted out is sent nothing on any channel, except the
      confirmation of the opt-out itself. */
  lemma OptedOutIsSentNothing(
      w: World, policy: Effective, recipient: string, requested: Channel, override: Option<string>, confirmation: bool,
      r: MessageResult, first: seq<Attempt>, legs: seq<Leg>)
    requires WellRanked(w) && Routed(w, policy, recipient, requested, override, confirmation, r, first, legs)
    requires recipient != "" && w.consent(recipient, requested) == OptedOut
    ensures !confirmation ==> r == ConsentBlocked && first == [] && legs == []
    ensures confirmation && (exists id :: CanSend(w, Some(id), requested)) ==> first != []
  {
    if confirmation && w.providers != map[] {
      var primary :| OnChannel(w, requested, recipient, override, policy, first, primary)
        && LegsInOrder(w, policy, recipient, legs) && MessageAnswer(policy, requested, primary, legs, r);
      FirstAsked(w, requested, recipient, override, policy, first, primary);
    }
  }

  /** Nobody else is held back: without a known opt-out, and even when the lookup fails,
      a provider of the requested channel is asked if there is one. */
  lemma OthersAreSentTo(
      w: World, policy: Effective, recipient: string, requested: Channel, override: Option<string>, confirmation: bool,
      r: MessageResult, first: seq<Attempt>, legs: seq<Leg>, id: string)
    requires WellRanked(w) && Routed(w, policy, recipient, requested, override, confirmation, r, first, legs)
    requires recipient == "" || w.consent(recipient, requested) != OptedOut
    requires CanSend(w, Some(id), requested)
    ensures first != []
  {
    assert id in w.providers;
    var primary :| OnChannel(w, requested, recipient, override, policy, first, primary)
      && LegsInOrder(w, policy, recipient, legs) && MessageAnswer(policy, requested, primary, legs, r);
    FirstAsked(w, requested, recipient, override, policy, first, primary);
  }

  /** Where a message may go on a fallback channel: the caller's address for it, or the
      recipient's own if it is one of that channel. */
  predicate Reaches(policy: Effective, recipient: string, channel: Channel, address: string) {
    if channel in policy.fallbackRecipients then address == policy.fallbackRecipients[channel]
    else address == recipient && AddressSuitsChannel(recipient, channel)
  }

  /** No channel the caller listed is passed over while the recipient's opt-in for it is
      recorded and someone can send on it. */
  lemma NoAgreedChannelIsPassedOver(
      w: World, policy: Effective, recipient: string, requested: Channel, override: Option<string>,
      first: seq<Attempt>, legs: seq<Leg>, channel: Channel, address: string, id: string)
    requires WellRanked(w) && policy.allowChannelSwitch && w.consent(recipient, requested) != OptedOut
    requires Routed(w, policy, recipient, requested, override, false, ChannelUnavailable, first, legs)
    requires channel in policy.fallbackChannels && Reaches(policy, recipient, channel, address)
    requires w.consent(address, channel) == OptedIn && CanSend(w, Some(id), channel)
    ensures exists i | 0 <= i < |legs| ::
      legs[i].channel == channel && legs[i].log != [] && forall a | a in legs[i].log :: a.address == address
  {
    assert id in w.providers;
    var primary :| OnChannel(w, requested, recipient, override, policy, first, primary)
      && LegsInOrder(w, policy, recipient, legs) && MessageAnswer(policy, requested, primary, legs, ChannelUnavailable);
    assert |legs| == |policy.fallbackChannels|;
    var i :| 0 <= i < |policy.fallbackChannels| && policy.fallbackChannels[i] == channel;
    assert LegHolds(w, policy, recipient, legs[i]) && Usable(w, policy, recipient, channel);
    FirstAsked(w, channel, address, None, policy, legs[i].log, legs[i].answer);
  }
}
