/** Which channel a message asks for, and when another one may be used. */
module ChannelPolicy {
  import opened Wrappers
  import opened Lists
  import K = KeywordGrammar

  datatype Channel = Sms | Whatsapp | Email

  const CHANNELS := [Sms, Whatsapp, Email]

  /** The request's JSON, as far as the policy is concerned. */
  datatype Raw =
    Absent | Bool(b: bool) | Text(text: string) | List(items: seq<Raw>) | Object(fields: seq<Field>) | Other

  datatype Field = Field(name: string, value: Raw)

  function ChannelNamed(name: string): Option<Channel> {
    if name == "sms" then Some(Sms)
    else if name == "whatsapp" then Some(Whatsapp)
    else if name == "email" then Some(Email)
    else None
  }

  function ChannelOf(raw: Raw): Option<Channel> { if raw.Text? then ChannelNamed(raw.text) else None }

  // ---------------------------------------------------------------- addresses

  predicate HasWhatsappScheme(a: string) { |a| >= 9 && K.Upper(a[..9]) == "WHATSAPP:" }

  predicate AddressSuitsChannel(address: string, channel: Channel) {
    var a := K.Trim(address);
    && a != ""
    && match channel
       case Email => '@' in a && !HasWhatsappScheme(a)
       case Sms => '@' !in a && !HasWhatsappScheme(a)
       case Whatsapp => '@' !in a
  }

  // ---------------------------------------------------------------- the request's policy

  datatype Policy = Policy(
    allowChannelSwitch: Option<bool>, fallbackChannels: Option<seq<Channel>>, fallbackRecipients: map<Channel, string>)

  datatype Parsed = Ok(policy: Policy) | Bad(field: string)

  const NO_POLICY := Policy(None, None, map[])

  predicate Known(name: string) { name in ["allowChannelSwitch", "fallbackChannels", "fallbackRecipients"] }

  /** A property of an object; absent and undefined are one. */
  function Get(fields: seq<Field>, name: string): Raw {
    if fields == [] then Absent
    else if fields[0].name == name then fields[0].value
    else Get(fields[1..], name)
  }

  function Channels(items: seq<Raw>): (r: Option<seq<Channel>>)
    ensures r.Some? ==> |r.value| == |items| && forall i | 0 <= i < |items| :: ChannelOf(items[i]) == Some(r.value[i])
    ensures r == None ==> exists i | 0 <= i < |items| :: ChannelOf(items[i]) == None
  {
    if items == [] then Some([])
    else
      var c, rest := ChannelOf(items[0]), Channels(items[1..]);
      if c == None || rest == None then None else Some([c.value] + rest.value)
  }

  predicate GoodRecipient(f: Field) {
    ChannelNamed(f.name).Some? && f.value.Text? && AddressSuitsChannel(f.value.text, ChannelNamed(f.name).value)
  }

  /** What the platform accepts as a channel policy. */
  predicate Acceptable(raw: Raw) {
    raw.Absent? ||
    (raw.Object? &&
      var allow, channels, recipients :=
        Get(raw.fields, "allowChannelSwitch"), Get(raw.fields, "fallbackChannels"),
        Get(raw.fields, "fallbackRecipients");
      && (forall i | 0 <= i < |raw.fields| :: Known(raw.fields[i].name))
      && (allow.Absent? || allow.Bool?)
      && (channels.Absent?
          || (channels.List? && Channels(channels.items).Some? && Distinct(Channels(channels.items).value)))
      && (recipients.Absent?
          || (recipients.Object? && forall i | 0 <= i < |recipients.fields| :: GoodRecipient(recipients.fields[i]))))
  }

  function Recipients(fields: seq<Field>): (m: map<Channel, string>) {
    if fields == [] then map[]
    else
      var f, rest := fields[|fields| - 1], Recipients(fields[..|fields| - 1]);
      if GoodRecipient(f) then rest[ChannelNamed(f.name).value := K.Trim(f.value.text)] else rest
  }

  /** The recipients by channel, or the name of the first field that is not one. */
  method ReadRecipients(fields: seq<Field>) returns (recipients: map<Channel, string>, bad: Option<string>)
    ensures bad == None <==> forall i | 0 <= i < |fields| :: GoodRecipient(fields[i])
    ensures bad == None ==> recipients == Recipients(fields)
  {
    recipients := map[];
    var k := 0;
    while k < |fields|
      invariant 0 <= k <= |fields|
      invariant forall j | 0 <= j < k :: GoodRecipient(fields[j])
      invariant recipients == Recipients(fields[..k])
    {
      var f := fields[k];
      assert fields[..k + 1][..k] == fields[..k];
      if !GoodRecipient(f) { return recipients, Some(f.name); }
      recipients := recipients[ChannelNamed(f.name).value := K.Trim(f.value.text)];
      k := k + 1;
    }
    assert fields[..k] == fields;
    return recipients, None;
  }

  method ParseChannelPolicy(raw: Raw) returns (p: Parsed)
    ensures p.Ok? <==> Acceptable(raw)
    ensures p.Ok? ==> Reads(raw, p.policy)
  {
    if raw.Absent? { return Ok(NO_POLICY); }
    if !raw.Object? { return Bad("channelPolicy"); }
    var i := 0;
    while i < |raw.fields|
      invariant 0 <= i <= |raw.fields|
      invariant forall j | 0 <= j < i :: Known(raw.fields[j].name)
    {
      if !Known(raw.fields[i].name) { return Bad("channelPolicy." + raw.fields[i].name); }
      i := i + 1;
    }
    var allow := Get(raw.fields, "allowChannelSwitch");
    if !allow.Absent? && !allow.Bool? { return Bad("channelPolicy.allowChannelSwitch"); }
    var channels := Get(raw.fields, "fallbackChannels");
    var fallbackChannels := None;
    if !channels.Absent? {
      if !channels.List? || Channels(channels.items) == None { return Bad("channelPolicy.fallbackChannels"); }
      if !Distinct(Channels(channels.items).value) { return Bad("channelPolicy.fallbackChannels"); }
      fallbackChannels := Channels(channels.items);
    }
    var recipients := Get(raw.fields, "fallbackRecipients");
    var fallbackRecipients: map<Channel, string> := map[];
    if !recipients.Absent? {
      if !recipients.Object? { return Bad("channelPolicy.fallbackRecipients"); }
      var bad;
      fallbackRecipients, bad := ReadRecipients(recipients.fields);
      if bad.Some? { return Bad("channelPolicy.fallbackRecipients." + bad.value); }
    }
    return Ok(Policy(if allow.Bool? then Some(allow.b) else None, fallbackChannels, fallbackRecipients));
  }

  /** The policy holds what the object says, and nothing else. */
  ghost predicate Reads(raw: Raw, p: Policy) {
    if !raw.Object? then p == NO_POLICY
    else
      var allow, channels, recipients :=
        Get(raw.fields, "allowChannelSwitch"), Get(raw.fields, "fallbackChannels"),
        Get(raw.fields, "fallbackRecipients");
      && p.allowChannelSwitch == (if allow.Bool? then Some(allow.b) else None)
      && p.fallbackChannels == (if channels.List? then Channels(channels.items) else None)
      && p.fallbackRecipients == (if recipients.Object? then Recipients(recipients.fields) else map[])
  }

  // ---------------------------------------------------------------- the policy enforced

  /** `requiresConsent` is the platform's: no request can turn it off. */
  datatype Effective = Effective(
    allowAlternateProvider: bool, allowChannelSwitch: bool, requiresConsent: bool,
    fallbackChannels: seq<Channel>, fallbackRecipients: map<Channel, string>)

  function EffectivePolicy(p: Policy, requested: Channel): Effective {
    var allow := p.allowChannelSwitch == Some(true);
    var listed := if p.fallbackChannels.Some? then p.fallbackChannels.value else Without(CHANNELS, requested);
    var fallback := Without(listed, requested);
    Effective(true, allow, true, if allow then fallback else [], p.fallbackRecipients)
  }

  /** Whatever the request says: without its explicit consent no other channel is
      listed, the requested one is never its own fallback, none is listed twice, and
      the recipient's consent stays required. */
  lemma PolicyIsConservative(raw: Raw, p: Policy, requested: Channel)
    requires Acceptable(raw) && Reads(raw, p)
    ensures var e := EffectivePolicy(p, requested);
      && (e.fallbackChannels != [] ==> raw.Object? && Get(raw.fields, "allowChannelSwitch") == Bool(true))
      && requested !in e.fallbackChannels && Distinct(e.fallbackChannels) && e.requiresConsent
      && (forall c | c in e.fallbackRecipients :: AddressSuitsChannel(e.fallbackRecipients[c], c))
  {
    assert Distinct(CHANNELS);
    WithoutDistinct(CHANNELS, requested);
    var listed := if p.fallbackChannels.Some? then p.fallbackChannels.value else Without(CHANNELS, requested);
    WithoutDistinct(listed, requested);
    if raw.Object? && Get(raw.fields, "fallbackRecipients").Object? {
      RecipientsSuit(Get(raw.fields, "fallbackRecipients").fields);
    }
  }

  function OtherChannels(requested: Channel): seq<Channel> {
    match requested
    case Sms => [Whatsapp, Email]
    case Whatsapp => [Sms, Email]
    case Email => [Sms, Whatsapp]
  }

  lemma {:induction false} OthersInOrder(requested: Channel)
    ensures Without(Without(CHANNELS, requested), requested) == OtherChannels(requested)
  {
    assert CHANNELS[1..] == [Whatsapp, Email] && CHANNELS[1..][1..] == [Email];
    assert Without(CHANNELS, requested) == OtherChannels(requested);
    WithoutAbsent(OtherChannels(requested), requested);
  }

  lemma {:induction false} WithoutAbsent(s: seq<Channel>, x: Channel)
    requires x !in s
    ensures Without(s, x) == s
  {
    if s != [] { WithoutAbsent(s[1..], x); }
  }

  lemma {:induction false} ListedInOrder(before: seq<Channel>, requested: Channel, after: seq<Channel>)
    requires requested !in before && requested !in after
    ensures Without(before + [requested] + after, requested) == before + after
  {
    WithoutAbsent(after, requested);
    WithoutFirst(requested, after);
    WithoutAbsent(before, requested);
    WithoutKeepsOrder(before, [requested] + after, requested);
    assert before + [requested] + after == before + ([requested] + after);
  }

  lemma {:induction false} WithoutFirst(x: Channel, s: seq<Channel>)
    ensures Without([x] + s, x) == Without(s, x)
  {
    assert ([x] + s)[1..] == s;
  }

  /** An opted-in caller's channels are used in the caller's order, the requested one
      left out; without a list, all others; without the opt-in, none. */
  lemma CallersOrderIsKept(p: Policy, requested: Channel, before: seq<Channel>, after: seq<Channel>)
    requires requested !in before && requested !in after
    ensures var e := EffectivePolicy(p, requested);
      && e.allowChannelSwitch == (p.allowChannelSwitch == Some(true))
      && (!e.allowChannelSwitch ==> e.fallbackChannels == [])
      && (e.allowChannelSwitch && p.fallbackChannels == Some(before + [requested] + after) ==>
            e.fallbackChannels == before + after)
      && (e.allowChannelSwitch && p.fallbackChannels == Some(before) ==> e.fallbackChannels == before)
      && (e.allowChannelSwitch && p.fallbackChannels == None ==> e.fallbackChannels == OtherChannels(requested))
      && e.allowAlternateProvider && e.requiresConsent && e.fallbackRecipients == p.fallbackRecipients
  {
    ListedInOrder(before, requested, after);
    WithoutAbsent(before, requested);
    OthersInOrder(requested);
  }

  lemma {:induction false} RecipientsSuit(fields: seq<Field>)
    ensures forall c | c in Recipients(fields) :: AddressSuitsChannel(Recipients(fields)[c], c)
  {
    if fields != [] {
      RecipientsSuit(fields[..|fields| - 1]);
      var f := fields[|fields| - 1];
      if GoodRecipient(f) { TrimmedSuits(f.value.text, ChannelNamed(f.name).value); }
    }
  }

  lemma TrimmedSuits(address: string, channel: Channel)
    ensures AddressSuitsChannel(K.Trim(address), channel) == AddressSuitsChannel(address, channel)
  {
    K.TrimTwice(address);
  }

  // ---------------------------------------------------------------- the channel asked for

  datatype Requested = Requested(channel: Channel, explicit: bool) | BadRequest(field: string)

  function LowerChar(c: char): char { if 'A' <= c <= 'Z' then c - 'A' + 'a' else c }

  function Lower(s: string): string { if s == [] then [] else [LowerChar(s[0])] + Lower(s[1..]) }

  predicate Contains(s: string, part: string) { exists i: nat | i + |part| <= |s| :: s[i..][..|part|] == part }

  /** The legacy default, for callers that name no channel. */
  function InferChannel(recipient: string, content: string): Channel {
    if '@' in recipient then Email
    else if HasWhatsappScheme(K.TrimLeft(recipient)) then Whatsapp
    else if Contains(Lower(content), "wa:") || |content| > 300 then Whatsapp
    else Sms
  }

  function FirstSuiting(channels: seq<Channel>, recipient: string): Option<Channel> {
    if channels == [] then None
    else if AddressSuitsChannel(recipient, channels[0]) then Some(channels[0])
    else FirstSuiting(channels[1..], recipient)
  }

  /** `overrideChannels` are the channels of the provider the caller forces, if any. */
  function ResolveRequestedChannel(explicit: Option<string>, recipient: string, content: string,
      overrideChannels: seq<Channel>): Requested
  {
    if explicit.Some? && explicit.value != "" then
      var named := ChannelNamed(Lower(K.Trim(explicit.value)));
      if named == None then BadRequest("channel")
      else if recipient != "" && !AddressSuitsChannel(recipient, named.value) then BadRequest("recipient")
      else Requested(named.value, true)
    else
      var inferred := InferChannel(recipient, content);
      if overrideChannels != [] && inferred !in overrideChannels && FirstSuiting(overrideChannels, recipient).Some?
      then Requested(FirstSuiting(overrideChannels, recipient).value, false)
      else Requested(inferred, false)
  }

  /** An explicit request is answered with that channel or refused: neither the text
      nor a forced provider can turn it into another one. */
  lemma ExplicitRequestIsAuthoritative(
      explicit: string, recipient: string, content: string, other: string, channels: seq<Channel>, others: seq<Channel>)
    requires explicit != ""
    ensures ResolveRequestedChannel(Some(explicit), recipient, content, channels) ==
      ResolveRequestedChannel(Some(explicit), recipient, other, others)
    ensures var r := ResolveRequestedChannel(Some(explicit), recipient, content, channels);
      var named := ChannelNamed(Lower(K.Trim(explicit)));
      && (r.Requested? <==> named.Some? && (recipient == "" || AddressSuitsChannel(recipient, named.value)))
      && (r.Requested? ==> named == Some(r.channel) && r.explicit)
  {
  }

  /** "whatsapp:" in any letter case opens the text. */
  predicate OpensWithScheme(a: string) { |a| >= 9 && K.SameLetters(a[..9], "WHATSAPP:") }

  lemma SchemeInAnyCase(a: string)
    ensures HasWhatsappScheme(a) <==> OpensWithScheme(a)
  {
    if |a| >= 9 {
      forall i | 0 <= i < 9
        ensures K.UpperChar(a[i]) == "WHATSAPP:"[i] <==>
          a[i] == "WHATSAPP:"[i] || ('A' <= "WHATSAPP:"[i] <= 'Z' && a[i] as int == "WHATSAPP:"[i] as int + 32)
      {
      }
      assert K.Upper(a[..9]) == "WHATSAPP:" <==> forall i | 0 <= i < 9 :: K.UpperChar(a[i]) == "WHATSAPP:"[i];
    }
  }

  /** The shape of an address says which channels it is for: one with an at sign for
      email only, one with the WhatsApp scheme for WhatsApp only, any other for both
      phone channels. */
  lemma AddressShapes(address: string)
    ensures var a := K.Trim(address);
      && (AddressSuitsChannel(address, Email) <==> '@' in a && !OpensWithScheme(a))
      && (AddressSuitsChannel(address, Whatsapp) <==> a != "" && '@' !in a)
      && (AddressSuitsChannel(address, Sms) <==> a != "" && '@' !in a && !OpensWithScheme(a))
  {
    SchemeInAnyCase(K.Trim(address));
  }

  /** Without a named channel the address decides, then the text; a forced provider
      only if it cannot send on what that gives and has a channel the address suits. */
  lemma {:induction false} InferredChannel(recipient: string, content: string, overrides: seq<Channel>)
    ensures var r := ResolveRequestedChannel(None, recipient, content, overrides);
      && r.Requested? && !r.explicit
      && (r.channel != InferChannel(recipient, content) ==>
            overrides != [] && InferChannel(recipient, content) !in overrides &&
            r.channel in overrides && AddressSuitsChannel(recipient, r.channel))
      && (InferChannel(recipient, content) == r.channel ==>
            r.channel in overrides || forall c | c in overrides :: !AddressSuitsChannel(recipient, c))
    ensures '@' in recipient <==> InferChannel(recipient, content) == Email
    ensures '@' !in recipient && (OpensWithScheme(K.TrimLeft(recipient)) || |content| > 300) ==>
      InferChannel(recipient, content) == Whatsapp
    ensures '@' !in recipient && InferChannel(recipient, content) == Sms ==> |content| <= 300
  {
    SchemeInAnyCase(K.TrimLeft(recipient));
    FirstSuitingSuits(overrides, recipient);
  }

  lemma {:induction false} FirstSuitingSuits(channels: seq<Channel>, recipient: string)
    ensures FirstSuiting(channels, recipient).Some? ==>
      FirstSuiting(channels, recipient).value in channels
      && AddressSuitsChannel(recipient, FirstSuiting(channels, recipient).value)
    ensures FirstSuiting(channels, recipient) == None ==>
      forall c | c in channels :: !AddressSuitsChannel(recipient, c)
  {
    if channels != [] { FirstSuitingSuits(channels[1..], recipient); }
  }

  lemma {:induction false} LowerLetters(typed: string, word: string)
    requires |typed| == |word| && forall i | 0 <= i < |word| :: LowerChar(typed[i]) == word[i]
    ensures Lower(typed) == word
  {
    if typed != "" { LowerLetters(typed[1..], word[1..]); }
  }

  /** The three names in any letter case name a channel. */
  lemma {:induction false} ChannelsByName(typed: string)
    ensures K.SameLetters(typed, "SMS") ==> ChannelNamed(Lower(typed)) == Some(Sms)
    ensures K.SameLetters(typed, "WHATSAPP") ==> ChannelNamed(Lower(typed)) == Some(Whatsapp)
    ensures K.SameLetters(typed, "EMAIL") ==> ChannelNamed(Lower(typed)) == Some(Email)
  {
    if K.SameLetters(typed, "SMS") { LowerLetters(typed, "sms"); }
    if K.SameLetters(typed, "WHATSAPP") { LowerLetters(typed, "whatsapp"); }
    if K.SameLetters(typed, "EMAIL") { LowerLetters(typed, "email"); }
  }
}
