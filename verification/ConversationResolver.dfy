/** Attributing an inbound message on a shared number to exactly one owner, or to none. */
module ConversationResolver {
  import opened Wrappers
  import opened Lists
  import Tables

  datatype Owner = Owner(appId: string, tenantId: string, supplierId: Option<string>)

  /** Owners are told apart by this key: no supplier and an empty one are the same. */
  datatype OwnerKey = OwnerKey(appId: string, tenantId: string, supplier: string)

  function KeyOf(o: Owner): OwnerKey {
    OwnerKey(o.appId, o.tenantId, if o.supplierId.Some? then o.supplierId.value else "")
  }

  /** `activity` is when the conversation was last used. */
  datatype Conversation = Conversation(
    id: string, businessNumber: Option<string>, owner: Owner, providerId: string, activity: int)

  datatype Profile = Profile(id: string, owner: Owner)

  datatype Candidate = Candidate(owner: Owner, conversationId: Option<string>)

  /** `created` marks a conversation opened for a first message on a dedicated number. */
  datatype Resolution =
    | Routed(owner: Owner, conversation: Option<Conversation>, created: bool, sharedNumber: bool)
    | Ambiguous(candidates: seq<Candidate>, sharedNumber: bool)
    | Unroutable

  predicate RecordsNumber(c: Conversation) { c.businessNumber.Some? && c.businessNumber.value != "" }

  /** A registration covers the conversations of its owner; without a supplier, those
      of all the tenant's suppliers. */
  predicate ProfileCovers(p: Profile, c: Conversation) {
    && p.owner.appId == c.owner.appId && p.owner.tenantId == c.owner.tenantId
    && (p.owner.supplierId == None || p.owner.supplierId == c.owner.supplierId)
  }

  predicate Plausible(c: Conversation, destination: Option<string>, providerId: string, profiles: seq<Profile>) {
    if destination == None then c.providerId == providerId
    else if RecordsNumber(c) then c.businessNumber == destination
    else if |profiles| > 0 then exists p | p in profiles :: ProfileCovers(p, c)
    else c.providerId == providerId
  }

  // ---------------------------------------------------------------- the two owner maps

  ghost function RegisteredOwners(profiles: seq<Profile>): set<OwnerKey> { set p | p in profiles :: KeyOf(p.owner) }

  ghost function PlausibleOwners(
      conversations: seq<Conversation>, destination: Option<string>, providerId: string, profiles: seq<Profile>)
    : set<OwnerKey>
  {
    set c | c in conversations && Plausible(c, destination, providerId, profiles) :: KeyOf(c.owner)
  }

  datatype Group = Group(key: OwnerKey, threads: seq<Conversation>)

  function GroupKey(g: Group): OwnerKey { g.key }

  function KeysOf(groups: seq<Group>): seq<OwnerKey> { Map(GroupKey, groups) }

  /** Every group holds conversations of its owner, at least one. */
  ghost predicate OwnThreads(groups: seq<Group>, plausible: seq<Conversation>) {
    forall i | 0 <= i < |groups| :: |groups[i].threads| > 0 &&
      forall c | c in groups[i].threads :: KeyOf(c.owner) == groups[i].key && c in plausible
  }

  predicate InGroup(groups: seq<Group>, c: Conversation) {
    exists i | 0 <= i < |groups| :: c in groups[i].threads
  }

  ghost predicate Grouped(groups: seq<Group>, plausible: seq<Conversation>) {
    Distinct(KeysOf(groups)) && OwnThreads(groups, plausible) && forall c | c in plausible :: InGroup(groups, c)
  }

  lemma JoinsGroup(groups: seq<Group>, plausible: seq<Conversation>, c: Conversation, i: nat)
    requires Grouped(groups, plausible) && i < |groups| && groups[i].key == KeyOf(c.owner)
    ensures Grouped(groups[i := Group(groups[i].key, groups[i].threads + [c])], plausible + [c])
  {
    var after := groups[i := Group(groups[i].key, groups[i].threads + [c])];
    assert KeysOf(after) == KeysOf(groups);
    assert c in after[i].threads;
    forall d | d in plausible ensures InGroup(after, d) {
      var j :| 0 <= j < |groups| && d in groups[j].threads;
      assert d in after[j].threads;
    }
  }

  lemma OpensGroup(groups: seq<Group>, plausible: seq<Conversation>, c: Conversation)
    requires Grouped(groups, plausible) && forall i | 0 <= i < |groups| :: groups[i].key != KeyOf(c.owner)
    ensures Grouped(groups + [Group(KeyOf(c.owner), [c])], plausible + [c])
  {
    var after := groups + [Group(KeyOf(c.owner), [c])];
    assert KeysOf(after) == KeysOf(groups) + [KeyOf(c.owner)];
    assert c in after[|groups|].threads;
    forall d | d in plausible ensures InGroup(after, d) {
      var j :| 0 <= j < |groups| && d in groups[j].threads;
      assert d in after[j].threads;
    }
  }

  ghost function OwnersAmong(plausible: seq<Conversation>): set<OwnerKey> { set c | c in plausible :: KeyOf(c.owner) }

  lemma KeyIsOwner(groups: seq<Group>, plausible: seq<Conversation>, i: nat)
    requires Grouped(groups, plausible) && i < |groups|
    ensures groups[i].key in OwnersAmong(plausible)
  {
    var c := groups[i].threads[0];
    assert c in groups[i].threads && KeyOf(c.owner) == groups[i].key;
  }

  lemma OwnerIsKey(groups: seq<Group>, plausible: seq<Conversation>, c: Conversation)
    requires Grouped(groups, plausible) && c in plausible
    ensures KeyOf(c.owner) in KeysOf(groups)
  {
  }

  lemma GroupKeys(groups: seq<Group>, plausible: seq<Conversation>)
    requires Grouped(groups, plausible)
    ensures Elements(KeysOf(groups)) == OwnersAmong(plausible) && |groups| == |OwnersAmong(plausible)|
  {
    forall i | 0 <= i < |groups| ensures KeysOf(groups)[i] in OwnersAmong(plausible) {
      KeyIsOwner(groups, plausible, i);
    }
    forall c | c in plausible ensures KeyOf(c.owner) in KeysOf(groups) { OwnerIsKey(groups, plausible, c); }
    assert Elements(KeysOf(groups)) == OwnersAmong(plausible);
    DistinctSize(KeysOf(groups));
  }

  // ---------------------------------------------------------------- the verdict

  /** Among one owner's threads: one on this very number first, then the latest. */
  predicate Better(a: Conversation, b: Conversation, destination: Option<string>) {
    var exactA := destination.Some? && a.businessNumber == destination;
    var exactB := destination.Some? && b.businessNumber == destination;
    if exactA != exactB then exactA else a.activity > b.activity
  }

  predicate IsBest(c: Conversation, threads: seq<Conversation>, destination: Option<string>) {
    c in threads && forall d | d in threads :: !Better(d, c, destination)
  }

  function CandidateKey(c: Candidate): OwnerKey { KeyOf(c.owner) }

  function OwnersOf(candidates: seq<Candidate>): seq<OwnerKey> { Map(CandidateKey, candidates) }

  ghost predicate ListsExactly(candidates: seq<Candidate>, owners: set<OwnerKey>) {
    Distinct(OwnersOf(candidates)) && Elements(OwnersOf(candidates)) == owners
  }

  /** A candidate names a thread of its own, on this very number if it has one there. */
  ghost predicate NamesThread(
      k: Candidate, destination: Option<string>, providerId: string, profiles: seq<Profile>,
      conversations: seq<Conversation>)
  {
    exists c | c in conversations && Plausible(c, destination, providerId, profiles) ::
      && KeyOf(c.owner) == KeyOf(k.owner) && k.conversationId == Some(c.id)
      && (destination.Some? && c.businessNumber != destination ==>
            forall d | d in conversations && Plausible(d, destination, providerId, profiles) &&
              KeyOf(d.owner) == KeyOf(k.owner) ::
              d.businessNumber != destination)
  }

  ghost predicate AllNameThreads(
      ks: seq<Candidate>, destination: Option<string>, providerId: string, profiles: seq<Profile>,
      conversations: seq<Conversation>)
  {
    forall i | 0 <= i < |ks| :: NamesThread(ks[i], destination, providerId, profiles, conversations)
  }

  /** The rule: one plausible owner is routed to; several are not guessed among; with
      none, a number of exactly one registered owner opens a conversation. */
  ghost predicate Decides(
      r: Resolution, destination: Option<string>, providerId: string, profiles: seq<Profile>,
      conversations: seq<Conversation>)
  {
    var plausible := PlausibleOwners(conversations, destination, providerId, profiles);
    var registered := RegisteredOwners(profiles);
    match r
    case Routed(owner, conversation, created, sharedNumber) =>
      && sharedNumber == (|registered| > 1)
      && if created then plausible == {} && conversation == None && registered == {KeyOf(owner)}
         else
           && plausible == {KeyOf(owner)} && conversation.Some? && conversation.value.owner == owner
           && conversation.value in conversations
           && Plausible(conversation.value, destination, providerId, profiles)
           && forall d | d in conversations && Plausible(d, destination, providerId, profiles) ::
                !Better(d, conversation.value, destination)
    case Ambiguous(candidates, sharedNumber) =>
      && sharedNumber == (|registered| > 1)
      && if |plausible| > 1 then
           && ListsExactly(candidates, plausible)
           && AllNameThreads(candidates, destination, providerId, profiles, conversations)
         else
           && plausible == {} && |registered| > 1 && ListsExactly(candidates, registered)
           && forall k | k in candidates :: k.conversationId == None
    case Unroutable => plausible == {} && registered == {}
  }

  // ---------------------------------------------------------------- the resolver

  function ProfileKey(p: Profile): OwnerKey { KeyOf(p.owner) }

  function ProfileKeys(profiles: seq<Profile>): seq<OwnerKey> { Map(ProfileKey, profiles) }

  lemma KeysAppend(owners: seq<Profile>, p: Profile)
    ensures ProfileKeys(owners + [p]) == ProfileKeys(owners) + [KeyOf(p.owner)]
    ensures Elements(ProfileKeys(owners + [p])) == Elements(ProfileKeys(owners)) + {KeyOf(p.owner)}
  {
  }

  ghost predicate OneEach(owners: seq<Profile>, profiles: seq<Profile>) {
    Distinct(ProfileKeys(owners)) && Elements(ProfileKeys(owners)) == RegisteredOwners(profiles)
  }

  lemma KnownOwner(owners: seq<Profile>, profiles: seq<Profile>, p: Profile)
    requires OneEach(owners, profiles) && KeyOf(p.owner) in ProfileKeys(owners)
    ensures OneEach(owners, profiles + [p])
  {
  }

  lemma NewOwner(owners: seq<Profile>, profiles: seq<Profile>, p: Profile)
    requires OneEach(owners, profiles) && KeyOf(p.owner) !in ProfileKeys(owners)
    ensures OneEach(owners + [p], profiles + [p])
  {
    KeysAppend(owners, p);
    assert RegisteredOwners(profiles + [p]) == RegisteredOwners(profiles) + {KeyOf(p.owner)};
  }

  method DistinctProfiles(profiles: seq<Profile>) returns (owners: seq<Profile>)
    ensures OneEach(owners, profiles) && |owners| == |RegisteredOwners(profiles)| && |owners| <= |profiles|
  {
    owners := [];
    var i := 0;
    while i < |profiles|
      invariant 0 <= i <= |profiles| && |owners| <= i
      invariant OneEach(owners, profiles[..i])
    {
      assert profiles[..i + 1] == profiles[..i] + [profiles[i]];
      if KeyOf(profiles[i].owner) in ProfileKeys(owners) {
        KnownOwner(owners, profiles[..i], profiles[i]);
      } else {
        NewOwner(owners, profiles[..i], profiles[i]);
        owners := owners + [profiles[i]];
      }
      i := i + 1;
    }
    assert profiles[..i] == profiles;
    DistinctSize(ProfileKeys(owners));
  }

  method PlausibleOf(conversations: seq<Conversation>, destination: Option<string>, providerId: string,
      profiles: seq<Profile>)
      returns (plausible: seq<Conversation>)
    ensures forall c :: c in plausible <==> c in conversations && Plausible(c, destination, providerId, profiles)
  {
    plausible := [];
    for i := 0 to |conversations|
      invariant forall c :: c in plausible <==>
        c in conversations[..i] && Plausible(c, destination, providerId, profiles)
    {
      assert conversations[..i + 1] == conversations[..i] + [conversations[i]];
      if Plausible(conversations[i], destination, providerId, profiles) { plausible := plausible + [conversations[i]]; }
    }
    assert conversations[..|conversations|] == conversations;
  }

  method GroupByOwner(plausible: seq<Conversation>) returns (groups: seq<Group>)
    ensures Grouped(groups, plausible)
  {
    groups := [];
    var i := 0;
    while i < |plausible|
      invariant 0 <= i <= |plausible|
      invariant Grouped(groups, plausible[..i])
    {
      var c := plausible[i];
      assert plausible[..i + 1] == plausible[..i] + [c];
      var at := Tables.Find(GroupKey, groups, KeyOf(c.owner));
      if at.Some? {
        JoinsGroup(groups, plausible[..i], c, at.value);
        groups := groups[at.value := Group(groups[at.value].key, groups[at.value].threads + [c])];
      } else {
        OpensGroup(groups, plausible[..i], c);
        groups := groups + [Group(KeyOf(c.owner), [c])];
      }
      i := i + 1;
    }
    assert plausible[..i] == plausible;
  }

  /** The head of the sorted threads. */
  method FirstBySort(threads: seq<Conversation>, destination: Option<string>) returns (chosen: Conversation)
    requires |threads| > 0
    ensures IsBest(chosen, threads, destination)
  {
    chosen := threads[0];
    var i := 1;
    while i < |threads|
      invariant 1 <= i <= |threads|
      invariant IsBest(chosen, threads[..i], destination)
    {
      assert threads[..i + 1] == threads[..i] + [threads[i]];
      if Better(threads[i], chosen, destination) { chosen := threads[i]; }
      i := i + 1;
    }
    assert threads[..i] == threads;
  }

  function ExactThread(threads: seq<Conversation>, destination: Option<string>): (t: Option<Conversation>)
    ensures t.Some? ==> t.value in threads && destination.Some? && t.value.businessNumber == destination
    ensures t == None && destination.Some? ==> forall c | c in threads :: c.businessNumber != destination
  {
    if threads == [] then None
    else if destination.Some? && threads[0].businessNumber == destination then Some(threads[0])
    else ExactThread(threads[1..], destination)
  }

  function ThreadNamed(threads: seq<Conversation>, destination: Option<string>): Conversation
    requires |threads| > 0
  {
    var exact := ExactThread(threads, destination);
    if exact.Some? then exact.value else threads[0]
  }

  function GroupCandidates(groups: seq<Group>, destination: Option<string>): (cs: seq<Candidate>)
    requires forall i | 0 <= i < |groups| :: |groups[i].threads| > 0
    ensures |cs| == |groups|
    ensures forall i | 0 <= i < |groups| ::
      cs[i] == Candidate(groups[i].threads[0].owner, Some(ThreadNamed(groups[i].threads, destination).id))
  {
    if groups == [] then []
    else
      [Candidate(groups[0].threads[0].owner, Some(ThreadNamed(groups[0].threads, destination).id))]
      + GroupCandidates(groups[1..], destination)
  }

  function ProfileCandidates(profiles: seq<Profile>): (cs: seq<Candidate>)
    ensures |cs| == |profiles| && forall i | 0 <= i < |profiles| :: cs[i] == Candidate(profiles[i].owner, None)
  {
    if profiles == [] then [] else [Candidate(profiles[0].owner, None)] + ProfileCandidates(profiles[1..])
  }

  lemma {:induction false} GroupCandidatesList(groups: seq<Group>, plausible: seq<Conversation>,
      destination: Option<string>)
    requires Grouped(groups, plausible)
    ensures ListsExactly(GroupCandidates(groups, destination), OwnersAmong(plausible))
  {
    var candidates := GroupCandidates(groups, destination);
    forall i | 0 <= i < |groups| ensures OwnersOf(candidates)[i] == KeysOf(groups)[i] {
      assert groups[i].threads[0] in groups[i].threads;
    }
    assert OwnersOf(candidates) == KeysOf(groups);
    GroupKeys(groups, plausible);
  }

  /** A group holds all plausible threads of its owner. */
  lemma GroupIsWhole(groups: seq<Group>, plausible: seq<Conversation>, i: nat, d: Conversation)
    requires Grouped(groups, plausible) && i < |groups| && d in plausible && KeyOf(d.owner) == groups[i].key
    ensures d in groups[i].threads
  {
    var j :| 0 <= j < |groups| && d in groups[j].threads;
    assert KeysOf(groups)[j] == KeysOf(groups)[i];
  }

  lemma {:induction false} GroupNamesThread(
      groups: seq<Group>, plausible: seq<Conversation>, i: nat, destination: Option<string>, providerId: string,
      profiles: seq<Profile>, conversations: seq<Conversation>)
    requires Grouped(groups, plausible) && i < |groups|
    requires forall c :: c in plausible <==> c in conversations && Plausible(c, destination, providerId, profiles)
    ensures NamesThread(GroupCandidates(groups, destination)[i], destination, providerId, profiles, conversations)
  {
    var threads := groups[i].threads;
    var c := ThreadNamed(threads, destination);
    assert c in threads && threads[0] in threads;
    forall d | d in plausible && KeyOf(d.owner) == groups[i].key ensures d in threads {
      GroupIsWhole(groups, plausible, i, d);
    }
  }

  lemma SameOwners(
      plausible: seq<Conversation>, destination: Option<string>, providerId: string,
      profiles: seq<Profile>, conversations: seq<Conversation>)
    requires forall c :: c in plausible <==> c in conversations && Plausible(c, destination, providerId, profiles)
    ensures PlausibleOwners(conversations, destination, providerId, profiles) == OwnersAmong(plausible)
  {
  }

  lemma {:induction false} GroupsNameThreads(
      groups: seq<Group>, plausible: seq<Conversation>, destination: Option<string>, providerId: string,
      profiles: seq<Profile>, conversations: seq<Conversation>)
    requires Grouped(groups, plausible)
    requires forall c :: c in plausible <==> c in conversations && Plausible(c, destination, providerId, profiles)
    ensures AllNameThreads(GroupCandidates(groups, destination), destination, providerId, profiles, conversations)
  {
    forall i | 0 <= i < |groups|
      ensures NamesThread(GroupCandidates(groups, destination)[i], destination, providerId, profiles, conversations)
    {
      GroupNamesThread(groups, plausible, i, destination, providerId, profiles, conversations);
    }
  }

  lemma {:induction false} SeveralOwners(
      groups: seq<Group>, plausible: seq<Conversation>, destination: Option<string>, providerId: string,
      profiles: seq<Profile>, conversations: seq<Conversation>)
    requires Grouped(groups, plausible) && |groups| > 1
    requires forall c :: c in plausible <==> c in conversations && Plausible(c, destination, providerId, profiles)
    ensures Decides(Ambiguous(GroupCandidates(groups, destination), |RegisteredOwners(profiles)| > 1),
                    destination, providerId, profiles, conversations)
  {
    SameOwners(plausible, destination, providerId, profiles, conversations);
    GroupCandidatesList(groups, plausible, destination);
    GroupKeys(groups, plausible);
    GroupsNameThreads(groups, plausible, destination, providerId, profiles, conversations);
  }

  lemma {:induction false} ProfileCandidatesList(registered: seq<Profile>)
    requires Distinct(ProfileKeys(registered))
    ensures ListsExactly(ProfileCandidates(registered), Elements(ProfileKeys(registered)))
  {
  }

  /** One plausible owner: its best thread is the answer. */
  method RouteToThread(
      groups: seq<Group>, plausible: seq<Conversation>, destination: Option<string>, providerId: string,
      profiles: seq<Profile>, conversations: seq<Conversation>) returns (chosen: Conversation)
    requires Grouped(groups, plausible) && |groups| == 1
    requires forall c :: c in plausible <==> c in conversations && Plausible(c, destination, providerId, profiles)
    ensures Decides(Routed(chosen.owner, Some(chosen), false, |RegisteredOwners(profiles)| > 1),
                    destination, providerId, profiles, conversations)
  {
    chosen := FirstBySort(groups[0].threads, destination);
    OneGroup(groups, plausible);
    assert PlausibleOwners(conversations, destination, providerId, profiles) == OwnersAmong(plausible);
  }

  /** `registrations` are those of the destination number, `conversations` the
      customer's active ones; without a destination no registration is looked up. */
  method Resolve(destination: Option<string>, providerId: string, registrations: seq<Profile>,
      conversations: seq<Conversation>)
      returns (r: Resolution)
    ensures Decides(r, destination, providerId, if destination.Some? then registrations else [], conversations)
  {
    var profiles := if destination.Some? then registrations else [];
    var registered := DistinctProfiles(profiles);
    var sharedNumber := |registered| > 1;
    var plausible := PlausibleOf(conversations, destination, providerId, profiles);
    var groups := GroupByOwner(plausible);
    if |groups| == 1 {
      var chosen := RouteToThread(groups, plausible, destination, providerId, profiles, conversations);
      return Routed(chosen.owner, Some(chosen), false, sharedNumber);
    }
    GroupKeys(groups, plausible);
    assert PlausibleOwners(conversations, destination, providerId, profiles) == OwnersAmong(plausible);
    if |groups| > 1 {
      SeveralOwners(groups, plausible, destination, providerId, profiles, conversations);
      return Ambiguous(GroupCandidates(groups, destination), sharedNumber);
    }
    assert KeysOf(groups) == [];
    NothingPlausible(registered, destination, providerId, profiles, conversations);
    if |registered| == 1 && destination.Some? { return Routed(registered[0].owner, None, true, false); }
    if |registered| > 1 { return Ambiguous(ProfileCandidates(registered), true); }
    return Unroutable;
  }

  /** No conversation on this number: its registrations decide. */
  lemma {:induction false} NothingPlausible(
      registered: seq<Profile>, destination: Option<string>, providerId: string, profiles: seq<Profile>,
      conversations: seq<Conversation>)
    requires OneEach(registered, profiles) && |registered| == |RegisteredOwners(profiles)|
    requires PlausibleOwners(conversations, destination, providerId, profiles) == {}
    ensures |registered| == 1 ==>
      Decides(Routed(registered[0].owner, None, true, false), destination, providerId, profiles, conversations)
    ensures |registered| > 1 ==>
      Decides(Ambiguous(ProfileCandidates(registered), true), destination, providerId, profiles, conversations)
    ensures |registered| == 0 ==> Decides(Unroutable, destination, providerId, profiles, conversations)
  {
    if |registered| == 1 {
      OneProfile(registered);
    } else if |registered| > 1 {
      ProfileCandidatesList(registered);
    } else {
      assert ProfileKeys(registered) == [];
    }
  }

  lemma OneGroup(groups: seq<Group>, plausible: seq<Conversation>)
    requires Grouped(groups, plausible) && |groups| == 1
    ensures forall c :: c in plausible <==> c in groups[0].threads
    ensures OwnersAmong(plausible) == {groups[0].key}
  {
    GroupKeys(groups, plausible);
    assert KeysOf(groups) == [groups[0].key];
  }

  lemma OneProfile(registered: seq<Profile>)
    requires |registered| == 1
    ensures Elements(ProfileKeys(registered)) == {KeyOf(registered[0].owner)}
  {
  }

  // ---------------------------------------------------------------- ownership never follows recency

  /** What an answer says about ownership. */
  datatype Ownership = To(owner: OwnerKey, created: bool) | Undecided(owners: set<OwnerKey>) | Nobody

  ghost function OwnershipOf(r: Resolution): Ownership {
    match r
    case Routed(owner, _, created, _) => To(KeyOf(owner), created)
    case Ambiguous(candidates, _) => Undecided(Elements(OwnersOf(candidates)))
    case Unroutable => Nobody
  }

  /** The same conversations in any order, last used at any times. */
  ghost predicate SameButActivity(cs: seq<Conversation>, ds: seq<Conversation>) {
    (forall c | c in cs :: OccursIn(c, ds)) && (forall d | d in ds :: OccursIn(d, cs))
  }

  ghost predicate OccursIn(c: Conversation, ds: seq<Conversation>) {
    exists d | d in ds :: d == c.(activity := d.activity)
  }

  lemma PlausibleIgnoresActivity(
      c: Conversation, activity: int, destination: Option<string>, providerId: string, ps: seq<Profile>,
      qs: seq<Profile>)
    requires forall p :: p in ps <==> p in qs
    ensures Plausible(c, destination, providerId, ps) ==>
      Plausible(c.(activity := activity), destination, providerId, qs)
  {
    if |ps| > 0 { assert ps[0] in qs; }
    if |qs| > 0 { assert qs[0] in ps; }
    forall p: Profile ensures ProfileCovers(p, c.(activity := activity)) == ProfileCovers(p, c) {}
  }

  lemma SamePlausibleOwner(
      c: Conversation, ds: seq<Conversation>, destination: Option<string>, providerId: string, ps: seq<Profile>,
      qs: seq<Profile>)
    requires OccursIn(c, ds) && Plausible(c, destination, providerId, ps) && (forall p :: p in ps <==> p in qs)
    ensures KeyOf(c.owner) in PlausibleOwners(ds, destination, providerId, qs)
  {
    var d :| d in ds && d == c.(activity := d.activity);
    PlausibleIgnoresActivity(c, d.activity, destination, providerId, ps, qs);
    assert KeyOf(d.owner) == KeyOf(c.owner);
  }

  lemma SamePlausibleOwners(
      cs: seq<Conversation>, ds: seq<Conversation>, destination: Option<string>, providerId: string,
      ps: seq<Profile>, qs: seq<Profile>)
    requires SameButActivity(cs, ds) && (forall p :: p in ps <==> p in qs)
    ensures PlausibleOwners(cs, destination, providerId, ps) <= PlausibleOwners(ds, destination, providerId, qs)
  {
    forall c | c in cs && Plausible(c, destination, providerId, ps)
      ensures KeyOf(c.owner) in PlausibleOwners(ds, destination, providerId, qs)
    {
      SamePlausibleOwner(c, ds, destination, providerId, ps, qs);
    }
  }

  /** What the rule says about ownership, from the two sets of owners. */
  ghost predicate OwnershipFrom(o: Ownership, plausible: set<OwnerKey>, registered: set<OwnerKey>) {
    match o
    case To(owner, created) => if created then plausible == {} && registered == {owner} else plausible == {owner}
    case Undecided(owners) =>
      if |plausible| > 1 then owners == plausible else plausible == {} && |registered| > 1 && owners == registered
    case Nobody => plausible == {} && registered == {}
  }

  lemma OwnershipIsDetermined(o: Ownership, p: Ownership, plausible: set<OwnerKey>, registered: set<OwnerKey>)
    requires OwnershipFrom(o, plausible, registered) && OwnershipFrom(p, plausible, registered)
    ensures o == p
  {
  }

  lemma SameOwnerSets(
      destination: Option<string>, providerId: string, ps: seq<Profile>, qs: seq<Profile>,
      cs: seq<Conversation>, ds: seq<Conversation>)
    requires (forall p :: p in ps <==> p in qs) && SameButActivity(cs, ds)
    ensures PlausibleOwners(cs, destination, providerId, ps) == PlausibleOwners(ds, destination, providerId, qs)
    ensures RegisteredOwners(ps) == RegisteredOwners(qs)
  {
    SamePlausibleOwners(cs, ds, destination, providerId, ps, qs);
    SamePlausibleOwners(ds, cs, destination, providerId, qs, ps);
  }

  lemma DecidesOwnership(
      r: Resolution, destination: Option<string>, providerId: string, profiles: seq<Profile>,
      conversations: seq<Conversation>)
    requires Decides(r, destination, providerId, profiles, conversations)
    ensures OwnershipFrom(
      OwnershipOf(r), PlausibleOwners(conversations, destination, providerId, profiles), RegisteredOwners(profiles))
  {
  }

  /** Who a message belongs to depends on the sets of owners alone: not on the order
      of registrations or conversations, and not on when conversations were used. */
  lemma OwnershipIgnoresOrderAndRecency(
      destination: Option<string>, providerId: string, ps: seq<Profile>, qs: seq<Profile>,
      cs: seq<Conversation>, ds: seq<Conversation>, r: Resolution, s: Resolution)
    requires (forall p :: p in ps <==> p in qs) && SameButActivity(cs, ds)
    requires Decides(r, destination, providerId, ps, cs) && Decides(s, destination, providerId, qs, ds)
    ensures OwnershipOf(r) == OwnershipOf(s)
  {
    SameOwnerSets(destination, providerId, ps, qs, cs, ds);
    DecidesOwnership(r, destination, providerId, ps, cs);
    DecidesOwnership(s, destination, providerId, qs, ds);
    OwnershipIsDetermined(
      OwnershipOf(r), OwnershipOf(s), PlausibleOwners(cs, destination, providerId, ps), RegisteredOwners(ps));
  }

  /** A message is routed exactly when one owner is plausible, or none is and one is
      registered. */
  lemma RoutedExactlyWhenOneOwner(
      r: Resolution, destination: Option<string>, providerId: string, profiles: seq<Profile>,
      conversations: seq<Conversation>)
    requires Decides(r, destination, providerId, profiles, conversations)
    ensures var plausible, registered :=
        PlausibleOwners(conversations, destination, providerId, profiles), RegisteredOwners(profiles);
      r.Routed? <==> |plausible| == 1 || (plausible == {} && |registered| == 1)
  {
  }

  // ---------------------------------------------------------------- whose thread an answer may be

  /** The same application and tenant, and the same supplier or none on both sides. */
  predicate SameOwner(a: Owner, b: Owner) {
    && a.appId == b.appId && a.tenantId == b.tenantId
    && (a.supplierId == b.supplierId || (a.supplierId in [None, Some("")] && b.supplierId in [None, Some("")]))
  }

  lemma KeysTellOwnersApart(a: Owner, b: Owner)
    ensures KeyOf(a) == KeyOf(b) <==> SameOwner(a, b)
  {
  }

  /** A registration of the conversation's application and tenant, and of its supplier
      if it names one. */
  ghost predicate HasRegistration(c: Conversation, profiles: seq<Profile>) {
    exists p | p in profiles ::
      && p.owner.appId == c.owner.appId && p.owner.tenantId == c.owner.tenantId
      && (p.owner.supplierId.Some? ==> p.owner.supplierId == c.owner.supplierId)
  }

  /** With a destination, a recorded number decides alone; a conversation that records
      none is taken by the registrations of the number, and by its provider only on a
      number without any. Without a destination the provider decides. */
  ghost predicate IsOn(c: Conversation, destination: Option<string>, providerId: string, profiles: seq<Profile>) {
    var recorded := c.businessNumber.Some? && c.businessNumber.value != "";
    && (destination.Some? && recorded ==> c.businessNumber.value == destination.value)
    && (destination.Some? && !recorded && profiles != [] ==> HasRegistration(c, profiles))
    && ((destination == None || (!recorded && profiles == [])) ==> c.providerId == providerId)
  }

  lemma PlausibleIsOn(c: Conversation, destination: Option<string>, providerId: string, profiles: seq<Profile>)
    ensures Plausible(c, destination, providerId, profiles) <==> IsOn(c, destination, providerId, profiles)
  {
    forall p: Profile
      ensures ProfileCovers(p, c) <==>
        p.owner.appId == c.owner.appId && p.owner.tenantId == c.owner.tenantId &&
        (p.owner.supplierId.Some? ==> p.owner.supplierId == c.owner.supplierId)
    {
    }
  }

  /** A message is routed only to a thread that is on its number, and to the best such
      thread there is: recorded on this very number before any other, then the latest. */
  lemma RoutedThreadIsTheBest(
      r: Resolution, destination: Option<string>, providerId: string, profiles: seq<Profile>,
      conversations: seq<Conversation>, d: Conversation)
    requires Decides(r, destination, providerId, profiles, conversations) && r.Routed? && !r.created
    requires d in conversations && IsOn(d, destination, providerId, profiles)
    ensures r.conversation.Some? && r.conversation.value in conversations && r.conversation.value.owner == r.owner
    ensures IsOn(r.conversation.value, destination, providerId, profiles) && SameOwner(d.owner, r.owner)
    ensures destination.Some? && d.businessNumber == destination ==> r.conversation.value.businessNumber == destination
    ensures destination == None || d.businessNumber == destination || r.conversation.value.businessNumber != destination
      ==> r.conversation.value.activity >= d.activity
  {
    var c := r.conversation.value;
    PlausibleIsOn(c, destination, providerId, profiles);
    PlausibleIsOn(d, destination, providerId, profiles);
    assert KeyOf(d.owner) in PlausibleOwners(conversations, destination, providerId, profiles);
    KeysTellOwnersApart(d.owner, r.owner);
    assert !Better(d, c, destination);
  }

  /** Every thread on the number is heard: its owner is routed to or is a candidate, and
      no answer passes over it. */
  lemma ThreadIsNeverIgnored(
      r: Resolution, destination: Option<string>, providerId: string, profiles: seq<Profile>,
      conversations: seq<Conversation>, d: Conversation)
    requires Decides(r, destination, providerId, profiles, conversations)
    requires d in conversations && IsOn(d, destination, providerId, profiles)
    ensures !r.Unroutable? && !(r.Routed? && r.created)
    ensures r.Routed? ==> SameOwner(r.owner, d.owner)
    ensures r.Ambiguous? ==> exists k | k in r.candidates :: SameOwner(k.owner, d.owner)
  {
    PlausibleIsOn(d, destination, providerId, profiles);
    var plausible := PlausibleOwners(conversations, destination, providerId, profiles);
    assert KeyOf(d.owner) in plausible;
    if r.Routed? {
      KeysTellOwnersApart(r.owner, d.owner);
    } else if r.Ambiguous? {
      assert KeyOf(d.owner) in Elements(OwnersOf(r.candidates));
      var i :| 0 <= i < |r.candidates| && OwnersOf(r.candidates)[i] == KeyOf(d.owner);
      KeysTellOwnersApart(r.candidates[i].owner, d.owner);
    }
  }

  /** Nothing else makes an owner: whoever is routed to, or is a candidate, has a thread
      on the number, or there is no such thread and it is registered there. */
  lemma OwnersComeFromTheNumber(
      r: Resolution, destination: Option<string>, providerId: string, profiles: seq<Profile>,
      conversations: seq<Conversation>, o: Owner)
    requires Decides(r, destination, providerId, profiles, conversations)
    requires (r.Routed? && o == r.owner) || (r.Ambiguous? && exists k | k in r.candidates :: k.owner == o)
    ensures
      || (exists c | c in conversations :: IsOn(c, destination, providerId, profiles) && SameOwner(c.owner, o))
      || ((forall c | c in conversations :: !IsOn(c, destination, providerId, profiles)) &&
          exists p | p in profiles :: SameOwner(p.owner, o))
  {
    var plausible, registered :=
      PlausibleOwners(conversations, destination, providerId, profiles), RegisteredOwners(profiles);
    forall c: Conversation
      ensures Plausible(c, destination, providerId, profiles) <==> IsOn(c, destination, providerId, profiles)
    {
      PlausibleIsOn(c, destination, providerId, profiles);
    }
    forall a: Owner ensures KeyOf(a) == KeyOf(o) <==> SameOwner(a, o) { KeysTellOwnersApart(a, o); }
    if r.Ambiguous? {
      var k :| k in r.candidates && k.owner == o;
      assert CandidateKey(k) in OwnersOf(r.candidates);
    }
    assert KeyOf(o) in plausible || (plausible == {} && KeyOf(o) in registered);
    forall c | c in conversations && Plausible(c, destination, providerId, profiles)
      ensures KeyOf(c.owner) in plausible
    {
    }
  }
}
