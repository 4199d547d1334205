/** What every kind of event takes to be accepted, said of the contents of the room's state alone: a reference
    for the authorisation rules (synapse/event_auth.py) that uses none of their level lookups or branches.
 */
module Permissions {
  import opened Events
  import opened EventAuth
  import opened Histories
  import opened Wrappers

  // ---------------------------------------------------------------------------------------------
  // Power

  predicate IsCreator(create: Event, implicit: bool, user: string) {
    if implicit then create.sender == user else create.content.creator == Some(user)
  }

  /** The user has at least the level: as listed for them, by default, or as the creator of a room without
      power levels. */
  predicate AtLeast(s: State, user: string, n: int) {
    if (PowerLevels, "") in s then
      var levels := s[(PowerLevels, "")].content.levels;
      || (user in levels.users && n <= levels.users[user])
      || (user !in levels.users && UsersDefault in levels.named && n <= levels.named[UsersDefault])
      || (user !in levels.users && UsersDefault !in levels.named && n <= 0)
    else
      || n <= 0
      || (n <= 100 && (Create, "") in s && IsCreator(s[(Create, "")], s[(Create, "")].version.implicitCreator, user))
  }

  /** The user has the named level, or the given one where the room names none. */
  predicate HasPower(s: State, user: string, name: LevelName, default: int) {
    && ((PowerLevels, "") in s && name in s[(PowerLevels, "")].content.levels.named ==>
          AtLeast(s, user, s[(PowerLevels, "")].content.levels.named[name]))
    && (!((PowerLevels, "") in s && name in s[(PowerLevels, "")].content.levels.named) ==> AtLeast(s, user, default))
  }

  /** Some level tells the two apart. */
  ghost predicate Above(s: State, user: string, other: string) {
    exists n :: AtLeast(s, user, n) && !AtLeast(s, other, n)
  }

  lemma AtLeastIsLevel(s: State, user: string, n: int)
    ensures AtLeast(s, user, n) <==> n <= UserLevel(s, user)
  {
  }

  lemma HasPowerIsLevel(s: State, user: string, name: LevelName, default: int)
    ensures HasPower(s, user, name, default) <==> NamedLevel(s, name, default) <= UserLevel(s, user)
  {
    AtLeastIsLevel(s, user, NamedLevel(s, name, default));
  }

  lemma AboveIsLevel(s: State, user: string, other: string)
    ensures Above(s, user, other) <==> UserLevel(s, user) > UserLevel(s, other)
  {
    AtLeastIsLevel(s, user, UserLevel(s, user));
    AtLeastIsLevel(s, other, UserLevel(s, user));
    if n :| AtLeast(s, user, n) && !AtLeast(s, other, n) {
      AtLeastIsLevel(s, user, n);
      AtLeastIsLevel(s, other, n);
    }
  }

  // ---------------------------------------------------------------------------------------------
  // Where it comes from

  predicate Federated(s: State) {
    (Create, "") in s && s[(Create, "")].content.federate
  }

  /** The id has a domain, and it is that of the room or the room is federated. */
  predicate FromRoom(s: State, e: Event, id: string) {
    DomainOf(e.roomId).Some? && DomainOf(id).Some? && (DomainOf(id) == DomainOf(e.roomId) || Federated(s))
  }

  /** An id without a colon has no domain; else it is all that follows the first one. */
  lemma {:induction false} DomainFollowsColon(name: string, domain: string)
    requires ':' !in name
    ensures DomainOf(name) == None && DomainOf(name + ":" + domain) == Some(domain)
    decreases |name|
  {
    if name == [] {
      assert name + ":" + domain == ":" + domain;
    } else {
      DomainFollowsColon(name[1..], domain);
      assert (name + ":" + domain)[1..] == name[1..] + ":" + domain;
    }
  }

  predicate Joined(s: State, user: string) {
    (Member, user) in s && s[(Member, user)].content.membership == Some(Join)
  }

  predicate Banned(s: State, user: string) {
    (Member, user) in s && s[(Member, user)].content.membership == Some(Ban)
  }

  predicate Invited(s: State, user: string) {
    (Member, user) in s && s[(Member, user)].content.membership == Some(Invite)
  }

  // ---------------------------------------------------------------------------------------------
  // Ordinary events

  /** The level set for the type of the event, or else that for state or for other events. */
  predicate MaySend(s: State, e: Event) {
    if (PowerLevels, "") in s && e.etype in s[(PowerLevels, "")].content.levels.events
    then AtLeast(s, e.sender, s[(PowerLevels, "")].content.levels.events[e.etype])
    else if e.stateKey.Some? then HasPower(s, e.sender, StateDefault, 50)
    else HasPower(s, e.sender, EventsDefault, 0)
  }

  predicate KeyIsFree(e: Event) {
    e.stateKey.Some? && "@" <= e.stateKey.value ==> e.stateKey.value == e.sender
  }

  /** Entries that go or change were within the sender's level, and so are those that come or change. */
  ghost predicate EntriesPermitted<K(!new)>(s: State, sender: string, before: map<K, int>, after: map<K, int>) {
    && (forall k :: k in before && !(k in after && after[k] == before[k]) ==> AtLeast(s, sender, before[k]))
    && (forall k :: k in after && !(k in before && before[k] == after[k]) ==> AtLeast(s, sender, after[k]))
  }

  /** Others' entries that go or change were strictly below the sender's level. */
  ghost predicate OthersBelow(s: State, sender: string, before: map<string, int>, after: map<string, int>) {
    forall u :: u in before && u != sender && !(u in after && after[u] == before[u]) ==> AtLeast(s, sender, before[u] + 1)
  }

  ghost predicate LevelsPermitted(s: State, e: Event) {
    && (forall u :: u in e.content.levels.users ==> "@" <= u && ':' in u)
    && e.stateKey.Some?
    && ((PowerLevels, e.stateKey.value) in s ==>
          var before, after := s[(PowerLevels, e.stateKey.value)].content.levels, e.content.levels;
          && EntriesPermitted(s, e.sender, before.named, after.named)
          && EntriesPermitted(s, e.sender, before.users, after.users)
          && OthersBelow(s, e.sender, before.users, after.users)
          && EntriesPermitted(s, e.sender, before.events, after.events)
          && (e.version.limitNotifications ==> EntriesPermitted(s, e.sender, before.notifications, after.notifications)))
  }

  /** A redaction takes the power to redact, except in newer event formats, where it is judged later, and
      except for events of the sender's own server. */
  predicate RedactionPermitted(s: State, e: Event) {
    || HasPower(s, e.sender, RedactLevel, 50)
    || !e.version.oldEventFormat
    || (DomainOf(e.id).Some? && (e.redacts.None? || DomainOf(e.redacts.value) == DomainOf(e.id)))
  }

  // ---------------------------------------------------------------------------------------------
  // Memberships

  predicate FirstJoin(s: State, e: Event, target: string) {
    && e.content.membership == Some(Join) && (Create, "") in s
    && e.prevs == [s[(Create, "")].id] && IsCreator(s[(Create, "")], e.version.implicitCreator, target)
  }

  /** A placed third-party invite of the sender is signed for the target under one of its keys. */
  ghost predicate TokenHonoured(s: State, e: Event, target: string) {
    exists token, keys, key ::
      && e.content.thirdPartyInvite == Some(Signed(token, Some(target), Some(keys)))
      && (ThirdPartyInvite, token) in s && s[(ThirdPartyInvite, token)].sender == e.sender
      && key in keys && key in s[(ThirdPartyInvite, token)].content.publicKeys
  }

  ghost predicate InvitePermitted(s: State, e: Event, target: string) {
    && !Banned(s, target)
    && if e.content.thirdPartyInvite.Some? then TokenHonoured(s, e, target)
       else Joined(s, e.sender) && !Joined(s, target) && HasPower(s, e.sender, InviteLevel, 0)
  }

  function RuleOf(s: State): JoinRule {
    if (JoinRules, "") in s && s[(JoinRules, "")].content.joinRule.Some?
    then s[(JoinRules, "")].content.joinRule.value else InviteRule
  }

  /** Joined and invited users may join under every rule the version knows, and others if the rule is public
      or somebody joined who may invite vouches for them under a restricted one. */
  predicate JoinPermitted(s: State, e: Event, target: string) {
    && e.sender == target && !Banned(s, target)
    && match RuleOf(s)
       case PublicRule => true
       case InviteRule => Joined(s, target) || Invited(s, target)
       case KnockRule => e.version.knock && (Joined(s, target) || Invited(s, target))
       case RestrictedRule => e.version.restricted && (Joined(s, target) || Invited(s, target) || VouchedFor(s, e))
       case KnockRestrictedRule =>
         e.version.knockRestricted && (Joined(s, target) || Invited(s, target) || VouchedFor(s, e))
       case OtherRule(_) => false
  }

  predicate VouchedFor(s: State, e: Event) {
    && e.content.authorisingUser.Some?
    && Joined(s, e.content.authorisingUser.value) && HasPower(s, e.content.authorisingUser.value, InviteLevel, 0)
  }

  ghost predicate LeavePermitted(s: State, e: Event, target: string) {
    || (target == e.sender && (Joined(s, target) || Invited(s, target) || (e.version.knock && Knocking(s, target))))
    || (&& target != e.sender && Joined(s, e.sender)
        && HasPower(s, e.sender, KickLevel, 50) && Above(s, e.sender, target)
        && (Banned(s, target) ==> HasPower(s, e.sender, BanLevel, 50)))
  }

  predicate Knocking(s: State, user: string) {
    (Member, user) in s && s[(Member, user)].content.membership == Some(Knock)
  }

  ghost predicate BanPermitted(s: State, e: Event, target: string) {
    Joined(s, e.sender) && HasPower(s, e.sender, BanLevel, 50) && Above(s, e.sender, target)
  }

  predicate KnockPermitted(s: State, e: Event, target: string) {
    && e.version.knock
    && (RuleOf(s) == KnockRule || (e.version.knockRestricted && RuleOf(s) == KnockRestrictedRule))
    && target == e.sender && !Joined(s, target) && !Invited(s, target) && !Banned(s, target)
  }

  ghost predicate MembershipPermitted(s: State, e: Event) {
    && e.content.membership.Some? && e.stateKey.Some?
    && var target := e.stateKey.value;
    || FirstJoin(s, e, target)
    || (&& FromRoom(s, e, target)
        && match e.content.membership.value
           case Invite => InvitePermitted(s, e, target)
           case Join => JoinPermitted(s, e, target)
           case Leave => LeavePermitted(s, e, target)
           case Ban => BanPermitted(s, e, target)
           case Knock => KnockPermitted(s, e, target)
           case OtherMembership(_) => false)
  }

  // ---------------------------------------------------------------------------------------------
  // All events

  ghost predicate Permitted(s: State, e: Event) {
    && FromRoom(s, e, e.sender)
    && if e.etype == Aliases && e.version.specialCaseAliases then
         e.stateKey.Some? && e.stateKey.value != "" && DomainOf(e.sender) == e.stateKey
       else if e.etype == Member then MembershipPermitted(s, e)
       else if e.etype == ThirdPartyInvite then Joined(s, e.sender) && HasPower(s, e.sender, InviteLevel, 0)
       else
         && Joined(s, e.sender) && MaySend(s, e) && KeyIsFree(e)
         && (e.etype == PowerLevels ==> LevelsPermitted(s, e))
         && (e.etype == Redaction ==> RedactionPermitted(s, e))
  }

  lemma MaySendIff(s: State, e: Event)
    ensures MaySend(s, e) <==> SendLevel(e, s) <= UserLevel(s, e.sender)
  {
    AtLeastIsLevel(s, e.sender, SendLevel(e, s));
    HasPowerIsLevel(s, e.sender, StateDefault, 50);
    HasPowerIsLevel(s, e.sender, EventsDefault, 0);
  }

  lemma KeyIsFreeIff(s: State, e: Event)
    ensures MaySend(s, e) && KeyIsFree(e) <==> CheckCanSend(e, s) == Allow
  {
    MaySendIff(s, e);
    if e.stateKey.Some? {
      var key := e.stateKey.value;
      assert "@" <= key <==> |key| > 0 && key[0] == '@';
    }
  }

  lemma RedactionIff(s: State, e: Event)
    ensures RedactionPermitted(s, e) <==> CheckRedaction(e, s) == Allow
  {
    HasPowerIsLevel(s, e.sender, RedactLevel, 50);
  }

  // ---------------------------------------------------------------------------------------------
  // Power-levels events

  lemma EntryAllowed<K(!new)>(s: State, sender: string, before: map<K, int>, after: map<K, int>, k: K)
    requires EntriesPermitted(s, sender, before, after)
    ensures k in before && !(k in after && after[k] == before[k]) ==> before[k] <= UserLevel(s, sender)
    ensures k in after && !(k in before && before[k] == after[k]) ==> after[k] <= UserLevel(s, sender)
  {
    if k in before { AtLeastIsLevel(s, sender, before[k]); }
    if k in after { AtLeastIsLevel(s, sender, after[k]); }
  }

  lemma SlotsFollow(s: State, e: Event, before: Levels, slot: Slot)
    requires EntriesPermitted(s, e.sender, before.named, e.content.levels.named)
    requires EntriesPermitted(s, e.sender, before.users, e.content.levels.users)
    requires OthersBelow(s, e.sender, before.users, e.content.levels.users)
    requires EntriesPermitted(s, e.sender, before.events, e.content.levels.events)
    requires e.version.limitNotifications ==>
               EntriesPermitted(s, e.sender, before.notifications, e.content.levels.notifications)
    requires SlotChecked(before, e.content.levels, e.version, slot)
    ensures SlotAllowed(before, e.content.levels, slot, e.sender, UserLevel(s, e.sender))
  {
    var after := e.content.levels;
    match slot
    case NamedSlot(n) => EntryAllowed(s, e.sender, before.named, after.named, n);
    case UserSlot(u) =>
      EntryAllowed(s, e.sender, before.users, after.users, u);
      if u in before.users { AtLeastIsLevel(s, e.sender, before.users[u] + 1); }
    case EventSlot(t) => EntryAllowed(s, e.sender, before.events, after.events, t);
    case NotificationSlot(k) => EntryAllowed(s, e.sender, before.notifications, after.notifications, k);
  }

  lemma NamedFollow(s: State, e: Event, before: Levels)
    requires LevelChangeAllowed(before, e.content.levels, e.version, e.sender, UserLevel(s, e.sender))
    ensures EntriesPermitted(s, e.sender, before.named, e.content.levels.named)
  {
    forall n | n in before.named || n in e.content.levels.named
      ensures SlotAllowed(before, e.content.levels, NamedSlot(n), e.sender, UserLevel(s, e.sender))
    {
      assert SlotChecked(before, e.content.levels, e.version, NamedSlot(n));
    }
    FromSlots(s, e.sender, before.named, e.content.levels.named);
  }

  /** Entries each within the level, unless unchanged. */
  lemma FromSlots<K(!new)>(s: State, sender: string, before: map<K, int>, after: map<K, int>)
    requires forall k :: k in before && !(k in after && after[k] == before[k]) ==> before[k] <= UserLevel(s, sender)
    requires forall k :: k in after && !(k in before && before[k] == after[k]) ==> after[k] <= UserLevel(s, sender)
    ensures EntriesPermitted(s, sender, before, after)
  {
    forall k | k in before { AtLeastIsLevel(s, sender, before[k]); }
    forall k | k in after { AtLeastIsLevel(s, sender, after[k]); }
  }

  lemma UsersFollow(s: State, e: Event, before: Levels)
    requires LevelChangeAllowed(before, e.content.levels, e.version, e.sender, UserLevel(s, e.sender))
    ensures EntriesPermitted(s, e.sender, before.users, e.content.levels.users)
    ensures OthersBelow(s, e.sender, before.users, e.content.levels.users)
  {
    forall u | u in before.users || u in e.content.levels.users
      ensures SlotAllowed(before, e.content.levels, UserSlot(u), e.sender, UserLevel(s, e.sender))
    {
      assert SlotChecked(before, e.content.levels, e.version, UserSlot(u));
    }
    FromSlots(s, e.sender, before.users, e.content.levels.users);
    forall u | u in before.users { AtLeastIsLevel(s, e.sender, before.users[u] + 1); }
  }

  lemma EventsFollow(s: State, e: Event, before: Levels)
    requires LevelChangeAllowed(before, e.content.levels, e.version, e.sender, UserLevel(s, e.sender))
    ensures EntriesPermitted(s, e.sender, before.events, e.content.levels.events)
  {
    forall t | t in before.events || t in e.content.levels.events
      ensures SlotAllowed(before, e.content.levels, EventSlot(t), e.sender, UserLevel(s, e.sender))
    {
      assert SlotChecked(before, e.content.levels, e.version, EventSlot(t));
    }
    FromSlots(s, e.sender, before.events, e.content.levels.events);
  }

  lemma NotificationsFollow(s: State, e: Event, before: Levels)
    requires LevelChangeAllowed(before, e.content.levels, e.version, e.sender, UserLevel(s, e.sender))
    requires e.version.limitNotifications
    ensures EntriesPermitted(s, e.sender, before.notifications, e.content.levels.notifications)
  {
    forall k | k in before.notifications || k in e.content.levels.notifications
      ensures SlotAllowed(before, e.content.levels, NotificationSlot(k), e.sender, UserLevel(s, e.sender))
    {
      assert SlotChecked(before, e.content.levels, e.version, NotificationSlot(k));
    }
    FromSlots(s, e.sender, before.notifications, e.content.levels.notifications);
  }

  lemma LevelsIff(s: State, e: Event)
    requires e.etype == PowerLevels
    ensures LevelsPermitted(s, e) <==> CheckPowerLevels(e, s) == Allow
  {
    forall u: string ensures IsUserId(u) <==> "@" <= u && ':' in u { }
    if e.stateKey.Some? && (PowerLevels, e.stateKey.value) in s {
      var before := s[(PowerLevels, e.stateKey.value)].content.levels;
      if LevelChangeAllowed(before, e.content.levels, e.version, e.sender, UserLevel(s, e.sender)) {
        NamedFollow(s, e, before);
        UsersFollow(s, e, before);
        EventsFollow(s, e, before);
        if e.version.limitNotifications { NotificationsFollow(s, e, before); }
      } else if LevelsPermitted(s, e) {
        forall slot | SlotChecked(before, e.content.levels, e.version, slot)
          ensures SlotAllowed(before, e.content.levels, slot, e.sender, UserLevel(s, e.sender))
        {
          SlotsFollow(s, e, before, slot);
        }
      }
    }
  }

  // ---------------------------------------------------------------------------------------------
  // Memberships

  lemma FirstJoinIff(s: State, e: Event)
    requires e.stateKey.Some?
    ensures FirstJoin(s, e, e.stateKey.value) <==> IsCreatorJoin(e, s)
  {
    if (Create, "") in s {
      assert e.prevs == [s[(Create, "")].id] <==> |e.prevs| == 1 && e.prevs[0] == s[(Create, "")].id;
    }
  }

  lemma TokenHonouredIff(s: State, e: Event)
    requires e.stateKey.Some?
    ensures TokenHonoured(s, e, e.stateKey.value) <==> ThirdPartyInviteVerified(e, s)
  {
    if ThirdPartyInviteVerified(e, s) {
      var block := e.content.thirdPartyInvite.value;
      var keys := s[(ThirdPartyInvite, block.token)].content.publicKeys * block.validFor.value;
      var key :| key in keys;
      assert e.content.thirdPartyInvite == Some(Signed(block.token, Some(e.stateKey.value), Some(block.validFor.value)));
    }
    if token, keys, key :| && e.content.thirdPartyInvite == Some(Signed(token, Some(e.stateKey.value), Some(keys)))
                           && (ThirdPartyInvite, token) in s && s[(ThirdPartyInvite, token)].sender == e.sender
                           && key in keys && key in s[(ThirdPartyInvite, token)].content.publicKeys {
      assert key in s[(ThirdPartyInvite, token)].content.publicKeys * keys;
    }
  }

  lemma InviteIff(s: State, e: Event)
    requires e.stateKey.Some?
    ensures InvitePermitted(s, e, e.stateKey.value) <==> CheckInvite(e, e.stateKey.value, s) == Allow
  {
    TokenHonouredIff(s, e);
    HasPowerIsLevel(s, e.sender, InviteLevel, 0);
  }

  lemma JoinIff(s: State, e: Event)
    requires e.stateKey.Some?
    ensures JoinPermitted(s, e, e.stateKey.value) <==> CheckJoin(e, e.stateKey.value, s) == Allow
  {
    if e.content.authorisingUser.Some? { HasPowerIsLevel(s, e.content.authorisingUser.value, InviteLevel, 0); }
    assert RuleOf(s) == JoinRuleOf(s);
  }

  lemma LeaveIff(s: State, e: Event)
    requires e.stateKey.Some?
    ensures LeavePermitted(s, e, e.stateKey.value) <==> CheckLeave(e, e.stateKey.value, s) == Allow
  {
    HasPowerIsLevel(s, e.sender, KickLevel, 50);
    HasPowerIsLevel(s, e.sender, BanLevel, 50);
    AboveIsLevel(s, e.sender, e.stateKey.value);
  }

  lemma BanIff(s: State, e: Event)
    requires e.stateKey.Some?
    ensures BanPermitted(s, e, e.stateKey.value) <==> CheckBan(e, e.stateKey.value, s) == Allow
  {
    HasPowerIsLevel(s, e.sender, BanLevel, 50);
    AboveIsLevel(s, e.sender, e.stateKey.value);
  }

  lemma KnockIff(s: State, e: Event)
    requires e.stateKey.Some?
    ensures KnockPermitted(s, e, e.stateKey.value) <==> CheckKnock(e, e.stateKey.value, s) == Allow
  {
    assert RuleOf(s) == JoinRuleOf(s);
  }

  lemma MembershipIff(s: State, e: Event)
    requires DomainOf(e.roomId).Some?
    ensures MembershipPermitted(s, e) <==> CheckMembership(e, s) == Allow
  {
    if e.content.membership.Some? && e.stateKey.Some? {
      FirstJoinIff(s, e);
      match e.content.membership.value
      case Invite => InviteIff(s, e);
      case Join => JoinIff(s, e);
      case Leave => LeaveIff(s, e);
      case Ban => BanIff(s, e);
      case Knock => KnockIff(s, e);
      case OtherMembership(_) =>
    }
  }

  // ---------------------------------------------------------------------------------------------
  // All events

  /** In every state the rules accept exactly what is permitted. */
  lemma AcceptedIffPermitted(s: State, e: Event)
    requires e.etype != Create
    ensures Accepts(s, e) <==> Permitted(s, e)
  {
    HasPowerIsLevel(s, e.sender, InviteLevel, 0);
    if FromRoom(s, e, e.sender) {
      MembershipIff(s, e);
      KeyIsFreeIff(s, e);
      if e.etype == PowerLevels { LevelsIff(s, e); }
      RedactionIff(s, e);
    }
  }

  /** A history goes on exactly with the events that follow it, carry an id of their own, and are permitted. */
  lemma {:induction false} GoesOnIffPermitted(h: seq<Event>, e: Event)
    requires ValidHistory(h)
    ensures ValidHistory(h + [e])
            <==> && e.prevs == [Last(h).id] && e.version == h[0].version && e.roomId == h[0].roomId
                 && (forall i :: 0 <= i < |h| ==> h[i].id != e.id)
                 && e.etype != Create && Permitted(RoomState(h), e)
  {
    assert Front(h + [e]) == h && Last(h + [e]) == e && (h + [e])[0] == h[0];
    if e.etype != Create { AcceptedIffPermitted(RoomState(h), e); }
  }

  /** Every event of a history was permitted when it was sent. */
  lemma {:induction false} HistoryWasPermitted(h: seq<Event>, k: nat)
    requires ValidHistory(h) && 0 < k < |h|
    ensures Permitted(RoomState(h[..k]), h[k])
  {
    HistoryStep(h, k);
    AcceptedIffPermitted(RoomState(h[..k]), h[k]);
  }

  /** In particular, a room with power levels holds every sender of an ordinary event to the level set for
      its type, or else to that for state or for other events. */
  lemma {:induction false} SendersHadTheLevel(h: seq<Event>, k: nat)
    requires ValidHistory(h) && 0 < k < |h| && HasLevels(RoomState(h[..k]))
    requires h[k].etype != Member && h[k].etype != ThirdPartyInvite
    requires !(h[k].etype == Aliases && h[k].version.specialCaseAliases)
    ensures var levels, e := LevelsOf(RoomState(h[..k])), h[k];
            var level := if e.sender in levels.users then levels.users[e.sender]
                         else if UsersDefault in levels.named then levels.named[UsersDefault] else 0;
            level >= if e.etype in levels.events then levels.events[e.etype]
                     else if e.stateKey.Some? then (if StateDefault in levels.named then levels.named[StateDefault] else 50)
                     else if EventsDefault in levels.named then levels.named[EventsDefault] else 0
  {
    HistoryWasPermitted(h, k);
  }

  /** A create event passes exactly if it comes first, from a user of the room's server, in a known version,
      and names its creator where the version wants it named. */
  lemma CreatePermittedIff(e: Event)
    ensures CheckCreate(e) == Allow
            <==> && e.prevs == [] && DomainOf(e.roomId).Some? && DomainOf(e.sender) == DomainOf(e.roomId)
                 && e.content.knownVersion && (e.version.implicitCreator || e.content.creator.Some?)
  {
  }

  // ---------------------------------------------------------------------------------------------
  // Which auth events may be claimed

  /** The keys an event may claim auth events for, one by one. */
  lemma ClaimableKeys(e: Event, k: Key)
    requires e.etype != Create
    ensures AuthTypes(e).None?
            <==> e.etype == Member
                 && (|| e.content.membership.None? || e.stateKey.None?
                     || (e.content.membership == Some(Invite) && e.content.thirdPartyInvite == Some(Unsigned)))
    ensures AuthTypes(e).Some? ==>
              (k in AuthTypes(e).value
               <==> || k == (Create, "") || k == (PowerLevels, "") || k == (Member, e.sender)
                    || (e.etype == Member && MembershipClaim(e, k)))
  {
  }

  predicate MembershipClaim(e: Event, k: Key) {
    || (e.stateKey.Some? && k == (Member, e.stateKey.value))
    || (k == (JoinRules, "") && e.content.membership in {Some(Join), Some(Invite), Some(Knock)})
    || (e.content.membership == Some(Join) && e.version.restricted && e.content.authorisingUser.Some?
        && k == (Member, e.content.authorisingUser.value))
    || (e.content.membership == Some(Invite) && e.content.thirdPartyInvite.Some?
        && e.content.thirdPartyInvite.value.Signed? && k == (ThirdPartyInvite, e.content.thirdPartyInvite.value.token))
  }

  predicate MayClaim(e: Event, k: Key) {
    || k == (Create, "") || k == (PowerLevels, "") || k == (Member, e.sender)
    || (e.etype == Member && MembershipClaim(e, k))
  }

  /** Claims are acceptable exactly if all are known, of this room, not rejected, for keys the event may claim,
      no two for the same one, and one of them is for the create event. */
  lemma ClaimsAcceptableIff(e: Event, found: map<string, Event>)
    requires e.etype != Create && AuthTypes(e).Some?
    ensures ClaimsAcceptable(e, found)
            <==> && (forall i :: 0 <= i < |e.authIds| ==>
                                   && e.authIds[i] in found && found[e.authIds[i]].roomId == e.roomId
                                   && !found[e.authIds[i]].rejected && found[e.authIds[i]].stateKey.Some?
                                   && MayClaim(e, KeyOf(found[e.authIds[i]])))
                 && (forall i, j :: 0 <= i < j < |e.authIds| ==>
                                      KeyOf(found[e.authIds[i]]) != KeyOf(found[e.authIds[j]]))
                 && (exists i :: 0 <= i < |e.authIds| && KeyOf(found[e.authIds[i]]) == (Create, ""))
  {
    forall k: Key ensures k in AuthTypes(e).value <==> MayClaim(e, k) { ClaimableKeys(e, k); }
  }

  /** What each objection to a claim means. */
  lemma ObjectionMeans(e: Event, found: map<string, Event>, i: nat)
    requires e.etype != Create && AuthTypes(e).Some? && i < |e.authIds|
    ensures var id, objection := e.authIds[i], ObjectionTo(e, found, AuthTypes(e).value, i);
            && (objection == Some(UnknownAuthEvent) <==> id !in found)
            && (objection == Some(WrongRoom) ==> found[id].roomId != e.roomId)
            && (objection == Some(UnexpectedAuthEvent) ==> !MayClaim(e, KeyOf(found[id])))
            && (objection == Some(RejectedAuthEvent) ==> found[id].rejected)
            && (objection == Some(DuplicateAuthEvent) ==>
                  exists j :: 0 <= j < i && HasKey(found, e.authIds[j], KeyOf(found[id])))
  {
    forall k: Key ensures k in AuthTypes(e).value <==> MayClaim(e, k) { ClaimableKeys(e, k); }
  }
}
