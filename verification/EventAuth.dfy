/** The authorisation rules for room events (synapse/event_auth.py): the checks against the
    event's claimed auth events, the checks against room state, and the selection of the part of
    the state an event is checked against.
 */
module EventAuth {
  import opened Events
  import opened Wrappers

  datatype Reason =
    | Malformed | InvalidId | CreateHasPrevEvents | CreateDomainMismatch | UnknownRoomVersion
    | UnknownAuthEvent | WrongRoom | DuplicateAuthEvent | UnexpectedAuthEvent | RejectedAuthEvent
    | NoCreateEvent | NotFederatable | BadAlias | NotJoined | NotInvited | Banned | AlreadyJoined
    | InsufficientPower | WrongSender | BadAuthoriser | JoinRuleForbids | KnockForbidden
    | AlreadyInvited | UnknownMembership | InvalidUserId | LevelOutOfReach | NotYourState
    | CannotRedact

  datatype Verdict = Allow | Deny(why: Reason)

  // ---------------------------------------------------------------------------------------------
  // Room versions

  const OLDEST := RoomVersion(true, true, false, false, false, false, false)

  /** Versions 1 to 11, in order; the flags are those of the version table. */
  const KNOWN_VERSIONS: seq<RoomVersion> := [
    OLDEST,
    OLDEST,
    OLDEST.(oldEventFormat := false),
    OLDEST.(oldEventFormat := false),
    OLDEST.(oldEventFormat := false),
    RoomVersion(false, false, true, false, false, false, false),
    RoomVersion(false, false, true, false, false, true, false),
    RoomVersion(false, false, true, false, true, true, false),
    RoomVersion(false, false, true, false, true, true, false),
    RoomVersion(false, false, true, false, true, true, true),
    RoomVersion(false, false, true, true, true, true, true)]

  // ---------------------------------------------------------------------------------------------
  // Power levels

  function CreatorOf(create: Event, version: RoomVersion): Option<string> {
    if version.implicitCreator then Some(create.sender) else create.content.creator
  }

  function UserLevelIn(levels: Levels, user: string): int {
    if user in levels.users then levels.users[user]
    else if UsersDefault in levels.named then levels.named[UsersDefault]
    else 0
  }

  function UserLevel(s: State, user: string): int {
    if (PowerLevels, "") in s then UserLevelIn(s[(PowerLevels, "")].content.levels, user)
    else if (Create, "") in s && CreatorOf(s[(Create, "")], s[(Create, "")].version) == Some(user) then 100
    else 0
  }

  function NamedLevel(s: State, name: LevelName, default: int): int {
    if (PowerLevels, "") in s && name in s[(PowerLevels, "")].content.levels.named
    then s[(PowerLevels, "")].content.levels.named[name]
    else default
  }

  function SendLevel(e: Event, s: State): int {
    if (PowerLevels, "") in s && e.etype in s[(PowerLevels, "")].content.levels.events
    then s[(PowerLevels, "")].content.levels.events[e.etype]
    else if e.stateKey.Some? then NamedLevel(s, StateDefault, 50)
    else NamedLevel(s, EventsDefault, 0)
  }

  /** One entry of a power-levels event. */
  datatype Slot =
    | NamedSlot(name: LevelName)
    | UserSlot(user: string)
    | EventSlot(etype: EventType)
    | NotificationSlot(key: string)

  function LevelAt(levels: Levels, slot: Slot): Option<int> {
    match slot
    case NamedSlot(n) => if n in levels.named then Some(levels.named[n]) else None
    case UserSlot(u) => if u in levels.users then Some(levels.users[u]) else None
    case EventSlot(t) => if t in levels.events then Some(levels.events[t]) else None
    case NotificationSlot(k) => if k in levels.notifications then Some(levels.notifications[k]) else None
  }

  /** Whether a sender of the given level may turn one entry of `before` into that of `after`. */
  predicate SlotAllowed(before: Levels, after: Levels, slot: Slot, sender: string, level: int) {
    var o, n := LevelAt(before, slot), LevelAt(after, slot);
    || (o.Some? && o == n)
    || (&& !(slot.UserSlot? && slot.user != sender && o == Some(level))
        && (o.Some? ==> o.value <= level)
        && (n.Some? ==> n.value <= level))
  }

  const NAMED_SLOTS: seq<Slot> := [
    NamedSlot(UsersDefault), NamedSlot(EventsDefault), NamedSlot(StateDefault), NamedSlot(BanLevel),
    NamedSlot(RedactLevel), NamedSlot(KickLevel), NamedSlot(InviteLevel)]

  predicate SlotChecked(before: Levels, after: Levels, version: RoomVersion, slot: Slot) {
    match slot
    case NamedSlot(_) => true
    case UserSlot(u) => u in before.users || u in after.users
    case EventSlot(t) => t in before.events || t in after.events
    case NotificationSlot(k) => version.limitNotifications && (k in before.notifications || k in after.notifications)
  }

  /** The rule for replacing one power-levels event by another, entry by entry. */
  ghost predicate LevelChangeAllowed(before: Levels, after: Levels, version: RoomVersion, sender: string, level: int) {
    forall slot :: SlotChecked(before, after, version, slot) ==> SlotAllowed(before, after, slot, sender, level)
  }

  ghost function CheckPowerLevels(e: Event, s: State): Verdict {
    if exists u :: u in e.content.levels.users && !IsUserId(u) then Deny(InvalidUserId)
    else if e.stateKey.None? then Deny(Malformed)
    else if (e.etype, e.stateKey.value) !in s then Allow
    else if LevelChangeAllowed(s[(e.etype, e.stateKey.value)].content.levels, e.content.levels, e.version,
                               e.sender, UserLevel(s, e.sender))
    then Allow
    else Deny(LevelOutOfReach)
  }

  /** Appends the elements of a set to a list, in some order. */
  method AppendSlots(list: seq<Slot>, slots: set<Slot>) returns (r: seq<Slot>)
    ensures forall x :: x in r <==> x in list || x in slots
  {
    r := list;
    var rest := slots;
    while rest != {}
      invariant rest <= slots
      invariant forall x :: x in r <==> x in list || x in slots - rest
      decreases |rest|
    {
      var x :| x in rest;
      r := r + [x];
      rest := rest - {x};
    }
  }

  /** The check as the source runs it: validate the users, list the entries, then go through the list. */
  method RunPowerLevelsCheck(e: Event, s: State) returns (v: Verdict)
    ensures v == CheckPowerLevels(e, s)
  {
    var after := e.content.levels;
    var unchecked := after.users.Keys;
    while unchecked != {}
      invariant unchecked <= after.users.Keys
      invariant forall u :: u in after.users.Keys - unchecked ==> IsUserId(u)
      decreases |unchecked|
    {
      var u :| u in unchecked;
      if !IsUserId(u) { return Deny(InvalidUserId); }
      unchecked := unchecked - {u};
    }
    if e.stateKey.None? { return Deny(Malformed); }
    var key := (e.etype, e.stateKey.value);
    if key !in s { return Allow; }
    var before := s[key].content.levels;
    var level := UserLevel(s, e.sender);
    var slots := ListSlots(before, after, e.version);
    for i := 0 to |slots|
      invariant forall j :: 0 <= j < i ==> SlotAllowed(before, after, slots[j], e.sender, level)
    {
      if !SlotAllowed(before, after, slots[i], e.sender, level) {
        assert slots[i] in slots;
        return Deny(LevelOutOfReach);
      }
    }
    return Allow;
  }

  /** The entries to compare: the seven single levels, then every user, event type and (in later
      room versions) notification named by either event. */
  method ListSlots(before: Levels, after: Levels, version: RoomVersion) returns (slots: seq<Slot>)
    ensures forall x :: x in slots <==> SlotChecked(before, after, version, x)
  {
    NamedSlotsComplete();
    var users := set u | u in before.users.Keys + after.users.Keys :: UserSlot(u);
    assert forall x :: x in users <==> x.UserSlot? && SlotChecked(before, after, version, x);
    slots := AppendSlots(NAMED_SLOTS, users);
    var events := set t | t in before.events.Keys + after.events.Keys :: EventSlot(t);
    assert forall x :: x in events <==> x.EventSlot? && SlotChecked(before, after, version, x);
    slots := AppendSlots(slots, events);
    if version.limitNotifications {
      var keys := set k | k in before.notifications.Keys + after.notifications.Keys :: NotificationSlot(k);
      assert forall x :: x in keys <==> x.NotificationSlot? && SlotChecked(before, after, version, x);
      slots := AppendSlots(slots, keys);
    }
  }

  lemma NamedSlotsComplete()
    ensures forall x :: x in NAMED_SLOTS <==> x.NamedSlot?
  {
    forall n: LevelName ensures NamedSlot(n) in NAMED_SLOTS {
      match n
      case UsersDefault => assert NAMED_SLOTS[0] == NamedSlot(n);
      case EventsDefault => assert NAMED_SLOTS[1] == NamedSlot(n);
      case StateDefault => assert NAMED_SLOTS[2] == NamedSlot(n);
      case BanLevel => assert NAMED_SLOTS[3] == NamedSlot(n);
      case RedactLevel => assert NAMED_SLOTS[4] == NamedSlot(n);
      case KickLevel => assert NAMED_SLOTS[5] == NamedSlot(n);
      case InviteLevel => assert NAMED_SLOTS[6] == NamedSlot(n);
    }
  }

  // ---------------------------------------------------------------------------------------------
  // Membership changes

  function CanFederate(s: State): bool {
    (Create, "") in s && s[(Create, "")].content.federate
  }

  predicate IsJoined(s: State, user: string) {
    MembershipOf(s, user) == Some(Join)
  }

  /** The first join of a room: its only previous event is the create event and it is for the creator. */
  predicate IsCreatorJoin(e: Event, s: State) {
    && e.content.membership == Some(Join)
    && |e.prevs| == 1
    && (Create, "") in s
    && e.prevs[0] == s[(Create, "")].id
    && e.stateKey.Some?
    && CreatorOf(s[(Create, "")], e.version) == e.stateKey
  }

  function JoinRuleOf(s: State): JoinRule {
    if (JoinRules, "") in s && s[(JoinRules, "")].content.joinRule.Some?
    then s[(JoinRules, "")].content.joinRule.value
    else InviteRule
  }

  predicate ThirdPartyInviteVerified(e: Event, s: State) {
    && e.content.thirdPartyInvite.Some?
    && e.content.thirdPartyInvite.value.Signed?
    && var block := e.content.thirdPartyInvite.value;
    && block.mxid.Some? && block.validFor.Some?
    && (ThirdPartyInvite, block.token) in s
    && var invite := s[(ThirdPartyInvite, block.token)];
    && invite.sender == e.sender
    && block.mxid == e.stateKey
    && invite.content.publicKeys * block.validFor.value != {}
  }

  function CheckInvite(e: Event, target: string, s: State): Verdict {
    if e.content.thirdPartyInvite.Some? then
      if !ThirdPartyInviteVerified(e, s) then Deny(NotInvited)
      else if MembershipOf(s, target) == Some(Ban) then Deny(Banned)
      else Allow
    else if !IsJoined(s, e.sender) then Deny(NotJoined)
    else if MembershipOf(s, target) == Some(Ban) then Deny(Banned)
    else if IsJoined(s, target) then Deny(AlreadyJoined)
    else if UserLevel(s, e.sender) < NamedLevel(s, InviteLevel, 0) then Deny(InsufficientPower)
    else Allow
  }

  predicate RestrictedJoins(version: RoomVersion, rule: JoinRule) {
    || (version.restricted && rule == RestrictedRule)
    || (version.knockRestricted && rule == KnockRestrictedRule)
  }

  function CheckJoin(e: Event, target: string, s: State): Verdict {
    var rule := JoinRuleOf(s);
    var m := MembershipOf(s, e.sender);
    var known := m == Some(Join) || m == Some(Invite);
    if e.sender != target then Deny(WrongSender)
    else if MembershipOf(s, target) == Some(Ban) then Deny(Banned)
    else if rule == PublicRule then Allow
    else if RestrictedJoins(e.version, rule) then
      if known then Allow
      else if e.content.authorisingUser.None? then Deny(BadAuthoriser)
      else if !IsJoined(s, e.content.authorisingUser.value) then Deny(NotJoined)
      else if UserLevel(s, e.content.authorisingUser.value) < NamedLevel(s, InviteLevel, 0) then Deny(BadAuthoriser)
      else Allow
    else if rule == InviteRule || (e.version.knock && rule == KnockRule) then
      if known then Allow else Deny(NotInvited)
    else Deny(JoinRuleForbids)
  }

  function CheckLeave(e: Event, target: string, s: State): Verdict {
    var m := MembershipOf(s, e.sender);
    if target == e.sender && (m == Some(Invite) || (e.version.knock && m == Some(Knock))) then Allow
    else if m != Some(Join) then Deny(NotJoined)
    else if MembershipOf(s, target) == Some(Ban) && UserLevel(s, e.sender) < NamedLevel(s, BanLevel, 50)
    then Deny(InsufficientPower)
    else if target != e.sender
            && (|| UserLevel(s, e.sender) < NamedLevel(s, KickLevel, 50)
                || UserLevel(s, e.sender) <= UserLevel(s, target))
    then Deny(InsufficientPower)
    else Allow
  }

  function CheckBan(e: Event, target: string, s: State): Verdict {
    if !IsJoined(s, e.sender) then Deny(NotJoined)
    else if UserLevel(s, e.sender) < NamedLevel(s, BanLevel, 50) then Deny(InsufficientPower)
    else if UserLevel(s, e.sender) <= UserLevel(s, target) then Deny(InsufficientPower)
    else Allow
  }

  function CheckKnock(e: Event, target: string, s: State): Verdict {
    var rule := JoinRuleOf(s);
    if !e.version.knock then Deny(UnknownMembership)
    else if rule != KnockRule && (!e.version.knockRestricted || rule != KnockRestrictedRule) then Deny(KnockForbidden)
    else if target != e.sender then Deny(WrongSender)
    else if IsJoined(s, target) then Deny(AlreadyJoined)
    else if MembershipOf(s, e.sender) == Some(Invite) then Deny(AlreadyInvited)
    else if MembershipOf(s, target) == Some(Ban) then Deny(Banned)
    else Allow
  }

  function CheckMembership(e: Event, s: State): Verdict {
    if e.content.membership.None? || e.stateKey.None? then Deny(Malformed)
    else
      var target := e.stateKey.value;
      if IsCreatorJoin(e, s) then Allow
      else if DomainOf(target).None? then Deny(InvalidId)
      else if DomainOf(e.roomId) != DomainOf(target) && !CanFederate(s) then Deny(NotFederatable)
      else
        match e.content.membership.value
        case Invite => CheckInvite(e, target, s)
        case Join => CheckJoin(e, target, s)
        case Leave => CheckLeave(e, target, s)
        case Ban => CheckBan(e, target, s)
        case Knock => CheckKnock(e, target, s)
        case OtherMembership(_) => if IsJoined(s, e.sender) then Deny(UnknownMembership) else Deny(NotJoined)
  }

  // ---------------------------------------------------------------------------------------------
  // The rules that depend on room state

  function CheckAliases(e: Event): Verdict {
    if e.stateKey.None? || e.stateKey.value == "" || e.stateKey != DomainOf(e.sender) then Deny(BadAlias) else Allow
  }

  function CheckCanSend(e: Event, s: State): Verdict {
    if UserLevel(s, e.sender) < SendLevel(e, s) then Deny(InsufficientPower)
    else if e.stateKey.Some? && |e.stateKey.value| > 0 && e.stateKey.value[0] == '@' && e.stateKey.value != e.sender
    then Deny(NotYourState)
    else Allow
  }

  function CheckRedaction(e: Event, s: State): Verdict {
    if UserLevel(s, e.sender) >= NamedLevel(s, RedactLevel, 50) then Allow
    else if !e.version.oldEventFormat then Allow
    else if DomainOf(e.id).None? then Deny(InvalidId)
    else if e.redacts.None? then Allow
    else if DomainOf(e.redacts.value).None? then Deny(InvalidId)
    else if DomainOf(e.id) == DomainOf(e.redacts.value) then Allow
    else Deny(CannotRedact)
  }

  ghost function CheckAgainstState(e: Event, s: State): Verdict {
    if e.etype == Create then Allow
    else if DomainOf(e.roomId).None? || DomainOf(e.sender).None? then Deny(InvalidId)
    else if DomainOf(e.roomId) != DomainOf(e.sender) && !CanFederate(s) then Deny(NotFederatable)
    else if e.etype == Aliases && e.version.specialCaseAliases then CheckAliases(e)
    else if e.etype == Member then CheckMembership(e, s)
    else if !IsJoined(s, e.sender) then Deny(NotJoined)
    else if e.etype == ThirdPartyInvite then
      if UserLevel(s, e.sender) < NamedLevel(s, InviteLevel, 0) then Deny(InsufficientPower) else Allow
    else if CheckCanSend(e, s).Deny? then CheckCanSend(e, s)
    else if e.etype == PowerLevels then CheckPowerLevels(e, s)
    else if e.etype == Redaction then CheckRedaction(e, s)
    else Allow
  }

  // ---------------------------------------------------------------------------------------------
  // Selecting the state an event is checked against

  /** The state keys needed to authorise an event; nothing where computing them raises. */
  function AuthTypes(e: Event): Option<set<Key>> {
    if e.etype == Create then Some({})
    else
      var base: set<Key> := {(PowerLevels, ""), (Member, e.sender), (Create, "")};
      if e.etype != Member then Some(base)
      else if e.content.membership.None? || e.stateKey.None? then None
      else
        var m := e.content.membership.value;
        var rules: set<Key> := if m == Join || m == Invite || m == Knock then {(JoinRules, "")} else {};
        var target: set<Key> := {(Member, e.stateKey.value)};
        var authoriser: set<Key> :=
          if e.version.restricted && m == Join && e.content.authorisingUser.Some?
          then {(Member, e.content.authorisingUser.value)} else {};
        if m == Invite && e.content.thirdPartyInvite.Some? then
          if e.content.thirdPartyInvite.value.Unsigned? then None
          else Some(base + rules + target + authoriser + {(ThirdPartyInvite, e.content.thirdPartyInvite.value.token)})
        else Some(base + rules + target + authoriser)
  }

  ghost predicate AgreeOn(s: State, t: State, keys: set<Key>) {
    forall k :: k in keys ==> Get(s, k) == Get(t, k)
  }

  /** States that agree on the keys every check of a non-create event reads. */
  ghost predicate AgreeOnBasics(e: Event, s: State, t: State) {
    && Get(s, (PowerLevels, "")) == Get(t, (PowerLevels, ""))
    && Get(s, (Create, "")) == Get(t, (Create, ""))
    && Get(s, (Member, e.sender)) == Get(t, (Member, e.sender))
  }

  /** States that agree on the further keys a membership event reads. */
  ghost predicate AgreeOnMembership(e: Event, s: State, t: State)
    requires e.content.membership.Some? && e.stateKey.Some?
  {
    var c := e.content;
    var m := c.membership.value;
    && Get(s, (Member, e.stateKey.value)) == Get(t, (Member, e.stateKey.value))
    && (m == Join || m == Knock ==> Get(s, (JoinRules, "")) == Get(t, (JoinRules, "")))
    && (m == Join && e.version.restricted && c.authorisingUser.Some? ==>
          Get(s, (Member, c.authorisingUser.value)) == Get(t, (Member, c.authorisingUser.value)))
    && (m == Invite && c.thirdPartyInvite.Some? && c.thirdPartyInvite.value.Signed? ==>
          Get(s, (ThirdPartyInvite, c.thirdPartyInvite.value.token))
          == Get(t, (ThirdPartyInvite, c.thirdPartyInvite.value.token)))
  }

  lemma SelectionCoversReads(e: Event, s: State, t: State)
    requires e.etype != Create
    requires AuthTypes(e).Some? && AgreeOn(s, t, AuthTypes(e).value)
    ensures AgreeOnBasics(e, s, t)
    ensures e.etype == Member ==> e.content.membership.Some? && e.stateKey.Some? && AgreeOnMembership(e, s, t)
  {
    var keys := AuthTypes(e).value;
    assert (PowerLevels, "") in keys && (Create, "") in keys && (Member, e.sender) in keys;
    if e.etype == Member {
      var c := e.content;
      var m := c.membership.value;
      assert (Member, e.stateKey.value) in keys;
      assert m == Join || m == Knock ==> (JoinRules, "") in keys;
      assert m == Join && e.version.restricted && c.authorisingUser.Some? ==>
          (Member, c.authorisingUser.value) in keys;
      assert m == Invite && c.thirdPartyInvite.Some? ==> (ThirdPartyInvite, c.thirdPartyInvite.value.token) in keys;
    }
  }

  lemma LevelsDependOnBasics(e: Event, s: State, t: State)
    requires AgreeOnBasics(e, s, t)
    ensures forall u :: UserLevel(s, u) == UserLevel(t, u)
    ensures forall n, d :: NamedLevel(s, n, d) == NamedLevel(t, n, d)
    ensures SendLevel(e, s) == SendLevel(e, t)
    ensures CanFederate(s) == CanFederate(t)
    ensures MembershipOf(s, e.sender) == MembershipOf(t, e.sender)
    ensures IsCreatorJoin(e, s) == IsCreatorJoin(e, t)
  {
  }

  lemma InviteDependsOnReads(e: Event, s: State, t: State)
    requires e.content.membership == Some(Invite) && e.stateKey.Some?
    requires AgreeOnBasics(e, s, t) && AgreeOnMembership(e, s, t)
    ensures CheckInvite(e, e.stateKey.value, s) == CheckInvite(e, e.stateKey.value, t)
  {
    LevelsDependOnBasics(e, s, t);
    assert ThirdPartyInviteVerified(e, s) == ThirdPartyInviteVerified(e, t);
  }

  lemma JoinDependsOnReads(e: Event, s: State, t: State)
    requires e.version.knockRestricted ==> e.version.restricted
    requires e.content.membership == Some(Join) && e.stateKey.Some?
    requires AgreeOnBasics(e, s, t) && AgreeOnMembership(e, s, t)
    ensures CheckJoin(e, e.stateKey.value, s) == CheckJoin(e, e.stateKey.value, t)
  {
    LevelsDependOnBasics(e, s, t);
    assert JoinRuleOf(s) == JoinRuleOf(t);
    assert MembershipOf(s, e.stateKey.value) == MembershipOf(t, e.stateKey.value);
    if e.version.restricted && e.content.authorisingUser.Some? {
      var authoriser := e.content.authorisingUser.value;
      assert MembershipOf(s, authoriser) == MembershipOf(t, authoriser);
    }
  }

  lemma {:induction false} MembershipDependsOnReads(e: Event, s: State, t: State)
    requires e.version.knockRestricted ==> e.version.restricted
    requires e.content.membership.Some? && e.stateKey.Some?
    requires AgreeOnBasics(e, s, t) && AgreeOnMembership(e, s, t)
    ensures CheckMembership(e, s) == CheckMembership(e, t)
  {
    LevelsDependOnBasics(e, s, t);
    assert MembershipOf(s, e.stateKey.value) == MembershipOf(t, e.stateKey.value);
    match e.content.membership.value
    case Invite => InviteDependsOnReads(e, s, t);
    case Join => JoinDependsOnReads(e, s, t);
    case Leave =>
    case Ban =>
    case Knock => assert JoinRuleOf(s) == JoinRuleOf(t);
    case OtherMembership(_) =>
  }

  /** The verdict depends on the state only through the selected keys. A power-levels event is also
      compared with the event it replaces, which the selection covers only for an empty state key. */
  lemma {:induction false} VerdictDependsOnSelection(e: Event, s: State, t: State)
    requires e.etype != Create
    requires e.version.knockRestricted ==> e.version.restricted
    requires AuthTypes(e).Some? && AgreeOn(s, t, AuthTypes(e).value)
    requires !ReachesUnselectedLevels(e)
    ensures CheckAgainstState(e, s) == CheckAgainstState(e, t)
  {
    SelectionCoversReads(e, s, t);
    LevelsDependOnBasics(e, s, t);
    if e.etype == Member {
      MembershipDependsOnReads(e, s, t);
    } else if e.etype == PowerLevels && DomainOf(e.roomId).Some? && DomainOf(e.sender).Some? {
      PowerLevelsDependOnReads(e, s, t);
    }
  }

  /** A power-levels event with a non-empty state key that nothing but its own levels can stop: its
      check compares it with a state entry the selection leaves out. */
  ghost predicate ReachesUnselectedLevels(e: Event) {
    && e.etype == PowerLevels
    && e.stateKey.Some? && e.stateKey.value != ""
    && (e.stateKey.value[0] == '@' ==> e.stateKey.value == e.sender)
    && DomainOf(e.roomId).Some? && DomainOf(e.sender).Some?
    && (forall u :: u in e.content.levels.users ==> IsUserId(u))
  }

  lemma PowerLevelsDependOnReads(e: Event, s: State, t: State)
    requires e.etype == PowerLevels && !ReachesUnselectedLevels(e)
    requires AgreeOnBasics(e, s, t)
    requires DomainOf(e.roomId).Some? && DomainOf(e.sender).Some?
    ensures CheckCanSend(e, s).Allow? ==> CheckPowerLevels(e, s) == CheckPowerLevels(e, t)
  {
    LevelsDependOnBasics(e, s, t);
  }

  /** A state in which the sender passes every check up to the comparison of levels, and the entry
      the event would replace holds a ban level out of the sender's reach. */
  function BlockingState(e: Event): State
    requires e.stateKey.Some?
  {
    var proposed := e.content.levels.named;
    var high := if BanLevel in proposed && proposed[BanLevel] > 100 then proposed[BanLevel] + 1 else 101;
    var levels := Levels(map[UsersDefault := 100], map[], map[], map[]);
    var content := Content(Some(Join), None, {}, None, None, levels, None, true, true, None);
    var filler := e.(content := content);
    map[
      (Create, "") := filler.(etype := Create, stateKey := Some("")),
      (Member, e.sender) := filler.(etype := Member, stateKey := Some(e.sender)),
      (PowerLevels, "") := filler.(etype := PowerLevels, stateKey := Some("")),
      (PowerLevels, e.stateKey.value) := filler.(etype := PowerLevels,
                                                 content := content.(levels := levels.(named := map[BanLevel := high])))]
  }

  lemma BlockingStateBlocks(e: Event)
    requires ReachesUnselectedLevels(e)
    ensures AuthTypes(e).Some? && WellKeyed(BlockingState(e))
    ensures CheckAgainstState(e, BlockingState(e)) == Deny(LevelOutOfReach)
    ensures CheckAgainstState(e, Restrict(BlockingState(e), AuthTypes(e).value)) == Allow
  {
    BlockingStateWellKeyed(e);
    BlockedByWholeState(e);
    AllowedBySelection(e);
  }

  lemma BlockingStateWellKeyed(e: Event)
    requires e.etype == PowerLevels && e.stateKey.Some?
    ensures WellKeyed(BlockingState(e))
  {
  }

  lemma BlockedByWholeState(e: Event)
    requires ReachesUnselectedLevels(e)
    ensures CheckAgainstState(e, BlockingState(e)) == Deny(LevelOutOfReach)
  {
    var s := BlockingState(e);
    var before := s[(PowerLevels, e.stateKey.value)].content.levels;
    assert UserLevel(s, e.sender) == 100;
    assert SlotChecked(before, e.content.levels, e.version, NamedSlot(BanLevel));
    assert !SlotAllowed(before, e.content.levels, NamedSlot(BanLevel), e.sender, 100);
  }

  lemma AllowedBySelection(e: Event)
    requires ReachesUnselectedLevels(e)
    ensures AuthTypes(e).Some?
    ensures CheckAgainstState(e, Restrict(BlockingState(e), AuthTypes(e).value)) == Allow
  {
    var t := Restrict(BlockingState(e), AuthTypes(e).value);
    assert UserLevel(t, e.sender) == 100;
    assert (PowerLevels, e.stateKey.value) !in t;
  }

  /** Checking an event against the selected part of the state gives the verdict of the whole state,
      in every state, exactly for the events that never reach an unselected power-levels entry. */
  lemma SelectionSuffices(e: Event)
    requires e.etype != Create
    requires e.version.knockRestricted ==> e.version.restricted
    requires AuthTypes(e).Some?
    ensures (forall s :: WellKeyed(s) ==>
                           CheckAgainstState(e, Restrict(s, AuthTypes(e).value)) == CheckAgainstState(e, s))
            <==> !ReachesUnselectedLevels(e)
  {
    var keys := AuthTypes(e).value;
    if ReachesUnselectedLevels(e) {
      BlockingStateBlocks(e);
      var s := BlockingState(e);
      assert CheckAgainstState(e, Restrict(s, keys)) != CheckAgainstState(e, s);
    } else {
      forall s: State ensures CheckAgainstState(e, Restrict(s, keys)) == CheckAgainstState(e, s) {
        VerdictDependsOnSelection(e, Restrict(s, keys), s);
      }
    }
  }

  /** In every known room version `knock_restricted` comes with `restricted`, so for their events nothing
      is asked of the version. */
  lemma SelectionSufficesInKnownVersions(e: Event)
    requires e.version in KNOWN_VERSIONS && e.etype != Create && AuthTypes(e).Some?
    ensures (forall s :: WellKeyed(s) ==>
                           CheckAgainstState(e, Restrict(s, AuthTypes(e).value)) == CheckAgainstState(e, s))
            <==> !ReachesUnselectedLevels(e)
  {
    SelectionSuffices(e);
  }

  // ---------------------------------------------------------------------------------------------
  // The rules that depend only on the event and the auth events it claims

  function CheckCreate(e: Event): Verdict {
    if e.prevs != [] then Deny(CreateHasPrevEvents)
    else if DomainOf(e.sender).None? || DomainOf(e.roomId).None? then Deny(InvalidId)
    else if DomainOf(e.roomId) != DomainOf(e.sender) then Deny(CreateDomainMismatch)
    else if !e.content.knownVersion then Deny(UnknownRoomVersion)
    else if !e.version.implicitCreator && e.content.creator.None? then Deny(Malformed)
    else Allow
  }

  /** One claimed auth event is usable: known, for this room, of a selected key and not rejected. */
  predicate ClaimUsable(e: Event, id: string, found: map<string, Event>, selected: set<Key>) {
    && id in found
    && found[id].roomId == e.roomId
    && found[id].stateKey.Some?
    && KeyOf(found[id]) in selected
    && !found[id].rejected
  }

  ghost predicate ClaimsAcceptable(e: Event, found: map<string, Event>) {
    && AuthTypes(e).Some?
    && (forall i :: 0 <= i < |e.authIds| ==> ClaimUsable(e, e.authIds[i], found, AuthTypes(e).value))
    && (forall i, j :: 0 <= i < j < |e.authIds| ==> KeyOf(found[e.authIds[i]]) != KeyOf(found[e.authIds[j]]))
    && (exists i :: 0 <= i < |e.authIds| && KeyOf(found[e.authIds[i]]) == (Create, ""))
  }

  predicate HasKey(found: map<string, Event>, id: string, k: Key) {
    id in found && found[id].stateKey.Some? && KeyOf(found[id]) == k
  }

  /** What is wrong with one claim, given the claims before it. */
  function ObjectionTo(e: Event, found: map<string, Event>, selected: set<Key>, i: nat): Option<Reason>
    requires i < |e.authIds|
  {
    var id := e.authIds[i];
    if id !in found then Some(UnknownAuthEvent)
    else if found[id].roomId != e.roomId then Some(WrongRoom)
    else if found[id].stateKey.None? then Some(Malformed)
    else if exists j :: 0 <= j < i && HasKey(found, e.authIds[j], KeyOf(found[id])) then Some(DuplicateAuthEvent)
    else if KeyOf(found[id]) !in selected then Some(UnexpectedAuthEvent)
    else if found[id].rejected then Some(RejectedAuthEvent)
    else None
  }

  ghost predicate NoObjectionBefore(e: Event, found: map<string, Event>, selected: set<Key>, i: nat)
    requires i <= |e.authIds|
  {
    forall j :: 0 <= j < i ==> ObjectionTo(e, found, selected, j) == None
  }

  /** The reason given is that of the first claim with something wrong, or else the missing create event. */
  ghost predicate IsFirstObjection(e: Event, found: map<string, Event>, selected: set<Key>, why: Reason) {
    || (exists i :: 0 <= i < |e.authIds| && ObjectionTo(e, found, selected, i) == Some(why)
                    && NoObjectionBefore(e, found, selected, i))
    || (why == NoCreateEvent && NoObjectionBefore(e, found, selected, |e.authIds|))
  }

  /** Accepts a create event that passes its own rule, and any other event whose claimed auth events
      are usable, pairwise of distinct keys, and include the create event. */
  method RunIndependentCheck(e: Event, found: map<string, Event>) returns (v: Verdict)
    ensures e.etype == Create ==> v == CheckCreate(e)
    ensures e.etype != Create ==> (v == Allow <==> ClaimsAcceptable(e, found))
    ensures e.etype != Create && v.Deny? ==>
              if AuthTypes(e).None? then v.why == Malformed else IsFirstObjection(e, found, AuthTypes(e).value, v.why)
  {
    if e.etype == Create { return CheckCreate(e); }
    if AuthTypes(e).None? { return Deny(Malformed); }
    var selected := AuthTypes(e).value;
    var dict: map<Key, string> := map[];
    ghost var keys: seq<Key> := [];
    for i := 0 to |e.authIds|
      invariant forall j :: 0 <= j < i ==> ClaimUsable(e, e.authIds[j], found, selected)
      invariant |keys| == i && (forall j :: 0 <= j < i ==> KeyOf(found[e.authIds[j]]) == keys[j])
      invariant forall k :: k in dict <==> k in keys
      invariant forall j, k :: 0 <= j < k < i ==> keys[j] != keys[k]
      invariant NoObjectionBefore(e, found, selected, i)
    {
      var id := e.authIds[i];
      if id !in found { return Deny(UnknownAuthEvent); }
      var claim := found[id];
      if claim.roomId != e.roomId { return Deny(WrongRoom); }
      if claim.stateKey.None? { return Deny(Malformed); }
      var key := KeyOf(claim);
      if key in dict {
        ghost var j :| 0 <= j < i && keys[j] == key;
        assert KeyOf(found[e.authIds[j]]) == KeyOf(found[e.authIds[i]]);
        return Deny(DuplicateAuthEvent);
      }
      if key !in selected { return Deny(UnexpectedAuthEvent); }
      if claim.rejected { return Deny(RejectedAuthEvent); }
      dict, keys := dict[key := id], keys + [key];
    }
    if (Create, "") !in dict { return Deny(NoCreateEvent); }
    return Allow;
  }

  /** The state an event claims to be authorised by, built from its auth events in order. */
  function ClaimedState(ids: seq<string>, found: map<string, Event>): State {
    if ids == [] then map[]
    else
      var rest := ClaimedState(ids[..|ids| - 1], found);
      var id := ids[|ids| - 1];
      if id in found then Update(rest, found[id]) else rest
  }

  lemma {:induction false} ClaimedStateEntries(ids: seq<string>, found: map<string, Event>, k: Key)
    ensures k in ClaimedState(ids, found) ==>
              exists i :: 0 <= i < |ids| && ids[i] in found && found[ids[i]].stateKey.Some?
                          && KeyOf(found[ids[i]]) == k && ClaimedState(ids, found)[k] == found[ids[i]]
    ensures (exists i :: 0 <= i < |ids| && ids[i] in found && found[ids[i]].stateKey.Some? && KeyOf(found[ids[i]]) == k)
              ==> k in ClaimedState(ids, found)
  {
    if ids != [] {
      var front := ids[..|ids| - 1];
      ClaimedStateEntries(front, found, k);
      if k in ClaimedState(front, found) {
        var i :| 0 <= i < |front| && front[i] in found && found[front[i]].stateKey.Some?
                 && KeyOf(found[front[i]]) == k && ClaimedState(front, found)[k] == found[front[i]];
        assert ids[i] == front[i];
      }
      if i :| 0 <= i < |ids| && ids[i] in found && found[ids[i]].stateKey.Some? && KeyOf(found[ids[i]]) == k {
        assert i < |front| ==> front[i] == ids[i];
      }
    }
  }

  /** An event whose claims are acceptable, and are the room's current events for the selected keys,
      gets the same verdict from its claims as from the whole room state. */
  lemma {:induction false} ClaimsStandForState(e: Event, found: map<string, Event>, s: State)
    requires e.version.knockRestricted ==> e.version.restricted
    requires ClaimsAcceptable(e, found) && !ReachesUnselectedLevels(e)
    requires forall i :: 0 <= i < |e.authIds| ==> Get(s, KeyOf(found[e.authIds[i]])) == Some(found[e.authIds[i]])
    requires forall k :: k in s && k in AuthTypes(e).value ==>
                           exists i :: 0 <= i < |e.authIds| && KeyOf(found[e.authIds[i]]) == k
    ensures CheckAgainstState(e, ClaimedState(e.authIds, found)) == CheckAgainstState(e, s)
  {
    if e.etype != Create {
      var claimed := ClaimedState(e.authIds, found);
      forall k | k in AuthTypes(e).value ensures Get(claimed, k) == Get(s, k) {
        ClaimedStateEntries(e.authIds, found, k);
      }
      VerdictDependsOnSelection(e, claimed, s);
    }
  }
}
