/** Further guarantees of the authorisation rules over room histories: what the room's state consists of,
    who may have put it there, and what holds while a room has no power levels or is not federated.
 */
module RoomRules {
  import opened Events
  import opened EventAuth
  import opened Histories
  import opened Wrappers

  // ---------------------------------------------------------------------------------------------
  // The state is the latest event for each key

  predicate IsFor(e: Event, k: Key) {
    e.stateKey.Some? && KeyOf(e) == k
  }

  ghost predicate IsLatestFor(h: seq<Event>, k: Key, i: nat) {
    i < |h| && IsFor(h[i], k) && forall j :: i < j < |h| ==> !IsFor(h[j], k)
  }

  /** The entry for a key is the last event of the history for it, and there is none if no event is. */
  lemma {:induction false} StateIsLatest(h: seq<Event>, k: Key, i: nat)
    requires IsLatestFor(h, k, i)
    ensures k in RoomState(h) && RoomState(h)[k] == h[i]
    decreases |h|
  {
    if i < |h| - 1 { StateIsLatest(Front(h), k, i); }
  }

  lemma {:induction false} EntryHasOrigin(h: seq<Event>, k: Key) returns (i: nat)
    requires k in RoomState(h)
    ensures IsLatestFor(h, k, i) && RoomState(h)[k] == h[i]
    decreases |h|
  {
    if IsFor(Last(h), k) {
      i := |h| - 1;
    } else {
      i := EntryHasOrigin(Front(h), k);
    }
  }

  // ---------------------------------------------------------------------------------------------
  // Who may have put it there

  /** Alias events follow a rule of their own in the older room versions. */
  predicate IsSpecialAlias(e: Event) {
    e.etype == Aliases && e.version.specialCaseAliases
  }

  /** State kept under a user's id was put there by that user, and aliases kept under a server's name by
      a user of that server. */
  lemma {:induction false} KeyedStateIsOwn(h: seq<Event>, key: Key)
    requires ValidHistory(h) && key in RoomState(h)
    requires key.0 != Member && key.0 != Create && key.0 != ThirdPartyInvite
    ensures !IsSpecialAlias(RoomState(h)[key]) && |key.1| > 0 && key.1[0] == '@' ==> RoomState(h)[key].sender == key.1
    ensures IsSpecialAlias(RoomState(h)[key]) ==> DomainOf(RoomState(h)[key].sender) == Some(key.1)
  {
    var i := EntryHasOrigin(h, key);
    CreateEntry(h);
    HistoryStep(h, i);
    EventKeyIsOwn(RoomState(h[..i]), h[i]);
  }

  lemma EventKeyIsOwn(s: State, e: Event)
    requires Accepts(s, e) && e.stateKey.Some? && e.etype != Member && e.etype != ThirdPartyInvite
    ensures !IsSpecialAlias(e) && |e.stateKey.value| > 0 && e.stateKey.value[0] == '@' ==> e.sender == e.stateKey.value
    ensures IsSpecialAlias(e) ==> DomainOf(e.sender) == e.stateKey
  {
  }

  // ---------------------------------------------------------------------------------------------
  // How members are lost

  /** The sender is joined, strictly above the user, and has the level the removal takes. */
  predicate Removes(s: State, e: Event, u: string) {
    && e.sender != u && IsJoined(s, e.sender) && UserLevel(s, e.sender) > UserLevel(s, u)
    && (|| (e.content.membership == Some(Leave) && UserLevel(s, e.sender) >= NamedLevel(s, KickLevel, 50))
        || (e.content.membership == Some(Ban) && UserLevel(s, e.sender) >= NamedLevel(s, BanLevel, 50)))
  }

  /** A membership event of the user: their own leaving, a third-party invite, or a removal by rank. */
  predicate EndsJoin(s: State, e: Event, u: string) {
    && e.etype == Member && e.stateKey == Some(u)
    && (|| (e.sender == u && e.content.membership == Some(Leave))
        || IsThirdPartyInviteOf(e, u)
        || Removes(s, e, u))
  }

  lemma JoinEnds(s: State, e: Event, u: string)
    requires Accepts(s, e) && IsJoined(s, u) && !IsJoined(Update(s, e), u)
    ensures EndsJoin(s, e, u)
  {
    assert e.etype == Member && e.stateKey == Some(u) && CheckMembership(e, s) == Allow;
  }

  /** The very step at which the user stops being joined, and why. */
  ghost predicate IsRemoval(h: seq<Event>, k: nat, u: string)
    requires k < |h|
  {
    && IsJoined(RoomState(h[..k]), u) && !IsJoined(RoomState(h[..k + 1]), u)
    && EndsJoin(RoomState(h[..k]), h[k], u)
  }

  lemma {:induction false} LastJoined(h: seq<Event>, i: nat, j: nat, u: string) returns (k: nat)
    requires i <= j <= |h| && IsJoined(RoomState(h[..i]), u) && !IsJoined(RoomState(h[..j]), u)
    ensures i <= k < j && IsJoined(RoomState(h[..k]), u) && !IsJoined(RoomState(h[..k + 1]), u)
    decreases j
  {
    if IsJoined(RoomState(h[..j - 1]), u) { k := j - 1; } else { k := LastJoined(h, i, j - 1, u); }
  }

  /** Between a state in which somebody is joined and a later one in which they are not, they leave, are
      invited by a third-party invite, or are removed by somebody above them. */
  lemma {:induction false} MemberLostByRank(h: seq<Event>, i: nat, j: nat, u: string) returns (k: nat)
    requires ValidHistory(h) && 0 < i <= j <= |h|
    requires IsJoined(RoomState(h[..i]), u) && !IsJoined(RoomState(h[..j]), u)
    ensures i <= k < j && IsRemoval(h, k, u)
  {
    k := LastJoined(h, i, j, u);
    JoinEndsAt(h, k, u);
  }

  lemma {:induction false} JoinEndsAt(h: seq<Event>, k: nat, u: string)
    requires ValidHistory(h) && 0 < k < |h|
    requires IsJoined(RoomState(h[..k]), u) && !IsJoined(RoomState(h[..k + 1]), u)
    ensures IsRemoval(h, k, u)
  {
    HistoryStep(h, k);
    JoinEnds(RoomState(h[..k]), h[k], u);
  }

  // ---------------------------------------------------------------------------------------------
  // How members are gained, in any room

  /** Somebody joined who may invite stands in for the missing invite of a restricted room. */
  predicate IsVouchedFor(s: State, e: Event) {
    && RestrictedJoins(e.version, JoinRuleOf(s))
    && e.content.authorisingUser.Some?
    && IsJoined(s, e.content.authorisingUser.value)
    && UserLevel(s, e.content.authorisingUser.value) >= NamedLevel(s, InviteLevel, 0)
  }

  /** The event admits the user: as the creator, into a public room, vouched for, or by an invite of
      somebody who had joined before. */
  ghost predicate Admits(h: seq<Event>, k: nat, u: string)
    requires k < |h|
  {
    var s := RoomState(h[..k]);
    && h[k].etype == Member && h[k].stateKey == Some(u)
    && (|| (h[k].content.membership == Some(Join) && k == 1 && CreatorOf(h[0], h[0].version) == Some(u))
        || (h[k].content.membership == Some(Join) && h[k].sender == u
            && (JoinRuleOf(s) == PublicRule || IsVouchedFor(s, h[k])))
        || (IsInviteOf(h[k], u) && HasJoinedBy(h, k, h[k].sender)))
  }

  lemma JoinAllowed(s: State, e: Event, u: string)
    requires Accepts(s, e) && e.etype == Member && e.stateKey == Some(u) && e.content.membership == Some(Join)
    ensures IsCreatorJoin(e, s)
            || (e.sender == u
                && (|| IsJoined(s, u) || MembershipOf(s, u) == Some(Invite)
                    || JoinRuleOf(s) == PublicRule || IsVouchedFor(s, e)))
  {
    assert CheckMembership(e, s) == Allow;
  }

  /** Whatever its join rules have been, everybody who is joined has been admitted at some point. */
  lemma {:induction false} MembersWereAdmitted(h: seq<Event>, j: nat, u: string) returns (k: nat)
    requires ValidHistory(h) && 0 < j <= |h| && IsJoined(RoomState(h[..j]), u)
    ensures k < j && Admits(h, k, u)
    decreases j
  {
    PrefixValid(h, j);
    var i := EntryHasOrigin(h[..j], (Member, u));
    CreateEntry(h[..j]);
    HistoryStep(h, i);
    var s := RoomState(h[..i]);
    JoinAllowed(s, h[i], u);
    if IsCreatorJoin(h[i], s) {
      CreatorJoinsOnlyFirst(h, i);
      k := i;
    } else if IsJoined(s, u) {
      k := MembersWereAdmitted(h, i, u);
    } else if MembershipOf(s, u) == Some(Invite) {
      k := InvitedByMember(h, i, u);
    } else {
      k := i;
    }
  }

  // ---------------------------------------------------------------------------------------------
  // Knocking

  predicate AllowsKnocks(version: RoomVersion, e: Event) {
    && version.knock
    && (e.content.joinRule == Some(KnockRule)
        || (version.knockRestricted && e.content.joinRule == Some(KnockRestrictedRule)))
  }

  lemma KnockAllowed(s: State, e: Event, u: string)
    requires Accepts(s, e) && e.etype == Member && e.stateKey == Some(u) && e.content.membership == Some(Knock)
    ensures e.sender == u && (JoinRules, "") in s && AllowsKnocks(e.version, s[(JoinRules, "")])
    ensures MembershipOf(s, u) != Some(Ban) && MembershipOf(s, u) != Some(Invite) && !IsJoined(s, u)
  {
    assert CheckMembership(e, s) == Allow;
  }

  /** Whoever is knocking has knocked themselves, under a join rule then in force that allows it, and was
      neither joined, invited nor banned when they did. */
  lemma {:induction false} KnocksWereAllowed(h: seq<Event>, u: string) returns (rule: nat, k: nat)
    requires ValidHistory(h) && MembershipOf(RoomState(h), u) == Some(Knock)
    ensures rule < k < |h| && h[k].etype == Member && h[k].stateKey == Some(u)
    ensures h[k].sender == u && h[k].content.membership == Some(Knock)
    ensures AllowsKnocks(h[0].version, h[rule]) && IsLatestFor(h[..k], (JoinRules, ""), rule)
    ensures var before := MembershipOf(RoomState(h[..k]), u);
            before != Some(Join) && before != Some(Invite) && before != Some(Ban)
  {
    k := EntryHasOrigin(h, (Member, u));
    CreateEntry(h);
    HistoryStep(h, k);
    KnockAllowed(RoomState(h[..k]), h[k], u);
    rule := EntryHasOrigin(h[..k], (JoinRules, ""));
  }

  // ---------------------------------------------------------------------------------------------
  // Before the first power-levels event

  /** While a room has no power-levels event, only its creator sends state other than membership and
      third-party invites, removes others, or bans. */
  lemma {:induction false} OnlyCreatorRules(h: seq<Event>, k: nat)
    requires ValidHistory(h) && 0 < k < |h| && !HasLevels(RoomState(h[..k]))
    requires h[k].stateKey.Some? && !IsSpecialAlias(h[k]) && h[k].etype != ThirdPartyInvite
    requires h[k].etype == Member ==>
               h[k].content.membership == Some(Ban)
               || (h[k].content.membership == Some(Leave) && h[k].stateKey != Some(h[k].sender))
    ensures CreatorOf(h[0], h[0].version) == Some(h[k].sender)
  {
    HistoryStep(h, k);
    CreateEntry(h[..k]);
    PowerOfTheCreator(RoomState(h[..k]), h[k]);
  }

  lemma PowerOfTheCreator(s: State, e: Event)
    requires Accepts(s, e) && !HasLevels(s) && e.stateKey.Some? && !IsSpecialAlias(e) && e.etype != ThirdPartyInvite
    requires e.etype == Member ==>
               e.content.membership == Some(Ban) || (e.content.membership == Some(Leave) && e.stateKey != Some(e.sender))
    ensures (Create, "") in s && CreatorOf(s[(Create, "")], s[(Create, "")].version) == Some(e.sender)
  {
    assert UserLevel(s, e.sender) >= 50;
  }

  // ---------------------------------------------------------------------------------------------
  // Rooms that are not federated

  /** In a room whose create event forbids federation, every event comes from the room's own server, and
      so does every member, the creator excepted. */
  lemma {:induction false} UnfederatedStaysLocal(h: seq<Event>, k: nat)
    requires ValidHistory(h) && 0 < k < |h| && !h[0].content.federate
    ensures DomainOf(h[k].sender) == DomainOf(h[0].roomId)
    ensures h[k].etype == Member && h[k].stateKey.Some? ==>
              DomainOf(h[k].stateKey.value) == DomainOf(h[0].roomId) || h[k].stateKey == CreatorOf(h[0], h[0].version)
  {
    HistoryStep(h, k);
    PrefixValid(h, k);
    CreateEntry(h[..k]);
    LocalUnlessFederated(RoomState(h[..k]), h[k]);
    if h[k].etype == Member && IsCreatorJoin(h[k], RoomState(h[..k])) { CreatorJoinsOnlyFirst(h, k); }
  }

  lemma LocalUnlessFederated(s: State, e: Event)
    requires Accepts(s, e) && e.etype != Create && !CanFederate(s)
    ensures DomainOf(e.sender) == DomainOf(e.roomId)
    ensures e.etype == Member && e.stateKey.Some? && !IsCreatorJoin(e, s) ==> DomainOf(e.stateKey.value) == DomainOf(e.roomId)
  {
  }
}
