/** Matrix values shared by the models of event authorisation and history visibility:
    identifiers, event types, the content fields those checks read, and room state.
 */
module Events {
  import opened Wrappers

  /** Event types the checks single out; every other type is an `OtherType`. */
  datatype EventType =
    | Create | Member | JoinRules | PowerLevels | Aliases | Redaction | ThirdPartyInvite
    | HistoryVisibility | Dummy | OtherType(name: string)

  datatype Membership = Join | Invite | Knock | Leave | Ban | OtherMembership(name: string)

  datatype JoinRule =
    | PublicRule | InviteRule | KnockRule | RestrictedRule | KnockRestrictedRule
    | OtherRule(name: string)

  datatype Visibility = WorldReadable | Shared | Invited | Joined | OtherVisibility(name: string)

  /** The single-valued levels of a power-levels event. */
  datatype LevelName =
    | UsersDefault | EventsDefault | StateDefault | BanLevel | RedactLevel | KickLevel | InviteLevel

  datatype Levels = Levels(
    named: map<LevelName, int>,
    users: map<string, int>,
    events: map<EventType, int>,
    notifications: map<string, int>)

  /** The `third_party_invite` block of an invite. `Unsigned` stands for a block without a
      `signed` mapping that holds a token; `validFor` is the set of public keys under which the
      signatures of the block verify, or nothing if it has no `signatures` entry.
   */
  datatype ThirdPartyBlock =
    | Unsigned
    | Signed(token: string, mxid: Option<string>, validFor: Option<set<string>>)

  datatype Content = Content(
    membership: Option<Membership>,
    thirdPartyInvite: Option<ThirdPartyBlock>,
    publicKeys: set<string>,
    authorisingUser: Option<string>,
    joinRule: Option<JoinRule>,
    levels: Levels,
    creator: Option<string>,
    federate: bool,
    knownVersion: bool,
    visibility: Option<Visibility>)

  /** The flags of a room version that the authorisation rules consult. */
  datatype RoomVersion = RoomVersion(
    oldEventFormat: bool,
    specialCaseAliases: bool,
    limitNotifications: bool,
    implicitCreator: bool,
    restricted: bool,
    knock: bool,
    knockRestricted: bool)

  datatype Event = Event(
    id: string,
    etype: EventType,
    stateKey: Option<string>,
    sender: string,
    roomId: string,
    content: Content,
    prevContent: Option<Content>,
    redacts: Option<string>,
    prevs: seq<string>,
    authIds: seq<string>,
    timestamp: int,
    outlier: bool,
    softFailed: bool,
    rejected: bool,
    version: RoomVersion)

  type Key = (EventType, string)

  type State = map<Key, Event>

  function KeyOf(e: Event): Key
    requires e.stateKey.Some?
  {
    (e.etype, e.stateKey.value)
  }

  /** Every entry is kept under the type and state key of its own event, as in any state built from events. */
  ghost predicate WellKeyed(s: State) {
    forall k :: k in s ==> s[k].stateKey.Some? && KeyOf(s[k]) == k
  }

  function Get(s: State, k: Key): Option<Event> {
    if k in s then Some(s[k]) else None
  }

  function Restrict(s: State, keys: set<Key>): State {
    map k | k in s && k in keys :: s[k]
  }

  /** State after an accepted event: a state event overwrites its own entry. */
  function Update(s: State, e: Event): State {
    if e.stateKey.Some? then s[(e.etype, e.stateKey.value) := e] else s
  }

  /** Membership recorded for a user, if the state holds a membership event for them. */
  function MembershipOf(s: State, user: string): Option<Membership> {
    if (Member, user) in s then s[(Member, user)].content.membership else None
  }

  /** The part of an identifier after its first colon. */
  function DomainOf(id: string): Option<string> {
    if id == [] then None
    else if id[0] == ':' then Some(id[1..])
    else DomainOf(id[1..])
  }

  /** Whether the identifier parses as a user id: the sigil, then a localpart, a colon and a domain. */
  predicate IsUserId(id: string) {
    |id| > 0 && id[0] == '@' && ':' in id
  }
}
