/** Which events a user may see (synapse/visibility.py), said of the event and the contents of the state alone: a
    reference for the check of one user that uses none of its helpers.
 */
module Sight {
  import opened Events
  import opened Visibility
  import opened Wrappers

  const SETTING: Key := (HistoryVisibility, "")

  /** The setting lets everybody see: it is world-readable, or shared, unset or unknown and nobody is peeking. */
  predicate IsOpen(setting: Option<Events.Visibility>, peeking: bool) {
    setting == Some(WorldReadable) || (!peeking && setting != Some(Invited) && setting != Some(Joined))
  }

  function SettingIn(s: State): Option<Events.Visibility> {
    if SETTING in s then s[SETTING].content.visibility else None
  }

  function Before(e: Event): Option<Membership> {
    if e.prevContent.Some? then e.prevContent.value.membership else None
  }

  predicate IsAway(m: Option<Membership>) {
    m != Some(Join) && m != Some(Invite) && m != Some(Knock) && m != Some(Ban)
  }

  predicate IsOwn(user: string, e: Event) {
    e.etype == Member && e.stateKey == Some(user)
  }

  /** The user's own leaving of a room they were in or invited to. */
  predicate LeavesNow(user: string, e: Event) {
    IsOwn(user, e) && IsAway(e.content.membership) && (Before(e) == Some(Join) || Before(e) == Some(Invite))
  }

  /** The user is joined at the event; at a membership event of their own, before or after it. */
  predicate IsJoinedAt(user: string, e: Event, s: State) {
    if IsOwn(user, e)
    then !LeavesNow(user, e) && (e.content.membership == Some(Join) || Before(e) == Some(Join))
    else (Member, user) in s && s[(Member, user)].content.membership == Some(Join)
  }

  predicate IsInvitedAt(user: string, e: Event, s: State) {
    if IsOwn(user, e)
    then e.content.membership == Some(Invite) || Before(e) == Some(Invite)
    else (Member, user) in s && s[(Member, user)].content.membership == Some(Invite)
  }

  /** Clients get no dummy and alias events, and no messages of ignored senders or past the retention limit. */
  predicate IsWithheld(e: Event, r: Request, ignored: bool) {
    && r.toClient
    && (|| e.etype in {Dummy, Aliases}
        || (e.stateKey.None? && (ignored || (r.maxLifetime.Some? && e.timestamp + r.maxLifetime.value < r.now))))
  }

  /** A user sees whole what happens while they are joined. Otherwise they see what the setting opens to all, or
      to invited users while they are invited, and their own leaving; pruned, if the sender has been
      erased. A change of the setting they also see if the old one was open and the sender has not been
      erased. */
  lemma UserSees(user: string, e: Event, r: Request, ignored: bool, s: State, erased: bool)
    ensures CheckClient(user, e, r, {}, ignored, Some(s), erased)
            == if IsWithheld(e, r, ignored) then Hidden
               else if e.outlier then (if IsOwn(user, e) then Whole else Hidden)
               else if IsJoinedAt(user, e, s) then Whole
               else if || IsOpen(SettingIn(s), r.peeking) || LeavesNow(user, e)
                       || (SettingIn(s) == Some(Invited) && IsInvitedAt(user, e, s))
               then (if erased then Pruned else Whole)
               else if e.etype == HistoryVisibility && !erased && IsOpen(SettingBefore(e), r.peeking) then Whole
               else Hidden
  {
  }

  function SettingBefore(e: Event): Option<Events.Visibility> {
    if e.prevContent.Some? then e.prevContent.value.visibility else None
  }

  /** Events that are always to be included are, unless they are withheld. */
  lemma AlwaysIncluded(user: string, e: Event, r: Request, always: set<string>, ignored: bool, state: Option<State>,
                       erased: bool)
    requires e.id in always
    ensures CheckClient(user, e, r, always, ignored, state, erased) == if IsWithheld(e, r, ignored) then Hidden else Whole
  {
  }

  /** Fetching the setting and the user's own membership is as good as fetching the whole state at the event. */
  lemma FetchSuffices(user: string, e: Event, r: Request, ignoredBy: set<string>, prev: State)
    ensures SightOf(user, e, r, ignoredBy, prev)
            == if e.softFailed then Hidden
               else CheckClient(user, e, r, {}, user in ignoredBy, Some(Update(prev, e)), false)
  {
  }
}
