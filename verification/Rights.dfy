/** Who is calling and what their roles allow, told on the session, the user and the list of roles alone. */
module Rights {
  import opened Model
  import opened Handlers

  predicate Holds(s: State, u: Id, role: string) {
    u in s.users && role in s.users[u].roles
  }

  /** The session still runs, its user is active, and an administrator has MFA where the platform asks for it. */
  predicate SignedIn(p: Platform, o: Oracle, s: State, token: string) {
    && token != "" && token in s.sessions
    && var session := s.sessions[token];
       && p.parse(session.expiresAt).Some? && o.wall <= p.parse(session.expiresAt).value * SECOND
       && session.user in s.users && s.users[session.user].active
       && (p.mfaRequired && (Holds(s, session.user, "super_admin") || Holds(s, session.user, "colony_admin")) ==>
             s.users[session.user].mfa)
  }

  function Caller(s: State, token: string): Id {
    if token in s.sessions then s.sessions[token].user else ""
  }

  predicate IsSuper(s: State, u: Id) {
    Holds(s, u, "super_admin")
  }

  predicate MayTrade(s: State, u: Id) {
    IsSuper(s, u) || Holds(s, u, "trader")
  }

  predicate MayManage(s: State, u: Id, colony: Id) {
    IsSuper(s, u) || (Holds(s, u, "colony_admin") && s.users[u].colony == colony)
  }

  predicate MayRelay(s: State, u: Id, colony: Id) {
    MayManage(s, u, colony) || (Holds(s, u, "relay_operator") && s.users[u].colony == colony)
  }

  /** A handler goes on exactly for a caller who is signed in, and takes the session's user for the caller. */
  lemma CallersAreSignedIn(p: Platform, o: Oracle, s: State, token: string)
    ensures Actor(p, o, s, token).Ok? <==> SignedIn(p, o, s, token)
    ensures Actor(p, o, s, token).Ok? ==> Actor(p, o, s, token).value == Caller(s, token)
  {
  }

  /** The time has passed the moment the text denotes; text that is not a time never passes. */
  predicate TimeIsPast(p: Platform, now: int, text: string) {
    p.parse(text).Some? && now > p.parse(text).value * SECOND
  }
}
