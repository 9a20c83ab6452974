/**
 One installation's binding, its members and its local login sessions, and the
 epochs that make old sessions worthless.  ai2apps/identity.py.
 */
module Identity {
  import opened Base

  datatype Role = Core | Owner | Admin | Developer | Member | Child | Guest
  datatype Status = Active | Suspended | Revoked

  predicate IsCoreRole(r: Role) {
    r.Core? || r.Owner?
  }

  /** What an installation is bound to for good. */
  datatype Authority = Authority(id: string, device: string, organization: string, business: bool, core: string,
                                 billing: string)

  datatype Installation = Installation(authority: Authority, accessEpoch: int, localEpoch: int, status: Status)

  datatype Membership = Membership(role: Role, status: Status, membershipEpoch: int, accountEpoch: int)

  /** A session's snapshot of what it was created from; times in seconds. */
  datatype Session = Session(installation: string, user: string, role: Role, membershipEpoch: int, accessEpoch: int,
                             localEpoch: int, accountEpoch: int, expires: int, lastCheck: int)

  type Token = string

  /** The tables, and every token ever stored. */
  datatype Database = Database(installation: Option<Installation>, members: map<string, Membership>,
                               sessions: map<Token, Session>, issued: set<Token>)

  const IDLE_TIMEOUT: int := 30 * 86400
  const MAX_LIFETIME: int := 365 * 86400

  function Empty(): Database {
    Database(None, map[], map[], {})
  }

  function Or(given: Option<int>, otherwise: int): int {
    if given.Some? then given.value else otherwise
  }

  /** The epoch a snapshot without one keeps. */
  function KeptAccountEpoch(members: map<string, Membership>, user: string): int {
    if user in members then members[user].accountEpoch else 1
  }

  function WithoutUser(sessions: map<Token, Session>, user: string): map<Token, Session> {
    map t | t in sessions && sessions[t].user != user :: sessions[t]
  }

  predicate Positive(e: Option<int>) {
    e.Some? ==> e.value >= 1
  }

  /******* Binding *******/

  datatype Binding = Binding(authority: Authority, accessEpoch: int, localEpoch: Option<int>,
                             membershipEpoch: Option<int>, accountEpoch: Option<int>, role: Role)

  /** Malformed, another authority, or some epoch going back. */
  function BindingError(db: Database, b: Binding): Option<string> {
    var membershipEpoch := Or(b.membershipEpoch, b.accessEpoch);
    if b.accessEpoch < 1 || !Positive(b.localEpoch) || membershipEpoch < 1 || !Positive(b.accountEpoch)
    then Some("epoch must be positive")
    else if !IsCoreRole(b.role) then Some("core_role must be core or owner")
    else if db.installation.Some? && db.installation.value.authority != b.authority
    then Some("Installation is already bound to another Cloud authority")
    else if db.installation.Some? && b.accessEpoch < db.installation.value.accessEpoch
    then Some("Installation access epoch regressed")
    else if db.installation.Some?
      && Or(b.localEpoch, db.installation.value.localEpoch) < db.installation.value.localEpoch
    then Some("Local Session epoch regressed")
    else if b.authority.core in db.members
      && Or(b.accountEpoch, db.members[b.authority.core].accountEpoch) < db.members[b.authority.core].accountEpoch
    then Some("Core account Session epoch regressed")
    else if b.authority.core in db.members && membershipEpoch < db.members[b.authority.core].membershipEpoch
    then Some("Core membership epoch regressed")
    else None
  }

  function Bound(db: Database, b: Binding): Database {
    var was := db.installation;
    var local := Or(b.localEpoch, if was.Some? then was.value.localEpoch else 1);
    var user := b.authority.core;
    var core := Membership(b.role, Active, Or(b.membershipEpoch, b.accessEpoch),
                           Or(b.accountEpoch, KeptAccountEpoch(db.members, user)));
    var sessions :=
      if was.Some? && (b.accessEpoch != was.value.accessEpoch || local != was.value.localEpoch) then map[]
      else if user in db.members && db.members[user] != core then WithoutUser(db.sessions, user)
      else db.sessions;
    Database(Some(Installation(b.authority, b.accessEpoch, local, Active)), db.members[user := core], sessions,
             db.issued)
  }

  /******* One membership *******/

  datatype Snapshot = Snapshot(user: string, role: Role, status: Status, membershipEpoch: int,
                               accountEpoch: Option<int>)

  function UpsertError(db: Database, s: Snapshot): Option<string> {
    if s.membershipEpoch < 1 || !Positive(s.accountEpoch) then Some("epoch must be positive")
    else if db.installation.None? then Some("Installation is not bound")
    else if s.user == db.installation.value.authority.core && !IsCoreRole(s.role)
    then Some("Core account role cannot be downgraded locally")
    else if s.user in db.members && s.membershipEpoch < db.members[s.user].membershipEpoch
    then Some("Membership epoch regressed")
    else if s.user in db.members
      && Or(s.accountEpoch, db.members[s.user].accountEpoch) < db.members[s.user].accountEpoch
    then Some("Account Session epoch regressed")
    else None
  }

  /** The membership a snapshot stands for. */
  function Resolved(members: map<string, Membership>, s: Snapshot): Membership {
    Membership(s.role, s.status, s.membershipEpoch, Or(s.accountEpoch, KeptAccountEpoch(members, s.user)))
  }

  /** Sessions stay where they are: whether they count is decided when they are used. */
  function Upserted(db: Database, s: Snapshot): Database {
    db.(members := db.members[s.user := Resolved(db.members, s)])
  }

  /******* The whole projection *******/

  datatype Projection = Projection(id: string, device: string, organization: string, status: Status, accessEpoch: int,
                                   localEpoch: Option<int>, items: seq<Snapshot>)

  predicate Malformed(s: Snapshot) {
    s.membershipEpoch < 1 || !Positive(s.accountEpoch)
  }

  predicate Regresses(members: map<string, Membership>, s: Snapshot) {
    s.user in members && (s.membershipEpoch < members[s.user].membershipEpoch
                          || (s.accountEpoch.Some? && s.accountEpoch.value < members[s.user].accountEpoch))
  }

  /** The item about a user, if the projection has one. */
  function ItemOf(items: seq<Snapshot>, user: string): Option<Snapshot> {
    if items == [] then None else if items[0].user == user then Some(items[0]) else ItemOf(items[1..], user)
  }

  predicate Repeats(items: seq<Snapshot>) {
    exists i, j :: 0 <= i < j < |items| && items[i].user == items[j].user
  }

  /** Another installation or authority, an epoch going back, or a core account that is missing or inactive. */
  function AuthorityError(db: Database, p: Projection): Option<string> {
    if db.installation.None? || db.installation.value.authority.id != p.id then Some("Installation is not bound")
    else
      var now := db.installation.value;
      var core := ItemOf(p.items, now.authority.core);
      if now.authority.device != p.device || now.authority.organization != p.organization
      then Some("Cloud access projection changed installation authority")
      else if p.accessEpoch < now.accessEpoch then Some("Installation access epoch regressed")
      else if Or(p.localEpoch, now.localEpoch) < now.localEpoch then Some("Local Session epoch regressed")
      else if core.None? || !IsCoreRole(core.value.role) then Some("Cloud access projection omitted the core account")
      else if p.status.Active? && !core.value.status.Active?
      then Some("Active installation projection has an inactive core account")
      else None
  }

  function ProjectionError(db: Database, p: Projection): Option<string> {
    if p.accessEpoch < 1 || !Positive(p.localEpoch) then Some("epoch must be positive")
    else if exists s :: s in p.items && Malformed(s) then Some("membership projection is invalid")
    else if Repeats(p.items) then Some("membership projection contains duplicate users")
    else if AuthorityError(db, p).Some? then AuthorityError(db, p)
    else if exists s :: s in p.items && Regresses(db.members, s) then Some("Membership epoch regressed")
    else None
  }

  /** Members the projection does not mention are revoked with their epochs. */
  function ProjectedMembers(members: map<string, Membership>, items: seq<Snapshot>): map<string, Membership> {
    map u | u in members.Keys + (set s | s in items :: s.user) ::
      if ItemOf(items, u).Some? then Resolved(members, ItemOf(items, u).value)
      else if u in members then members[u].(status := Revoked) else Membership(Guest, Revoked, 1, 1)
  }

  /** A member whose authorisation changed, or who is not active, loses the sessions. */
  predicate LosesSessions(before: map<string, Membership>, after: map<string, Membership>, items: seq<Snapshot>,
                          user: string)
  {
    if ItemOf(items, user).Some?
    then user !in before || user !in after || before[user] != after[user] || !after[user].status.Active?
    else user in before
  }

  function Projected(db: Database, p: Projection): Database
    requires db.installation.Some?
  {
    var was := db.installation.value;
    var local := Or(p.localEpoch, was.localEpoch);
    var members := ProjectedMembers(db.members, p.items);
    var sessions :=
      if p.accessEpoch != was.accessEpoch || local != was.localEpoch || !p.status.Active? then map[]
      else
        map t | t in db.sessions && !LosesSessions(db.members, members, p.items, db.sessions[t].user) :: db.sessions[t];
    Database(Some(was.(accessEpoch := p.accessEpoch, localEpoch := local, status := p.status)), members, sessions,
             db.issued)
  }

  function Deactivated(db: Database, status: Status): Database {
    if db.installation.None? then db
    else db.(installation := Some(db.installation.value.(status := status)), sessions := map[])
  }

  /******* Sessions *******/

  /** An active member of the active installation. */
  function PrincipalFor(db: Database, user: string): Option<Membership> {
    if db.installation.Some? && db.installation.value.status.Active? && user in db.members
      && db.members[user].status.Active?
    then Some(db.members[user]) else None
  }

  /** What a login of an active member stores when nothing changes between its reads. */
  function NewSession(db: Database, user: string, now: int, lifetime: int): Session
    requires PrincipalFor(db, user).Some?
  {
    var bound, m := db.installation.value, db.members[user];
    Session(bound.authority.id, user, m.role, m.membershipEpoch, bound.accessEpoch, bound.localEpoch, m.accountEpoch,
            now + lifetime, now)
  }

  predicate TimedOut(s: Session, now: int) {
    s.expires <= now || s.lastCheck + IDLE_TIMEOUT <= now
  }

  /** The account holder and role, only while everything the session was created from still stands. */
  predicate Authorized(db: Database, token: Token, now: int) {
    && token in db.sessions && !TimedOut(db.sessions[token], now)
    && var s := db.sessions[token];
       var m := PrincipalFor(db, s.user);
       && m.Some? && s.installation == db.installation.value.authority.id
       && m.value.membershipEpoch == s.membershipEpoch && m.value.role == s.role
       && db.installation.value.accessEpoch == s.accessEpoch && db.installation.value.localEpoch == s.localEpoch
       && m.value.accountEpoch == s.accountEpoch
  }

  /** A lookup drops the row on a time-out or an epoch of its own that moved on, and otherwise notes the time. */
  function LookedUp(db: Database, token: Token, now: int): Database {
    if token !in db.sessions then db
    else
      var s := db.sessions[token];
      var m := PrincipalFor(db, s.user);
      if TimedOut(s, now) then db.(sessions := db.sessions - {token})
      else if m.None? || s.installation != db.installation.value.authority.id
              || m.value.membershipEpoch != s.membershipEpoch || m.value.role != s.role then db
      else if !Authorized(db, token, now) then db.(sessions := db.sessions - {token})
      else db.(sessions := db.sessions[token := s.(lastCheck := now)])
  }

  /** The first transaction of a look-up. */
  function ReadRow(db: Database, token: Token, now: int): Look {
    if token !in db.sessions then Answered(None)
    else if TimedOut(db.sessions[token], now) then Checked(token, now, None)
    else Found(token, db.sessions[token], now)
  }

  /** What the next transaction of a look-up reads. */
  function Advance(db: Database, l: Look): Look {
    match l
    case Found(token, s, now) =>
      if db.installation.None? || !db.installation.value.status.Active? then Answered(None)
      else Bounded(token, s, now, db.installation.value.authority.id)
    case Bounded(token, s, now, id) =>
      if s.user !in db.members || !db.members[s.user].status.Active? || id != s.installation
         || db.members[s.user].membershipEpoch != s.membershipEpoch || db.members[s.user].role != s.role
      then Answered(None)
      else Matched(token, s, now, db.members[s.user])
    case Matched(token, s, now, m) =>
      Renewed(token, s, now, m, db.installation.Some? && db.installation.value.accessEpoch == s.accessEpoch
                                && db.installation.value.localEpoch == s.localEpoch)
    case Renewed(token, s, now, m, current) =>
      Checked(token, now, if current && s.user in db.members && db.members[s.user].accountEpoch == s.accountEpoch
                          then Some(m) else None)
    case Checked(_, _, answer) => Answered(answer)
    case Answered(_) => l
  }

  /** What its last transaction writes: the time of a good look-up, or the removal of a stale row. */
  function Settle(db: Database, l: Look): Database {
    if !l.Checked? || l.token !in db.sessions then db
    else if l.answer.Some? then db.(sessions := db.sessions[l.token := db.sessions[l.token].(lastCheck := l.now)])
    else db.(sessions := db.sessions - {l.token})
  }

  /******* Steps *******/

  /** A login between its reads and its insertion. */
  datatype Draft = Draft(user: string, role: Role, membershipEpoch: int, installation: string,
                         accessEpoch: Option<int>, localEpoch: Option<int>, accountEpoch: Option<int>)

  /**
   A look-up between its transactions: the row was read; the active installation was; the active member was and
   matched; the epochs of the installation were compared; those of the account were; and it answered.
   */
  datatype Look =
    | Found(token: Token, session: Session, now: int)
    | Bounded(token: Token, session: Session, now: int, id: string)
    | Matched(token: Token, session: Session, now: int, member: Membership)
    | Renewed(token: Token, session: Session, now: int, member: Membership, current: bool)
    | Checked(token: Token, now: int, answer: Option<Membership>)
    | Answered(answer: Option<Membership>)

  datatype World = World(db: Database, drafts: map<nat, Draft>, looks: map<nat, Look>)

  datatype Step =
    | Bind(binding: Binding)
    | Upsert(snapshot: Snapshot)
    | Project(projection: Projection)
    | Deactivate(status: Status)
    | BeginLookup(look: nat, token: Token, now: int)
    | ContinueLookup(look: nat)
    | Revoke(token: Token)
    | ReadPrincipal(login: nat, user: string)
    | ReadInstallation(login: nat)
    | ReadMembership(login: nat)
    | Insert(login: nat, token: Token, now: int, lifetime: int)

  predicate Enabled(w: World, s: Step) {
    match s
    case Deactivate(status) => !status.Active?
    case BeginLookup(look, _, _) => look !in w.looks
    case ContinueLookup(look) => look in w.looks && !w.looks[look].Answered?
    case ReadPrincipal(login, _) => login !in w.drafts
    case ReadInstallation(login) => login in w.drafts && w.drafts[login].accessEpoch.None?
    case ReadMembership(login) => login in w.drafts && w.drafts[login].accessEpoch.Some?
      && w.drafts[login].accountEpoch.None?
    case Insert(login, token, _, lifetime) =>
      login in w.drafts && w.drafts[login].accessEpoch.Some? && w.drafts[login].localEpoch.Some?
        && w.drafts[login].accountEpoch.Some?
      && token !in w.db.issued && 0 < lifetime <= MAX_LIFETIME
    case _ => true
  }

  function Next(w: World, s: Step): World
    requires Enabled(w, s)
  {
    match s
    case Bind(b) => if BindingError(w.db, b).Some? then w else w.(db := Bound(w.db, b))
    case Upsert(s) => if UpsertError(w.db, s).Some? then w else w.(db := Upserted(w.db, s))
    case Project(p) => if ProjectionError(w.db, p).Some? then w else w.(db := Projected(w.db, p))
    case Deactivate(status) => w.(db := Deactivated(w.db, status))
    case BeginLookup(look, token, now) => w.(looks := w.looks[look := ReadRow(w.db, token, now)])
    case ContinueLookup(look) =>
      w.(db := Settle(w.db, w.looks[look]), looks := w.looks[look := Advance(w.db, w.looks[look])])
    case Revoke(token) => w.(db := w.db.(sessions := w.db.sessions - {token}))
    case ReadPrincipal(login, user) =>
      if PrincipalFor(w.db, user).None? then w
      else w.(drafts := w.drafts[login := Draft(user, w.db.members[user].role, w.db.members[user].membershipEpoch,
                                                w.db.installation.value.authority.id, None, None, None)])
    case ReadInstallation(login) =>
      if w.db.installation.None? then w.(drafts := w.drafts - {login})
      else w.(drafts := w.drafts[login := w.drafts[login].(accessEpoch := Some(w.db.installation.value.accessEpoch),
                                                           localEpoch := Some(w.db.installation.value.localEpoch))])
    case ReadMembership(login) =>
      if w.drafts[login].user !in w.db.members then w.(drafts := w.drafts - {login})
      else
        var account := w.db.members[w.drafts[login].user].accountEpoch;
        w.(drafts := w.drafts[login := w.drafts[login].(accountEpoch := Some(account))])
    case Insert(login, token, now, lifetime) =>
      var d := w.drafts[login];
      var session := Session(d.installation, d.user, d.role, d.membershipEpoch, d.accessEpoch.value,
                             d.localEpoch.value, d.accountEpoch.value, now + lifetime, now);
      w.(db := w.db.(sessions := w.db.sessions[token := session],
                     issued := w.db.issued + {token}),
         drafts := w.drafts - {login})
  }

  predicate Runs(w: World, run: seq<Step>)
    decreases |run|
  {
    run == [] || (Enabled(w, run[0]) && Runs(Next(w, run[0]), run[1..]))
  }

  function After(w: World, run: seq<Step>): World
    requires Runs(w, run)
    decreases |run|
  {
    if run == [] then w else After(Next(w, run[0]), run[1..])
  }
}
