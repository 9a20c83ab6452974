/** Epochs only grow, and a session whose epochs are passed is worthless for ever. */
module IdentityProofs {
  import opened Base
  import opened Identity

  /******* Epochs never decrease *******/

  ghost predicate InstallationGrows(a: Option<Installation>, b: Option<Installation>) {
    a.Some? ==>
      && b.Some? && b.value.authority == a.value.authority
      && a.value.accessEpoch <= b.value.accessEpoch && a.value.localEpoch <= b.value.localEpoch
  }

  predicate MemberGrows(a: Membership, b: Membership) {
    a.membershipEpoch <= b.membershipEpoch && a.accountEpoch <= b.accountEpoch
  }

  ghost predicate MembersGrow(a: map<string, Membership>, b: map<string, Membership>) {
    forall u :: u in a ==> u in b && MemberGrows(a[u], b[u])
  }

  /** The authority stays, nobody is forgotten, and no epoch goes back. */
  ghost predicate Grows(a: Database, b: Database) {
    InstallationGrows(a.installation, b.installation) && MembersGrow(a.members, b.members) && a.issued <= b.issued
  }

  lemma GrowsTrans(a: Database, b: Database, d: Database)
    requires Grows(a, b) && Grows(b, d)
    ensures Grows(a, d)
  {
  }

  lemma BoundGrows(db: Database, b: Binding)
    requires BindingError(db, b).None?
    ensures Grows(db, Bound(db, b))
  {
  }

  lemma UpsertedGrows(db: Database, s: Snapshot)
    requires UpsertError(db, s).None?
    ensures Grows(db, Upserted(db, s))
  {
  }

  lemma {:induction false} ItemOfIsItem(items: seq<Snapshot>, user: string)
    ensures ItemOf(items, user).Some? ==> ItemOf(items, user).value in items && ItemOf(items, user).value.user == user
    ensures ItemOf(items, user).None? <==> forall s :: s in items ==> s.user != user
  {
    if items != [] { ItemOfIsItem(items[1..], user); }
  }

  lemma ProjectedGrows(db: Database, p: Projection)
    requires ProjectionError(db, p).None?
    ensures Grows(db, Projected(db, p))
  {
    var after := ProjectedMembers(db.members, p.items);
    forall u | u in db.members ensures u in after && MemberGrows(db.members[u], after[u]) {
      ItemOfIsItem(p.items, u);
    }
  }

  lemma StepGrows(w: World, s: Step)
    requires Enabled(w, s)
    ensures Grows(w.db, Next(w, s).db)
  {
    hide BindingError, Bound, UpsertError, Upserted, ProjectionError, Projected;
    match s {
      case Bind(b) => if BindingError(w.db, b).None? { BoundGrows(w.db, b); }
      case Upsert(u) => if UpsertError(w.db, u).None? { UpsertedGrows(w.db, u); }
      case Project(p) => if ProjectionError(w.db, p).None? { BoundToProject(w.db, p); ProjectedGrows(w.db, p); }
      case _ =>
    }
  }

  lemma BoundToProject(db: Database, p: Projection)
    requires ProjectionError(db, p).None?
    ensures db.installation.Some?
  {
  }

  /** No sequence of steps lets the access, session, membership or account epoch of anybody decrease. */
  lemma {:induction false} EpochsNeverDecrease(w: World, run: seq<Step>)
    requires Runs(w, run)
    ensures Grows(w.db, After(w, run).db)
    decreases |run|
  {
    if run != [] {
      StepGrows(w, run[0]);
      EpochsNeverDecrease(Next(w, run[0]), run[1..]);
      GrowsTrans(w.db, Next(w, run[0]).db, After(w, run).db);
    }
  }

  /******* What is refused *******/

  predicate WellFormedSnapshot(s: Snapshot) {
    s.membershipEpoch >= 1 && Positive(s.accountEpoch)
  }

  /** The installation is bound, and its core account keeps a core role. */
  predicate KeepsCoreRole(db: Database, s: Snapshot) {
    db.installation.Some? && (s.user == db.installation.value.authority.core ==> s.role == Core || s.role == Owner)
  }

  /** A well-formed snapshot that keeps the core role is refused exactly when some epoch would go back. */
  lemma UpsertIsExact(db: Database, s: Snapshot)
    ensures UpsertError(db, s).None? <==>
              WellFormedSnapshot(s) && KeepsCoreRole(db, s) && Grows(db, Upserted(db, s))
  {
    if UpsertError(db, s).None? { UpsertedGrows(db, s); }
    if s.user in db.members && Grows(db, Upserted(db, s)) {
      assert MemberGrows(db.members[s.user], Upserted(db, s).members[s.user]);
    }
  }

  predicate WellFormedBinding(b: Binding) {
    b.accessEpoch >= 1 && Positive(b.localEpoch) && Or(b.membershipEpoch, b.accessEpoch) >= 1
      && Positive(b.accountEpoch)
    && (b.role == Core || b.role == Owner)
  }

  /** A well-formed binding is refused exactly when it would change the authority or let some epoch go back. */
  lemma BindingIsExact(db: Database, b: Binding)
    ensures BindingError(db, b).None? <==> WellFormedBinding(b) && Grows(db, Bound(db, b))
  {
    if BindingError(db, b).None? { BoundGrows(db, b); }
    var user := b.authority.core;
    if user in db.members && Grows(db, Bound(db, b)) {
      assert MemberGrows(db.members[user], Bound(db, b).members[user]);
    }
  }

  /** Epochs are positive and no user occurs twice. */
  ghost predicate WellFormedProjection(p: Projection) {
    && p.accessEpoch >= 1 && (p.localEpoch.Some? ==> p.localEpoch.value >= 1)
    && (forall s :: s in p.items ==>
          s.membershipEpoch >= 1 && (s.accountEpoch.Some? ==> s.accountEpoch.value >= 1))
    && forall i, j :: 0 <= i < j < |p.items| ==> p.items[i].user != p.items[j].user
  }

  /**
   It is about the bound installation and keeps the core account: in a core role, and active if the installation is.
   */
  ghost predicate KeepsAuthority(db: Database, p: Projection) {
    && db.installation.Some?
    && var a := db.installation.value.authority;
       && a.id == p.id && a.device == p.device && a.organization == p.organization
       && exists s :: s in p.items && s.user == a.core && (s.role == Core || s.role == Owner)
                      && (p.status == Active ==> s.status == Active)
  }

  /** A well-formed projection that keeps the authority is refused exactly when some epoch would go back. */
  lemma ProjectionIsExact(db: Database, p: Projection)
    ensures ProjectionError(db, p).None? <==>
              WellFormedProjection(p) && KeepsAuthority(db, p) && Grows(db, Projected(db, p))
  {
    hide ProjectionError, Projected, Grows, ItemOf, Regresses;
    if ProjectionError(db, p).None? {
      BoundToProject(db, p);
      ProjectedGrows(db, p);
      AcceptedIs(db, p);
      ItemOfIsItem(p.items, db.installation.value.authority.core);
    }
    if WellFormedProjection(p) && KeepsAuthority(db, p) && Grows(db, Projected(db, p)) {
      GrowingIsAccepted(db, p);
    }
  }

  /** The projection is about the bound installation, lets no epoch of it go back and keeps its core account. */
  predicate FitsBound(db: Database, p: Projection) {
    && db.installation.Some?
    && var was := db.installation.value;
       var core := ItemOf(p.items, was.authority.core);
       && was.authority.id == p.id && was.authority.device == p.device && was.authority.organization == p.organization
       && p.accessEpoch >= was.accessEpoch && (p.localEpoch.Some? ==> p.localEpoch.value >= was.localEpoch)
       && core.Some? && (core.value.role == Core || core.value.role == Owner)
       && (p.status == Active ==> core.value.status == Active)
  }

  lemma AcceptedIs(db: Database, p: Projection)
    ensures ProjectionError(db, p).None? <==>
              && p.accessEpoch >= 1 && (p.localEpoch.Some? ==> p.localEpoch.value >= 1)
              && (forall s :: s in p.items ==> !Malformed(s)) && !Repeats(p.items)
              && FitsBound(db, p) && forall s :: s in p.items ==> !Regresses(db.members, s)
  {
    hide Regresses, Malformed, Repeats, AuthorityError, FitsBound;
    AuthorityFits(db, p);
  }

  lemma AuthorityFits(db: Database, p: Projection)
    ensures AuthorityError(db, p).None? <==> FitsBound(db, p)
  {
    hide ItemOf;
  }

  lemma GrowingIsAccepted(db: Database, p: Projection)
    requires WellFormedProjection(p) && KeepsAuthority(db, p) && Grows(db, Projected(db, p))
    ensures ProjectionError(db, p).None?
  {
    forall s | s in p.items ensures ItemOf(p.items, s.user) == Some(s) { OnlyItem(p.items, s); }
    forall s | s in p.items ensures !Regresses(db.members, s) { GrowingItem(db, p, s); }
    hide Projected, Regresses, ItemOf, Grows, ProjectionError;
    assert InstallationGrows(db.installation, Projected(db, p).installation) by { GrowsBoth(db, Projected(db, p)); }
    LocalEpochGrows(db, p);
    AcceptedIs(db, p);
  }

  lemma GrowsBoth(a: Database, b: Database)
    requires Grows(a, b)
    ensures InstallationGrows(a.installation, b.installation) && MembersGrow(a.members, b.members)
  {
  }

  lemma LocalEpochGrows(db: Database, p: Projection)
    requires db.installation.Some? && InstallationGrows(db.installation, Projected(db, p).installation)
    ensures db.installation.value.accessEpoch <= p.accessEpoch
    ensures db.installation.value.localEpoch <= Or(p.localEpoch, db.installation.value.localEpoch)
  {
    hide ProjectedMembers, LosesSessions;
  }

  lemma GrowingItem(db: Database, p: Projection, s: Snapshot)
    requires db.installation.Some? && Grows(db, Projected(db, p)) && s in p.items && ItemOf(p.items, s.user) == Some(s)
    ensures !Regresses(db.members, s)
  {
    hide LosesSessions, ItemOf;
    if s.user in db.members {
      assert MemberGrows(db.members[s.user], Projected(db, p).members[s.user]);
    }
  }

  /******* Superseded sessions *******/

  /** Some current epoch exceeds the one the session was created with. */
  predicate Exceeded(db: Database, s: Session) {
    || (db.installation.Some?
        && (db.installation.value.accessEpoch > s.accessEpoch || db.installation.value.localEpoch > s.localEpoch))
    || (s.user in db.members
        && (db.members[s.user].membershipEpoch > s.membershipEpoch || db.members[s.user].accountEpoch > s.accountEpoch))
  }

  /** The token was stored once, and its row is gone or superseded. */
  predicate Dead(db: Database, token: Token) {
    token in db.issued && (token in db.sessions ==> Exceeded(db, db.sessions[token]))
  }

  lemma DeadIsNotAuthorized(db: Database, token: Token, now: int)
    requires Dead(db, token)
    ensures !Authorized(db, token, now)
  {
  }

  lemma ExceededStays(a: Database, b: Database, s: Session)
    requires Grows(a, b) && Exceeded(a, s)
    ensures Exceeded(b, s)
  {
  }

  /** A row is only ever dropped or touched, and a new row only appears under a new token. */
  ghost predicate RowsKept(a: Database, b: Database) {
    forall t :: t in b.sessions && t in a.issued ==>
      t in a.sessions && b.sessions[t] == a.sessions[t].(lastCheck := b.sessions[t].lastCheck)
  }

  lemma StepKeepsRows(w: World, s: Step)
    requires Enabled(w, s) && w.db.sessions.Keys <= w.db.issued
    ensures RowsKept(w.db, Next(w, s).db) && Next(w, s).db.sessions.Keys <= Next(w, s).db.issued
  {
    hide BindingError, UpsertError, ProjectionError, Authorized, ProjectedMembers, LosesSessions;
    if s.Project? && ProjectionError(w.db, s.projection).None? { BoundToProject(w.db, s.projection); }
  }

  lemma DeadStays(a: Database, b: Database, token: Token)
    requires Dead(a, token) && Grows(a, b) && RowsKept(a, b)
    ensures Dead(b, token)
  {
    if token in b.sessions { ExceededStays(a, b, a.sessions[token]); }
  }

  lemma {:induction false} DeadForEver(w: World, run: seq<Step>, token: Token)
    requires Runs(w, run) && w.db.sessions.Keys <= w.db.issued && Dead(w.db, token)
    ensures Dead(After(w, run).db, token)
    decreases |run|
  {
    if run != [] {
      StepGrows(w, run[0]);
      StepKeepsRows(w, run[0]);
      DeadStays(w.db, Next(w, run[0]).db, token);
      DeadForEver(Next(w, run[0]), run[1..], token);
    }
  }

  /**
   Once a current epoch exceeds the one stored in a session, or its row is gone, no step ever makes its token good
   again.
   */
  lemma SupersededIsNeverAuthorized(w: World, run: seq<Step>, token: Token, now: int)
    requires Runs(w, run) && w.db.sessions.Keys <= w.db.issued && Dead(w.db, token)
    ensures !Authorized(After(w, run).db, token, now)
  {
    DeadForEver(w, run, token);
    DeadIsNotAuthorized(After(w, run).db, token, now);
  }

  /******* Look-ups that others interleave with *******/

  /** The look-up cannot succeed any more. */
  predicate Doomed(db: Database, l: Look) {
    match l
    case Found(_, s, _) => Exceeded(db, s)
    case Bounded(_, s, _, _) => Exceeded(db, s)
    case Matched(_, s, _, _) => InstallationExceeds(db, s) || AccountExceeds(db, s)
    case Renewed(_, s, _, _, current) => !current || AccountExceeds(db, s)
    case Checked(_, _, answer) => answer.None?
    case Answered(answer) => answer.None?
  }

  predicate InstallationExceeds(db: Database, s: Session) {
    db.installation.Some?
      && (db.installation.value.accessEpoch > s.accessEpoch || db.installation.value.localEpoch > s.localEpoch)
  }

  predicate AccountExceeds(db: Database, s: Session) {
    s.user in db.members && db.members[s.user].accountEpoch > s.accountEpoch
  }

  lemma DoomedStays(a: Database, b: Database, l: Look)
    requires Grows(a, b) && Doomed(a, l)
    ensures Doomed(b, l)
  {
  }

  lemma DoomedAdvances(db: Database, l: Look)
    requires Doomed(db, l)
    ensures Doomed(db, Advance(db, l))
  {
  }

  lemma StepKeepsDoomed(w: World, s: Step, look: nat)
    requires Enabled(w, s) && look in w.looks && Doomed(w.db, w.looks[look])
    ensures look in Next(w, s).looks && Doomed(Next(w, s).db, Next(w, s).looks[look])
  {
    StepGrows(w, s);
    LooksAfter(w, s, look);
    hide Grows, Doomed, Next, Enabled;
    if s == ContinueLookup(look) {
      DoomedAdvances(w.db, w.looks[look]);
      DoomedStays(w.db, Next(w, s).db, Advance(w.db, w.looks[look]));
    } else {
      DoomedStays(w.db, Next(w, s).db, w.looks[look]);
    }
  }

  /** Only its own steps advance a look-up. */
  lemma LooksAfter(w: World, s: Step, look: nat)
    requires Enabled(w, s) && look in w.looks
    ensures look in Next(w, s).looks
    ensures Next(w, s).looks[look] == if s == ContinueLookup(look) then Advance(w.db, w.looks[look]) else w.looks[look]
  {
    hide BindingError, Bound, UpsertError, Upserted, ProjectionError, Projected, Advance, Settle;
  }

  lemma {:induction false} DoomedForEver(w: World, run: seq<Step>, look: nat)
    requires Runs(w, run) && look in w.looks && Doomed(w.db, w.looks[look])
    ensures look in After(w, run).looks && Doomed(After(w, run).db, After(w, run).looks[look])
    decreases |run|
  {
    hide Doomed, Next, Enabled;
    if run != [] {
      StepKeepsDoomed(w, run[0], look);
      DoomedForEver(Next(w, run[0]), run[1..], look);
    }
  }

  /**
   A look-up begun when the token's row is gone or superseded never succeeds, whatever happens between its
   transactions.
   */
  lemma LookupOfDeadFails(w: World, look: nat, token: Token, now: int, run: seq<Step>)
    requires Dead(w.db, token) && Enabled(w, BeginLookup(look, token, now))
    requires Runs(Next(w, BeginLookup(look, token, now)), run)
    ensures var l := After(Next(w, BeginLookup(look, token, now)), run).looks;
            look in l && (l[look].Answered? ==> l[look].answer.None?)
  {
    DoomedForEver(Next(w, BeginLookup(look, token, now)), run, look);
  }

  lemma PrependStep(w: World, s: Step, run: seq<Step>)
    requires Enabled(w, s) && Runs(Next(w, s), run)
    ensures Runs(w, [s] + run) && After(w, [s] + run) == After(Next(w, s), run)
  {
    assert ([s] + run)[1..] == run;
  }

  /** Transactions a look-up may still take. */
  function Left(l: Look): nat {
    match l
    case Found(_, _, _) => 5
    case Bounded(_, _, _, _) => 4
    case Matched(_, _, _, _) => 3
    case Renewed(_, _, _, _, _) => 2
    case Checked(_, _, _) => 1
    case Answered(_) => 0
  }

  /** The answer and the tables at the end when nobody else steps in between. */
  function FinalAnswer(db: Database, l: Look): Option<Membership>
    decreases Left(l)
  {
    if l.Answered? then l.answer else FinalAnswer(db, Advance(db, l))
  }

  function FinalTables(db: Database, l: Look): Database
    decreases Left(l)
  {
    if l.Answered? then db else if l.Checked? then Settle(db, l) else FinalTables(db, Advance(db, l))
  }

  lemma OneTransaction(w: World, look: nat)
    requires look in w.looks && !w.looks[look].Answered?
    ensures var w' := Next(w, ContinueLookup(look));
            && w'.drafts == w.drafts && w'.looks == w.looks[look := Advance(w.db, w.looks[look])]
            && FinalAnswer(w'.db, Advance(w.db, w.looks[look])) == FinalAnswer(w.db, w.looks[look])
            && FinalTables(w'.db, Advance(w.db, w.looks[look])) == FinalTables(w.db, w.looks[look])
  {
  }

  /** Every look-up can be finished on its own. */
  lemma {:induction false} FinishAlone(w: World, look: nat) returns (run: seq<Step>)
    requires look in w.looks
    ensures Runs(w, run) && forall s :: s in run ==> s == ContinueLookup(look)
    ensures var l := w.looks[look];
            After(w, run) == World(FinalTables(w.db, l), w.drafts, w.looks[look := Answered(FinalAnswer(w.db, l))])
    decreases Left(w.looks[look])
  {
    if w.looks[look].Answered? {
      run := [];
      assert w.looks[look := w.looks[look]] == w.looks;
    } else {
      var step := ContinueLookup(look);
      assert Enabled(w, step);
      OneTransaction(w, look);
      hide Advance, Settle, FinalAnswer, FinalTables, Next;
      Closer(w.db, w.looks[look]);
      var rest := FinishAlone(Next(w, step), look);
      PrependStep(w, step, rest);
      run := [step] + rest;
    }
  }

  lemma Closer(db: Database, l: Look)
    requires !l.Answered?
    ensures Left(Advance(db, l)) < Left(l)
  {
  }

  function Answer(db: Database, token: Token, now: int): Option<Membership> {
    if Authorized(db, token, now) then PrincipalFor(db, db.sessions[token].user) else None
  }

  lemma OneFurther(db: Database, l: Look)
    ensures FinalAnswer(db, l) == FinalAnswer(db, Advance(db, l))
    ensures !l.Checked? ==> FinalTables(db, l) == FinalTables(db, Advance(db, l))
  {
  }

  lemma AtTheEnd(db: Database, l: Look)
    ensures l.Answered? || l.Checked? ==> FinalAnswer(db, l) == l.answer && FinalTables(db, l) == Settle(db, l)
  {
    OneFurther(db, l);
  }

  lemma AloneIsLookedUp(db: Database, token: Token, now: int)
    ensures FinalAnswer(db, ReadRow(db, token, now)) == Answer(db, token, now)
    ensures FinalTables(db, ReadRow(db, token, now)) == LookedUp(db, token, now)
  {
    hide FinalAnswer, FinalTables;
    var l := ReadRow(db, token, now);
    if l.Found? {
      var l1 := Advance(db, l);
      var l2 := Advance(db, l1);
      var l3 := Advance(db, l2);
      OneFurther(db, l);
      OneFurther(db, l1);
      OneFurther(db, l2);
      OneFurther(db, l3);
      AtTheEnd(db, Advance(db, l3));
    } else {
      AtTheEnd(db, l);
    }
  }

  /**
   Undisturbed, the transactions of a look-up answer exactly when the session counts, and write what a look-up
   writes.
   */
  lemma UndisturbedLookup(w: World, look: nat, token: Token, now: int) returns (run: seq<Step>)
    requires Enabled(w, BeginLookup(look, token, now))
    ensures forall s :: s in run ==> s == ContinueLookup(look)
    ensures Runs(w, [BeginLookup(look, token, now)] + run)
    ensures After(w, [BeginLookup(look, token, now)] + run)
         == World(LookedUp(w.db, token, now), w.drafts, w.looks[look := Answered(Answer(w.db, token, now))])
  {
    var begin := BeginLookup(look, token, now);
    run := FinishAlone(Next(w, begin), look);
    AloneIsLookedUp(w.db, token, now);
    PrependStep(w, begin, run);
    assert w.looks[look := ReadRow(w.db, token, now)][look := Answered(Answer(w.db, token, now))]
        == w.looks[look := Answered(Answer(w.db, token, now))];
  }

  lemma {:induction false} SessionsDoNotMatter(db: Database, db': Database, l: Look)
    requires db'.installation == db.installation && db'.members == db.members
    ensures FinalAnswer(db', l) == FinalAnswer(db, l)
    decreases Left(l)
  {
    if !l.Answered? { SessionsDoNotMatter(db, db', Advance(db, l)); }
  }

  /**
   A look-up that has read its row is decided by it: a revocation in between removes the row and leaves the answer.
   */
  lemma RevokedDuringLookup(w: World, look: nat, token: Token, now: int) returns (run: seq<Step>)
    requires Enabled(w, BeginLookup(look, token, now))
    ensures forall s :: s in run ==> s == ContinueLookup(look)
    ensures Runs(w, [BeginLookup(look, token, now)] + ([Revoke(token)] + run))
    ensures var w' := After(w, [BeginLookup(look, token, now)] + ([Revoke(token)] + run));
            && token !in w'.db.sessions && look in w'.looks
            && w'.looks[look] == Answered(Answer(w.db, token, now))
  {
    var begin := BeginLookup(look, token, now);
    var begun := Next(w, begin);
    var revoked := Next(begun, Revoke(token));
    run := FinishAlone(revoked, look);
    AloneIsLookedUp(w.db, token, now);
    SessionsDoNotMatter(w.db, revoked.db, ReadRow(w.db, token, now));
    GoneStays(revoked.db, ReadRow(w.db, token, now), token);
    PrependStep(begun, Revoke(token), run);
    PrependStep(w, begin, [Revoke(token)] + run);
  }

  lemma {:induction false} GoneStays(db: Database, l: Look, token: Token)
    requires token !in db.sessions && (!l.Answered? ==> l.token == token)
    ensures token !in FinalTables(db, l).sessions
    decreases Left(l)
  {
    if !l.Answered? && !l.Checked? { GoneStays(db, Advance(db, l), token); }
  }

  /******* What is stored lags behind *******/

  /** No session or login in progress is ahead of the current epochs. */
  predicate Behind(db: Database, s: Session) {
    && db.installation.Some? && s.installation == db.installation.value.authority.id && s.user in db.members
    && s.accessEpoch <= db.installation.value.accessEpoch && s.localEpoch <= db.installation.value.localEpoch
    && s.membershipEpoch <= db.members[s.user].membershipEpoch && s.accountEpoch <= db.members[s.user].accountEpoch
  }

  predicate DraftBehind(db: Database, d: Draft) {
    && db.installation.Some? && d.installation == db.installation.value.authority.id && d.user in db.members
    && d.membershipEpoch <= db.members[d.user].membershipEpoch
    && (d.accessEpoch.Some? ==> d.accessEpoch.value <= db.installation.value.accessEpoch)
    && (d.localEpoch.Some? ==> d.localEpoch.value <= db.installation.value.localEpoch)
    && (d.accountEpoch.Some? ==> d.accountEpoch.value <= db.members[d.user].accountEpoch)
  }

  ghost predicate Inv(w: World) {
    && w.db.sessions.Keys <= w.db.issued
    && (forall t :: t in w.db.sessions ==> Behind(w.db, w.db.sessions[t]))
    && (forall login :: login in w.drafts ==> DraftBehind(w.db, w.drafts[login]))
  }

  lemma BehindStays(a: Database, b: Database, s: Session, s': Session)
    requires Grows(a, b) && Behind(a, s) && s' == s.(lastCheck := s'.lastCheck)
    ensures Behind(b, s')
  {
  }

  lemma DraftBehindStays(a: Database, b: Database, d: Draft)
    requires Grows(a, b) && DraftBehind(a, d)
    ensures DraftBehind(b, d)
  {
  }

  /** Reads of a login in progress, and its insertion. */
  lemma LoginKeeps(w: World, s: Step)
    requires Inv(w) && Enabled(w, s) && (s.ReadPrincipal? || s.ReadInstallation? || s.ReadMembership? || s.Insert?)
    ensures Inv(Next(w, s))
  {
  }

  lemma DatabaseKeeps(w: World, s: Step)
    requires Inv(w) && Enabled(w, s) && !(s.ReadPrincipal? || s.ReadInstallation? || s.ReadMembership? || s.Insert?)
    ensures Inv(Next(w, s))
  {
    StepGrows(w, s);
    StepKeepsRows(w, s);
    hide Grows, Behind, DraftBehind;
    var w' := Next(w, s);
    SameDrafts(w, s);
    forall t | t in w'.db.sessions ensures Behind(w'.db, w'.db.sessions[t]) {
      BehindStays(w.db, w'.db, w.db.sessions[t], w'.db.sessions[t]);
    }
    forall login | login in w'.drafts ensures DraftBehind(w'.db, w'.drafts[login]) {
      DraftBehindStays(w.db, w'.db, w.drafts[login]);
    }
  }

  lemma SameDrafts(w: World, s: Step)
    requires Enabled(w, s) && !(s.ReadPrincipal? || s.ReadInstallation? || s.ReadMembership? || s.Insert?)
    ensures Next(w, s).drafts == w.drafts && Next(w, s).db.issued == w.db.issued
  {
    hide BindingError, UpsertError, ProjectionError, Authorized, ProjectedMembers, LosesSessions;
    if s.Project? && ProjectionError(w.db, s.projection).None? { BoundToProject(w.db, s.projection); }
  }

  lemma {:induction false} EveryRunKeeps(w: World, run: seq<Step>)
    requires Inv(w) && Runs(w, run)
    ensures Inv(After(w, run))
    decreases |run|
  {
    if run != [] {
      if run[0].ReadPrincipal? || run[0].ReadInstallation? || run[0].ReadMembership? || run[0].Insert? {
        LoginKeeps(w, run[0]);
      } else {
        DatabaseKeeps(w, run[0]);
      }
      EveryRunKeeps(Next(w, run[0]), run[1..]);
    }
  }

  /**
   In every reachable state a stored session counts exactly when neither its expiry nor thirty days since the last
   look-up have come, its account is active in the active installation with the same role, and no current epoch
   exceeds its own.
   */
  lemma AuthorizedIff(run: seq<Step>, token: Token, now: int)
    requires Runs(World(Empty(), map[], map[]), run)
    ensures var db := After(World(Empty(), map[], map[]), run).db;
            Authorized(db, token, now) <==>
              && token in db.sessions
              && var s := db.sessions[token];
                 && now < s.expires && now < s.lastCheck + 30 * 86400 && !Exceeded(db, s)
                 && db.installation.Some? && db.installation.value.status == Active
                 && s.user in db.members && db.members[s.user].status == Active && db.members[s.user].role == s.role
  {
    EveryRunKeeps(World(Empty(), map[], map[]), run);
  }

  /******* How long a session lasts *******/

  /** The step ends a successful look-up of the token. */
  predicate Touches(w: World, s: Step, token: Token)
    requires Enabled(w, s)
  {
    s.ContinueLookup? && w.looks[s.look].Checked? && w.looks[s.look].token == token && w.looks[s.look].answer.Some?
  }

  /** The time of the last successful look-up of a run. */
  function LastSeen(w: World, run: seq<Step>, token: Token, seen: int): int
    requires Runs(w, run)
    decreases |run|
  {
    if run == [] then seen
    else
      LastSeen(Next(w, run[0]), run[1..], token, if Touches(w, run[0], token) then w.looks[run[0].look].now else seen)
  }

  lemma StepTouches(w: World, s: Step, token: Token)
    requires Enabled(w, s) && token in w.db.issued && token in w.db.sessions && token in Next(w, s).db.sessions
    ensures Next(w, s).db.sessions[token].lastCheck
            == if Touches(w, s, token) then w.looks[s.look].now else w.db.sessions[token].lastCheck
  {
    hide BindingError, UpsertError, ProjectionError, Authorized, ProjectedMembers, LosesSessions;
    if s.Project? && ProjectionError(w.db, s.projection).None? { BoundToProject(w.db, s.projection); }
  }

  /** While its row is there, it keeps the expiry it was given and the time of the last successful look-up. */
  lemma {:induction false} RowTimes(w: World, run: seq<Step>, token: Token, expires: int, seen: int)
    requires Runs(w, run) && w.db.sessions.Keys <= w.db.issued && token in w.db.issued
    requires token in w.db.sessions ==>
               w.db.sessions[token].expires == expires && w.db.sessions[token].lastCheck == seen
    ensures token in After(w, run).db.sessions ==>
              && After(w, run).db.sessions[token].expires == expires
              && After(w, run).db.sessions[token].lastCheck == LastSeen(w, run, token, seen)
    decreases |run|
  {
    if run != [] {
      var w' := Next(w, run[0]);
      StepGrows(w, run[0]);
      StepKeepsRows(w, run[0]);
      hide Next, Enabled;
      if token in w'.db.sessions { StepTouches(w, run[0], token); }
      var touched := if Touches(w, run[0], token) then w.looks[run[0].look].now else seen;
      RowTimes(w', run[1..], token, expires, touched);
    }
  }

  /**
   A session inserted at time t is refused for good from its lifetime on, and from thirty days after its last
   successful look-up, and the look-up drops its row; before, time refuses nothing.
   */
  lemma SessionsEnd(w: World, login: nat, token: Token, t: int, lifetime: int, run: seq<Step>, now: int)
    requires w.db.sessions.Keys <= w.db.issued && Enabled(w, Insert(login, token, t, lifetime))
    requires Runs(Next(w, Insert(login, token, t, lifetime)), run)
    ensures var inserted := Next(w, Insert(login, token, t, lifetime));
            var db, seen := After(inserted, run).db, LastSeen(inserted, run, token, t);
            && (now >= t + lifetime || now >= seen + 30 * 86400 ==>
                  && !Authorized(db, token, now) && Doomed(db, ReadRow(db, token, now))
                  && token !in LookedUp(db, token, now).sessions)
            && (now < t + lifetime && now < seen + 30 * 86400 ==>
                  forall earlier :: earlier <= now ==> (Authorized(db, token, earlier) <==> Authorized(db, token, now)))
  {
    RowTimes(Next(w, Insert(login, token, t, lifetime)), run, token, t + lifetime, t);
  }

  /******* Logins that others interleave with *******/

  /** The four transactions of a login. */
  function LoginRun(login: nat, user: string, token: Token, now: int, lifetime: int): seq<Step> {
    [ReadPrincipal(login, user), ReadInstallation(login), ReadMembership(login), Insert(login, token, now, lifetime)]
  }

  /** Undisturbed, they store what the current tables say of the member. */
  lemma UndisturbedLogin(w: World, login: nat, user: string, token: Token, now: int, lifetime: int)
    requires PrincipalFor(w.db, user).Some? && login !in w.drafts && token !in w.db.issued
             && 0 < lifetime <= MAX_LIFETIME
    ensures Runs(w, LoginRun(login, user, token, now, lifetime))
    ensures After(w, LoginRun(login, user, token, now, lifetime))
         == w.(db := w.db.(sessions := w.db.sessions[token := NewSession(w.db, user, now, lifetime)],
                           issued := w.db.issued + {token}))
  {
    LoginSteps(w, login, user, token, now, lifetime);
    hide Next, Enabled, PrincipalFor, NewSession;
    var w1 := Next(w, ReadPrincipal(login, user));
    var w2 := Next(w1, ReadInstallation(login));
    var w3 := Next(w2, ReadMembership(login));
    var insert := Insert(login, token, now, lifetime);
    PrependStep(w3, insert, []);
    PrependStep(w2, ReadMembership(login), [insert] + []);
    PrependStep(w1, ReadInstallation(login), [ReadMembership(login)] + ([insert] + []));
    PrependStep(w, ReadPrincipal(login, user), [ReadInstallation(login)] + ([ReadMembership(login)] + ([insert] + [])));
    assert [ReadPrincipal(login, user)] + ([ReadInstallation(login)] + ([ReadMembership(login)] + ([insert] + [])))
        == LoginRun(login, user, token, now, lifetime);
  }

  lemma LoginSteps(w: World, login: nat, user: string, token: Token, now: int, lifetime: int)
    requires PrincipalFor(w.db, user).Some? && login !in w.drafts && token !in w.db.issued
             && 0 < lifetime <= MAX_LIFETIME
    ensures Enabled(w, ReadPrincipal(login, user))
    ensures var w1 := Next(w, ReadPrincipal(login, user));
            && Enabled(w1, ReadInstallation(login))
            && var w2 := Next(w1, ReadInstallation(login));
               && Enabled(w2, ReadMembership(login))
               && var w3 := Next(w2, ReadMembership(login));
                  && Enabled(w3, Insert(login, token, now, lifetime))
                  && Next(w3, Insert(login, token, now, lifetime))
                     == w.(db := w.db.(sessions := w.db.sessions[token := NewSession(w.db, user, now, lifetime)],
                                       issued := w.db.issued + {token}))
  {
    var w3 := Next(Next(Next(w, ReadPrincipal(login, user)), ReadInstallation(login)), ReadMembership(login));
    assert w3.drafts - {login} == w.drafts;
  }

  /**
   However others interleave with a login, its session counts exactly when its member is still active with the role
   read and no epoch was raised behind the login's reads.
   */
  lemma LoginCountsIff(w: World, login: nat, token: Token, now: int, lifetime: int)
    requires Inv(w) && Enabled(w, Insert(login, token, now, lifetime))
    ensures w.db.installation.Some? && w.drafts[login].user in w.db.members
    ensures var d, db := w.drafts[login], w.db;
            Authorized(Next(w, Insert(login, token, now, lifetime)).db, token, now) <==>
              && db.installation.value.status == Active
              && db.members[d.user].status == Active && db.members[d.user].role == d.role
              && db.installation.value.accessEpoch <= d.accessEpoch.value
              && db.installation.value.localEpoch <= d.localEpoch.value
              && db.members[d.user].membershipEpoch <= d.membershipEpoch
              && db.members[d.user].accountEpoch <= d.accountEpoch.value
  {
    assert DraftBehind(w.db, w.drafts[login]);
  }

  /******* Suspension at the same epoch *******/

  /**
   Suspending a member without raising an epoch only pauses the sessions: reactivation at the same epochs revives
   them.
   */
  lemma ReactivationRevives(db: Database, token: Token, now: int, suspended: Snapshot, active: Snapshot)
    requires Authorized(db, token, now)
    requires suspended.user == active.user == db.sessions[token].user
    requires suspended.status.Suspended? && active.status.Active? && active.role == db.sessions[token].role
    requires UpsertError(db, suspended).None? && UpsertError(Upserted(db, suspended), active).None?
    ensures !Authorized(Upserted(db, suspended), token, now)
    ensures Authorized(Upserted(Upserted(db, suspended), active), token, now) <==>
              active.membershipEpoch == db.sessions[token].membershipEpoch
              && Resolved(Upserted(db, suspended).members, active).accountEpoch == db.sessions[token].accountEpoch
  {
  }

  /** A good token survives an accepted snapshot exactly when the snapshot leaves its owner's membership as it is. */
  lemma UpsertKeepsIff(db: Database, s: Snapshot, token: Token, now: int)
    requires UpsertError(db, s).None? && Authorized(db, token, now)
    ensures Authorized(Upserted(db, s), token, now) <==>
              (s.user == db.sessions[token].user ==> Resolved(db.members, s) == db.members[s.user])
  {
  }

  /** A whole projection does not leave that door open: whoever is not active in it loses the rows. */
  lemma ProjectionDropsInactive(db: Database, p: Projection, token: Token)
    requires ProjectionError(db, p).None? && token in db.sessions && db.sessions[token].user in db.members
    requires var item := ItemOf(p.items, db.sessions[token].user); item.None? || !item.value.status.Active?
    ensures token !in Projected(db, p).sessions
  {
    ItemOfIsItem(p.items, db.sessions[token].user);
  }

  /******* Repeating an update *******/

  /** A binding that was accepted is accepted again and changes nothing more. */
  lemma RebindingIsIdempotent(db: Database, b: Binding)
    requires BindingError(db, b).None?
    ensures BindingError(Bound(db, b), b).None? && Bound(Bound(db, b), b) == Bound(db, b)
  {
    var once := Bound(db, b);
    assert once.members[b.authority.core := once.members[b.authority.core]] == once.members;
  }

  lemma UpsertIsIdempotent(db: Database, s: Snapshot)
    requires UpsertError(db, s).None?
    ensures UpsertError(Upserted(db, s), s).None? && Upserted(Upserted(db, s), s) == Upserted(db, s)
  {
  }

  /** What a projection makes of one member. */
  lemma ProjectedMember(db: Database, p: Projection, user: string)
    requires ProjectionError(db, p).None?
    ensures db.installation.Some?
    ensures var after := Projected(db, p).members;
            match ItemOf(p.items, user)
            case Some(s) => user in after && after[user] == Resolved(db.members, s)
            case None =>
              && (user in after <==> user in db.members)
              && (user in after ==> after[user] == db.members[user].(status := Revoked))
  {
    BoundToProject(db, p);
    ItemOfIsItem(p.items, user);
  }

  lemma ProjectedAgain(db: Database, p: Projection, user: string)
    requires ProjectionError(db, p).None?
    ensures db.installation.Some?
    ensures var after := Projected(db, p).members;
            (user in ProjectedMembers(after, p.items) <==> user in after)
              && (user in after ==> ProjectedMembers(after, p.items)[user] == after[user])
  {
    ProjectedMember(db, p, user);
    hide ProjectionError;
    ItemOfIsItem(p.items, user);
  }

  lemma {:induction false} OnlyItem(items: seq<Snapshot>, s: Snapshot)
    requires !Repeats(items) && s in items
    ensures ItemOf(items, s.user) == Some(s)
  {
    if items[0] != s {
      var i :| 0 < i < |items| && items[i] == s;
      assert items[0].user != items[i].user;
      assert items[1..][i - 1] == s;
      forall a, b | 0 <= a < b < |items[1..]|
        ensures items[1..][a].user != items[1..][b].user
      {
        assert items[a + 1].user != items[b + 1].user;
      }
      OnlyItem(items[1..], s);
    }
  }

  /** A projection that was accepted is accepted again and leaves the members as they are. */
  lemma ProjectionIsIdempotent(db: Database, p: Projection)
    requires ProjectionError(db, p).None?
    ensures db.installation.Some? && ProjectionError(Projected(db, p), p).None?
    ensures Projected(Projected(db, p), p).installation == Projected(db, p).installation
    ensures Projected(Projected(db, p), p).members == Projected(db, p).members
  {
    BoundToProject(db, p);
    var once := Projected(db, p);
    forall user ensures (user in ProjectedMembers(once.members, p.items) <==> user in once.members)
                        && (user in once.members ==>
                            ProjectedMembers(once.members, p.items)[user] == once.members[user])
    {
      ProjectedAgain(db, p, user);
    }
    forall s | s in p.items ensures !Regresses(once.members, s) {
      OnlyItem(p.items, s);
      ProjectedMember(db, p, s.user);
    }
    assert ProjectedMembers(once.members, p.items) == once.members;
  }

  /**
   A good token stays good through a projection exactly when the projection is of an active installation
   at the same epochs and gives its owner the very same active membership.
   */
  lemma ProjectionKeepsIff(db: Database, p: Projection, token: Token, now: int)
    requires ProjectionError(db, p).None? && Authorized(db, token, now)
    ensures db.installation.Some?
    ensures Authorized(Projected(db, p), token, now) <==>
              && p.status.Active? && p.accessEpoch == db.installation.value.accessEpoch
              && Or(p.localEpoch, db.installation.value.localEpoch) == db.installation.value.localEpoch
              && ItemOf(p.items, db.sessions[token].user).Some?
              && Resolved(db.members, ItemOf(p.items, db.sessions[token].user).value)
                 == db.members[db.sessions[token].user]
  {
    var user := db.sessions[token].user;
    ProjectedMember(db, p, user);
    ItemOfIsItem(p.items, user);
    hide ProjectionError, ProjectedMembers;
  }
}
