/** The repository object over the tables.  ai2apps/identity.py. */
module IdentityRepository {
  import opened Base
  import opened Identity
  import Proofs = IdentityProofs

  class IdentityRepository {
    var installation: Option<Installation>
    var members: map<string, Membership>
    var sessions: map<Token, Session>
    var issued: set<Token>

    constructor ()
      ensures Tables() == Empty()
    {
      installation, members, sessions, issued := None, map[], map[], {};
    }

    function Tables(): Database
      reads this
    {
      Database(installation, members, sessions, issued)
    }

    /** Bind once; afterwards only a refresh of the same authority. */
    method BindInstallation(b: Binding) returns (r: Result<Installation>)
      modifies this
      ensures r.Ok? <==> BindingError(old(Tables()), b).None?
      ensures r.Ok? ==> Tables() == Bound(old(Tables()), b) && installation == Some(r.value)
      ensures r.Err? ==> Tables() == old(Tables())
    {
      var membershipEpoch := Or(b.membershipEpoch, b.accessEpoch);
      if b.accessEpoch < 1 || !Positive(b.localEpoch) || membershipEpoch < 1 || !Positive(b.accountEpoch) {
        return Err("epoch must be positive");
      }
      if !IsCoreRole(b.role) { return Err("core_role must be core or owner"); }
      var existing := installation;
      var local := Or(b.localEpoch, if existing.Some? then existing.value.localEpoch else 1);
      if existing.Some? {
        if existing.value.authority != b.authority {
          return Err("Installation is already bound to another Cloud authority");
        }
        if b.accessEpoch < existing.value.accessEpoch { return Err("Installation access epoch regressed"); }
        if local < existing.value.localEpoch { return Err("Local Session epoch regressed"); }
      }
      var epochsChanged :=
        existing.Some? && (b.accessEpoch != existing.value.accessEpoch || local != existing.value.localEpoch);
      var bound := Installation(b.authority, b.accessEpoch, local, Active);
      installation := Some(bound);
      var user := b.authority.core;
      var was := if user in members then Some(members[user]) else None;
      var accountEpoch := Or(b.accountEpoch, KeptAccountEpoch(members, user));
      if was.Some? && accountEpoch < was.value.accountEpoch {
        installation := existing;  // the transaction rolls back
        return Err("Core account Session epoch regressed");
      }
      if was.Some? && membershipEpoch < was.value.membershipEpoch {
        installation := existing;
        return Err("Core membership epoch regressed");
      }
      var core := Membership(b.role, Active, membershipEpoch, accountEpoch);
      members := members[user := if was.Some? then
                   Membership(b.role, Active, Max(was.value.membershipEpoch, membershipEpoch),
                              Max(was.value.accountEpoch, accountEpoch)) else core];
      if epochsChanged {
        sessions := map[];
      } else if was.Some? && was.value != core {
        sessions := WithoutUser(sessions, user);
      }
      r := Ok(bound);
    }

    /** One snapshot of a member, from the Cloud: accepted exactly when nothing in it goes back. */
    method UpsertMembership(s: Snapshot) returns (r: Result<Membership>)
      modifies this`members
      ensures r.Ok? <==> Proofs.WellFormedSnapshot(s) && Proofs.KeepsCoreRole(old(Tables()), s)
                         && Proofs.Grows(old(Tables()), Upserted(old(Tables()), s))
      ensures r.Ok? <==> UpsertError(old(Tables()), s).None?
      ensures r.Ok? ==> Tables() == Upserted(old(Tables()), s) && members == old(members)[s.user := r.value]
      ensures r.Ok? ==>
                r.value.role == s.role && r.value.status == s.status && r.value.membershipEpoch == s.membershipEpoch
      ensures r.Ok? && s.accountEpoch.Some? ==> r.value.accountEpoch == s.accountEpoch.value
      ensures r.Ok? && s.accountEpoch.None? && s.user in old(members) ==>
                r.value.accountEpoch == old(members)[s.user].accountEpoch
      ensures r.Ok? && s.accountEpoch.None? && s.user !in old(members) ==> r.value.accountEpoch == 1
      ensures r.Err? ==> Tables() == old(Tables())
    {
      Proofs.UpsertIsExact(Tables(), s);
      if s.membershipEpoch < 1 { return Err("membership_epoch must be positive"); }
      if s.accountEpoch.Some? && s.accountEpoch.value < 1 { return Err("account_session_epoch must be positive"); }
      if installation.None? { return Err("Installation is not bound"); }
      if s.user == installation.value.authority.core && !IsCoreRole(s.role) {
        return Err("Core account role cannot be downgraded locally");
      }
      var was := if s.user in members then Some(members[s.user]) else None;
      if was.Some? && s.membershipEpoch < was.value.membershipEpoch { return Err("Membership epoch regressed"); }
      var accountEpoch := if s.accountEpoch.Some? then s.accountEpoch.value
                          else if was.Some? then was.value.accountEpoch else 1;
      if was.Some? && accountEpoch < was.value.accountEpoch { return Err("Account Session epoch regressed"); }
      members := members[s.user := Membership(s.role, s.status, s.membershipEpoch, accountEpoch)];
      r := Ok(members[s.user]);
    }

    /**
     Apply one complete projection: its members one by one, then those it leaves out, then the installation's
     sessions.
     */
    method ApplyAccessProjection(p: Projection) returns (r: Result<Installation>)
      modifies this
      ensures r.Ok? <==> ProjectionError(old(Tables()), p).None?
      ensures r.Ok? ==> Tables() == Projected(old(Tables()), p) && installation == Some(r.value)
      ensures r.Err? ==> Tables() == old(Tables())
    {
      hide ProjectionError, ProjectedMembers, LosesSessions, Resolved;
      ghost var before := Tables();
      var error := Refuse(p);
      if error.Some? { return Err(error.value); }
      Proofs.BoundToProject(before, p);
      NoRepeats(before, p);
      var prior := installation.value;
      var local := Or(p.localEpoch, prior.localEpoch);
      var bound := prior.(accessEpoch := p.accessEpoch, localEpoch := local, status := p.status);
      installation := Some(bound);
      var existing := members;
      ApplyItems(p.items);
      RevokeMissing(p.items, existing);
      ProjectedSessions(existing, p.items, before.sessions);
      if p.accessEpoch != prior.accessEpoch || local != prior.localEpoch || !p.status.Active? {
        sessions := map[];
      }
      r := Ok(bound);
    }

    /** The checks before the first write, in order. */
    method Refuse(p: Projection) returns (error: Option<string>)
      ensures error.None? <==> ProjectionError(Tables(), p).None?
    {
      hide ProjectionError, Regresses, Malformed, Repeats, Proofs.FitsBound;
      Proofs.AcceptedIs(Tables(), p);
      if p.accessEpoch < 1 { return Some("access_epoch must be positive"); }
      if p.localEpoch.Some? && p.localEpoch.value < 1 { return Some("local_session_epoch must be positive"); }
      error := RefuseItems(p.items);
      if error.Some? { return; }
      error := RefuseAuthority(p);
      if error.Some? { return; }
      error := RefuseRegressions(p.items);
    }

    method RefuseItems(items: seq<Snapshot>) returns (error: Option<string>)
      ensures error.None? <==> (forall s :: s in items ==> !Malformed(s)) && !Repeats(items)
    {
      var seen: set<string> := {};
      for k := 0 to |items|
        invariant forall i :: 0 <= i < k ==> !Malformed(items[i]) && items[i].user in seen
        invariant forall i, j :: 0 <= i < j < k ==> items[i].user != items[j].user
        invariant forall u :: u in seen ==> exists i :: 0 <= i < k && items[i].user == u
      {
        var s := items[k];
        assert s in items && (s.membershipEpoch < 1 ==> Malformed(s));
        if s.user in seen { return Some("membership projection contains duplicate users"); }
        if s.membershipEpoch < 1 { return Some("membership_epoch must be positive"); }
        if s.accountEpoch.Some? && s.accountEpoch.value < 1 { return Some("account_session_epoch must be positive"); }
        seen := seen + {s.user};
      }
      error := None;
    }

    method RefuseAuthority(p: Projection) returns (error: Option<string>)
      ensures error.None? <==> Proofs.FitsBound(Tables(), p)
    {
      hide ItemOf;
      if installation.None? || installation.value.authority.id != p.id { return Some("Installation is not bound"); }
      var prior := installation.value;
      if prior.authority.device != p.device || prior.authority.organization != p.organization {
        return Some("Cloud access projection changed installation authority");
      }
      if p.accessEpoch < prior.accessEpoch { return Some("Installation access epoch regressed"); }
      if p.localEpoch.Some? && p.localEpoch.value < prior.localEpoch { return Some("Local Session epoch regressed"); }
      var core := ItemOf(p.items, prior.authority.core);
      if core.None? || !(core.value.role == Core || core.value.role == Owner) {
        return Some("Cloud access projection omitted the core account");
      }
      if p.status == Active && core.value.status != Active {
        return Some("Active installation projection has an inactive core account");
      }
      error := None;
    }

    method RefuseRegressions(items: seq<Snapshot>) returns (error: Option<string>)
      ensures error.None? <==> forall s :: s in items ==> !Regresses(members, s)
    {
      for k := 0 to |items|
        invariant forall i :: 0 <= i < k ==> !Regresses(members, items[i])
      {
        var s := items[k];
        assert s in items;
        if s.user in members && s.membershipEpoch < members[s.user].membershipEpoch {
          assert Regresses(members, s);
          return Some("Membership epoch regressed");
        }
        if s.user in members && s.accountEpoch.Some? && s.accountEpoch.value < members[s.user].accountEpoch {
          assert Regresses(members, s);
          return Some("Account Session epoch regressed");
        }
      }
      error := None;
    }

    /** The loop over the projected members: a changed or inactive one loses its sessions. */
    method ApplyItems(items: seq<Snapshot>)
      modifies this`members, this`sessions
      ensures members == Applied(old(members), items, |items|)
      ensures sessions == Kept(old(sessions), DroppedBy(old(members), items, |items|))
    {
      hide Resolved, DroppedBy;
      ghost var before := sessions;
      var existing := members;
      NobodyDropped(existing, items, before);
      for k := 0 to |items|
        invariant members == Applied(existing, items, k) && sessions == Kept(before, DroppedBy(existing, items, k))
      {
        var s := items[k];
        members := members[s.user := Resolved(existing, s)];
        OneMoreDropped(existing, items, k, before);
        if Drops(existing, s) {
          sessions := WithoutUser(sessions, s.user);
        }
      }
    }

    /** The loop over the members the projection leaves out. */
    method RevokeMissing(items: seq<Snapshot>, existing: map<string, Membership>)
      requires existing.Keys <= members.Keys
      modifies this`members, this`sessions
      ensures members == WithRevoked(old(members), existing, Missing(existing, items))
      ensures sessions == Kept(old(sessions), Missing(existing, items))
    {
      hide Kept, WithRevoked, WithoutUser;
      ghost var before, start := sessions, members;
      NobodyRevoked(start, existing, before);
      var missing := Missing(existing, items);
      var todo := missing;
      ghost var done: set<string> := {};
      while todo != {}
        invariant todo + done == missing && todo !! done
        invariant members == WithRevoked(start, existing, done) && sessions == Kept(before, done)
        decreases |todo|
      {
        var user :| user in todo;
        members := members[user := existing[user].(status := Revoked)];
        sessions := WithoutUser(sessions, user);
        KeptMore(before, done, user);
        RevokedMore(start, existing, done, user);
        done, todo := done + {user}, todo - {user};
      }
    }

    method DeactivateInstallation(status: Status) returns (r: Result<bool>)
      modifies this
      ensures r.Ok? <==> !status.Active?
      ensures Tables() == if r.Ok? then Deactivated(old(Tables()), status) else old(Tables())
    {
      if status.Active? { return Err("installation status must be suspended or revoked"); }
      if installation.Some? {
        installation := Some(installation.value.(status := status));
        sessions := map[];
      }
      r := Ok(true);
    }

    /** A login that nothing disturbs; `token` is newly made up. */
    method CreateLocalSession(user: string, token: Token, now: int, lifetime: int) returns (r: Result<Session>)
      requires token !in issued
      modifies this
      ensures r.Ok? <==>
                && 0 < lifetime <= 365 * 86400
                && old(installation).Some? && old(installation).value.status == Active
                && user in old(members) && old(members)[user].status == Active
      ensures r.Err? ==> Tables() == old(Tables())
      ensures r.Ok? ==>
                Tables() == old(Tables()).(sessions := old(sessions)[token := r.value], issued := old(issued) + {token})
      ensures r.Ok? ==> r.value == NewSession(old(Tables()), user, now, lifetime) && Authorized(Tables(), token, now)
      ensures r.Ok? ==> r.value.expires == now + lifetime && r.value.lastCheck == now && r.value.user == user
    {
      if lifetime <= 0 || lifetime > MAX_LIFETIME { return Err("Local session lifetime must be within 365 days"); }
      var principal := Principal(user);
      if principal.None? { return Err("User is not an active installation member"); }
      var bound := installation.value;
      var session := Session(bound.authority.id, user, principal.value.role, principal.value.membershipEpoch,
                             bound.accessEpoch, bound.localEpoch, members[user].accountEpoch, now + lifetime, now);
      sessions, issued := sessions[token := session], issued + {token};
      r := Ok(session);
    }

    /** An active member of the active installation. */
    method Principal(user: string) returns (r: Option<Membership>)
      ensures r == PrincipalFor(Tables(), user)
    {
      if installation.None? || !installation.value.status.Active? { return None; }
      if user !in members || !members[user].status.Active? { return None; }
      r := Some(members[user]);
    }

    /** Resolve a cookie, dropping a row that timed out or was superseded. */
    method AuthorizeLocalSession(token: Token, now: int) returns (r: Option<Membership>)
      modifies this`sessions
      ensures r.Some? <==> Authorized(old(Tables()), token, now)
      ensures r.Some? ==> token in old(sessions) && PrincipalFor(old(Tables()), old(sessions)[token].user) == r
      ensures Tables() == LookedUp(old(Tables()), token, now)
      ensures token in old(sessions)
              && (old(sessions)[token].expires <= now || old(sessions)[token].lastCheck + 30 * 86400 <= now) ==>
                r.None? && sessions == old(sessions) - {token}
      ensures r.Some? ==> sessions == old(sessions)[token := old(sessions)[token].(lastCheck := now)]
    {
      if token !in sessions { return None; }
      var session := sessions[token];
      if session.expires <= now || session.lastCheck + IDLE_TIMEOUT <= now {
        sessions := sessions - {token};
        return None;
      }
      var principal := Principal(session.user);
      if principal.None? { return None; }
      if installation.value.authority.id != session.installation
        || principal.value.membershipEpoch != session.membershipEpoch
         || principal.value.role != session.role {
        return None;
      }
      if installation.value.accessEpoch != session.accessEpoch || installation.value.localEpoch != session.localEpoch
         || members[session.user].accountEpoch != session.accountEpoch {
        sessions := sessions - {token};
        return None;
      }
      sessions := sessions[token := session.(lastCheck := now)];
      r := principal;
    }

    method RevokeLocalSession(token: Token)
      modifies this`sessions
      ensures sessions == old(sessions) - {token}
      ensures token in issued ==> Proofs.Dead(Tables(), token)
    {
      sessions := sessions - {token};
    }
  }

  /** The members after the first k items. */
  function Applied(existing: map<string, Membership>, items: seq<Snapshot>, k: nat): (r: map<string, Membership>)
    requires k <= |items|
    ensures existing.Keys <= r.Keys
  {
    if k == 0 then existing else Applied(existing, items, k - 1)[items[k - 1].user := Resolved(existing, items[k - 1])]
  }

  /** An item that changes its member, or leaves it inactive. */
  predicate Drops(existing: map<string, Membership>, s: Snapshot) {
    s.user !in existing || existing[s.user] != Resolved(existing, s) || !s.status.Active?
  }

  function DroppedBy(existing: map<string, Membership>, items: seq<Snapshot>, k: nat): set<string>
    requires k <= |items|
  {
    set i | 0 <= i < k && Drops(existing, items[i]) :: items[i].user
  }

  function Kept(sessions: map<Token, Session>, dropped: set<string>): map<Token, Session> {
    map t | t in sessions && sessions[t].user !in dropped :: sessions[t]
  }

  function Missing(existing: map<string, Membership>, items: seq<Snapshot>): set<string> {
    existing.Keys - set s | s in items :: s.user
  }

  function WithRevoked(members: map<string, Membership>, existing: map<string, Membership>,
                       users: set<string>): map<string, Membership>
    requires users <= existing.Keys <= members.Keys
  {
    map u | u in members :: if u in users then existing[u].(status := Revoked) else members[u]
  }

  lemma NobodyRevoked(members: map<string, Membership>, existing: map<string, Membership>,
                      sessions: map<Token, Session>)
    requires existing.Keys <= members.Keys
    ensures WithRevoked(members, existing, {}) == members && Kept(sessions, {}) == sessions
  {
  }

  lemma RevokedMore(members: map<string, Membership>, existing: map<string, Membership>, users: set<string>,
                    user: string)
    requires users <= existing.Keys <= members.Keys && user in existing
    ensures WithRevoked(members, existing, users)[user := existing[user].(status := Revoked)]
            == WithRevoked(members, existing, users + {user})
  {
  }

  lemma NoRepeats(db: Database, p: Projection)
    requires ProjectionError(db, p).None?
    ensures !Repeats(p.items)
  {
  }

  lemma NobodyDropped(existing: map<string, Membership>, items: seq<Snapshot>, sessions: map<Token, Session>)
    ensures Kept(sessions, DroppedBy(existing, items, 0)) == sessions
  {
  }

  lemma KeptMore(sessions: map<Token, Session>, dropped: set<string>, user: string)
    ensures WithoutUser(Kept(sessions, dropped), user) == Kept(sessions, dropped + {user})
  {
  }

  lemma OneMoreDropped(existing: map<string, Membership>, items: seq<Snapshot>, k: nat, sessions: map<Token, Session>)
    requires k < |items|
    ensures DroppedBy(existing, items, k + 1)
            == DroppedBy(existing, items, k) + if Drops(existing, items[k]) then {items[k].user} else {}
    ensures Kept(sessions, DroppedBy(existing, items, k + 1))
            == if Drops(existing, items[k]) then
              WithoutUser(Kept(sessions, DroppedBy(existing, items, k)), items[k].user)
               else Kept(sessions, DroppedBy(existing, items, k))
  {
    assert DroppedBy(existing, items, k + 1)
           == DroppedBy(existing, items, k) + if Drops(existing, items[k]) then {items[k].user} else {};
    KeptMore(sessions, DroppedBy(existing, items, k), items[k].user);
  }

  /** Without repetition an item is found under its user, and stands after all items. */
  lemma {:induction false} AppliedAt(existing: map<string, Membership>, items: seq<Snapshot>, k: nat, i: nat)
    requires i < k <= |items| && !Repeats(items)
    ensures items[i].user in Applied(existing, items, k)
            && Applied(existing, items, k)[items[i].user] == Resolved(existing, items[i])
  {
    if i < k - 1 {
      AppliedAt(existing, items, k - 1, i);
      assert items[i].user != items[k - 1].user;
    }
  }

  lemma {:induction false} NotApplied(existing: map<string, Membership>, items: seq<Snapshot>, k: nat, user: string)
    requires k <= |items| && forall i :: 0 <= i < k ==> items[i].user != user
    ensures user in Applied(existing, items, k) <==> user in existing
    ensures user in existing ==> Applied(existing, items, k)[user] == existing[user]
  {
    if k > 0 { NotApplied(existing, items, k - 1, user); }
  }

  lemma {:induction false} ItemOfAt(items: seq<Snapshot>, i: nat)
    requires i < |items| && forall a, b :: 0 <= a < b < |items| ==> items[a].user != items[b].user
    ensures ItemOf(items, items[i].user) == Some(items[i])
  {
    if i > 0 {
      assert items[0].user != items[i].user;
      ItemOfAt(items[1..], i - 1);
    }
  }

  /** What the two loops make of one user is what the projection says. */
  lemma ProjectedUser(existing: map<string, Membership>, items: seq<Snapshot>, user: string)
    requires !Repeats(items)
    ensures Missing(existing, items) <= existing.Keys <= Applied(existing, items, |items|).Keys
    ensures var after := WithRevoked(Applied(existing, items, |items|), existing, Missing(existing, items));
            && (user in after <==> user in ProjectedMembers(existing, items))
            && (user in after ==> after[user] == ProjectedMembers(existing, items)[user])
            && (user in DroppedBy(existing, items, |items|) + Missing(existing, items) <==>
                LosesSessions(existing, after, items, user))
  {
    hide Repeats;
    Proofs.ItemOfIsItem(items, user);
    if ItemOf(items, user).Some? {
      ItemIsApplied(existing, items, user);
    } else {
      forall i | 0 <= i < |items| ensures items[i].user != user { assert items[i] in items; }
      NotApplied(existing, items, |items|, user);
    }
  }

  lemma OnePlace(items: seq<Snapshot>, i: nat, j: nat)
    requires !Repeats(items) && i < |items| && j < |items| && items[i].user == items[j].user
    ensures i == j
  {
  }

  lemma ItemIsApplied(existing: map<string, Membership>, items: seq<Snapshot>, user: string)
    requires !Repeats(items) && ItemOf(items, user).Some?
    ensures var s := ItemOf(items, user).value;
            && s in items && s.user == user && user in Applied(existing, items, |items|)
            && Applied(existing, items, |items|)[user] == Resolved(existing, s)
            && (user in DroppedBy(existing, items, |items|) <==> Drops(existing, s))
  {
    Proofs.ItemOfIsItem(items, user);
    var i :| 0 <= i < |items| && items[i] == ItemOf(items, user).value;
    hide Resolved, Drops;
    AppliedAt(existing, items, |items|, i);
    forall j | 0 <= j < |items| && items[j].user == user ensures j == i { OnePlace(items, i, j); }
  }

  /** After both loops the tables are the projected ones. */
  lemma ProjectedSessions(existing: map<string, Membership>, items: seq<Snapshot>, sessions: map<Token, Session>)
    requires !Repeats(items)
    ensures Missing(existing, items) <= existing.Keys <= Applied(existing, items, |items|).Keys
    ensures WithRevoked(Applied(existing, items, |items|), existing, Missing(existing, items))
            == ProjectedMembers(existing, items)
    ensures Kept(Kept(sessions, DroppedBy(existing, items, |items|)), Missing(existing, items))
            == map t | t in sessions
              && !LosesSessions(existing, ProjectedMembers(existing, items), items, sessions[t].user) :: sessions[t]
  {
    hide ProjectedMembers, Applied, DroppedBy, Missing, Resolved, Repeats, LosesSessions;
    ProjectedUser(existing, items, "");
    var after := WithRevoked(Applied(existing, items, |items|), existing, Missing(existing, items));
    forall user
      ensures user in after <==> user in ProjectedMembers(existing, items)
    {
      ProjectedUser(existing, items, user);
    }
    forall user | user in after
      ensures after[user] == ProjectedMembers(existing, items)[user]
    {
      ProjectedUser(existing, items, user);
    }
    assert after == ProjectedMembers(existing, items);
    forall t | t in sessions
      ensures sessions[t].user in DroppedBy(existing, items, |items|) + Missing(existing, items) <==>
                LosesSessions(existing, after, items, sessions[t].user)
    {
      ProjectedUser(existing, items, sessions[t].user);
    }
  }
}
