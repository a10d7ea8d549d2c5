/**
  `DELETE /users/{target_user_id}`: who may delete whom, then the deletion
  sequence: clear `created_by` in five tables, delete the `user_roles` row,
  delete the Supabase Auth user. Which Supabase calls raise is the `faults`
  parameter.
 */
module DeleteUser {
  import opened Wrappers
  import opened Careplus

  const SUPERADMIN_DELETABLE_ROLES: set<string> := {"admin", "medico", "enfermero", "recepcionista"}
  const ADMIN_DELETABLE_ROLES: set<string> := {"medico", "enfermero", "recepcionista"}

  /** Only a superadmin or an admin may delete users. */
  function DeletableRoles(role: string): (r: Option<set<string>>)
    ensures r.Some? <==> role == "superadmin" || role == "admin"
  {
    if role == "superadmin" then Some(SUPERADMIN_DELETABLE_ROLES)
    else if role == "admin" then Some(ADMIN_DELETABLE_ROLES)
    else None
  }

  /**
    The Supabase calls that raise: creating the admin client, the update of
    each named table, the `user_roles` delete, the Auth delete.
   */
  datatype Faults = Faults(adminClient: bool, failingTables: set<string>, userRoles: bool, authDelete: bool)

  /** `update({'created_by': None}).eq('created_by', target)` on one table. */
  function Nullify(rows: seq<Option<string>>, target: string): (r: seq<Option<string>>)
    ensures |r| == |rows|
    ensures forall k :: 0 <= k < |rows| ==> r[k] == if rows[k] == Some(target) then None else rows[k]
  {
    if rows == [] then []
    else
      var x := rows[|rows| - 1];
      Nullify(rows[..|rows| - 1], target) + [if x == Some(target) then None else x]
  }

  /** The `for` loop: each table in turn, a failing or missing table left as it was. */
  function ClearTables(createdBy: map<string, seq<Option<string>>>, target: string, failing: set<string>,
                       tables: seq<string>): map<string, seq<Option<string>>>
  {
    if tables == [] then createdBy
    else
      var before := ClearTables(createdBy, target, failing, tables[..|tables| - 1]);
      var t := tables[|tables| - 1];
      if t in failing || t !in before then before else before[t := Nullify(before[t], target)]
  }

  /** The permission checks, in the route's order. */
  function Permit(profiles: map<string, Profile>, roles: seq<Role>, callerId: Option<string>,
                  targetId: string): Result<(), Reason>
  {
    if !Authenticated(callerId) then Err(NotAuthenticated)
    else if callerId.value == targetId then Err(Forbidden)
    else
      match RoleName(profiles, roles, callerId.value)
      case Err(e) => Err(e)
      case Ok(callerRole) =>
        match DeletableRoles(callerRole)
        case None => Err(Forbidden)
        case Some(deletable) =>
          match RoleName(profiles, roles, targetId)
          case Err(e) => Err(e)
          case Ok(targetRole) => if targetRole in deletable then Ok(()) else Err(Forbidden)
  }

  datatype Deletion = Deletion(result: Result<(), Reason>, state: DirectoryState)

  /** The whole route on a snapshot of the tables. */
  function Delete(s: DirectoryState, callerId: Option<string>, targetId: string, faults: Faults): Deletion {
    match Permit(s.profiles, s.roles, callerId, targetId)
    case Err(e) => Deletion(Err(e), s)
    case Ok(_) =>
      if faults.adminClient then Deletion(Err(Internal), s)
      else
        var cleared := s.(createdBy := ClearTables(s.createdBy, targetId, faults.failingTables, CREATED_BY_TABLES));
        if faults.userRoles then Deletion(Err(Internal), cleared)
        else
          var unlinked := cleared.(profiles := cleared.profiles - {targetId});
          if faults.authDelete then Deletion(Ok(()), unlinked)
          else Deletion(Ok(()), unlinked.(authUsers := unlinked.authUsers - {targetId}))
  }

  // Properties of the permission checks.

  /** The deletable roles of a caller are exactly the roles ranked strictly below it. */
  lemma DeletableIsRankedBelow(role: string)
    requires DeletableRoles(role).Some?
    ensures DeletableRoles(role).value == RankedBelow(role)
  {
    RankedBelowRoles();
  }

  /** A caller without an id gets 401 and nothing changes. */
  lemma UnauthenticatedRefused(s: DirectoryState, callerId: Option<string>, targetId: string, faults: Faults)
    requires !Authenticated(callerId)
    ensures Delete(s, callerId, targetId, faults) == Deletion(Err(NotAuthenticated), s)
  {
  }

  /** Deleting yourself is a 403, decided before any role lookup: whatever the tables hold. */
  lemma SelfDeletionRefused(s: DirectoryState, id: string, faults: Faults)
    requires id != ""
    ensures Delete(s, Some(id), id, faults) == Deletion(Err(Forbidden), s)
  {
  }

  /**
    A permitted deletion comes from a superadmin or an admin and targets a
    user ranked strictly below the caller, other than the caller.
   */
  lemma PermittedDeletion(profiles: map<string, Profile>, roles: seq<Role>, callerId: Option<string>, targetId: string)
    requires Permit(profiles, roles, callerId, targetId).Ok?
    ensures Authenticated(callerId) && callerId.value != targetId
    ensures var callerRole := RoleName(profiles, roles, callerId.value);
      var targetRole := RoleName(profiles, roles, targetId);
      && callerRole.Ok? && callerRole.value in {"superadmin", "admin"}
      && targetRole.Ok? && targetRole.value in RankedBelow(callerRole.value)
  {
    DeletableIsRankedBelow(RoleName(profiles, roles, callerId.value).value);
  }

  /**
    The converse: a superadmin or an admin may delete any other user ranked
    strictly below it.
   */
  lemma DeletionPermitted(profiles: map<string, Profile>, roles: seq<Role>, callerId: Option<string>, targetId: string)
    requires Authenticated(callerId) && callerId.value != targetId
    requires RoleName(profiles, roles, callerId.value).Ok?
    requires RoleName(profiles, roles, callerId.value).value in {"superadmin", "admin"}
    requires RoleName(profiles, roles, targetId).Ok?
    requires RoleName(profiles, roles, targetId).value in RankedBelow(RoleName(profiles, roles, callerId.value).value)
    ensures Permit(profiles, roles, callerId, targetId) == Ok(())
  {
    DeletableIsRankedBelow(RoleName(profiles, roles, callerId.value).value);
  }

  // Properties of the deletion sequence.

  lemma NullifyIdempotent(rows: seq<Option<string>>, target: string)
    ensures Nullify(Nullify(rows, target), target) == Nullify(rows, target)
  {
  }

  /**
    After the loop every table that did not fail has no row created by the
    target, every other row and every failing table is as it was: one
    table's failure does not affect the others.
   */
  lemma {:induction false} ClearTablesEffect(createdBy: map<string, seq<Option<string>>>, target: string,
                                             failing: set<string>, tables: seq<string>)
    ensures ClearTables(createdBy, target, failing, tables).Keys == createdBy.Keys
    ensures forall t :: t in createdBy ==>
      ClearTables(createdBy, target, failing, tables)[t] ==
        if t in tables && t !in failing then Nullify(createdBy[t], target) else createdBy[t]
  {
    if tables != [] {
      var init := tables[..|tables| - 1];
      var last := tables[|tables| - 1];
      var before := ClearTables(createdBy, target, failing, init);
      var after := ClearTables(createdBy, target, failing, tables);
      ClearTablesEffect(createdBy, target, failing, init);
      assert after == if last in failing || last !in before then before else before[last := Nullify(before[last], target)];
      forall t | t in createdBy
        ensures after[t] == if t in tables && t !in failing then Nullify(createdBy[t], target) else createdBy[t]
      {
        assert t in tables <==> t in init || t == last;
        if t == last && t !in failing {
          if t in init {
            NullifyIdempotent(createdBy[t], target);
          }
        }
      }
    }
  }

  /**
    A deletion that passes the checks and whose `user_roles` delete
    succeeds reports success: the target's profile is gone, no row of a
    table that did not fail is still created by the target, and the Auth
    user is gone unless its delete failed, which is swallowed.
   */
  lemma DeletionSucceeds(s: DirectoryState, callerId: Option<string>, targetId: string, faults: Faults)
    requires Permit(s.profiles, s.roles, callerId, targetId).Ok?
    requires !faults.adminClient && !faults.userRoles
    ensures var d := Delete(s, callerId, targetId, faults);
      && d.result == Ok(())
      && d.state.profiles == s.profiles - {targetId}
      && d.state.roles == s.roles
      && d.state.createdBy.Keys == s.createdBy.Keys
      && (forall t :: t in CREATED_BY_TABLES && t !in faults.failingTables && t in s.createdBy ==>
            forall k :: 0 <= k < |d.state.createdBy[t]| ==> d.state.createdBy[t][k] != Some(targetId))
      && (forall t :: t in s.createdBy && (t !in CREATED_BY_TABLES || t in faults.failingTables) ==>
            d.state.createdBy[t] == s.createdBy[t])
      && d.state.authUsers == (if faults.authDelete then s.authUsers else s.authUsers - {targetId})
  {
    ClearTablesEffect(s.createdBy, targetId, faults.failingTables, CREATED_BY_TABLES);
  }

  /** A failing `user_roles` delete is a 500, yet the `created_by` clearing already done stays. */
  lemma UserRolesFailureKeepsClearing(s: DirectoryState, callerId: Option<string>, targetId: string, faults: Faults)
    requires Permit(s.profiles, s.roles, callerId, targetId).Ok?
    requires !faults.adminClient && faults.userRoles
    ensures var d := Delete(s, callerId, targetId, faults);
      && d.result == Err(Internal)
      && d.state == s.(createdBy := ClearTables(s.createdBy, targetId, faults.failingTables, CREATED_BY_TABLES))
      && targetId in d.state.profiles
  {
  }

  /** A refusal writes nothing. */
  lemma RefusalWritesNothing(s: DirectoryState, callerId: Option<string>, targetId: string, faults: Faults)
    requires Permit(s.profiles, s.roles, callerId, targetId).Err?
    ensures Delete(s, callerId, targetId, faults) == Deletion(Permit(s.profiles, s.roles, callerId, targetId), s)
  {
  }

  /** The route, calling the tables one at a time. */
  method DeleteUser(dir: Directory, callerId: Option<string>, targetId: string, faults: Faults)
    returns (r: Result<(), Reason>)
    modifies dir
    ensures Deletion(r, dir.State()) == Delete(old(dir.State()), callerId, targetId, faults)
  {
    var permit := Permit(dir.profiles, dir.roles, callerId, targetId);
    if permit.Err? {
      return permit;
    }
    if faults.adminClient {
      return Err(Internal);
    }
    var i := 0;
    while i < |CREATED_BY_TABLES|
      invariant 0 <= i <= |CREATED_BY_TABLES|
      invariant dir.createdBy == ClearTables(old(dir.createdBy), targetId, faults.failingTables, CREATED_BY_TABLES[..i])
      invariant dir.profiles == old(dir.profiles) && dir.roles == old(dir.roles) && dir.authUsers == old(dir.authUsers)
    {
      var table := CREATED_BY_TABLES[i];
      assert CREATED_BY_TABLES[..i + 1][..i] == CREATED_BY_TABLES[..i];
      // An update that raises is reported and skipped.
      if table !in faults.failingTables && table in dir.createdBy {
        dir.createdBy := dir.createdBy[table := Nullify(dir.createdBy[table], targetId)];
      }
      i := i + 1;
    }
    assert CREATED_BY_TABLES[..i] == CREATED_BY_TABLES;
    if faults.userRoles {
      return Err(Internal);
    }
    dir.profiles := dir.profiles - {targetId};
    if !faults.authDelete {
      dir.authUsers := dir.authUsers - {targetId};
    }
    r := Ok(());
  }
}
