/**
  `PUT /users/{target_user_id}`: who may edit whom, which roles may be
  granted, and the partial update written to the target's `user_roles` row.
 */
module UpdateUser {
  import opened Wrappers
  import opened Careplus

  const SUPERADMIN_EDITABLE_ROLES: set<string> := {"admin", "medico", "enfermero", "recepcionista"}
  const ADMIN_EDITABLE_ROLES: set<string> := {"medico", "enfermero", "recepcionista"}
  const SUPERADMIN_ASSIGNABLE_ROLES: set<string> := {"admin", "medico", "enfermero", "recepcionista"}
  const ADMIN_ASSIGNABLE_ROLES: set<string> := {"medico", "enfermero", "recepcionista"}

  datatype Permissions = Permissions(editable: set<string>, assignable: set<string>)

  /** Only a superadmin or an admin may edit users. */
  function CallerPermissions(role: string): (p: Option<Permissions>)
    ensures p.Some? <==> role == "superadmin" || role == "admin"
  {
    if role == "superadmin" then Some(Permissions(SUPERADMIN_EDITABLE_ROLES, SUPERADMIN_ASSIGNABLE_ROLES))
    else if role == "admin" then Some(Permissions(ADMIN_EDITABLE_ROLES, ADMIN_ASSIGNABLE_ROLES))
    else None
  }

  /** The body of the request; `None` is a field left out or null. */
  datatype UpdateRequest = UpdateRequest(
    role: Option<string>, fullName: Option<string>, specialty: Option<string>,
    licenseNumber: Option<string>, phone: Option<string>, isActive: Option<bool>)

  /** A value of `update_data`. */
  datatype Value = Text(text: string) | Flag(flag: bool) | RoleRef(id: int)

  predicate AnyField(req: UpdateRequest, newRoleId: Option<int>) {
    req.fullName.Some? || req.specialty.Some? || req.licenseNumber.Some?
      || req.phone.Some? || req.isActive.Some? || newRoleId.Some?
  }

  /** `data` holds exactly the given fields under their column names, and the new role as `role_id`. */
  predicate DataFor(data: map<string, Value>, req: UpdateRequest, newRoleId: Option<int>) {
    && data.Keys <= {"full_name", "specialty", "license_number", "phone", "is_active", "role_id"}
    && ("full_name" in data <==> req.fullName.Some?)
    && ("specialty" in data <==> req.specialty.Some?)
    && ("license_number" in data <==> req.licenseNumber.Some?)
    && ("phone" in data <==> req.phone.Some?)
    && ("is_active" in data <==> req.isActive.Some?)
    && ("role_id" in data <==> newRoleId.Some?)
    && (req.fullName.Some? ==> data["full_name"] == Text(req.fullName.value))
    && (req.specialty.Some? ==> data["specialty"] == Text(req.specialty.value))
    && (req.licenseNumber.Some? ==> data["license_number"] == Text(req.licenseNumber.value))
    && (req.phone.Some? ==> data["phone"] == Text(req.phone.value))
    && (req.isActive.Some? ==> data["is_active"] == Flag(req.isActive.value))
    && (newRoleId.Some? ==> data["role_id"] == RoleRef(newRoleId.value))
  }

  /** The `update_data` dict, one assignment per field that is not None. */
  method BuildUpdateData(req: UpdateRequest, newRoleId: Option<int>) returns (data: map<string, Value>)
    ensures DataFor(data, req, newRoleId)
    ensures data == map[] <==> !AnyField(req, newRoleId)
  {
    data := map[];
    if req.fullName.Some? {
      data := data["full_name" := Text(req.fullName.value)];
    }
    if req.specialty.Some? {
      data := data["specialty" := Text(req.specialty.value)];
    }
    if req.licenseNumber.Some? {
      data := data["license_number" := Text(req.licenseNumber.value)];
    }
    if req.phone.Some? {
      data := data["phone" := Text(req.phone.value)];
    }
    if req.isActive.Some? {
      data := data["is_active" := Flag(req.isActive.value)];
    }
    if newRoleId.Some? {
      data := data["role_id" := RoleRef(newRoleId.value)];
    }
    // The first field present is a key of the dict.
    if req.fullName.Some? {
      assert "full_name" in data;
    } else if req.specialty.Some? {
      assert "specialty" in data;
    } else if req.licenseNumber.Some? {
      assert "license_number" in data;
    } else if req.phone.Some? {
      assert "phone" in data;
    } else if req.isActive.Some? {
      assert "is_active" in data;
    } else if newRoleId.Some? {
      assert "role_id" in data;
    }
  }

  /** The row after `update(data)`: each column named in the dict takes its value. */
  function Apply(p: Profile, data: map<string, Value>): Profile {
    Profile(
      if "role_id" in data && data["role_id"].RoleRef? then data["role_id"].id else p.roleId,
      if "full_name" in data && data["full_name"].Text? then Some(data["full_name"].text) else p.fullName,
      if "specialty" in data && data["specialty"].Text? then Some(data["specialty"].text) else p.specialty,
      if "license_number" in data && data["license_number"].Text? then Some(data["license_number"].text) else p.licenseNumber,
      if "phone" in data && data["phone"].Text? then Some(data["phone"].text) else p.phone,
      if "is_active" in data && data["is_active"].Flag? then Some(data["is_active"].flag) else p.isActive)
  }

  /** The profile the request asks for: given fields replaced, the rest kept. */
  function Patched(p: Profile, req: UpdateRequest, newRoleId: Option<int>): Profile {
    Profile(
      newRoleId.GetOr(p.roleId),
      if req.fullName.Some? then req.fullName else p.fullName,
      if req.specialty.Some? then req.specialty else p.specialty,
      if req.licenseNumber.Some? then req.licenseNumber else p.licenseNumber,
      if req.phone.Some? then req.phone else p.phone,
      if req.isActive.Some? then req.isActive else p.isActive)
  }

  /**
    The decision of the route before its one write: the new role id to set,
    if any, or the reason it refuses. The checks run in the route's order.
   */
  function Decide(profiles: map<string, Profile>, roles: seq<Role>, callerId: Option<string>,
                  targetId: string, req: UpdateRequest): Result<Option<int>, Reason>
  {
    if !Authenticated(callerId) then Err(NotAuthenticated)
    else
      match RoleName(profiles, roles, callerId.value)
      case Err(e) => Err(e)
      case Ok(callerRole) =>
        match CallerPermissions(callerRole)
        case None => Err(Forbidden)
        case Some(perms) =>
          match RoleName(profiles, roles, targetId)
          case Err(e) => Err(e)
          case Ok(targetRole) =>
            if targetRole !in perms.editable then Err(Forbidden)
            else if req.role.Some? && req.role.value !in perms.assignable then Err(Forbidden)
            else if req.role.Some? && RoleByName(roles, req.role.value).None? then Err(RoleNotFound)
            else
              var newRoleId := if req.role.Some? then RoleByName(roles, req.role.value) else None;
              if !AnyField(req, newRoleId) then Err(NothingToUpdate) else Ok(newRoleId)
  }

  // Properties of the permission rules.

  /** The editable roles of a caller are exactly the roles ranked strictly below it; a superadmin is never editable. */
  lemma EditableIsRankedBelow(role: string)
    requires CallerPermissions(role).Some?
    ensures CallerPermissions(role).value.editable == RankedBelow(role)
    ensures "superadmin" !in CallerPermissions(role).value.editable
  {
    RankedBelowRoles();
  }

  /** An admin can grant neither admin nor superadmin, and no caller can grant superadmin. */
  lemma AssignableRoles(role: string)
    requires CallerPermissions(role).Some?
    ensures "superadmin" !in CallerPermissions(role).value.assignable
    ensures role == "admin" ==> "admin" !in CallerPermissions(role).value.assignable
  {
  }

  /** A caller without an id gets 401. */
  lemma UnauthenticatedRefused(profiles: map<string, Profile>, roles: seq<Role>, callerId: Option<string>,
                               targetId: string, req: UpdateRequest)
    requires !Authenticated(callerId)
    ensures Decide(profiles, roles, callerId, targetId, req) == Err(NotAuthenticated)
  {
  }

  /** A caller whose role is neither superadmin nor admin gets 403. */
  lemma OtherRolesRefused(profiles: map<string, Profile>, roles: seq<Role>, callerId: Option<string>,
                          targetId: string, req: UpdateRequest)
    requires Authenticated(callerId)
    requires RoleName(profiles, roles, callerId.value).Ok?
    requires RoleName(profiles, roles, callerId.value).value !in {"superadmin", "admin"}
    ensures Decide(profiles, roles, callerId, targetId, req) == Err(Forbidden)
  {
  }

  /**
    An accepted update comes from a superadmin or an admin, targets a user
    ranked strictly below the caller, grants only a role ranked below the
    caller and known to `roles`, and changes at least one field.
   */
  lemma AcceptedUpdate(profiles: map<string, Profile>, roles: seq<Role>, callerId: Option<string>,
                       targetId: string, req: UpdateRequest)
    requires Decide(profiles, roles, callerId, targetId, req).Ok?
    ensures Authenticated(callerId)
    ensures var callerRole := RoleName(profiles, roles, callerId.value);
      var targetRole := RoleName(profiles, roles, targetId);
      var newRoleId := Decide(profiles, roles, callerId, targetId, req).value;
      && callerRole.Ok? && callerRole.value in {"superadmin", "admin"}
      && targetRole.Ok? && targetRole.value in RankedBelow(callerRole.value)
      && (req.role.Some? ==> req.role.value in RankedBelow(callerRole.value)
                             && newRoleId == RoleByName(roles, req.role.value) && newRoleId.Some?)
      && (req.role.None? ==> newRoleId.None?)
      && AnyField(req, newRoleId)
  {
    var callerRole := RoleName(profiles, roles, callerId.value).value;
    EditableIsRankedBelow(callerRole);
    RankedBelowRoles();
  }

  /**
    The converse: a superadmin or an admin may edit any user ranked
    strictly below it, granting any known role ranked below it, as long as
    one field is given; the route then writes.
   */
  lemma PermittedUpdate(profiles: map<string, Profile>, roles: seq<Role>, callerId: Option<string>,
                        targetId: string, req: UpdateRequest)
    requires Authenticated(callerId)
    requires RoleName(profiles, roles, callerId.value).Ok?
    requires RoleName(profiles, roles, callerId.value).value in {"superadmin", "admin"}
    requires RoleName(profiles, roles, targetId).Ok?
    requires RoleName(profiles, roles, targetId).value in RankedBelow(RoleName(profiles, roles, callerId.value).value)
    requires req.role.Some? ==> req.role.value in RankedBelow(RoleName(profiles, roles, callerId.value).value)
                                && RoleByName(roles, req.role.value).Some?
    requires AnyField(req, if req.role.Some? then RoleByName(roles, req.role.value) else None)
    ensures Decide(profiles, roles, callerId, targetId, req)
      == Ok(if req.role.Some? then RoleByName(roles, req.role.value) else None)
  {
    var callerRole := RoleName(profiles, roles, callerId.value).value;
    EditableIsRankedBelow(callerRole);
    RankedBelowRoles();
  }

  /** An admin asking to grant admin or superadmin is refused. */
  lemma AdminCannotGrantAdmin(profiles: map<string, Profile>, roles: seq<Role>, callerId: Option<string>,
                              targetId: string, req: UpdateRequest)
    requires Authenticated(callerId) && RoleName(profiles, roles, callerId.value) == Ok("admin")
    requires req.role == Some("admin") || req.role == Some("superadmin")
    ensures Decide(profiles, roles, callerId, targetId, req).Err?
  {
  }

  /** A request with no field set never writes. */
  lemma EmptyRequestRefused(profiles: map<string, Profile>, roles: seq<Role>, callerId: Option<string>,
                            targetId: string)
    ensures var req := UpdateRequest(None, None, None, None, None, None);
      Decide(profiles, roles, callerId, targetId, req).Err?
  {
  }

  /** Writing the dict built from a request is exactly the requested patch. */
  lemma ApplyDataFor(p: Profile, data: map<string, Value>, req: UpdateRequest, newRoleId: Option<int>)
    requires DataFor(data, req, newRoleId)
    ensures Apply(p, data) == Patched(p, req, newRoleId)
  {
  }

  /** The patch changes only the fields given, and the role only when a role was asked for. */
  lemma PatchedFields(p: Profile, req: UpdateRequest, newRoleId: Option<int>)
    ensures var q := Patched(p, req, newRoleId);
      && (q.roleId != p.roleId ==> newRoleId.Some?)
      && (req.fullName.None? ==> q.fullName == p.fullName)
      && (req.specialty.None? ==> q.specialty == p.specialty)
      && (req.licenseNumber.None? ==> q.licenseNumber == p.licenseNumber)
      && (req.phone.None? ==> q.phone == p.phone)
      && (req.isActive.None? ==> q.isActive == p.isActive)
      && (!AnyField(req, newRoleId) ==> q == p)
  {
  }

  /**
    The route: every refusal happens before the single update of the
    target's row, so a refusal writes nothing.
   */
  method UpdateUser(dir: Directory, callerId: Option<string>, targetId: string, req: UpdateRequest)
    returns (r: Result<(), Reason>)
    modifies dir
    ensures var d := Decide(old(dir.profiles), old(dir.roles), callerId, targetId, req);
      && (d.Err? ==> r == Err(d.error) && unchanged(dir))
      && (d.Ok? ==> && r == Ok(())
                    && targetId in old(dir.profiles)
                    && dir.profiles == old(dir.profiles)[targetId := Patched(old(dir.profiles)[targetId], req, d.value)]
                    && dir.roles == old(dir.roles) && dir.createdBy == old(dir.createdBy)
                    && dir.authUsers == old(dir.authUsers))
  {
    if !Authenticated(callerId) {
      return Err(NotAuthenticated);
    }
    var callerRole := RoleName(dir.profiles, dir.roles, callerId.value);
    if callerRole.Err? {
      return Err(callerRole.error);
    }
    var perms := CallerPermissions(callerRole.value);
    if perms.None? {
      return Err(Forbidden);
    }
    var targetRole := RoleName(dir.profiles, dir.roles, targetId);
    if targetRole.Err? {
      return Err(targetRole.error);
    }
    if targetRole.value !in perms.value.editable {
      return Err(Forbidden);
    }
    var newRoleId: Option<int> := None;
    if req.role.Some? {
      if req.role.value !in perms.value.assignable {
        return Err(Forbidden);
      }
      var found := RoleByName(dir.roles, req.role.value);
      if found.None? {
        return Err(RoleNotFound);
      }
      newRoleId := found;
    }
    var data := BuildUpdateData(req, newRoleId);
    if data == map[] {
      return Err(NothingToUpdate);
    }
    ApplyDataFor(dir.profiles[targetId], data, req, newRoleId);
    dir.profiles := dir.profiles[targetId := Apply(dir.profiles[targetId], data)];
    r := Ok(());
  }
}
