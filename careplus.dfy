/**
  The careplus user directory as the user-management routes see it: the
  `user_roles` profiles, the `roles` table, the `created_by` columns of the
  clinical tables, and the Supabase Auth users. Also the role hierarchy and
  the role lookup both routes share.
 */
module Careplus {
  import opened Wrappers

  /** Lower number, higher rank. */
  const ROLE_HIERARCHY: map<string, int> :=
    map["superadmin" := 0, "admin" := 1, "medico" := 2, "enfermero" := 3, "recepcionista" := 4]

  /** The roles ranked strictly below `role`. */
  function RankedBelow(role: string): set<string>
    requires role in ROLE_HIERARCHY
  {
    set r | r in ROLE_HIERARCHY && ROLE_HIERARCHY[r] > ROLE_HIERARCHY[role]
  }

  /** A row of `roles`. */
  datatype Role = Role(id: int, name: string)

  /** A row of `user_roles`: the user's role and profile columns. */
  datatype Profile = Profile(
    roleId: int, fullName: Option<string>, specialty: Option<string>,
    licenseNumber: Option<string>, phone: Option<string>, isActive: Option<bool>)

  /** Why a route gives up; `Status` is the HTTP code it answers with. */
  datatype Reason =
    | NotAuthenticated    // 401 "Usuario no autenticado"
    | UserNotFound        // 404 "Usuario no encontrado"
    | Forbidden           // 403, any of the permission refusals
    | RoleNotFound        // 400 "Rol ... no encontrado en el sistema"
    | NothingToUpdate     // 400 "No se proporcionaron datos para actualizar"
    | Internal            // 500, any other exception

  function Status(r: Reason): (code: int)
    ensures code == 400 <==> r.RoleNotFound? || r.NothingToUpdate?
    ensures code == 401 <==> r.NotAuthenticated?
    ensures code == 403 <==> r.Forbidden?
    ensures code == 404 <==> r.UserNotFound?
    ensures code == 500 <==> r.Internal?
  {
    match r
    case NotAuthenticated => 401
    case UserNotFound => 404
    case Forbidden => 403
    case RoleNotFound => 400
    case NothingToUpdate => 400
    case Internal => 500
  }

  /** `caller_id` is falsy when there is no user or the id is empty. */
  predicate Authenticated(callerId: Option<string>) {
    callerId.Some? && callerId.value != ""
  }

  /** The first role row with the id (the embedded `roles(name)` of a profile). */
  function RoleById(roles: seq<Role>, id: int): (r: Option<string>)
    ensures r.Some? ==> exists k :: 0 <= k < |roles| && roles[k] == Role(id, r.value)
    ensures r.None? <==> forall k :: 0 <= k < |roles| ==> roles[k].id != id
  {
    if roles == [] then None
    else if roles[0].id == id then Some(roles[0].name)
    else
      var r := RoleById(roles[1..], id);
      assert forall k :: 1 <= k < |roles| ==> roles[k] == roles[1..][k - 1];
      r
  }

  /** The first role row with the name: `roles.select('id').eq('name', ...)`. */
  function RoleByName(roles: seq<Role>, name: string): (r: Option<int>)
    ensures r.Some? ==> exists k :: 0 <= k < |roles| && roles[k] == Role(r.value, name)
    ensures r.None? <==> forall k :: 0 <= k < |roles| ==> roles[k].name != name
  {
    if roles == [] then None
    else if roles[0].name == name then Some(roles[0].id)
    else
      var r := RoleByName(roles[1..], name);
      assert forall k :: 1 <= k < |roles| ==> roles[k] == roles[1..][k - 1];
      r
  }

  /**
    `_get_role_name`: 404 when the user has no profile; a profile whose role
    row is missing makes `['roles']['name']` raise, which the route turns
    into a 500.
   */
  function RoleName(profiles: map<string, Profile>, roles: seq<Role>, userId: string): (r: Result<string, Reason>)
    ensures r.Err? ==> r.error == UserNotFound || r.error == Internal
    ensures r.Err? && r.error == UserNotFound <==> userId !in profiles
    ensures r.Ok? ==> userId in profiles && RoleById(roles, profiles[userId].roleId) == Some(r.value)
  {
    if userId !in profiles then Err(UserNotFound)
    else
      match RoleById(roles, profiles[userId].roleId)
      case None => Err(Internal)
      case Some(name) => Ok(name)
  }

  /** The five tables whose `created_by` references the auth user, in the order they are cleared. */
  const CREATED_BY_TABLES: seq<string> := ["patients", "consultations", "diagnostics", "treatments", "medical_history"]

  /** A snapshot of the tables the user routes touch. */
  datatype DirectoryState = DirectoryState(
    profiles: map<string, Profile>, roles: seq<Role>,
    createdBy: map<string, seq<Option<string>>>, authUsers: set<string>)

  /** The tables the user routes touch. */
  class Directory {
    var profiles: map<string, Profile>
    var roles: seq<Role>
    /** The `created_by` column of every row of each table named in `CREATED_BY_TABLES`. */
    var createdBy: map<string, seq<Option<string>>>
    var authUsers: set<string>

    function State(): DirectoryState
      reads this
    {
      DirectoryState(profiles, roles, createdBy, authUsers)
    }

    constructor (profiles: map<string, Profile>, roles: seq<Role>,
                 createdBy: map<string, seq<Option<string>>>, authUsers: set<string>)
      ensures this.profiles == profiles && this.roles == roles
      ensures this.createdBy == createdBy && this.authUsers == authUsers
    {
      this.profiles := profiles;
      this.roles := roles;
      this.createdBy := createdBy;
      this.authUsers := authUsers;
    }
  }

  // Properties of the hierarchy.

  /** The roles below superadmin are every other role; below admin, the clinical and desk roles. */
  lemma RankedBelowRoles()
    ensures RankedBelow("superadmin") == {"admin", "medico", "enfermero", "recepcionista"}
    ensures RankedBelow("admin") == {"medico", "enfermero", "recepcionista"}
  {
    var sa := {"admin", "medico", "enfermero", "recepcionista"};
    forall r ensures r in RankedBelow("superadmin") <==> r in sa {
      if r in ROLE_HIERARCHY {
        assert r == "superadmin" || r in sa;
      }
    }
    var a := {"medico", "enfermero", "recepcionista"};
    forall r ensures r in RankedBelow("admin") <==> r in a {
      if r in ROLE_HIERARCHY {
        assert r == "superadmin" || r == "admin" || r in a;
      }
    }
  }

  /** No role is ranked below itself, so no role is ever in the set below it; superadmin is below none. */
  lemma SuperadminBelowNone(role: string)
    requires role in ROLE_HIERARCHY
    ensures "superadmin" !in RankedBelow(role)
    ensures role !in RankedBelow(role)
  {
  }
}
