/** service/RoleService.java over the `role` table. Role.java is not part of
    this model: a role is taken to be an id and a name, the two properties the
    services read. */
module Roles {
  import opened Wrappers

  datatype Role = Role(id: int, name: string)

  /** The role table, rows in id order. */
  type RoleTable = seq<Role>

  /** roleRepository.findByName: a single-result query, so more than one
      matching row is an error rather than an answer. */
  datatype RoleLookup = NoRole | OneRole(role: Role) | ManyRoles

  datatype RoleError =
    | RoleAlreadyExists(name: string)
    | RoleNotFound(name: string)
    | RoleIdNotFound(id: int)
    | NonUniqueRoleName(name: string)   // the query's IncorrectResultSizeDataAccessException

  /** The rows named `name`, in table order. */
  function Named(roles: RoleTable, name: string): (r: seq<Role>)
    ensures forall x :: x in r <==> x in roles && x.name == name
    ensures |r| <= |roles|
    decreases |roles|
  {
    if roles == [] then []
    else
      var rest := Named(roles[..|roles| - 1], name);
      var last := roles[|roles| - 1];
      assert roles == roles[..|roles| - 1] + [last];
      if last.name == name then rest + [last] else rest
  }

  function FindByName(roles: RoleTable, name: string): (r: RoleLookup)
    ensures r == NoRole <==> forall x :: x in roles ==> x.name != name
    ensures r.OneRole? ==> r.role in roles && r.role.name == name
  {
    var m := Named(roles, name);
    if |m| == 0 then NoRole
    else if |m| == 1 then (assert m[0] in m; OneRole(m[0]))
    else ManyRoles
  }

  /** Distinct names: the state createRole alone maintains. */
  predicate NamesUnique(roles: RoleTable) {
    forall i, j :: 0 <= i < j < |roles| ==> roles[i].name != roles[j].name
  }

  /** With distinct names the single-result query never fails. */
  lemma {:induction false} UniqueNamesFindOne(roles: RoleTable, name: string)
    ensures NamesUnique(roles) ==> |Named(roles, name)| <= 1
    ensures NamesUnique(roles) ==> FindByName(roles, name) != ManyRoles
    decreases |roles|
  {
    if roles != [] && NamesUnique(roles) {
      var init := roles[..|roles| - 1];
      assert NamesUnique(init);
      UniqueNamesFindOne(init, name);
      var last := roles[|roles| - 1];
      if last.name == name {
        forall x | x in init ensures x.name != name {
          var i :| 0 <= i < |init| && init[i] == x;
          assert roles[i] == x;
        }
        assert |Named(init, name)| == 0;
      }
    }
  }

  class RoleService {
    var roles: RoleTable
    var nextId: int

    ghost predicate Valid()
      reads this
    {
      forall i :: 0 <= i < |roles| ==>
        roles[i].id < nextId && (forall j :: 0 <= j < i ==> roles[j].id < roles[i].id)
    }

    constructor ()
      ensures Valid() && roles == [] && nextId == 1
    {
      roles := [];
      nextId := 1;
    }

    /** createRole: inserts a role under a fresh id when no role has that name. */
    method CreateRole(name: string) returns (r: Outcome<RoleError>)
      requires Valid()
      modifies this
      ensures Valid()
      ensures FindByName(old(roles), name) == NoRole ==>
        r == Pass && roles == old(roles) + [Role(old(nextId), name)] && nextId == old(nextId) + 1
      ensures FindByName(old(roles), name).OneRole? ==>
        r == Fail(RoleAlreadyExists(name)) && roles == old(roles) && nextId == old(nextId)
      ensures FindByName(old(roles), name) == ManyRoles ==>
        r == Fail(NonUniqueRoleName(name)) && roles == old(roles) && nextId == old(nextId)
      ensures NamesUnique(old(roles)) ==> NamesUnique(roles)
    {
      match FindByName(roles, name)
      case NoRole =>
        roles := roles + [Role(nextId, name)];
        nextId := nextId + 1;
        r := Pass;
      case OneRole(_) =>
        r := Fail(RoleAlreadyExists(name));
      case ManyRoles =>
        r := Fail(NonUniqueRoleName(name));
    }

    /** findRole: the role with that name, or an error. */
    function FindRole(name: string): (r: Result<Role, RoleError>)
      reads this
      ensures r.Ok? ==> r.value in roles && r.value.name == name
      ensures r == Err(RoleNotFound(name)) <==> forall x :: x in roles ==> x.name != name
      ensures NamesUnique(roles) && (exists x :: x in roles && x.name == name) ==> r.Ok?
    {
      match FindByName(roles, name)
      case NoRole => Err(RoleNotFound(name))
      case OneRole(x) => Ok(x)
      case ManyRoles => UniqueNamesFindOne(roles, name); Err(NonUniqueRoleName(name))
    }

    /** updateRole: overwrites the row with the role's id, if there is one. */
    method UpdateRole(role: Role) returns (r: Outcome<RoleError>)
      requires Valid()
      modifies this
      ensures Valid()
      ensures nextId == old(nextId)
      ensures (exists i :: 0 <= i < |old(roles)| && old(roles)[i].id == role.id) ==>
        r == Pass && |roles| == |old(roles)|
        && (forall i :: 0 <= i < |roles| ==>
              roles[i] == if old(roles)[i].id == role.id then role else old(roles)[i])
      ensures (forall i :: 0 <= i < |old(roles)| ==> old(roles)[i].id != role.id) ==>
        r == Fail(RoleIdNotFound(role.id)) && roles == old(roles)
    {
      var i := 0;
      while i < |roles|
        invariant 0 <= i <= |roles|
        invariant forall j :: 0 <= j < i ==> roles[j].id != role.id
      {
        if roles[i].id == role.id {
          roles := roles[i := role];
          r := Pass;
          return;
        }
        i := i + 1;
      }
      r := Fail(RoleIdNotFound(role.id));
    }

    /** getAllRoles. */
    function GetAllRoles(): (r: seq<Role>)
      reads this
      ensures forall x :: x in r <==> x in roles
      ensures |r| == |roles|
    {
      roles
    }
  }

  /** createRole keeps names unique, but updateRole does not check names: a
      rename onto an existing name leaves two rows that findByName can no
      longer tell apart. */
  lemma UpdateCanDuplicateName()
    ensures var before := [Role(1, "ROLE_ADMIN"), Role(2, "ROLE_CUSTOMER")];
      var after := before[1 := Role(2, "ROLE_ADMIN")];
      NamesUnique(before) && FindByName(after, "ROLE_ADMIN") == ManyRoles
  {
    var before := [Role(1, "ROLE_ADMIN"), Role(2, "ROLE_CUSTOMER")];
    var after := [Role(1, "ROLE_ADMIN"), Role(2, "ROLE_ADMIN")];
    assert before[1 := Role(2, "ROLE_ADMIN")] == after;
    assert after[..1] == [Role(1, "ROLE_ADMIN")];
    assert after[..1][..0] == [];
    assert Named(after[..1], "ROLE_ADMIN") == [Role(1, "ROLE_ADMIN")];
    assert |Named(after, "ROLE_ADMIN")| == 2;
  }
}
