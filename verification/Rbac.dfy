/**
 Roles and permissions (admin/services/admin.service.ts). Every
 operation reads, awaits and then writes, so operations interleave between
 their check and their write.
 */
module Rbac {
  import opened Basics

  type Id = string

  // ---- Roles ----

  datatype RoleOp =
    | Update(role: Id, isSystem: Option<bool>)
    | Assign(role: Id, permission: Id)
    | Remove(role: Id, permission: Id)
    | Sync(role: Id, permissions: seq<Id>)

  /** `roles` maps a role to its system flag; `pending` operations have passed their check. */
  datatype State = State(roles: map<Id, bool>, permissions: set<Id>, grants: set<(Id, Id)>, pending: map<nat, RoleOp>)

  datatype Step =
    | CreateRole(role: Id)
    | CreatePermission(permission: Id)
    | UpdatePermission(permission: Id, newId: Id)
    | Begin(h: nat, op: RoleOp)
    | Act(h: nat)

  predicate IsSystem(s: State, role: Id) {
    role in s.roles && s.roles[role]
  }

  function PermissionsOf(s: State, role: Id): set<Id> {
    set g | g in s.grants && g.0 == role :: g.1
  }

  predicate Enabled(s: State, step: Step) {
    match step
    case CreateRole(r) => r !in s.roles
    case CreatePermission(p) => true
    case UpdatePermission(p, q) => true
    case Begin(h, op) => h !in s.pending && !IsSystem(s, op.role)
    case Act(h) => h in s.pending
  }

  /** The database accepts the new id of a permission. */
  predicate Renamable(s: State, p: Id, q: Id) {
    p in s.permissions && (q == p || q !in s.permissions)
  }

  /** Grants refer to permissions by id, and an update of the id cascades into them. */
  function Cascaded(grants: set<(Id, Id)>, p: Id, q: Id): set<(Id, Id)> {
    set g | g in grants :: if g.1 == p then (g.0, q) else g
  }

  predicate Distinct(ids: seq<Id>) {
    forall j, k :: 0 <= j < k < |ids| ==> ids[j] != ids[k]
  }

  function ToSet(ids: seq<Id>): set<Id> {
    set p | p in ids
  }

  /** The database accepts the rows: role and permissions exist and no pair repeats. */
  predicate Insertable(s: State, role: Id, ids: seq<Id>) {
    ids == [] || (role in s.roles && ToSet(ids) <= s.permissions && Distinct(ids))
  }

  /** The write; a violated constraint throws and, in Sync, rolls the transaction back. */
  function Written(s: State, op: RoleOp): State {
    match op
    case Update(r, flag) => if r in s.roles && flag.Some? then s.(roles := s.roles[r := flag.value]) else s
    case Assign(r, p) =>
      if r in s.roles && p in s.permissions then s.(grants := s.grants + {(r, p)}) else s
    case Remove(r, p) => s.(grants := s.grants - {(r, p)})
    case Sync(r, ids) =>
      if Insertable(s, r, ids)
      then s.(grants := (set g | g in s.grants && g.0 != r) + (set p | p in ids :: (r, p)))
      else s
  }

  function Apply(s: State, step: Step): State
    requires Enabled(s, step)
  {
    match step
    case CreateRole(r) => s.(roles := s.roles[r := false])
    case CreatePermission(p) => s.(permissions := s.permissions + {p})
    case UpdatePermission(p, q) =>
      if Renamable(s, p, q)
      then s.(permissions := s.permissions - {p} + {q}, grants := Cascaded(s.grants, p, q))
      else s
    case Begin(h, op) => s.(pending := s.pending[h := op])
    case Act(h) => Written(s, s.pending[h]).(pending := s.pending - {h})
  }

  predicate Runs(s: State, steps: seq<Step>)
    decreases |steps|
  {
    steps == [] || (Enabled(s, steps[0]) && Runs(Apply(s, steps[0]), steps[1..]))
  }

  function Exec(s: State, steps: seq<Step>): State
    requires Runs(s, steps)
    decreases |steps|
  {
    if steps == [] then s else Exec(Apply(s, steps[0]), steps[1..])
  }

  /** A pending operation that cannot change its role, whatever happens before its write. */
  predicate Inert(s: State, op: RoleOp) {
    match op
    case Update(_, flag) => flag != Some(false)
    case Assign(r, p) => (r, p) in s.grants
    case Remove(r, p) => (r, p) !in s.grants
    case Sync(r, ids) => !Distinct(ids) || ToSet(ids) == PermissionsOf(s, r)
  }

  predicate Settled(s: State, role: Id) {
    forall h :: h in s.pending && s.pending[h].role == role ==> Inert(s, s.pending[h])
  }

  /** Still a system role, with the same permissions. */
  predicate Frozen(s: State, s': State, role: Id) {
    IsSystem(s', role) && PermissionsOf(s', role) == PermissionsOf(s, role)
  }

  lemma GrantIsPermission(s: State, role: Id)
    ensures forall p :: p in PermissionsOf(s, role) <==> (role, p) in s.grants
  {
    assert forall p :: (role, p) in s.grants ==> (role, p).1 in PermissionsOf(s, role);
  }

  lemma WrittenElsewhere(s: State, op: RoleOp, role: Id)
    requires op.role != role
    ensures PermissionsOf(Written(s, op), role) == PermissionsOf(s, role)
    ensures role in s.roles ==> role in Written(s, op).roles && Written(s, op).roles[role] == s.roles[role]
  {
    var s' := Written(s, op);
    assert forall p :: (role, p) in s'.grants <==> (role, p) in s.grants;
    assert forall p :: p in PermissionsOf(s', role) <==> (role, p) in s'.grants;
    assert forall p :: p in PermissionsOf(s, role) <==> (role, p) in s.grants;
  }

  lemma InertWritten(s: State, op: RoleOp)
    requires IsSystem(s, op.role) && Inert(s, op)
    ensures Frozen(s, Written(s, op), op.role)
  {
    GrantIsPermission(s, op.role);
    GrantIsPermission(Written(s, op), op.role);
  }

  lemma InertStays(s: State, s': State, op: RoleOp)
    requires PermissionsOf(s', op.role) == PermissionsOf(s, op.role) && Inert(s, op)
    ensures Inert(s', op)
  {
    GrantIsPermission(s, op.role);
    GrantIsPermission(s', op.role);
  }

  /** The step gives a permission of the role a new id; no check protects system roles from it. */
  predicate RenamesGrant(s: State, step: Step, role: Id) {
    && step.UpdatePermission? && Renamable(s, step.permission, step.newId) && step.newId != step.permission
    && step.permission in PermissionsOf(s, role)
  }

  lemma CascadeAway(s: State, p: Id, q: Id, role: Id)
    requires p !in PermissionsOf(s, role) || p == q
    ensures PermissionsOf(s.(grants := Cascaded(s.grants, p, q)), role) == PermissionsOf(s, role)
  {
    var s' := s.(grants := Cascaded(s.grants, p, q));
    GrantIsPermission(s, role);
    GrantIsPermission(s', role);
    forall x ensures (role, x) in s'.grants <==> (role, x) in s.grants {
      if (role, x) in s.grants {
        assert (if (role, x).1 == p then ((role, x).0, q) else (role, x)) == (role, x);
      }
    }
  }

  lemma RenameThaws(s: State, step: Step, role: Id)
    requires Enabled(s, step) && RenamesGrant(s, step, role)
    ensures !Frozen(s, Apply(s, step), role)
  {
    var p := step.permission;
    GrantIsPermission(s, role);
    GrantIsPermission(Apply(s, step), role);
    assert (role, p) !in Apply(s, step).grants;
  }

  lemma QuietStepKeeps(s: State, step: Step, role: Id)
    requires Enabled(s, step) && !step.Act? && !RenamesGrant(s, step, role)
    ensures PermissionsOf(Apply(s, step), role) == PermissionsOf(s, role)
  {
    if step.UpdatePermission? && Renamable(s, step.permission, step.newId) {
      CascadeAway(s, step.permission, step.newId, role);
      assert PermissionsOf(Apply(s, step), role)
          == PermissionsOf(s.(grants := Cascaded(s.grants, step.permission, step.newId)), role);
    } else {
      assert Apply(s, step).grants == s.grants;
    }
  }

  lemma StepFreezes(s: State, step: Step, role: Id)
    requires Enabled(s, step) && IsSystem(s, role) && Settled(s, role) && !RenamesGrant(s, step, role)
    ensures Frozen(s, Apply(s, step), role) && Settled(Apply(s, step), role)
  {
    var s' := Apply(s, step);
    if step.Act? {
      var op := s.pending[step.h];
      if op.role == role {
        InertWritten(s, op);
      } else {
        WrittenElsewhere(s, op, role);
      }
      assert PermissionsOf(s', role) == PermissionsOf(Written(s, op), role);
    } else {
      QuietStepKeeps(s, step, role);
    }
    forall h | h in s'.pending && s'.pending[h].role == role ensures Inert(s', s'.pending[h]) {
      InertStays(s, s', s'.pending[h]);
    }
  }

  /** Every state of the run has the role as a system role with these permissions. */
  predicate AlwaysFrozen(s: State, steps: seq<Step>, role: Id, ids: set<Id>)
    requires Runs(s, steps)
    decreases |steps|
  {
    && IsSystem(s, role) && PermissionsOf(s, role) == ids
    && (steps != [] ==> AlwaysFrozen(Apply(s, steps[0]), steps[1..], role, ids))
  }

  predicate NeverRenamesGrant(s: State, steps: seq<Step>, role: Id)
    requires Runs(s, steps)
    decreases |steps|
  {
    steps != [] ==> !RenamesGrant(s, steps[0], role) && NeverRenamesGrant(Apply(s, steps[0]), steps[1..], role)
  }

  /**
   Once a role is a system role, and every operation that passed its check
   earlier and is still pending on it is inert: over every run of service
   operations its flag and its permissions never change, if and only if none of
   its permissions is given a new id.
   */
  lemma {:induction false} SystemRoleFrozen(s: State, steps: seq<Step>, role: Id)
    requires Runs(s, steps) && IsSystem(s, role) && Settled(s, role)
    ensures AlwaysFrozen(s, steps, role, PermissionsOf(s, role)) <==> NeverRenamesGrant(s, steps, role)
    ensures NeverRenamesGrant(s, steps, role) ==> Frozen(s, Exec(s, steps), role)
    decreases |steps|
  {
    if steps != [] {
      if RenamesGrant(s, steps[0], role) {
        RenameThaws(s, steps[0], role);
        assert !AlwaysFrozen(Apply(s, steps[0]), steps[1..], role, PermissionsOf(s, role));
      } else {
        StepFreezes(s, steps[0], role);
        SystemRoleFrozen(Apply(s, steps[0]), steps[1..], role);
      }
    }
  }

  /** The failing input: with nothing pending, a new id for its only permission changes a system role's set. */
  lemma RenameChangesSystemRole(role: Id, p: Id, q: Id)
    requires p != q
    ensures var s := State(map[role := true], {p}, {(role, p)}, map[]);
            && Enabled(s, UpdatePermission(p, q)) && PermissionsOf(s, role) == {p}
            && PermissionsOf(Apply(s, UpdatePermission(p, q)), role) == {q}
  {
    var s := State(map[role := true], {p}, {(role, p)}, map[]);
    var s' := Apply(s, UpdatePermission(p, q));
    assert s'.grants == {(role, q)};
    GrantIsPermission(s, role);
    GrantIsPermission(s', role);
  }

  /** Creates the permissions of `ids` and then lets operation `h` write. */
  function CreateThenAct(ids: seq<Id>, h: nat): seq<Step> {
    if ids == [] then [Act(h)] else [CreatePermission(ids[0])] + CreateThenAct(ids[1..], h)
  }

  lemma {:induction false} CreateThenActRuns(s: State, ids: seq<Id>, h: nat)
    requires h in s.pending
    ensures Runs(s, CreateThenAct(ids, h))
    ensures Exec(s, CreateThenAct(ids, h)) == Apply(s.(permissions := s.permissions + ToSet(ids)), Act(h))
    decreases |ids|
  {
    var steps := CreateThenAct(ids, h);
    if ids == [] {
      assert s.(permissions := s.permissions + ToSet(ids)) == s;
      assert steps[1..] == [];
    } else {
      var s' := Apply(s, CreatePermission(ids[0]));
      CreateThenActRuns(s', ids[1..], h);
      assert steps[1..] == CreateThenAct(ids[1..], h);
      assert s.permissions + ToSet(ids) == s'.permissions + ToSet(ids[1..]);
    }
  }

  lemma {:induction false} CreateThenActRenamesNothing(s: State, ids: seq<Id>, h: nat, role: Id)
    requires Runs(s, CreateThenAct(ids, h))
    ensures NeverRenamesGrant(s, CreateThenAct(ids, h), role)
    decreases |ids|
  {
    var steps := CreateThenAct(ids, h);
    if ids != [] {
      assert steps[1..] == CreateThenAct(ids[1..], h);
      CreateThenActRenamesNothing(Apply(s, steps[0]), ids[1..], h, role);
    } else {
      assert steps[1..] == [];
    }
  }

  /**
   A pending operation on a system role that is not inert thaws it: some run, without
   any new id, changes the role's flag or permissions.
   */
  lemma ThawingRun(s: State, role: Id, h: nat) returns (steps: seq<Step>)
    requires IsSystem(s, role) && h in s.pending && s.pending[h].role == role && !Inert(s, s.pending[h])
    ensures Runs(s, steps) && NeverRenamesGrant(s, steps, role) && !Frozen(s, Exec(s, steps), role)
  {
    var op := s.pending[h];
    var ids := match op case Assign(_, p) => [p] case Sync(_, ids) => ids case _ => [];
    steps := CreateThenAct(ids, h);
    CreateThenActRuns(s, ids, h);
    CreateThenActRenamesNothing(s, ids, h, role);
    var s' := Exec(s, steps);
    GrantIsPermission(s, role);
    GrantIsPermission(s', role);
    if op.Sync? {
      SyncIsExact(s.(permissions := s.permissions + ToSet(ids)), role, ids, role + "'");
      assert PermissionsOf(s', role) == ToSet(ids);
    }
  }

  /** A run that gives no permission of the role a new id. */
  predicate NoNewIds(s: State, steps: seq<Step>, role: Id) {
    Runs(s, steps) && NeverRenamesGrant(s, steps, role)
  }

  /** Every run without new ids leaves a system role as it is, if and only if all operations pending on it are inert. */
  lemma FrozenExactly(s: State, role: Id)
    requires IsSystem(s, role)
    ensures (forall steps :: NoNewIds(s, steps, role) ==> Frozen(s, Exec(s, steps), role)) <==> Settled(s, role)
  {
    if h :| h in s.pending && s.pending[h].role == role && !Inert(s, s.pending[h]) {
      var steps := ThawingRun(s, role, h);
      assert NoNewIds(s, steps, role);
    } else {
      forall steps | NoNewIds(s, steps, role) ensures Frozen(s, Exec(s, steps), role) {
        SystemRoleFrozen(s, steps, role);
      }
    }
  }

  /**
   The check is not repeated at the write: a grant that passed it before the role
   became a system role still lands.
   */
  lemma GrantRacesFlag(role: Id, p: Id)
    ensures var s := State(map[role := false], {p}, {}, map[]);
            var steps := [Begin(0, Assign(role, p)), Begin(1, Update(role, Some(true))), Act(1)];
            && Runs(s, steps)
            && IsSystem(Exec(s, steps), role) && PermissionsOf(Exec(s, steps), role) == {}
            && Enabled(Exec(s, steps), Act(0))
            && PermissionsOf(Apply(Exec(s, steps), Act(0)), role) == {p}
  {
    var s := State(map[role := false], {p}, {}, map[]);
    var steps := [Begin(0, Assign(role, p)), Begin(1, Update(role, Some(true))), Act(1)];
    var s1 := Apply(s, steps[0]);
    var s2 := Apply(s1, steps[1]);
    var s3 := Apply(s2, steps[2]);
    assert steps[1..][1..] == [Act(1)] && [Act(1)][1..] == [];
    assert Runs(s2, [Act(1)]) && Exec(s2, [Act(1)]) == s3;
    assert Runs(s1, steps[1..]) && Exec(s1, steps[1..]) == s3;
    assert Apply(s3, Act(0)).grants == {(role, p)};
  }

  /** A sync that the database accepts makes a role's set exactly the requested ids and leaves the other roles alone. */
  lemma SyncIsExact(s: State, role: Id, ids: seq<Id>, other: Id)
    requires other != role
    ensures Insertable(s, role, ids) ==> PermissionsOf(Written(s, Sync(role, ids)), role) == ToSet(ids)
    ensures !Insertable(s, role, ids) ==> Written(s, Sync(role, ids)) == s
    ensures PermissionsOf(Written(s, Sync(role, ids)), other) == PermissionsOf(s, other)
  {
    var s' := Written(s, Sync(role, ids));
    if Insertable(s, role, ids) {
      assert forall p :: p in PermissionsOf(s', role) <==> (role, p) in s'.grants;
    }
    WrittenElsewhere(s, Sync(role, ids), other);
  }

  /** getStaffPermissions: nested loops over roles and grants into a set of names, listed without repetition. */
  method StaffPermissions(roles: seq<seq<string>>) returns (names: seq<string>)
    ensures Distinct(names)
    ensures forall n :: n in names <==> exists i :: 0 <= i < |roles| && n in roles[i]
  {
    names := [];
    for i := 0 to |roles|
      invariant Distinct(names)
      invariant forall n :: n in names <==> exists k :: 0 <= k < i && n in roles[k]
    {
      ghost var before := names;
      for j := 0 to |roles[i]|
        invariant Distinct(names)
        invariant forall n :: n in names <==> n in before || n in roles[i][..j]
      {
        var name := roles[i][j];
        assert roles[i][..j + 1] == roles[i][..j] + [name];
        if name !in names {
          names := names + [name];
        }
      }
      assert roles[i][..|roles[i]|] == roles[i];
    }
  }

  // ---- The service ----

  datatype Refusal = SystemRole | Constraint

  /** The operation alone, from its check to its write, takes `s` to `s'`. */
  ghost predicate Performs(s: State, op: RoleOp, s': State) {
    var steps := [Begin(0, op), Act(0)];
    Runs(s, steps) && Exec(s, steps) == s'
  }

  lemma AloneIsWritten(s: State, op: RoleOp)
    requires s.pending == map[] && !IsSystem(s, op.role)
    ensures Performs(s, op, Written(s, op))
  {
    var steps := [Begin(0, op), Act(0)];
    var s1 := Apply(s, steps[0]);
    assert steps[1..] == [Act(0)] && [Act(0)][1..] == [];
    assert Apply(s1, Act(0)) == Written(s, op) by {
      assert s1.pending - {0} == s.pending;
    }
    assert Runs(s1, [Act(0)]) && Exec(s1, [Act(0)]) == Written(s, op);
  }

  /** The role has exactly these permissions now, and every other role has what it had. */
  ghost predicate Regranted(s: State, s': State, role: Id, ids: set<Id>) {
    PermissionsOf(s', role) == ids && forall g: (Id, Id) :: g.0 != role ==> (g in s'.grants <==> g in s.grants)
  }

  lemma WrittenChanges(s: State, op: RoleOp)
    ensures op.Assign? && op.role in s.roles && op.permission in s.permissions ==>
              Regranted(s, Written(s, op), op.role, PermissionsOf(s, op.role) + {op.permission})
    ensures op.Remove? ==> Regranted(s, Written(s, op), op.role, PermissionsOf(s, op.role) - {op.permission})
    ensures op.Sync? && Insertable(s, op.role, op.permissions) ==>
              Regranted(s, Written(s, op), op.role, ToSet(op.permissions))
  {
    GrantIsPermission(s, op.role);
    GrantIsPermission(Written(s, op), op.role);
  }

  class RoleService {
    var roles: map<Id, bool>
    var permissions: set<Id>
    var grants: set<(Id, Id)>

    ghost function St(): State
      reads this
    {
      State(roles, permissions, grants, map[])
    }

    /** A new role is an ordinary one. */
    method AddRole(role: Id) returns (refused: Option<Refusal>)
      modifies this`roles
      ensures refused == if role in old(roles) then Some(Constraint) else None
      ensures refused.None? ==> roles == old(roles)[role := false] && St() == Apply(old(St()), CreateRole(role))
      ensures refused.Some? ==> St() == old(St())
    {
      if role in roles { return Some(Constraint); }
      roles := roles[role := false];
      refused := None;
    }

    method UpdateRole(role: Id, isSystem: Option<bool>) returns (refused: Option<Refusal>)
      modifies this`roles
      ensures refused == Some(SystemRole) <==> IsSystem(old(St()), role)
      ensures refused == Some(Constraint) <==> role !in old(roles)
      ensures if refused.None? then Performs(old(St()), Update(role, isSystem), St()) else St() == old(St())
      ensures refused.None? ==> roles == if isSystem.Some? then old(roles)[role := isSystem.value] else old(roles)
    {
      if role in roles && roles[role] { return Some(SystemRole); }
      if role !in roles { return Some(Constraint); }
      AloneIsWritten(St(), Update(role, isSystem));
      if isSystem.Some? {
        roles := roles[role := isSystem.value];
      }
      refused := None;
    }

    /** No check on roles: the new id reaches every grant of the permission. */
    method UpdatePermission(permission: Id, newId: Id) returns (refused: Option<Refusal>)
      modifies this
      ensures refused == if Renamable(old(St()), permission, newId) then None else Some(Constraint)
      ensures St() == Apply(old(St()), Step.UpdatePermission(permission, newId))
      ensures refused.None? ==>
                forall role :: permission in PermissionsOf(old(St()), role) ==> newId in PermissionsOf(St(), role)
    {
      if permission !in permissions || (newId != permission && newId in permissions) { return Some(Constraint); }
      forall role | permission in PermissionsOf(St(), role)
        ensures (role, newId) in Cascaded(grants, permission, newId)
      {
        GrantIsPermission(St(), role);
        assert (role, permission) in grants;
      }
      permissions := permissions - {permission} + {newId};
      grants := Cascaded(grants, permission, newId);
      forall role ensures (role, newId) in grants ==> newId in PermissionsOf(St(), role) {
        GrantIsPermission(St(), role);
      }
      refused := None;
    }

    method AssignPermission(role: Id, permission: Id) returns (refused: Option<Refusal>)
      modifies this`grants
      ensures refused == Some(SystemRole) <==> IsSystem(old(St()), role)
      ensures refused.None? <==>
              role in roles && !roles[role] && permission in permissions && (role, permission) !in old(grants)
      ensures if refused.None? then Performs(old(St()), Assign(role, permission), St()) else St() == old(St())
      ensures refused.None? ==> Regranted(old(St()), St(), role, PermissionsOf(old(St()), role) + {permission})
    {
      if role in roles && roles[role] { return Some(SystemRole); }
      if role !in roles || permission !in permissions || (role, permission) in grants { return Some(Constraint); }
      AloneIsWritten(St(), Assign(role, permission));
      WrittenChanges(St(), Assign(role, permission));
      grants := grants + {(role, permission)};
      refused := None;
    }

    method RemovePermission(role: Id, permission: Id) returns (refused: Option<Refusal>)
      modifies this`grants
      ensures refused == if IsSystem(old(St()), role) then Some(SystemRole) else None
      ensures if refused.None? then Performs(old(St()), Remove(role, permission), St()) else St() == old(St())
      ensures refused.None? ==> Regranted(old(St()), St(), role, PermissionsOf(old(St()), role) - {permission})
    {
      if role in roles && roles[role] { return Some(SystemRole); }
      AloneIsWritten(St(), Remove(role, permission));
      WrittenChanges(St(), Remove(role, permission));
      grants := grants - {(role, permission)};
      refused := None;
    }

    /**
     The transaction: every grant of the role is deleted, then the requested ones are
     created or all is rolled back.
     */
    method SyncRolePermissions(role: Id, ids: seq<Id>) returns (refused: Option<Refusal>)
      modifies this`grants
      ensures refused == Some(SystemRole) <==> IsSystem(old(St()), role)
      ensures refused.None? <==> !IsSystem(old(St()), role) && Insertable(old(St()), role, ids)
      ensures if refused.None? then Performs(old(St()), Sync(role, ids), St()) else St() == old(St())
      ensures refused.None? ==> Regranted(old(St()), St(), role, ToSet(ids))
    {
      if role in roles && roles[role] { return Some(SystemRole); }
      AloneIsWritten(St(), Sync(role, ids));
      WrittenChanges(St(), Sync(role, ids));
      var before := grants;
      grants := set g | g in grants && g.0 != role;
      if ids != [] {
        if role !in roles || !(ToSet(ids) <= permissions) || !Distinct(ids) {
          grants := before;
          return Some(Constraint);
        }
        grants := grants + set p | p in ids :: (role, p);
      } else {
        assert (set p | p in ids :: (role, p)) == {};
      }
      refused := None;
    }
  }
}
