/**
 The OpenBao backend as the in-memory client keeps it (internal/openbao/fake.go): mounts, JWT
 configs, and roles in one flat map keyed by mount + "/" + name.
 */
module Backend {
  import opened Wrappers

  datatype JWTAuthConfig = JWTAuthConfig(jwksURL: string, boundIssuer: string)

  datatype JWTRole = JWTRole(name: string, roleType: string, boundAudiences: seq<string>, boundSubject: string,
                             userClaim: string, tokenPolicies: seq<string>, tokenTTL: string, tokenMaxTTL: string)

  datatype HealthInfo = HealthInfo(initialized: bool, sealed: bool, version: string)

  datatype PolicyExistence = PolicyExistence(present: bool, known: bool)

  datatype State = State(
    health: HealthInfo, healthErr: Option<string>,
    policies: set<string>, policiesUnknown: bool,
    mounts: set<string>, configs: map<string, JWTAuthConfig>, roles: map<string, JWTRole>,
    entities: map<string, string>)

  /** What NewFakeClient returns: everything zero, so neither initialized nor sealed. */
  const FRESH := State(HealthInfo(false, false, ""), None, {}, false, {}, map[], map[], map[])

  function Slot(mount: string, name: string): string {
    mount + "/" + name
  }

  /** The test of the deleting scan: key starts with path + "/" and goes on after it. */
  predicate Under(key: string, path: string) {
    |key| > |path| + 1 && key[..|path| + 1] == path + "/"
  }

  // ---- The calls, as functions of the state -------------------------------------------------

  function EntityID(s: State, name: string): string {
    if name in s.entities && s.entities[name] != "" then s.entities[name] else "entity-" + name
  }

  function WithEntity(s: State, name: string): State {
    s.(entities := s.entities[name := EntityID(s, name)])
  }

  function WithMount(s: State, path: string): State {
    s.(mounts := s.mounts + {path})
  }

  /** None when the mount is absent: the call answers ErrNotFound and writes nothing. */
  function WithConfig(s: State, path: string, cfg: JWTAuthConfig): Option<State> {
    if path in s.mounts then Some(s.(configs := s.configs[path := cfg])) else None
  }

  function WithRole(s: State, mount: string, role: JWTRole): Option<State> {
    if mount in s.mounts then Some(s.(roles := s.roles[Slot(mount, role.name) := role])) else None
  }

  function WithoutRole(s: State, mount: string, name: string): State {
    s.(roles := s.roles - {Slot(mount, name)})
  }

  function Swept(roles: map<string, JWTRole>, path: string): map<string, JWTRole> {
    map k | k in roles && !Under(k, path) :: roles[k]
  }

  function WithoutMount(s: State, path: string): State {
    s.(mounts := s.mounts - {path}, configs := s.configs - {path}, roles := Swept(s.roles, path))
  }

  lemma SweptIs(was: map<string, JWTRole>, now: map<string, JWTRole>, path: string)
    requires forall k | k in was :: k in now <==> !Under(k, path)
    requires forall k | k in now :: k in was && now[k] == was[k]
    ensures now == Swept(was, path)
  {
  }

  function CheckPolicy(s: State, name: string): PolicyExistence {
    if s.policiesUnknown then PolicyExistence(false, false) else PolicyExistence(name in s.policies, true)
  }

  // ---- The client object ---------------------------------------------------------------------

  /** FakeClient: every call updates the fields in place. The mutex of the source is not modelled. */
  class FakeClient {
    var health: HealthInfo
    var healthErr: Option<string>
    var policies: set<string>
    var policiesUnknown: bool
    var mounts: set<string>
    var configs: map<string, JWTAuthConfig>
    var roles: map<string, JWTRole>
    var entities: map<string, string>

    function View(): State
      reads this
    {
      State(health, healthErr, policies, policiesUnknown, mounts, configs, roles, entities)
    }

    constructor ()
      ensures View() == FRESH
    {
      health, healthErr, policies, policiesUnknown := HealthInfo(false, false, ""), None, {}, false;
      mounts, configs, roles, entities := {}, map[], map[], map[];
    }

    /** A client of a backend that is in the given state. */
    constructor On(s: State)
      ensures View() == s
    {
      health, healthErr, policies, policiesUnknown := s.health, s.healthErr, s.policies, s.policiesUnknown;
      mounts, configs, roles, entities := s.mounts, s.configs, s.roles, s.entities;
    }

    method Health() returns (r: Result<HealthInfo, string>)
      ensures r == if healthErr.Some? then Failure(healthErr.value) else Success(health)
    {
      if healthErr.Some? {
        return Failure(healthErr.value);
      }
      return Success(health);
    }

    method EnsureEntity(name: string) returns (id: string)
      modifies this
      ensures View() == WithEntity(old(View()), name)
      ensures id == EntityID(old(View()), name)
    {
      if name !in entities || entities[name] == "" {
        entities := entities[name := "entity-" + name];
      }
      id := entities[name];
    }

    method EnsureJWTAuthMount(path: string)
      modifies this
      ensures View() == WithMount(old(View()), path)
    {
      mounts := mounts + {path};
    }

    method ConfigureJWTTrust(path: string, cfg: JWTAuthConfig) returns (found: bool)
      modifies this
      ensures found <==> path in old(mounts)
      ensures (View(), found) == FlatStep(old(View()), OpConfigure(path, cfg))
    {
      if path !in mounts {
        return false;
      }
      configs := configs[path := cfg];
      return true;
    }

    method EnsureJWTRole(mount: string, role: JWTRole) returns (found: bool)
      modifies this
      ensures found <==> mount in old(mounts)
      ensures (View(), found) == FlatStep(old(View()), OpRole(mount, role))
    {
      if mount !in mounts {
        return false;
      }
      roles := roles[mount + "/" + role.name := role];
      return true;
    }

    method DeleteJWTRole(mount: string, name: string)
      modifies this
      ensures View() == WithoutRole(old(View()), mount, name)
    {
      roles := roles - {mount + "/" + name};
    }

    method DeleteAuthMount(path: string)
      modifies `mounts, `configs, `roles
      ensures View() == WithoutMount(old(View()), path)
    {
      mounts := mounts - {path};
      configs := configs - {path};
      DeleteRolesUnder(path);
    }

    /** Deletes while scanning: each key is looked at once, in whatever order the map gives. */
    method DeleteRolesUnder(path: string)
      modifies `roles
      ensures roles == Swept(old(roles), path)
    {
      hide Under, Swept;
      ghost var was := roles;
      var todo := roles.Keys;
      while todo != {}
        invariant todo <= roles.Keys <= was.Keys
        invariant forall k | k in was :: k in roles <==> k in todo || !Under(k, path)
        invariant forall k | k in roles :: roles[k] == was[k]
        decreases todo
      {
        var k :| k in todo;
        todo := todo - {k};
        if Under(k, path) {
          roles := roles - {k};
        }
      }
      SweptIs(was, roles, path);
    }

    method PolicyExists(name: string) returns (r: PolicyExistence)
      ensures r == CheckPolicy(View(), name)
    {
      if policiesUnknown {
        return PolicyExistence(false, false);
      }
      return PolicyExistence(name in policies, true);
    }
  }

  // ---- The nested table the flat maps stand in for --------------------------------------------

  datatype Mount = Mount(config: Option<JWTAuthConfig>, roles: map<string, JWTRole>)
  type Table = map<string, Mount>

  datatype Op =
    | OpMount(path: string)
    | OpConfigure(path: string, cfg: JWTAuthConfig)
    | OpRole(path: string, role: JWTRole)
    | OpDeleteRole(path: string, name: string)
    | OpDeleteMount(path: string)

  /** What the naming code guarantees of every call: a slash-free mount and a non-empty role name. */
  predicate OpNamed(op: Op) {
    && '/' !in op.path
    && (op.OpRole? ==> op.role.name != "")
    && (op.OpDeleteRole? ==> op.name != "")
  }

  /** One call on the flat state, and whether it found its mount. */
  function FlatStep(s: State, op: Op): (State, bool) {
    match op
    case OpMount(p) => (WithMount(s, p), true)
    case OpConfigure(p, cfg) =>
      var r := WithConfig(s, p, cfg);
      (if r.Some? then r.value else s, r.Some?)
    case OpRole(p, role) =>
      var r := WithRole(s, p, role);
      (if r.Some? then r.value else s, r.Some?)
    case OpDeleteRole(p, name) => (WithoutRole(s, p, name), true)
    case OpDeleteMount(p) => (WithoutMount(s, p), true)
  }

  /** The same call on the nested table. */
  function TableStep(t: Table, op: Op): (Table, bool) {
    match op
    case OpMount(p) => (if p in t then t else t[p := Mount(None, map[])], true)
    case OpConfigure(p, cfg) => if p in t then (t[p := t[p].(config := Some(cfg))], true) else (t, false)
    case OpRole(p, role) =>
      if p in t then (t[p := t[p].(roles := t[p].roles[role.name := role])], true) else (t, false)
    case OpDeleteRole(p, name) => (if p in t then t[p := t[p].(roles := t[p].roles - {name})] else t, true)
    case OpDeleteMount(p) => (t - {p}, true)
  }

  function FlatRun(s: State, ops: seq<Op>): (State, seq<bool>)
    decreases ops
  {
    if ops == [] then (s, [])
    else
      var first := FlatStep(s, ops[0]);
      var rest := FlatRun(first.0, ops[1..]);
      (rest.0, [first.1] + rest.1)
  }

  function TableRun(t: Table, ops: seq<Op>): (Table, seq<bool>)
    decreases ops
  {
    if ops == [] then (t, [])
    else
      var first := TableStep(t, ops[0]);
      var rest := TableRun(first.0, ops[1..]);
      (rest.0, [first.1] + rest.1)
  }

  predicate TableHas(t: Table, mount: string, name: string) {
    mount in t && name in t[mount].roles
  }

  ghost predicate FlatKey(t: Table, key: string) {
    exists m, n :: key == Slot(m, n) && '/' !in m && n != "" && TableHas(t, m, n)
  }

  ghost predicate MountsAgree(s: State, t: Table) {
    && s.mounts == t.Keys
    && (forall m | m in t :: '/' !in m)
    && (forall m | m in s.configs :: m in t && t[m].config == Some(s.configs[m]))
    && (forall m | m in t && t[m].config.Some? :: m in s.configs)
  }

  ghost predicate NoStrayKey(roles: map<string, JWTRole>, t: Table) {
    forall k | k in roles :: FlatKey(t, k)
  }

  ghost predicate EntriesPresent(roles: map<string, JWTRole>, t: Table) {
    forall m, n | TableHas(t, m, n) ::
      n != "" && '/' !in m && Slot(m, n) in roles && roles[Slot(m, n)] == t[m].roles[n]
  }

  /** The flat state represents the table: same mounts, configs and roles, and no stray role key. */
  ghost predicate Represents(s: State, t: Table) {
    MountsAgree(s, t) && NoStrayKey(s.roles, t) && EntriesPresent(s.roles, t)
  }

  lemma SlotInjective(m1: string, n1: string, m2: string, n2: string)
    requires '/' !in m1 && '/' !in m2 && Slot(m1, n1) == Slot(m2, n2)
    ensures m1 == m2 && n1 == n2
  {
    var k, l := Slot(m1, n1), Slot(m2, n2);
    assert k[|m1|] == '/' && l[|m2|] == '/';
    assert forall i | 0 <= i < |m1| :: k[i] == m1[i];
    assert forall i | 0 <= i < |m2| :: l[i] == m2[i];
    assert |m1| == |m2|;
    assert m1 == k[..|m1|] && m2 == l[..|m2|] && n1 == k[|m1| + 1..] && n2 == l[|m2| + 1..];
  }

  /** For slash-free mounts the prefix test singles out exactly the roles of the deleted mount. */
  lemma UnderIsOwnMount(m: string, n: string, path: string)
    requires '/' !in m && '/' !in path && n != ""
    ensures Under(Slot(m, n), path) <==> m == path
  {
    var k := Slot(m, n);
    if m == path {
      assert k[..|path| + 1] == path + "/";
    } else if Under(k, path) {
      var rest := k[|path| + 1..];
      assert k == k[..|path| + 1] + rest == Slot(path, rest);
      SlotInjective(m, n, path, rest);
    }
  }

  /** A table step that leaves every mount's roles alone leaves the role part of the relation alone. */
  lemma SameRoles(roles: map<string, JWTRole>, t: Table, u: Table)
    requires NoStrayKey(roles, t) && EntriesPresent(roles, t)
    requires forall m | m in t :: m in u && u[m].roles == t[m].roles
    requires forall m | m in u && m !in t :: u[m].roles == map[]
    ensures NoStrayKey(roles, u) && EntriesPresent(roles, u)
  {
    forall k | k in roles ensures FlatKey(u, k) {
      var m, n :| k == Slot(m, n) && '/' !in m && n != "" && TableHas(t, m, n);
      assert TableHas(u, m, n);
    }
    forall m, n | TableHas(u, m, n)
      ensures n != "" && '/' !in m && Slot(m, n) in roles && roles[Slot(m, n)] == u[m].roles[n]
    {
      assert TableHas(t, m, n);
    }
  }

  lemma MountRepresents(s: State, t: Table, p: string)
    requires Represents(s, t) && '/' !in p
    ensures Represents(WithMount(s, p), TableStep(t, OpMount(p)).0)
  {
    var u := TableStep(t, OpMount(p)).0;
    SameRoles(s.roles, t, u);
    assert MountsAgree(WithMount(s, p), u);
  }

  lemma ConfigureMounts(s: State, t: Table, p: string, cfg: JWTAuthConfig)
    requires MountsAgree(s, t) && p in t
    ensures MountsAgree(WithConfig(s, p, cfg).value, t[p := t[p].(config := Some(cfg))])
  {
  }

  lemma ConfigureRepresents(s: State, t: Table, p: string, cfg: JWTAuthConfig)
    requires Represents(s, t) && '/' !in p
    ensures Represents(FlatStep(s, OpConfigure(p, cfg)).0, TableStep(t, OpConfigure(p, cfg)).0)
    ensures FlatStep(s, OpConfigure(p, cfg)).1 == TableStep(t, OpConfigure(p, cfg)).1
  {
    if p in t {
      var u := t[p := t[p].(config := Some(cfg))];
      SameRoles(s.roles, t, u);
      ConfigureMounts(s, t, p, cfg);
      assert Represents(WithConfig(s, p, cfg).value, u);
    }
  }

  lemma RoleKeys(roles: map<string, JWTRole>, t: Table, p: string, role: JWTRole)
    requires NoStrayKey(roles, t) && p in t && '/' !in p && role.name != ""
    ensures NoStrayKey(roles[Slot(p, role.name) := role], t[p := t[p].(roles := t[p].roles[role.name := role])])
  {
    var roles', u := roles[Slot(p, role.name) := role], t[p := t[p].(roles := t[p].roles[role.name := role])];
    forall k | k in roles' ensures FlatKey(u, k) {
      if k == Slot(p, role.name) {
        assert TableHas(u, p, role.name);
      } else {
        var m, n :| k == Slot(m, n) && '/' !in m && n != "" && TableHas(t, m, n);
        assert TableHas(u, m, n);
      }
    }
  }

  lemma RoleEntries(roles: map<string, JWTRole>, t: Table, p: string, role: JWTRole)
    requires EntriesPresent(roles, t) && p in t && '/' !in p && role.name != ""
    ensures EntriesPresent(roles[Slot(p, role.name) := role], t[p := t[p].(roles := t[p].roles[role.name := role])])
  {
    var roles', u := roles[Slot(p, role.name) := role], t[p := t[p].(roles := t[p].roles[role.name := role])];
    forall m, n | TableHas(u, m, n)
      ensures n != "" && '/' !in m && Slot(m, n) in roles' && roles'[Slot(m, n)] == u[m].roles[n]
    {
      if m != p || n != role.name {
        assert TableHas(t, m, n);
        if Slot(m, n) == Slot(p, role.name) {
          SlotInjective(m, n, p, role.name);
        }
      }
    }
  }

  lemma RoleMounts(s: State, t: Table, p: string, role: JWTRole)
    requires MountsAgree(s, t) && p in t
    ensures MountsAgree(WithRole(s, p, role).value, t[p := t[p].(roles := t[p].roles[role.name := role])])
  {
  }

  lemma RoleRepresents(s: State, t: Table, p: string, role: JWTRole)
    requires Represents(s, t) && '/' !in p && role.name != ""
    ensures Represents(FlatStep(s, OpRole(p, role)).0, TableStep(t, OpRole(p, role)).0)
    ensures FlatStep(s, OpRole(p, role)).1 == TableStep(t, OpRole(p, role)).1
  {
    if p in t {
      RoleKeys(s.roles, t, p, role);
      RoleEntries(s.roles, t, p, role);
      RoleMounts(s, t, p, role);
      assert Represents(WithRole(s, p, role).value, t[p := t[p].(roles := t[p].roles[role.name := role])]);
    }
  }

  /** Removing the same roles on both sides keeps the correspondence; gone says which (mount, name) go. */
  lemma Removal(roles: map<string, JWTRole>, roles': map<string, JWTRole>, t: Table, u: Table)
    requires NoStrayKey(roles, t) && EntriesPresent(roles, t)
    requires forall k | k in roles' :: k in roles && roles'[k] == roles[k]
    requires forall m, n | TableHas(u, m, n) :: TableHas(t, m, n) && u[m].roles[n] == t[m].roles[n]
    requires forall m, n | TableHas(t, m, n) :: TableHas(u, m, n) <==> Slot(m, n) in roles'
    ensures NoStrayKey(roles', u) && EntriesPresent(roles', u)
  {
    forall k | k in roles' ensures FlatKey(u, k) {
      var m, n :| k == Slot(m, n) && '/' !in m && n != "" && TableHas(t, m, n);
      assert TableHas(u, m, n);
    }
    forall m, n | TableHas(u, m, n)
      ensures n != "" && '/' !in m && Slot(m, n) in roles' && roles'[Slot(m, n)] == u[m].roles[n]
    {
      assert TableHas(t, m, n);
    }
  }

  lemma DeleteRoleEntry(roles: map<string, JWTRole>, t: Table, p: string, name: string, m: string, n: string)
    requires EntriesPresent(roles, t) && '/' !in p && p in t && TableHas(t, m, n)
    ensures TableHas(t[p := t[p].(roles := t[p].roles - {name})], m, n) <==> Slot(m, n) in roles - {Slot(p, name)}
  {
    if Slot(m, n) == Slot(p, name) {
      SlotInjective(m, n, p, name);
    }
  }

  lemma DeleteRoleRoles(roles: map<string, JWTRole>, t: Table, p: string, name: string)
    requires NoStrayKey(roles, t) && EntriesPresent(roles, t)
    requires '/' !in p && name != "" && p in t
    ensures var u := t[p := t[p].(roles := t[p].roles - {name})];
            NoStrayKey(roles - {Slot(p, name)}, u) && EntriesPresent(roles - {Slot(p, name)}, u)
  {
    var roles', u := roles - {Slot(p, name)}, t[p := t[p].(roles := t[p].roles - {name})];
    forall m, n | TableHas(t, m, n) ensures TableHas(u, m, n) <==> Slot(m, n) in roles' {
      DeleteRoleEntry(roles, t, p, name, m, n);
    }
    Removal(roles, roles', t, u);
  }

  lemma NoRoleNoChange(roles: map<string, JWTRole>, t: Table, p: string, name: string)
    requires NoStrayKey(roles, t) && '/' !in p && p !in t
    ensures roles - {Slot(p, name)} == roles
  {
    if Slot(p, name) in roles {
      var m, n :| Slot(p, name) == Slot(m, n) && '/' !in m && n != "" && TableHas(t, m, n);
      SlotInjective(m, n, p, name);
    }
  }

  lemma DeleteRoleMounts(s: State, t: Table, p: string, name: string)
    requires MountsAgree(s, t) && p in t
    ensures MountsAgree(WithoutRole(s, p, name), t[p := t[p].(roles := t[p].roles - {name})])
  {
  }

  lemma DeleteRoleRepresents(s: State, t: Table, p: string, name: string)
    requires Represents(s, t) && '/' !in p && name != ""
    ensures Represents(WithoutRole(s, p, name), TableStep(t, OpDeleteRole(p, name)).0)
  {
    if p in t {
      var u := t[p := t[p].(roles := t[p].roles - {name})];
      DeleteRoleRoles(s.roles, t, p, name);
      DeleteRoleMounts(s, t, p, name);
      assert Represents(WithoutRole(s, p, name), u);
    } else {
      NoRoleNoChange(s.roles, t, p, name);
      assert WithoutRole(s, p, name) == s;
    }
  }

  lemma DeleteMountEntry(roles: map<string, JWTRole>, t: Table, p: string, m: string, n: string)
    requires EntriesPresent(roles, t) && '/' !in p && TableHas(t, m, n)
    ensures TableHas(t - {p}, m, n) <==> Slot(m, n) in Swept(roles, p)
  {
    UnderIsOwnMount(m, n, p);
  }

  lemma DeleteMountRoles(roles: map<string, JWTRole>, t: Table, p: string)
    requires NoStrayKey(roles, t) && EntriesPresent(roles, t) && '/' !in p
    ensures NoStrayKey(Swept(roles, p), t - {p}) && EntriesPresent(Swept(roles, p), t - {p})
  {
    var roles' := Swept(roles, p);
    forall m, n | TableHas(t, m, n) ensures TableHas(t - {p}, m, n) <==> Slot(m, n) in roles' {
      DeleteMountEntry(roles, t, p, m, n);
    }
    Removal(roles, roles', t, t - {p});
  }

  lemma DeleteMountRepresents(s: State, t: Table, p: string)
    requires Represents(s, t) && '/' !in p
    ensures Represents(WithoutMount(s, p), t - {p})
  {
    DeleteMountRoles(s.roles, t, p);
    assert MountsAgree(WithoutMount(s, p), t - {p});
  }

  lemma StepRepresents(s: State, t: Table, op: Op)
    requires Represents(s, t) && OpNamed(op)
    ensures Represents(FlatStep(s, op).0, TableStep(t, op).0)
    ensures FlatStep(s, op).1 == TableStep(t, op).1
  {
    match op
    case OpMount(p) => MountRepresents(s, t, p);
    case OpConfigure(p, cfg) => ConfigureRepresents(s, t, p, cfg);
    case OpRole(p, role) => RoleRepresents(s, t, p, role);
    case OpDeleteRole(p, name) => DeleteRoleRepresents(s, t, p, name);
    case OpDeleteMount(p) => DeleteMountRepresents(s, t, p);
  }

  /**
   The flat maps refine the nested table over every sequence of calls with slash-free mounts and
   non-empty role names: same answers, and the final states correspond.
   */
  lemma {:induction false} FlatRefinesNested(s: State, t: Table, ops: seq<Op>)
    requires Represents(s, t)
    requires forall op | op in ops :: OpNamed(op)
    ensures Represents(FlatRun(s, ops).0, TableRun(t, ops).0)
    ensures FlatRun(s, ops).1 == TableRun(t, ops).1
    decreases ops
  {
    if ops != [] {
      assert ops[0] in ops;
      StepRepresents(s, t, ops[0]);
      FlatRefinesNested(FlatStep(s, ops[0]).0, TableStep(t, ops[0]).0, ops[1..]);
    }
  }

  /** From a fresh client: lookups agree with the table, and no config or role outlives its mount. */
  lemma FlatLookups(ops: seq<Op>, m: string, n: string)
    requires forall op | op in ops :: OpNamed(op)
    requires '/' !in m && n != ""
    ensures var s, t := FlatRun(FRESH, ops).0, TableRun(map[], ops).0;
            && (Slot(m, n) in s.roles <==> TableHas(t, m, n))
            && (TableHas(t, m, n) ==> s.roles[Slot(m, n)] == t[m].roles[n] && m in s.mounts)
            && (m in s.configs ==> m in s.mounts)
            && (forall k | k in s.roles :: exists p, q :: k == Slot(p, q) && p in s.mounts)
  {
    var s, t := FlatRun(FRESH, ops).0, TableRun(map[], ops).0;
    FlatRefinesNested(FRESH, map[], ops);
    if Slot(m, n) in s.roles {
      var p, q :| Slot(m, n) == Slot(p, q) && '/' !in p && q != "" && TableHas(t, p, q);
      SlotInjective(m, n, p, q);
    }
    forall k | k in s.roles ensures exists p, q :: k == Slot(p, q) && p in s.mounts {
      var p, q :| k == Slot(p, q) && '/' !in p && q != "" && TableHas(t, p, q);
    }
  }

  /** Without a role name the scan misses the role: it outlives its mount. */
  lemma EmptyNameOutlivesMount(path: string, role: JWTRole)
    requires role.name == ""
    ensures var s := FlatRun(FRESH, [OpMount(path), OpRole(path, role), OpDeleteMount(path)]).0;
            Slot(path, "") in s.roles && path !in s.mounts
  {
    var s1 := WithMount(FRESH, path);
    var s2 := WithRole(s1, path, role).value;
    assert FlatRun(FRESH, [OpMount(path), OpRole(path, role), OpDeleteMount(path)]).0
        == FlatRun(s1, [OpRole(path, role), OpDeleteMount(path)]).0
        == FlatRun(s2, [OpDeleteMount(path)]).0 == WithoutMount(s2, path);
  }

  /** With a slash in a mount the scan reaches too far: deleting one mount takes a role of another, which stands. */
  lemma SlashedMountLosesRoles(s: State, path: string, sub: string, n: string)
    requires path + "/" + sub in s.mounts && Slot(path + "/" + sub, n) in s.roles
    ensures var v := WithoutMount(s, path);
            path + "/" + sub in v.mounts && Slot(path + "/" + sub, n) !in v.roles
  {
    var k := Slot(path + "/" + sub, n);
    assert k[..|path| + 1] == path + "/";
  }
}
