/** The tables behind groups and roles, updated statement by statement as internal/store/scimgroup.go does. */
module DirectoryStoreObject {
  import opened Base
  import opened Directory

  /** The rows of a query, in whatever order. */
  method Rows(ids: set<Principal>) returns (rows: seq<Principal>)
    ensures SetOf(rows) == ids && NoRepeat(rows)
  {
    rows := [];
    var rest := ids;
    while rest != {}
      invariant SetOf(rows) + rest == ids && SetOf(rows) !! rest && NoRepeat(rows)
      decreases rest
    {
      var x :| x in rest;
      SetOfAppend(rows, x);
      assert x !in SetOf(rows);
      rows, rest := rows + [x], rest - {x};
    }
  }

  /** union: each principal of either list once, in order of first mention. */
  method Union(a: seq<Principal>, b: seq<Principal>) returns (out: seq<Principal>)
    ensures SetOf(out) == SetOf(a) + SetOf(b) && NoRepeat(out)
  {
    var seen: set<Principal> := {};
    out := [];
    var all := a + b;
    for i := 0 to |all|
      invariant seen == SetOf(out) == SetOf(all[..i]) && NoRepeat(out)
    {
      SetOfPrefix(all, i);
      if all[i] in seen { continue; }
      SetOfAppend(out, all[i]);
      seen, out := seen + {all[i]}, out + [all[i]];
    }
    assert all[..|all|] == all;
    SetOfConcat(a, b);
  }

  lemma SetOfConcat<T>(a: seq<T>, b: seq<T>)
    ensures SetOf(a + b) == SetOf(a) + SetOf(b)
  {
    var all := a + b;
    forall y | y in SetOf(a) ensures y in SetOf(all) {
      var i :| 0 <= i < |a| && a[i] == y;
      assert all[i] == y;
    }
    forall y | y in SetOf(b) ensures y in SetOf(all) {
      var i :| 0 <= i < |b| && b[i] == y;
      assert all[|a| + i] == y;
    }
  }

  lemma InsertOne(b: Bindings, source: Source, p: Principal, done: set<Role>, r: Role)
    ensures var n := Granted(b, source, p, done);
            var k := Key(p, r, STORE_WIDE);
            (if k in n then n else n[k := source]) == Granted(b, source, p, done + {r})
  {
    hide Granted;
    var n, k, m := Granted(b, source, p, done), Key(p, r, STORE_WIDE), Granted(b, source, p, done + {r});
    forall x ensures (x in m <==> x in n || x == k) && (x in m ==> m[x] == if x in n then n[x] else source) {
      GrantedAt(b, source, p, done, x);
      GrantedAt(b, source, p, done + {r}, x);
    }
  }

  lemma GrantedAt(b: Bindings, source: Source, p: Principal, roles: set<Role>, k: Key)
    ensures k in Granted(b, source, p, roles) <==> k in b || Wished(map[p := roles], k)
    ensures k in Granted(b, source, p, roles) ==> Granted(b, source, p, roles)[k] == if k in b then b[k] else source
  {
    assert k in Wanted(map[p := roles]) <==> Wished(map[p := roles], k);
  }

  /** Inserting the given roles for a person, each unless the key is there. */
  function Granted(b: Bindings, source: Source, p: Principal, roles: set<Role>): Bindings {
    (map k | k in Wanted(map[p := roles]) :: source) + b
  }

  lemma GrantedNone(b: Bindings, source: Source, p: Principal)
    ensures Granted(b, source, p, {}) == b
  {
    assert Wanted(map[p := {}]) == {};
  }

  lemma WantsMore(groups: map<string, Group>, rolesFor: RoleMap, ids: set<Principal>, p: Principal)
    ensures Wants(groups, rolesFor, ids + {p}) == Wants(groups, rolesFor, ids)[p := Derived(groups, rolesFor, p)]
  {}

  lemma ReconciledNone(b: Bindings, source: Source)
    ensures Reconciled(b, source, map[]) == b
  {
    assert Wanted(map[]) == {};
  }

  class DirectoryStore {
    var users: map<string, Principal>
    var groups: map<string, Group>
    var bindings: Bindings

    ghost function Value(): Dir
      reads this
    {
      Dir(users, groups, bindings)
    }

    constructor (d: Dir)
      ensures Value() == d
    {
      users, groups, bindings := d.users, d.groups, d.bindings;
    }

    method InsertRoles(p: Principal, source: Source, roles: seq<Role>)
      modifies this`bindings
      ensures bindings == Granted(old(bindings), source, p, SetOf(roles))
    {
      hide Granted;
      ghost var b := bindings;
      GrantedNone(b, source, p);
      assert SetOf(roles[..0]) == {};
      for i := 0 to |roles|
        invariant bindings == Granted(b, source, p, SetOf(roles[..i]))
      {
        var k := Key(p, roles[i], STORE_WIDE);
        InsertOne(b, source, p, SetOf(roles[..i]), roles[i]);
        SetOfPrefix(roles, i);
        if k !in bindings { bindings := bindings[k := source]; }
      }
      assert roles[..|roles|] == roles;
    }

    /** One person's stale grants of a source are deleted, then the wanted ones inserted where the key is free. */
    method ReconcileRoles(p: Principal, source: Source, roles: seq<Role>)
      modifies this`bindings
      ensures bindings == Reconciled(old(bindings), source, map[p := SetOf(roles)])
    {
      var want := map[p := SetOf(roles)];
      var b := bindings;
      bindings := map k | k in b && !Stale(b, source, want, k) :: b[k];
      InsertRoles(p, source, roles);
    }

    method ReconcileScimRoles(ids: seq<Principal>, rolesFor: RoleMap)
      requires NoRepeat(ids)
      modifies this`bindings
      ensures bindings == Reconciled(old(bindings), Scim, Wants(groups, rolesFor, SetOf(ids)))
    {
      hide Reconciled, Derived;
      ghost var b := bindings;
      ReconciledNone(b, Scim);
      assert Wants(groups, rolesFor, SetOf(ids[..0])) == map[];
      for i := 0 to |ids|
        invariant bindings == Reconciled(b, Scim, Wants(groups, rolesFor, SetOf(ids[..i])))
      {
        ghost var want := Wants(groups, rolesFor, SetOf(ids[..i]));
        var names := NamesOf(groups, ids[i]);
        var roles := rolesFor(names);
        DerivedIs(groups, rolesFor, ids[i]);
        SetOfPrefix(ids, i);
        WantsMore(groups, rolesFor, SetOf(ids[..i]), ids[i]);
        assert ids[i] !in SetOf(ids[..i]);
        ReconcileOneMore(b, Scim, want, ids[i], SetOf(roles));
        ReconcileRoles(ids[i], Scim, roles);
      }
      assert ids[..|ids|] == ids;
    }

    /** Adds the known ones of the named users to a group; unknown ones are skipped. */
    method SetMembers(id: string, scimIds: seq<string>) returns (ids: seq<Principal>)
      requires id in groups
      modifies this`groups
      ensures SetOf(ids) == Resolve(users, scimIds) && NoRepeat(ids)
      ensures groups ==
              old(groups)[id := old(groups)[id].(members := old(groups)[id].members + Resolve(users, scimIds))]
    {
      hide Resolve;
      ids := Rows(Resolve(users, scimIds));
      ghost var was := groups[id];
      assert was.members + SetOf(ids[..0]) == was.members && groups == groups[id := was];
      for i := 0 to |ids|
        invariant id in groups && groups == old(groups)[id := was.(members := was.members + SetOf(ids[..i]))]
      {
        SetOfPrefix(ids, i);
        assert was.members + SetOf(ids[..i]) + {ids[i]} == was.members + SetOf(ids[..i + 1]);
        groups := groups[id := groups[id].(members := groups[id].members + {ids[i]})];
      }
      assert ids[..|ids|] == ids;
    }

    method CreateGroup(id: string, w: Write, rolesFor: RoleMap) returns (outcome: Outcome)
      modifies this
      ensures (Value(), outcome) == Directory.CreateGroup(old(Value()), id, w, rolesFor)
    {
      hide Reconciled, Resolve, Wants;
      if id in groups || Taken(groups, w.name, id) { return NameTaken; }
      groups := groups[id := Group(w.name, w.external, {})];
      var affected := SetMembers(id, w.members);
      assert {} + Resolve(users, w.members) == Resolve(users, w.members);
      assert groups == old(groups)[id := Group(w.name, w.external, Resolve(users, w.members))];
      ReconcileScimRoles(affected, rolesFor);
      return Done;
    }

    method ReplaceGroup(id: string, w: Write, rolesFor: RoleMap) returns (outcome: Outcome)
      modifies this
      ensures (Value(), outcome) == Directory.ReplaceGroup(old(Value()), id, w, rolesFor)
    {
      hide Reconciled, Resolve, Wants;
      if id !in groups { return NoGroup; }
      if Taken(groups, w.name, id) { return NameTaken; }
      groups := groups[id := groups[id].(name := w.name, external := w.external)];
      var before := Rows(groups[id].members);
      groups := groups[id := groups[id].(members := {})];
      var after := SetMembers(id, w.members);
      assert {} + Resolve(users, w.members) == Resolve(users, w.members);
      assert groups == old(groups)[id := Group(w.name, w.external, Resolve(users, w.members))];
      var both := Union(before, after);
      ReconcileScimRoles(both, rolesFor);
      return Done;
    }

    method PatchGroupMembers(id: string, add: seq<string>, remove: seq<string>, name: string, rolesFor: RoleMap)
      returns (outcome: Outcome)
      modifies this
      ensures (Value(), outcome) == PatchGroup(old(Value()), id, add, remove, name, rolesFor)
    {
      hide Reconciled, Resolve, Wants;
      if id !in groups { return NoGroup; }
      if name != "" {
        if Taken(groups, name, id) { return NameTaken; }
        groups := groups[id := groups[id].(name := name)];
      }
      var affected := SetMembers(id, add);
      var removed := Rows(Resolve(users, remove));
      if |removed| > 0 {
        groups := groups[id := groups[id].(members := groups[id].members - SetOf(removed))];
      }
      ghost var g := Patched(old(Value()), id, add, remove, name);
      assert groups[id].members == g.members;
      assert groups == old(groups)[id := g];
      var current := Rows(groups[id].members);
      var named := Union(affected, removed);
      var all := Union(named, current);
      ReconcileScimRoles(all, rolesFor);
      return Done;
    }

    method DeleteGroup(id: string, rolesFor: RoleMap) returns (outcome: Outcome)
      modifies this
      ensures (Value(), outcome) == Directory.DeleteGroup(old(Value()), id, rolesFor)
    {
      hide Reconciled, Wants;
      if id !in groups { return NoGroup; }
      var members := Rows(groups[id].members);
      groups := groups - {id};
      ReconcileScimRoles(members, rolesFor);
      return Done;
    }

    method ReplaceRoles(p: Principal, roles: seq<Role>)
      modifies this`bindings
      ensures Value() == Directory.ReplaceRoles(old(Value()), p, roles)
    {
      var b := bindings;
      bindings := map k | k in b && !(k.principal == p && k.scope == STORE_WIDE) :: b[k];
      InsertRoles(p, Local, roles);
      assert forall k :: k in Wanted(map[p := SetOf(roles)]) ==> k.principal == p && k.scope == STORE_WIDE;
    }
  }

  lemma DerivedIs(groups: map<string, Group>, rolesFor: RoleMap, p: Principal)
    ensures Derived(groups, rolesFor, p) == SetOf(rolesFor(NamesOf(groups, p)))
  {}
}
