/** Role bindings and the directory's groups: internal/store/scimgroup.go and principal.go as values. */
module Directory {
  import opened Base

  type Principal = nat
  type Role = string

  datatype Source = Local | IdP | Scim

  const STORE_WIDE: string := "*"

  // role_bindings is keyed without the source: one role is recorded once, for whoever granted it first.
  datatype Key = Key(principal: Principal, role: Role, scope: string)
  type Bindings = map<Key, Source>

  datatype Group = Group(name: string, external: string, members: set<Principal>)

  // `users` resolves a SCIM id to its principal; groups are keyed by their SCIM id.
  datatype Dir = Dir(users: map<string, Principal>, groups: map<string, Group>, bindings: Bindings)

  // Which roles a set of group names stands for; fixed by configuration.
  type RoleMap = set<string> -> seq<Role>

  function NamesOf(groups: map<string, Group>, p: Principal): set<string> {
    set g | g in groups && p in groups[g].members :: groups[g].name
  }

  /** The roles the directory means a person to hold. */
  function Derived(groups: map<string, Group>, rolesFor: RoleMap, p: Principal): set<Role> {
    SetOf(rolesFor(NamesOf(groups, p)))
  }

  /** Store-wide roles a person holds, whoever granted them. */
  function Held(b: Bindings, p: Principal): set<Role> {
    set k | k in b && k.principal == p && k.scope == STORE_WIDE :: k.role
  }

  function HeldFromOthers(b: Bindings, source: Source, p: Principal): set<Role> {
    set k | k in b && k.principal == p && k.scope == STORE_WIDE && b[k] != source :: k.role
  }

  // ---- reconciliation ----

  predicate Stale(b: Bindings, source: Source, want: map<Principal, set<Role>>, k: Key)
    requires k in b
  {
    k.principal in want && k.scope == STORE_WIDE && b[k] == source && k.role !in want[k.principal]
  }

  function Wanted(want: map<Principal, set<Role>>): set<Key> {
    set p, r | p in want && r in want[p] :: Key(p, r, STORE_WIDE)
  }

  /** Drop what the source granted and no longer wants; record what it wants and nobody has recorded. */
  function Reconciled(b: Bindings, source: Source, want: map<Principal, set<Role>>): Bindings {
    (map k | k in Wanted(want) :: source) + (map k | k in b && !Stale(b, source, want, k) :: b[k])
  }

  function Wants(groups: map<string, Group>, rolesFor: RoleMap, ids: set<Principal>): map<Principal, set<Role>> {
    map p | p in ids :: Derived(groups, rolesFor, p)
  }

  predicate Wished(want: map<Principal, set<Role>>, k: Key) {
    k.scope == STORE_WIDE && k.principal in want && k.role in want[k.principal]
  }

  /** Reconciliation, key by key. */
  lemma ReconciledAt(b: Bindings, source: Source, want: map<Principal, set<Role>>, k: Key)
    ensures k in Reconciled(b, source, want) <==> (k in b && !Stale(b, source, want, k)) || Wished(want, k)
    ensures k in Reconciled(b, source, want) ==>
              Reconciled(b, source, want)[k] == if k in b && !Stale(b, source, want, k) then b[k] else source
  {
    assert k in Wanted(want) <==> Wished(want, k);
  }

  /** After reconciling, a person holds the other sources' roles and the wanted ones, and nothing else. */
  lemma ReconcileHolds(b: Bindings, source: Source, want: map<Principal, set<Role>>, p: Principal)
    requires p in want
    ensures Held(Reconciled(b, source, want), p) == HeldFromOthers(b, source, p) + want[p]
    ensures HeldFromOthers(Reconciled(b, source, want), source, p) == HeldFromOthers(b, source, p)
  {
    var n := Reconciled(b, source, want);
    forall r | r in want[p] ensures r in Held(n, p) {
      assert Key(p, r, STORE_WIDE) in Wanted(want);
      assert Key(p, r, STORE_WIDE) in n;
    }
    forall r | r in HeldFromOthers(b, source, p) ensures r in Held(n, p) && r in HeldFromOthers(n, source, p) {
      assert Key(p, r, STORE_WIDE) in b;
      assert Key(p, r, STORE_WIDE) in n;
    }
    forall r | r in Held(n, p) ensures r in HeldFromOthers(b, source, p) + want[p] {
      var k := Key(p, r, STORE_WIDE);
      assert k in n;
      if k in b && !Stale(b, source, want, k) {
        assert b[k] == source ==> k.role in want[p];
      } else {
        assert k in Wanted(want);
      }
    }
    forall r | r in HeldFromOthers(n, source, p) ensures r in HeldFromOthers(b, source, p) {
      assert Key(p, r, STORE_WIDE) in n;
    }
  }

  /** No binding of another source, another person or another scope appears, disappears or changes. */
  lemma ReconcileTouchesOnly(b: Bindings, source: Source, want: map<Principal, set<Role>>, k: Key)
    requires k.principal !in want || k.scope != STORE_WIDE || (k in b && b[k] != source)
    ensures k in Reconciled(b, source, want) <==> k in b
    ensures k in b ==> Reconciled(b, source, want)[k] == b[k]
  {}

  /** Reconciling people one after the other is reconciling them together. */
  lemma ReconcileOneMore(b: Bindings, source: Source, want: map<Principal, set<Role>>, p: Principal, roles: set<Role>)
    requires p !in want
    ensures Reconciled(Reconciled(b, source, want), source, map[p := roles]) == Reconciled(b, source, want[p := roles])
  {
    var m := Reconciled(b, source, want);
    var n, all := Reconciled(m, source, map[p := roles]), Reconciled(b, source, want[p := roles]);
    hide Reconciled;
    forall k ensures (k in n <==> k in all) && (k in n ==> n[k] == all[k]) {
      ReconciledAt(b, source, want, k);
      ReconciledAt(m, source, map[p := roles], k);
      ReconciledAt(b, source, want[p := roles], k);
    }
  }

  /** Reconciling again with the same wishes changes nothing. */
  lemma ReconcileIdempotent(b: Bindings, source: Source, want: map<Principal, set<Role>>)
    ensures Reconciled(Reconciled(b, source, want), source, want) == Reconciled(b, source, want)
  {
    var m := Reconciled(b, source, want);
    var n := Reconciled(m, source, want);
    forall k ensures k in n <==> k in m {}
    forall k | k in n ensures n[k] == m[k] {}
  }

  // ---- the operations ----

  datatype Outcome = Done | NameTaken | NoGroup

  datatype Write = Write(name: string, external: string, members: seq<string>)

  function Resolve(users: map<string, Principal>, ids: seq<string>): set<Principal> {
    set i | 0 <= i < |ids| && ids[i] in users :: users[ids[i]]
  }

  /** display_name is unique among the groups. */
  predicate Taken(groups: map<string, Group>, name: string, except: string) {
    exists g :: g in groups && g != except && groups[g].name == name
  }

  /** The bindings after a directory write that leaves `groups` and concerns `ids`. */
  function Resynced(d: Dir, groups: map<string, Group>, rolesFor: RoleMap, ids: set<Principal>): Dir {
    Dir(d.users, groups, Reconciled(d.bindings, Scim, Wants(groups, rolesFor, ids)))
  }

  function CreateGroup(d: Dir, id: string, w: Write, rolesFor: RoleMap): (Dir, Outcome) {
    if id in d.groups || Taken(d.groups, w.name, id) then (d, NameTaken)
    else
      var members := Resolve(d.users, w.members);
      (Resynced(d, d.groups[id := Group(w.name, w.external, members)], rolesFor, members), Done)
  }

  function ReplaceGroup(d: Dir, id: string, w: Write, rolesFor: RoleMap): (Dir, Outcome) {
    if id !in d.groups then (d, NoGroup)
    else if Taken(d.groups, w.name, id) then (d, NameTaken)
    else
      var members := Resolve(d.users, w.members);
      (Resynced(d, d.groups[id := Group(w.name, w.external, members)], rolesFor, d.groups[id].members + members), Done)
  }

  function Patched(d: Dir, id: string, add: seq<string>, remove: seq<string>, name: string): Group
    requires id in d.groups
  {
    var g := d.groups[id];
    var members := (g.members + Resolve(d.users, add)) - Resolve(d.users, remove);
    Group(if name != "" then name else g.name, g.external, members)
  }

  function PatchGroup(d: Dir, id: string, add: seq<string>, remove: seq<string>, name: string, rolesFor: RoleMap)
    : (Dir, Outcome)
  {
    if id !in d.groups then (d, NoGroup)
    else if name != "" && Taken(d.groups, name, id) then (d, NameTaken)
    else
      var g := Patched(d, id, add, remove, name);
      (Resynced(d, d.groups[id := g], rolesFor, Resolve(d.users, add) + Resolve(d.users, remove) + g.members), Done)
  }

  function DeleteGroup(d: Dir, id: string, rolesFor: RoleMap): (Dir, Outcome) {
    if id !in d.groups then (d, NoGroup)
    else (Resynced(d, d.groups - {id}, rolesFor, d.groups[id].members), Done)
  }

  /** A login: the token's roles replace those an earlier token granted. */
  function Login(d: Dir, p: Principal, roles: seq<Role>): Dir {
    d.(bindings := Reconciled(d.bindings, IdP, map[p := SetOf(roles)]))
  }

  /** An administrator's edit: the person's store-wide grants become exactly these, all local. */
  function ReplaceRoles(d: Dir, p: Principal, roles: seq<Role>): Dir {
    d.(bindings := (map k | k in d.bindings && !(k.principal == p && k.scope == STORE_WIDE) :: d.bindings[k])
                   + (map k | k in Wanted(map[p := SetOf(roles)]) :: Local))
  }

  // ---- no stale directory grant ----

  /** Every binding the directory granted is store-wide and implied by the person's current groups. */
  predicate Implied(d: Dir, rolesFor: RoleMap) {
    forall k :: k in d.bindings && d.bindings[k] == Scim ==>
      k.scope == STORE_WIDE && k.role in Derived(d.groups, rolesFor, k.principal)
  }

  /** Whoever is not resynchronized sees the same group names. */
  ghost predicate Covers(before: map<string, Group>, after: map<string, Group>, ids: set<Principal>) {
    forall p :: p !in ids ==> NamesOf(before, p) == NamesOf(after, p)
  }

  lemma ResyncKeeps(d: Dir, groups: map<string, Group>, rolesFor: RoleMap, ids: set<Principal>)
    requires Implied(d, rolesFor) && Covers(d.groups, groups, ids)
    ensures Implied(Resynced(d, groups, rolesFor, ids), rolesFor)
  {
    var n := Resynced(d, groups, rolesFor, ids);
    forall k | k in n.bindings && n.bindings[k] == Scim
      ensures k.scope == STORE_WIDE && k.role in Derived(groups, rolesFor, k.principal)
    {
      if k.principal !in ids {
        assert k in d.bindings && NamesOf(d.groups, k.principal) == NamesOf(groups, k.principal);
      }
    }
  }

  /** A group's change concerns only its members before and after. */
  lemma ChangeCovers(groups: map<string, Group>, id: string, g: Group, ids: set<Principal>)
    requires g.members <= ids && (id in groups ==> groups[id].members <= ids)
    ensures Covers(groups, groups[id := g], ids)
  {
    var after := groups[id := g];
    forall p | p !in ids ensures NamesOf(groups, p) == NamesOf(after, p) {
      forall n | n in NamesOf(groups, p) ensures n in NamesOf(after, p) {
        var h :| h in groups && p in groups[h].members && groups[h].name == n;
        assert h in after && p in after[h].members;
      }
    }
  }

  lemma DeleteCovers(groups: map<string, Group>, id: string)
    requires id in groups
    ensures Covers(groups, groups - {id}, groups[id].members)
  {
    var after := groups - {id};
    forall p | p !in groups[id].members ensures NamesOf(groups, p) == NamesOf(after, p) {
      forall n | n in NamesOf(groups, p) ensures n in NamesOf(after, p) {
        var h :| h in groups && p in groups[h].members && groups[h].name == n;
        assert h in after;
      }
    }
  }

  datatype Request =
    | Create(id: string, w: Write)
    | Replace(id: string, w: Write)
    | Patch(id: string, add: seq<string>, remove: seq<string>, name: string)
    | Delete(id: string)
    | LogIn(p: Principal, roles: seq<Role>)
    | EditRoles(p: Principal, roles: seq<Role>)
    | Provision(scimId: string, p: Principal)

  function Serve(d: Dir, q: Request, rolesFor: RoleMap): Dir {
    match q
    case Create(id, w) => CreateGroup(d, id, w, rolesFor).0
    case Replace(id, w) => ReplaceGroup(d, id, w, rolesFor).0
    case Patch(id, add, remove, name) => PatchGroup(d, id, add, remove, name, rolesFor).0
    case Delete(id) => DeleteGroup(d, id, rolesFor).0
    case LogIn(p, roles) => Login(d, p, roles)
    case EditRoles(p, roles) => ReplaceRoles(d, p, roles)
    case Provision(scimId, p) => if scimId in d.users then d else d.(users := d.users[scimId := p])
  }

  lemma ServeKeeps(d: Dir, q: Request, rolesFor: RoleMap)
    requires Implied(d, rolesFor)
    ensures Implied(Serve(d, q, rolesFor), rolesFor)
  {
    match q
    case Create(id, w) =>
      var members := Resolve(d.users, w.members);
      if id !in d.groups {
        ChangeCovers(d.groups, id, Group(w.name, w.external, members), members);
        ResyncKeeps(d, d.groups[id := Group(w.name, w.external, members)], rolesFor, members);
      }
    case Replace(id, w) =>
      if id in d.groups {
        var members := Resolve(d.users, w.members);
        var g, ids := Group(w.name, w.external, members), d.groups[id].members + members;
        ChangeCovers(d.groups, id, g, ids);
        ResyncKeeps(d, d.groups[id := g], rolesFor, ids);
      }
    case Patch(id, add, remove, name) =>
      if id in d.groups {
        var g := Patched(d, id, add, remove, name);
        var ids := Resolve(d.users, add) + Resolve(d.users, remove) + g.members;
        ChangeCovers(d.groups, id, g, ids);
        ResyncKeeps(d, d.groups[id := g], rolesFor, ids);
      }
    case Delete(id) =>
      if id in d.groups {
        DeleteCovers(d.groups, id);
        ResyncKeeps(d, d.groups - {id}, rolesFor, d.groups[id].members);
      }
    case LogIn(_, _) =>
    case EditRoles(_, _) =>
    case Provision(_, _) =>
  }

  function ServeAll(d: Dir, qs: seq<Request>, rolesFor: RoleMap): Dir {
    if qs == [] then d else Serve(ServeAll(d, qs[..|qs| - 1], rolesFor), qs[|qs| - 1], rolesFor)
  }

  /** After any sequence of requests the directory's grants are implied by the groups as they then are. */
  lemma {:induction false} NoStaleGrant(d: Dir, qs: seq<Request>, rolesFor: RoleMap)
    requires Implied(d, rolesFor)
    ensures Implied(ServeAll(d, qs, rolesFor), rolesFor)
  {
    if qs != [] {
      NoStaleGrant(d, qs[..|qs| - 1], rolesFor);
      ServeKeeps(ServeAll(d, qs[..|qs| - 1], rolesFor), qs[|qs| - 1], rolesFor);
    }
  }

  /** After a group write that succeeds, everyone it concerned holds the other sources' roles and what the groups now
      imply. */
  lemma WriteSettles(d: Dir, groups: map<string, Group>, rolesFor: RoleMap, ids: set<Principal>, p: Principal)
    requires p in ids
    ensures Held(Resynced(d, groups, rolesFor, ids).bindings, p) ==
            HeldFromOthers(d.bindings, Scim, p) + Derived(groups, rolesFor, p)
  {
    ReconcileHolds(d.bindings, Scim, Wants(groups, rolesFor, ids), p);
  }

  /** Somebody dropped from a group keeps a role only if another source or another group still stands for it. */
  lemma RemovalRevokes(d: Dir, id: string, remove: seq<string>, name: string, rolesFor: RoleMap, p: Principal, r: Role)
    requires id in d.groups && p in Resolve(d.users, remove) && (name == "" || !Taken(d.groups, name, id))
    ensures var n := PatchGroup(d, id, [], remove, name, rolesFor).0;
            p !in n.groups[id].members &&
            (r in Held(n.bindings, p) <==>
             r in HeldFromOthers(d.bindings, Scim, p) || r in Derived(n.groups, rolesFor, p))
  {
    var g := Patched(d, id, [], remove, name);
    WriteSettles(d, d.groups[id := g], rolesFor, Resolve(d.users, []) + Resolve(d.users, remove) + g.members, p);
  }

  // ---- when an implied role is held ----

  lemma HeldAt(b: Bindings, p: Principal, r: Role)
    ensures r in Held(b, p) <==> Key(p, r, STORE_WIDE) in b
  {}

  /** A login keeps a role exactly if the token has it or another source recorded it first. */
  lemma LoginDecides(d: Dir, p: Principal, roles: seq<Role>, r: Role)
    ensures r in Held(Login(d, p, roles).bindings, p) <==>
            r in roles || (r in Held(d.bindings, p) && d.bindings[Key(p, r, STORE_WIDE)] != IdP)
  {
    var want := map[p := SetOf(roles)];
    ReconciledAt(d.bindings, IdP, want, Key(p, r, STORE_WIDE));
    HeldAt(d.bindings, p, r);
    HeldAt(Login(d, p, roles).bindings, p, r);
    hide Reconciled, Held;
  }

  /** An administrator's edit leaves exactly the roles it names, whatever the directory implies. */
  lemma EditDecides(d: Dir, p: Principal, roles: seq<Role>, r: Role)
    ensures r in Held(ReplaceRoles(d, p, roles).bindings, p) <==> r in roles
  {
    var k, want := Key(p, r, STORE_WIDE), map[p := SetOf(roles)];
    assert k in Wanted(want) <==> Wished(want, k);
    HeldAt(ReplaceRoles(d, p, roles).bindings, p, r);
    hide Held;
  }

  /** A group write that concerns a person leaves them exactly what other sources recorded and what the groups imply. */
  lemma WriteDecides(d: Dir, groups: map<string, Group>, rolesFor: RoleMap, ids: set<Principal>, p: Principal, r: Role)
    requires p in ids
    ensures r in Held(Resynced(d, groups, rolesFor, ids).bindings, p) <==>
            (r in Held(d.bindings, p) && d.bindings[Key(p, r, STORE_WIDE)] != Scim) || r in Derived(groups, rolesFor, p)
  {
    WriteSettles(d, groups, rolesFor, ids, p);
    HeldAt(d.bindings, p, r);
    assert r in HeldFromOthers(d.bindings, Scim, p) <==>
           Key(p, r, STORE_WIDE) in d.bindings && d.bindings[Key(p, r, STORE_WIDE)] != Scim;
    hide Held, Derived, Resynced;
  }

  /** Whom a request resynchronizes with the directory; nobody if it is refused. */
  function Concerns(d: Dir, q: Request): (ids: set<Principal>)
    ensures !GroupWrite(q) ==> ids == {}
  {
    match q
    case Create(id, w) => if id in d.groups || Taken(d.groups, w.name, id) then {} else Resolve(d.users, w.members)
    case Replace(id, w) =>
      if id !in d.groups || Taken(d.groups, w.name, id) then {} else d.groups[id].members + Resolve(d.users, w.members)
    case Patch(id, add, remove, name) =>
      if id !in d.groups || (name != "" && Taken(d.groups, name, id)) then {}
      else Resolve(d.users, add) + Resolve(d.users, remove) + Patched(d, id, add, remove, name).members
    case Delete(id) => if id !in d.groups then {} else d.groups[id].members
    case _ => {}
  }

  predicate GroupWrite(q: Request) {
    q.Create? || q.Replace? || q.Patch? || q.Delete?
  }

  /** A group write reconciles exactly the people it concerns with the groups it leaves. */
  lemma WriteIsResync(d: Dir, q: Request, rolesFor: RoleMap)
    requires GroupWrite(q)
    ensures Serve(d, q, rolesFor) == Resynced(d, Serve(d, q, rolesFor).groups, rolesFor, Concerns(d, q))
  {
    if Concerns(d, q) == {} { ResyncNobody(d, Serve(d, q, rolesFor).groups, rolesFor); }
    hide Reconciled, Derived, Resolve;
  }

  lemma ResyncNobody(d: Dir, groups: map<string, Group>, rolesFor: RoleMap)
    ensures Resynced(d, groups, rolesFor, {}) == d.(groups := groups)
  {
    assert Wants(groups, rolesFor, {}) == map[];
    assert Wanted(map[]) == {};
  }

  /** The request takes the role from the person. */
  predicate Takes(d: Dir, q: Request, p: Principal, r: Role, rolesFor: RoleMap)
    requires r in Held(d.bindings, p)
  {
    match q
    case LogIn(k, roles) => k == p && r !in roles && d.bindings[Key(p, r, STORE_WIDE)] == IdP
    case EditRoles(k, roles) => k == p && r !in roles
    case Provision(_, _) => false
    case _ =>
      && p in Concerns(d, q) && d.bindings[Key(p, r, STORE_WIDE)] == Scim
      && r !in Derived(Serve(d, q, rolesFor).groups, rolesFor, p)
  }

  /** The request gives the role to the person. */
  predicate Gives(d: Dir, q: Request, p: Principal, r: Role, rolesFor: RoleMap) {
    match q
    case LogIn(k, roles) => k == p && r in roles
    case EditRoles(k, roles) => k == p && r in roles
    case Provision(_, _) => false
    case _ => p in Concerns(d, q) && r in Derived(Serve(d, q, rolesFor).groups, rolesFor, p)
  }

  /** For every request and every role: held afterwards exactly if given, or held before and not taken. */
  lemma HeldAfter(d: Dir, q: Request, p: Principal, r: Role, rolesFor: RoleMap)
    ensures r in Held(Serve(d, q, rolesFor).bindings, p) <==>
            Gives(d, q, p, r, rolesFor) || (r in Held(d.bindings, p) && !Takes(d, q, p, r, rolesFor))
  {
    hide Derived, Concerns, Held;
    match q
    case LogIn(k, roles) => if k == p { LoginDecides(d, p, roles, r); } else { OthersKeep(d, q, p, r, rolesFor); }
    case EditRoles(k, roles) => if k == p { EditDecides(d, p, roles, r); } else { OthersKeep(d, q, p, r, rolesFor); }
    case Provision(_, _) =>
    case _ =>
      if p in Concerns(d, q) {
        hide Serve, Resynced;
        WriteIsResync(d, q, rolesFor);
        WriteDecides(d, Serve(d, q, rolesFor).groups, rolesFor, Concerns(d, q), p, r);
      } else {
        OthersKeep(d, q, p, r, rolesFor);
      }
  }

  /** Requests about other people leave a person's roles alone. */
  lemma OthersKeep(d: Dir, q: Request, p: Principal, r: Role, rolesFor: RoleMap)
    requires p !in Concerns(d, q) && !((q.LogIn? || q.EditRoles?) && q.p == p)
    ensures r in Held(Serve(d, q, rolesFor).bindings, p) <==> r in Held(d.bindings, p)
  {
    var k, n := Key(p, r, STORE_WIDE), Serve(d, q, rolesFor);
    HeldAt(d.bindings, p, r);
    HeldAt(n.bindings, p, r);
    if GroupWrite(q) {
      WriteIsResync(d, q, rolesFor);
      ReconcileTouchesOnly(d.bindings, Scim, Wants(n.groups, rolesFor, Concerns(d, q)), k);
    } else if q.LogIn? {
      ReconcileTouchesOnly(d.bindings, IdP, map[q.p := SetOf(q.roles)], k);
    }
    hide Held, Reconciled, Derived;
  }

  /** After a group write that concerns a person, every role the groups imply is held. */
  lemma WriteGrantsImplied(d: Dir, q: Request, p: Principal, rolesFor: RoleMap)
    requires GroupWrite(q) && p in Concerns(d, q)
    ensures Derived(Serve(d, q, rolesFor).groups, rolesFor, p) <= Held(Serve(d, q, rolesFor).bindings, p)
  {
    forall r | r in Derived(Serve(d, q, rolesFor).groups, rolesFor, p)
      ensures r in Held(Serve(d, q, rolesFor).bindings, p)
    {
      HeldAfter(d, q, p, r, rolesFor);
    }
  }

  /** A login that lacks the role where a token recorded it first, or an edit that leaves it out. */
  predicate Revokes(d: Dir, q: Request, p: Principal, r: Role)
    requires r in Held(d.bindings, p)
  {
    match q
    case LogIn(k, roles) => k == p && r !in roles && d.bindings[Key(p, r, STORE_WIDE)] == IdP
    case EditRoles(k, roles) => k == p && r !in roles
    case _ => false
  }

  predicate RevokedAt(d: Dir, qs: seq<Request>, p: Principal, r: Role, rolesFor: RoleMap, k: nat)
    requires k < |qs|
  {
    var s := ServeAll(d, qs[..k], rolesFor);
    r in Held(s.bindings, p) && Revokes(s, qs[k], p, r)
  }

  predicate HeldBy(d: Dir, qs: seq<Request>, p: Principal, r: Role, rolesFor: RoleMap, k: nat)
    requires k <= |qs|
  {
    r in Held(ServeAll(d, qs[..k], rolesFor).bindings, p)
  }

  predicate ImpliedBy(d: Dir, qs: seq<Request>, p: Principal, r: Role, rolesFor: RoleMap, k: nat)
    requires k <= |qs|
  {
    r in Derived(ServeAll(d, qs[..k], rolesFor).groups, rolesFor, p)
  }

  lemma ServeNext(d: Dir, qs: seq<Request>, rolesFor: RoleMap, k: nat)
    requires k < |qs|
    ensures ServeAll(d, qs[..k + 1], rolesFor) == Serve(ServeAll(d, qs[..k], rolesFor), qs[k], rolesFor)
  {
    assert qs[..k + 1][..k] == qs[..k];
  }

  lemma StepHolds(d: Dir, qs: seq<Request>, p: Principal, r: Role, rolesFor: RoleMap, k: nat)
    requires k < |qs| && HeldBy(d, qs, p, r, rolesFor, k) && ImpliedBy(d, qs, p, r, rolesFor, k + 1)
    ensures HeldBy(d, qs, p, r, rolesFor, k + 1) <==> !RevokedAt(d, qs, p, r, rolesFor, k)
  {
    ServeNext(d, qs, rolesFor, k);
    hide ServeAll, Serve, Held, Derived;
    HeldAfter(ServeAll(d, qs[..k], rolesFor), qs[k], p, r, rolesFor);
  }

  lemma {:induction false} HeldWhileUnrevoked(d: Dir, qs: seq<Request>, p: Principal, r: Role, rolesFor: RoleMap,
                                              n: nat)
    requires n <= |qs| && r in Held(d.bindings, p)
    requires forall k :: 0 < k <= n ==> ImpliedBy(d, qs, p, r, rolesFor, k)
    requires forall k :: 0 <= k < n ==> !RevokedAt(d, qs, p, r, rolesFor, k)
    ensures HeldBy(d, qs, p, r, rolesFor, n)
  {
    hide ImpliedBy, RevokedAt;
    if n > 0 {
      HeldWhileUnrevoked(d, qs, p, r, rolesFor, n - 1);
      StepHolds(d, qs, p, r, rolesFor, n - 1);
    }
  }

  /** A role held once and implied by the groups ever since is held all along exactly if no login and no edit revokes
      it. */
  lemma ImpliedRoleKept(d: Dir, qs: seq<Request>, p: Principal, r: Role, rolesFor: RoleMap)
    requires r in Held(d.bindings, p)
    requires forall k :: 0 < k <= |qs| ==> ImpliedBy(d, qs, p, r, rolesFor, k)
    ensures (forall k :: 0 <= k <= |qs| ==> HeldBy(d, qs, p, r, rolesFor, k)) <==>
            (forall k :: 0 <= k < |qs| ==> !RevokedAt(d, qs, p, r, rolesFor, k))
  {
    hide HeldBy, ImpliedBy, RevokedAt;
    if forall k :: 0 <= k < |qs| ==> !RevokedAt(d, qs, p, r, rolesFor, k) {
      forall k | 0 <= k <= |qs|
        ensures HeldBy(d, qs, p, r, rolesFor, k)
      {
        HeldWhileUnrevoked(d, qs, p, r, rolesFor, k);
      }
    }
    if forall k :: 0 <= k <= |qs| ==> HeldBy(d, qs, p, r, rolesFor, k) {
      forall k | 0 <= k < |qs| ensures !RevokedAt(d, qs, p, r, rolesFor, k) { StepHolds(d, qs, p, r, rolesFor, k); }
    }
  }

  /** From the last group write that concerns a person on: every role the groups go on implying is held all along
      exactly if no later login or edit revokes it. */
  lemma KeptSinceWrite(d: Dir, q: Request, qs: seq<Request>, p: Principal, r: Role, rolesFor: RoleMap)
    requires GroupWrite(q) && p in Concerns(d, q)
    requires forall k :: 0 <= k <= |qs| ==> ImpliedBy(Serve(d, q, rolesFor), qs, p, r, rolesFor, k)
    ensures (forall k :: 0 <= k <= |qs| ==> HeldBy(Serve(d, q, rolesFor), qs, p, r, rolesFor, k)) <==>
            (forall k :: 0 <= k < |qs| ==> !RevokedAt(Serve(d, q, rolesFor), qs, p, r, rolesFor, k))
  {
    assert ImpliedBy(Serve(d, q, rolesFor), qs, p, r, rolesFor, 0);
    assert qs[..0] == [];
    WriteGrantsImplied(d, q, p, rolesFor);
    ImpliedRoleKept(Serve(d, q, rolesFor), qs, p, r, rolesFor);
  }

  /** One key, one source: a role the directory implies, but a token recorded first, goes with the token, though the
      directory was synchronized in between. */
  lemma SharedRoleLost(d: Dir, ids: set<Principal>, p: Principal, r: Role, roles: seq<Role>, rolesFor: RoleMap)
    requires p in ids && Key(p, r, STORE_WIDE) in d.bindings && d.bindings[Key(p, r, STORE_WIDE)] == IdP && r !in roles
    ensures var synced := Resynced(d, d.groups, rolesFor, ids);
            && Key(p, r, STORE_WIDE) in synced.bindings && synced.bindings[Key(p, r, STORE_WIDE)] == IdP
            && r !in Held(Login(synced, p, roles).bindings, p)
  {
    var synced := Resynced(d, d.groups, rolesFor, ids);
    ReconcileTouchesOnly(d.bindings, Scim, Wants(d.groups, rolesFor, ids), Key(p, r, STORE_WIDE));
    hide Reconciled, Derived;
    LoginDecides(synced, p, roles, r);
  }

  /** An edit takes away even a role the directory itself granted and still implies. */
  lemma ImpliedRoleEdited(d: Dir, p: Principal, r: Role, roles: seq<Role>, rolesFor: RoleMap)
    requires r in Derived(d.groups, rolesFor, p) && r !in roles
    ensures var n := ReplaceRoles(d, p, roles); r in Derived(n.groups, rolesFor, p) && r !in Held(n.bindings, p)
  {
    EditDecides(d, p, roles, r);
  }

  // ---- replacing the members by a patch ----

  /** Every member of every group can be named by a SCIM id. */
  predicate MembersKnown(d: Dir) {
    forall g :: g in d.groups ==> d.groups[g].members <= d.users.Values
  }

  lemma ResolvedKnown(users: map<string, Principal>, ids: seq<string>)
    ensures Resolve(users, ids) <= users.Values
  {}

  lemma ServeKeepsKnown(d: Dir, q: Request, rolesFor: RoleMap)
    requires MembersKnown(d)
    ensures MembersKnown(Serve(d, q, rolesFor))
  {
    hide Reconciled, Derived, Resolve, Taken;
    match q
    case Create(_, w) => ResolvedKnown(d.users, w.members);
    case Replace(_, w) => ResolvedKnown(d.users, w.members);
    case Patch(_, add, _, _) => ResolvedKnown(d.users, add);
    case Provision(scimId, p) => if scimId !in d.users { ProvisionKeeps(d.users, scimId, p); }
    case _ =>
  }

  lemma ProvisionKeeps(users: map<string, Principal>, scimId: string, p: Principal)
    requires scimId !in users
    ensures users.Values <= users[scimId := p].Values
  {
    forall x | x in users.Values ensures x in users[scimId := p].Values {
      var k :| k in users && users[k] == x;
      assert users[scimId := p][k] == x;
    }
  }

  lemma {:induction false} MembersStayKnown(d: Dir, qs: seq<Request>, rolesFor: RoleMap)
    requires MembersKnown(d)
    ensures MembersKnown(ServeAll(d, qs, rolesFor))
  {
    hide Serve, MembersKnown;
    if qs != [] {
      MembersStayKnown(d, qs[..|qs| - 1], rolesFor);
      ServeKeepsKnown(ServeAll(d, qs[..|qs| - 1], rolesFor), qs[|qs| - 1], rolesFor);
    }
  }

  /** What the handler lists of a group before it replaces its members: their SCIM ids. */
  ghost predicate Lists(d: Dir, id: string, ids: seq<string>)
    requires id in d.groups
  {
    forall s :: s in ids <==> s in d.users && d.users[s] in d.groups[id].members
  }

  lemma ListedMembers(d: Dir, id: string, listed: seq<string>)
    requires id in d.groups && MembersKnown(d) && Lists(d, id, listed)
    ensures Resolve(d.users, listed) == d.groups[id].members
  {
    forall p | p in d.groups[id].members ensures p in Resolve(d.users, listed) {
      var s :| s in d.users && d.users[s] == p;
      assert s in listed;
    }
  }

  /** A patch that replaces the members adds the new ones and then removes all that were there: who was a member and is
      named again is removed too. The group ends up as requested exactly if no one requested was already in it. */
  lemma ReplaceByPatch(d: Dir, id: string, values: seq<string>, listed: seq<string>, rolesFor: RoleMap)
    requires id in d.groups && MembersKnown(d) && Lists(d, id, listed)
    ensures var before := d.groups[id].members;
            var n := PatchGroup(d, id, values, listed, "", rolesFor).0;
            && id in n.groups && n.groups[id].members == Resolve(d.users, values) - before
            && (n.groups[id].members == Resolve(d.users, values) <==> Resolve(d.users, values) !! before)
  {
    ListedMembers(d, id, listed);
    hide Resolve, Reconciled, Derived, MembersKnown, Lists;
    var before, asked := d.groups[id].members, Resolve(d.users, values);
    assert (before + asked) - before == asked - before;
    assert asked - before == asked <==> asked !! before;
  }
}
