/** What each group write of the directory leaves: which groups, with whom in them, and which roles people then hold. */
module DirectoryWrites {
  import Base
  import opened Directory

  /** One of the listed SCIM ids belongs to the person. */
  ghost predicate Listed(users: map<string, Principal>, ids: seq<string>, p: Principal) {
    exists i :: 0 <= i < |ids| && ids[i] in users && users[ids[i]] == p
  }

  lemma ListedResolves(users: map<string, Principal>, ids: seq<string>, p: Principal)
    ensures p in Resolve(users, ids) <==> Listed(users, ids, p)
  {}

  /** Some other group bears the name. */
  ghost predicate Borne(groups: map<string, Group>, id: string, name: string) {
    exists g :: g in groups && g != id && groups[g].name == name
  }

  /** Every other group, and every user, is as before. */
  ghost predicate OthersStay(d: Dir, n: Dir, id: string) {
    && n.users == d.users
    && forall g :: g != id ==> (g in n.groups <==> g in d.groups) && (g in d.groups ==> n.groups[g] == d.groups[g])
  }

  /** The group as requested: its name, its external id, and exactly the listed people. */
  ghost predicate AsRequested(d: Dir, n: Dir, id: string, w: Write) {
    && id in n.groups && n.groups[id].name == w.name && n.groups[id].external == w.external
    && forall p :: p in n.groups[id].members <==> Listed(d.users, w.members, p)
  }

  // ---- the groups ----

  /** A create is done exactly if the name is free, and leaves the group as requested. */
  lemma CreateWrites(d: Dir, id: string, w: Write, rolesFor: RoleMap)
    ensures var (n, outcome) := CreateGroup(d, id, w, rolesFor);
            && (outcome == Done <==> id !in d.groups && !Borne(d.groups, id, w.name))
            && (if outcome == Done then OthersStay(d, n, id) && AsRequested(d, n, id, w) else n == d)
  {
    forall p ensures p in Resolve(d.users, w.members) <==> Listed(d.users, w.members, p) {
      ListedResolves(d.users, w.members, p);
    }
    hide Resolve, Listed, Reconciled, Wants;
  }

  /** A replacement is done exactly if the group is there and the name is free, and leaves it as requested: whoever is
      not listed is no longer in it. */
  lemma ReplaceWrites(d: Dir, id: string, w: Write, rolesFor: RoleMap)
    ensures var (n, outcome) := ReplaceGroup(d, id, w, rolesFor);
            && (outcome == NoGroup <==> id !in d.groups)
            && (outcome == Done <==> id in d.groups && !Borne(d.groups, id, w.name))
            && (if outcome == Done then OthersStay(d, n, id) && AsRequested(d, n, id, w) else n == d)
  {
    forall p ensures p in Resolve(d.users, w.members) <==> Listed(d.users, w.members, p) {
      ListedResolves(d.users, w.members, p);
    }
    hide Resolve, Listed, Reconciled, Wants;
  }

  /** A patch is done exactly if the group is there and a new name is free. Who was in the group or is added is in it
      afterwards unless removed; an empty name keeps the old one. */
  lemma PatchWrites(d: Dir, id: string, add: seq<string>, remove: seq<string>, name: string, rolesFor: RoleMap)
    ensures var (n, outcome) := PatchGroup(d, id, add, remove, name, rolesFor);
            && (outcome == NoGroup <==> id !in d.groups)
            && (outcome == Done <==> id in d.groups && (name == "" || !Borne(d.groups, id, name)))
            && (outcome == Done ==>
                  && OthersStay(d, n, id) && id in n.groups && n.groups[id].external == d.groups[id].external
                  && n.groups[id].name == (if name == "" then d.groups[id].name else name)
                  && forall p :: p in n.groups[id].members <==>
                                 (p in d.groups[id].members || Listed(d.users, add, p)) && !Listed(d.users, remove, p))
            && (outcome != Done ==> n == d)
  {
    forall p ensures (p in Resolve(d.users, add) <==> Listed(d.users, add, p)) &&
                     (p in Resolve(d.users, remove) <==> Listed(d.users, remove, p)) {
      ListedResolves(d.users, add, p);
      ListedResolves(d.users, remove, p);
    }
    hide Resolve, Listed, Reconciled, Wants;
  }

  /** A deletion is done exactly if the group is there, and takes that group and no other. */
  lemma DeleteWrites(d: Dir, id: string, rolesFor: RoleMap)
    ensures var (n, outcome) := DeleteGroup(d, id, rolesFor);
            && (outcome == Done <==> id in d.groups) && (outcome == NoGroup <==> id !in d.groups)
            && id !in n.groups && OthersStay(d, n, id)
  {
    hide Reconciled, Wants;
  }

  // ---- the roles ----

  /** The names of the groups, other than one, that the person is in. */
  ghost function NamesBeside(groups: map<string, Group>, id: string, p: Principal): set<string> {
    set g | g in groups && g != id && p in groups[g].members :: groups[g].name
  }

  /** That one's name, if they are in it. */
  ghost function NameIn(groups: map<string, Group>, id: string, p: Principal): set<string> {
    if id in groups && p in groups[id].members then {groups[id].name} else {}
  }

  /** Another source recorded the role for the person. */
  ghost predicate RecordedByOthers(d: Dir, p: Principal, r: Role) {
    Key(p, r, STORE_WIDE) in d.bindings && d.bindings[Key(p, r, STORE_WIDE)] != Scim
  }

  /** The person's groups after a write to one of them: the other ones, and that one if they are in it. */
  lemma NamesAfter(d: Dir, n: Dir, id: string, p: Principal)
    requires OthersStay(d, n, id)
    ensures NamesOf(n.groups, p) == NamesBeside(d.groups, id, p) + NameIn(n.groups, id, p)
  {
    forall m | m in NamesBeside(d.groups, id, p) ensures m in NamesOf(n.groups, p) {
      var g :| g in d.groups && g != id && p in d.groups[g].members && d.groups[g].name == m;
      assert g in n.groups && n.groups[g] == d.groups[g];
    }
    forall m | m in NamesOf(n.groups, p) ensures m in NamesBeside(d.groups, id, p) + NameIn(n.groups, id, p) {
      var g :| g in n.groups && p in n.groups[g].members && n.groups[g].name == m;
      if g != id { assert g in d.groups && d.groups[g] == n.groups[g]; }
    }
  }

  /** After a group write that concerns a person: a role is held exactly if another source recorded it, or the names of
      the groups they are in stand for it. */
  lemma RolesAfter(d: Dir, q: Request, id: string, rolesFor: RoleMap, p: Principal, r: Role)
    requires GroupWrite(q) && p in Concerns(d, q) && OthersStay(d, Serve(d, q, rolesFor), id)
    ensures var n := Serve(d, q, rolesFor);
            Key(p, r, STORE_WIDE) in n.bindings <==>
            RecordedByOthers(d, p, r) ||
            r in rolesFor(NamesBeside(d.groups, id, p) + NameIn(n.groups, id, p))
  {
    hide Serve, Held, Resynced, Concerns, NamesBeside, NamesOf;
    var n := Serve(d, q, rolesFor);
    WriteIsResync(d, q, rolesFor);
    WriteDecides(d, n.groups, rolesFor, Concerns(d, q), p, r);
    HeldAt(n.bindings, p, r);
    HeldAt(d.bindings, p, r);
    NamesAfter(d, n, id, p);
  }

  /** After a PUT, for everybody who was in the group or is listed now: a role is held exactly if another source
      recorded it, or the names of the person's other groups, with the new name if they are listed, stand for it. Who is
      dropped keeps nothing on account of this group. Everybody else holds what they held. */
  lemma ReplaceSettles(d: Dir, id: string, w: Write, rolesFor: RoleMap, p: Principal, r: Role)
    requires id in d.groups && !Borne(d.groups, id, w.name)
    ensures var n := ReplaceGroup(d, id, w, rolesFor).0;
            Key(p, r, STORE_WIDE) in n.bindings <==>
            if p in d.groups[id].members || Listed(d.users, w.members, p) then
              RecordedByOthers(d, p, r) ||
              r in rolesFor(NamesBeside(d.groups, id, p) + if Listed(d.users, w.members, p) then {w.name} else {})
            else Key(p, r, STORE_WIDE) in d.bindings
  {
    ReplaceWrites(d, id, w, rolesFor);
    ListedResolves(d.users, w.members, p);
    hide Listed, Resolve, NamesBeside, ReplaceGroup, RecordedByOthers;
    Settles(d, Replace(id, w), id, rolesFor, p, r);
  }

  /** After a deletion its members hold what other sources recorded and their other groups stand for. */
  lemma DeleteSettles(d: Dir, id: string, rolesFor: RoleMap, p: Principal, r: Role)
    requires id in d.groups
    ensures var n := DeleteGroup(d, id, rolesFor).0;
            Key(p, r, STORE_WIDE) in n.bindings <==>
            if p in d.groups[id].members then RecordedByOthers(d, p, r) || r in rolesFor(NamesBeside(d.groups, id, p))
            else Key(p, r, STORE_WIDE) in d.bindings
  {
    DeleteWrites(d, id, rolesFor);
    hide NamesBeside, DeleteGroup, RecordedByOthers;
    Settles(d, Delete(id), id, rolesFor, p, r);
    assert NamesBeside(d.groups, id, p) + {} == NamesBeside(d.groups, id, p);
  }

  /** After a create the listed people hold what other sources recorded and what their groups, with this one, stand
      for. */
  lemma CreateSettles(d: Dir, id: string, w: Write, rolesFor: RoleMap, p: Principal, r: Role)
    requires id !in d.groups && !Borne(d.groups, id, w.name)
    ensures var n := CreateGroup(d, id, w, rolesFor).0;
            Key(p, r, STORE_WIDE) in n.bindings <==>
            if Listed(d.users, w.members, p) then
              RecordedByOthers(d, p, r) || r in rolesFor(NamesBeside(d.groups, id, p) + {w.name})
            else Key(p, r, STORE_WIDE) in d.bindings
  {
    CreateWrites(d, id, w, rolesFor);
    ListedResolves(d.users, w.members, p);
    hide Listed, Resolve, NamesBeside, CreateGroup, RecordedByOthers;
    Settles(d, Create(id, w), id, rolesFor, p, r);
  }

  /** After a patch, for everybody in the group before or after it or named in it: the same, with the group's new name
      exactly if they are in it now. */
  lemma PatchSettles(d: Dir, id: string, add: seq<string>, remove: seq<string>, name: string, rolesFor: RoleMap,
                     p: Principal, r: Role)
    requires id in d.groups && (name == "" || !Borne(d.groups, id, name))
    ensures var n := PatchGroup(d, id, add, remove, name, rolesFor).0;
            id in n.groups &&
            (Key(p, r, STORE_WIDE) in n.bindings <==>
             if p in d.groups[id].members || Listed(d.users, add, p) || Listed(d.users, remove, p) then
               RecordedByOthers(d, p, r) ||
               r in rolesFor(NamesBeside(d.groups, id, p) +
                             if p in n.groups[id].members then {n.groups[id].name} else {})
             else Key(p, r, STORE_WIDE) in d.bindings)
  {
    PatchWrites(d, id, add, remove, name, rolesFor);
    ListedResolves(d.users, add, p);
    ListedResolves(d.users, remove, p);
    hide Listed, Resolve, NamesBeside, PatchGroup, RecordedByOthers;
    Settles(d, Patch(id, add, remove, name), id, rolesFor, p, r);
  }

  lemma Settles(d: Dir, q: Request, id: string, rolesFor: RoleMap, p: Principal, r: Role)
    requires GroupWrite(q) && OthersStay(d, Serve(d, q, rolesFor), id)
    ensures var n := Serve(d, q, rolesFor);
            Key(p, r, STORE_WIDE) in n.bindings <==>
            if p in Concerns(d, q) then
              RecordedByOthers(d, p, r) ||
              r in rolesFor(NamesBeside(d.groups, id, p) + NameIn(n.groups, id, p))
            else Key(p, r, STORE_WIDE) in d.bindings
  {
    hide Serve, Concerns, NamesBeside, RecordedByOthers, Held;
    if p in Concerns(d, q) {
      RolesAfter(d, q, id, rolesFor, p, r);
    } else {
      OthersKeep(d, q, p, r, rolesFor);
      HeldAt(d.bindings, p, r);
      HeldAt(Serve(d, q, rolesFor).bindings, p, r);
    }
  }

  // ---- people ----

  /** Provisioning a new SCIM id makes it name the person; a known one keeps its meaning, and nothing else changes. */
  lemma ProvisionWrites(d: Dir, scimId: string, p: Principal, rolesFor: RoleMap)
    ensures var n := Serve(d, Provision(scimId, p), rolesFor);
            && n.groups == d.groups && n.bindings == d.bindings && n.users.Keys == d.users.Keys + {scimId}
            && (forall k :: k in d.users ==> n.users[k] == d.users[k]) && (scimId !in d.users ==> n.users[scimId] == p)
  {}

  /** An edit records exactly the named roles, as local ones, for that person store-wide; every other binding stays. */
  lemma EditWrites(d: Dir, p: Principal, roles: seq<Role>, k: Key)
    ensures var n := ReplaceRoles(d, p, roles);
            && n.users == d.users && n.groups == d.groups
            && if k.principal == p && k.scope == STORE_WIDE then
                 (k in n.bindings <==> k.role in roles) && (k in n.bindings ==> n.bindings[k] == Local)
               else
                 (k in n.bindings <==> k in d.bindings) && (k in d.bindings ==> n.bindings[k] == d.bindings[k])
  {
    assert k in Wanted(map[p := Base.SetOf(roles)]) <==> k.principal == p && k.scope == STORE_WIDE && k.role in roles;
  }

  /** A login records the token's roles that nobody recorded, drops those an earlier token recorded and this one lacks,
      and leaves every other binding alone. */
  lemma LoginWrites(d: Dir, p: Principal, roles: seq<Role>, k: Key)
    ensures var n := Login(d, p, roles);
            && n.users == d.users && n.groups == d.groups
            && if k.principal == p && k.scope == STORE_WIDE && (k in d.bindings ==> d.bindings[k] == IdP) then
                 (k in n.bindings <==> k.role in roles) && (k in n.bindings ==> n.bindings[k] == IdP)
               else
                 (k in n.bindings <==> k in d.bindings) && (k in d.bindings ==> n.bindings[k] == d.bindings[k])
  {
    ReconciledAt(d.bindings, IdP, map[p := Base.SetOf(roles)], k);
    hide Reconciled;
  }
}
