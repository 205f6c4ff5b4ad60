/** The role list of the dashboard, a vector that has to behave like a map with at most one Maestro. */
module Roles {
  import opened Wrappers

  datatype BranchRole = NoRole | Maestro | BranchA | BranchB

  datatype RoleAssignment = RoleAssignment(appId: string, role: BranchRole)

  /** The role of the first entry for the app, or none. */
  function Lookup(roles: seq<RoleAssignment>, appId: string): BranchRole {
    if roles == [] then NoRole
    else if roles[0].appId == appId then roles[0].role
    else Lookup(roles[1..], appId)
  }

  function CurrentMaestro(roles: seq<RoleAssignment>): Option<RoleAssignment> {
    if roles == [] then None
    else if roles[0].role == Maestro then Some(roles[0])
    else CurrentMaestro(roles[1..])
  }

  function Without(roles: seq<RoleAssignment>, appId: string): seq<RoleAssignment> {
    if roles == [] then []
    else (if roles[0].appId == appId then [] else [roles[0]]) + Without(roles[1..], appId)
  }

  function SetRole(roles: seq<RoleAssignment>, appId: string, role: BranchRole): seq<RoleAssignment> {
    if role == NoRole then Without(roles, appId) else Without(roles, appId) + [RoleAssignment(appId, role)]
  }

  function DemotedEntry(entry: RoleAssignment, appId: string): RoleAssignment {
    if entry.role == Maestro && entry.appId != appId then entry.(role := NoRole) else entry
  }

  function Demoted(roles: seq<RoleAssignment>, appId: string): (r: seq<RoleAssignment>)
    ensures |r| == |roles|
    ensures forall i | 0 <= i < |roles| :: r[i] == DemotedEntry(roles[i], appId)
  {
    seq(|roles|, i requires 0 <= i < |roles| => DemotedEntry(roles[i], appId))
  }

  /** The position of the first entry for the app. */
  function IndexOf(roles: seq<RoleAssignment>, appId: string): (r: Option<nat>)
    ensures r.Some? ==> r.value < |roles| && roles[r.value].appId == appId
    ensures forall i | 0 <= i < (if r.Some? then r.value else |roles|) :: roles[i].appId != appId
  {
    if roles == [] then None
    else if roles[0].appId == appId then Some(0)
    else match IndexOf(roles[1..], appId) case Some(i) => Some(i + 1) case None => None
  }

  function Promote(roles: seq<RoleAssignment>, appId: string): seq<RoleAssignment> {
    var demoted := Demoted(roles, appId);
    match IndexOf(demoted, appId)
    case Some(i) => demoted[i := demoted[i].(role := Maestro)]
    case None => demoted + [RoleAssignment(appId, Maestro)]
  }

  function SetRoleForApp(roles: seq<RoleAssignment>, appId: string, role: BranchRole): seq<RoleAssignment> {
    if role == Maestro then Promote(roles, appId) else SetRole(roles, appId, role)
  }

  class RoleAssignmentSet {
    var roles: seq<RoleAssignment>

    constructor (roles: seq<RoleAssignment>)
      ensures this.roles == roles
    {
      this.roles := roles;
    }

    method Assign(appId: string, role: BranchRole)
      modifies this
      ensures roles == SetRole(old(roles), appId, role)
      ensures forall e :: e in roles <==>
                (e in old(roles) && e.appId != appId) || (role != NoRole && e == RoleAssignment(appId, role))
      ensures role != NoRole ==> roles != [] && roles[|roles| - 1] == RoleAssignment(appId, role)
    {
      WithoutMeaning(roles, appId, appId);
      if role == NoRole {
        roles := Without(roles, appId);
        return;
      }
      roles := Without(roles, appId);
      roles := roles + [RoleAssignment(appId, role)];
    }

    method PromoteMaestro(appId: string)
      modifies this
      ensures roles == Promote(old(roles), appId)
    {
      ghost var before := roles;
      for i := 0 to |roles|
        invariant |roles| == |before|
        invariant forall j | 0 <= j < |before| ::
                roles[j] == if j < i then DemotedEntry(before[j], appId) else before[j]
      {
        if roles[i].role == Maestro && roles[i].appId != appId {
          roles := roles[i := roles[i].(role := NoRole)];
        }
      }
      assert roles == Demoted(before, appId);
      var found := IndexOf(roles, appId);
      if found.Some? {
        roles := roles[found.value := roles[found.value].(role := Maestro)];
        return;
      }
      roles := roles + [RoleAssignment(appId, Maestro)];
    }

    method AssignForApp(appId: string, role: BranchRole)
      modifies this
      ensures roles == SetRoleForApp(old(roles), appId, role)
      ensures WellFormed(old(roles)) ==>
                && WellFormed(roles)
                && forall app :: Lookup(roles, app) == Expected(Lookup(old(roles), app), app, appId, role)
    {
      ghost var before := roles;
      if WellFormed(before) {
        SetRoleForAppMeaning(before, appId, role, appId);
        forall app
          ensures Lookup(SetRoleForApp(before, appId, role), app) == Expected(Lookup(before, app), app, appId, role)
        {
          SetRoleForAppMeaning(before, appId, role, app);
        }
      }
      match role {
        case Maestro => PromoteMaestro(appId);
        case _ => Assign(appId, role);
      }
    }
  }

  // ---- The list as a map ----

  ghost predicate UniqueApps(roles: seq<RoleAssignment>) {
    forall i, j | 0 <= i < j < |roles| :: roles[i].appId != roles[j].appId
  }

  ghost predicate OneMaestro(roles: seq<RoleAssignment>) {
    forall i, j | 0 <= i < j < |roles| :: roles[i].role != Maestro || roles[j].role != Maestro
  }

  ghost predicate WellFormed(roles: seq<RoleAssignment>) {
    UniqueApps(roles) && OneMaestro(roles)
  }

  /** What an assignment must do to the role of `app`. */
  function Expected(before: BranchRole, app: string, appId: string, role: BranchRole): BranchRole {
    if app == appId then role
    else if role == Maestro && before == Maestro then NoRole
    else before
  }

  /** The role of an app is that of its first entry, whatever the list. */
  lemma {:induction false} LookupIsFirst(roles: seq<RoleAssignment>, appId: string)
    ensures Lookup(roles, appId) == match IndexOf(roles, appId) case Some(i) => roles[i].role case None => NoRole
  {
    if roles != [] && roles[0].appId != appId {
      LookupIsFirst(roles[1..], appId);
    }
  }

  lemma {:induction false} LookupAt(roles: seq<RoleAssignment>, i: nat)
    requires UniqueApps(roles) && i < |roles|
    ensures Lookup(roles, roles[i].appId) == roles[i].role
  {
    if i > 0 {
      LookupAt(roles[1..], i - 1);
    }
  }

  lemma {:induction false} LookupAbsent(roles: seq<RoleAssignment>, appId: string)
    requires forall i | 0 <= i < |roles| :: roles[i].appId != appId
    ensures Lookup(roles, appId) == NoRole
  {
    if roles != [] {
      LookupAbsent(roles[1..], appId);
    }
  }

  lemma {:induction false} LookupPush(roles: seq<RoleAssignment>, entry: RoleAssignment, app: string)
    requires forall i | 0 <= i < |roles| :: roles[i].appId != entry.appId
    ensures Lookup(roles + [entry], app) == if app == entry.appId then entry.role else Lookup(roles, app)
  {
    if roles == [] {
      assert roles + [entry] == [entry];
    } else {
      assert (roles + [entry])[1..] == roles[1..] + [entry];
      LookupPush(roles[1..], entry, app);
    }
  }

  lemma {:induction false} WithoutMeaning(roles: seq<RoleAssignment>, appId: string, app: string)
    ensures forall e :: e in Without(roles, appId) <==> e in roles && e.appId != appId
    ensures Lookup(Without(roles, appId), app) == if app == appId then NoRole else Lookup(roles, app)
  {
    if roles != [] {
      WithoutMeaning(roles[1..], appId, app);
      var rest := Without(roles[1..], appId);
      if roles[0].appId != appId {
        assert Without(roles, appId) == [roles[0]] + rest;
        assert ([roles[0]] + rest)[1..] == rest;
      } else {
        assert Without(roles, appId) == rest;
      }
    }
  }

  lemma WellFormedCons(first: RoleAssignment, rest: seq<RoleAssignment>)
    requires WellFormed(rest)
    requires forall e | e in rest :: e.appId != first.appId && (e.role != Maestro || first.role != Maestro)
    ensures WellFormed([first] + rest)
  {
    var all := [first] + rest;
    forall i, j | 0 <= i < j < |all|
      ensures all[i].appId != all[j].appId && (all[i].role != Maestro || all[j].role != Maestro)
    {
      assert all[j] == rest[j - 1] && rest[j - 1] in rest;
    }
  }

  lemma WellFormedHead(roles: seq<RoleAssignment>, e: RoleAssignment)
    requires WellFormed(roles) && roles != [] && e in roles[1..]
    ensures e.appId != roles[0].appId && (e.role != Maestro || roles[0].role != Maestro)
  {
    var k: nat :| k < |roles[1..]| && roles[1..][k] == e;
    assert roles[k + 1] == e;
  }

  lemma {:induction false} WithoutWellFormed(roles: seq<RoleAssignment>, appId: string)
    requires WellFormed(roles)
    ensures WellFormed(Without(roles, appId))
  {
    if roles != [] {
      WithoutWellFormed(roles[1..], appId);
      WithoutMeaning(roles[1..], appId, appId);
      if roles[0].appId != appId {
        var rest := Without(roles[1..], appId);
        forall e | e in rest
          ensures e.appId != roles[0].appId && (e.role != Maestro || roles[0].role != Maestro)
        {
          WellFormedHead(roles, e);
        }
        WellFormedCons(roles[0], rest);
        assert Without(roles, appId) == [roles[0]] + rest;
      } else {
        assert Without(roles, appId) == Without(roles[1..], appId);
      }
    }
  }

  lemma SetRoleMeaning(roles: seq<RoleAssignment>, appId: string, role: BranchRole, app: string)
    requires WellFormed(roles) && role != Maestro
    ensures WellFormed(SetRole(roles, appId, role))
    ensures Lookup(SetRole(roles, appId, role), app) == Expected(Lookup(roles, app), app, appId, role)
  {
    var kept := Without(roles, appId);
    WithoutWellFormed(roles, appId);
    WithoutMeaning(roles, appId, app);
    if role != NoRole {
      forall i | 0 <= i < |kept|
        ensures kept[i].appId != appId
      {
        assert kept[i] in kept;
      }
      LookupPush(kept, RoleAssignment(appId, role), app);
    }
  }

  lemma DemotedLookup(roles: seq<RoleAssignment>, appId: string, app: string)
    requires UniqueApps(roles)
    ensures Lookup(Demoted(roles, appId), app) ==
            if Lookup(roles, app) == Maestro && app != appId then NoRole else Lookup(roles, app)
  {
    var demoted := Demoted(roles, appId);
    var found := IndexOf(roles, app);
    if found.Some? {
      LookupAt(roles, found.value);
      LookupAt(demoted, found.value);
    } else {
      LookupAbsent(roles, app);
      LookupAbsent(demoted, app);
    }
  }

  lemma UpdateLookup(roles: seq<RoleAssignment>, i: nat, role: BranchRole, app: string)
    requires UniqueApps(roles) && i < |roles|
    ensures Lookup(roles[i := roles[i].(role := role)], app) ==
            if app == roles[i].appId then role else Lookup(roles, app)
  {
    var updated := roles[i := roles[i].(role := role)];
    var found := IndexOf(roles, app);
    if found.Some? {
      LookupAt(roles, found.value);
      LookupAt(updated, found.value);
    } else {
      LookupAbsent(roles, app);
      LookupAbsent(updated, app);
    }
  }

  lemma PromoteWellFormed(roles: seq<RoleAssignment>, appId: string)
    requires WellFormed(roles)
    ensures WellFormed(Promote(roles, appId))
  {
    var demoted, promoted := Demoted(roles, appId), Promote(roles, appId);
    assert forall j | 0 <= j < |roles| && demoted[j].role == Maestro :: demoted[j].appId == appId;
    assert forall j | 0 <= j < |promoted| && promoted[j].role == Maestro :: promoted[j].appId == appId;
    assert UniqueApps(promoted);
  }

  lemma PromoteMeaning(roles: seq<RoleAssignment>, appId: string, app: string)
    requires WellFormed(roles)
    ensures WellFormed(Promote(roles, appId))
    ensures Lookup(Promote(roles, appId), app) == Expected(Lookup(roles, app), app, appId, Maestro)
  {
    var demoted := Demoted(roles, appId);
    PromoteWellFormed(roles, appId);
    DemotedLookup(roles, appId, app);
    var found := IndexOf(demoted, appId);
    if found.Some? {
      UpdateLookup(demoted, found.value, Maestro, app);
    } else {
      LookupPush(demoted, RoleAssignment(appId, Maestro), app);
    }
  }

  /** An assignment keeps the list well formed and changes the named app and the demoted Maestro only. */
  lemma SetRoleForAppMeaning(roles: seq<RoleAssignment>, appId: string, role: BranchRole, app: string)
    requires WellFormed(roles)
    ensures WellFormed(SetRoleForApp(roles, appId, role))
    ensures Lookup(SetRoleForApp(roles, appId, role), app) == Expected(Lookup(roles, app), app, appId, role)
  {
    if role == Maestro {
      PromoteMeaning(roles, appId, app);
    } else {
      SetRoleMeaning(roles, appId, role, app);
    }
  }

  lemma {:induction false} CurrentMaestroMeaning(roles: seq<RoleAssignment>, i: nat)
    requires WellFormed(roles) && i < |roles| && roles[i].role == Maestro
    ensures CurrentMaestro(roles) == Some(roles[i])
  {
    if i > 0 {
      CurrentMaestroMeaning(roles[1..], i - 1);
    }
  }

  lemma {:induction false} CurrentMaestroIsMaestro(roles: seq<RoleAssignment>)
    ensures CurrentMaestro(roles).Some? ==>
              CurrentMaestro(roles).value in roles && CurrentMaestro(roles).value.role == Maestro
    ensures CurrentMaestro(roles).None? ==> forall e | e in roles :: e.role != Maestro
  {
    if roles != [] && roles[0].role != Maestro {
      CurrentMaestroIsMaestro(roles[1..]);
      assert roles == [roles[0]] + roles[1..];
    }
  }

  /** The current Maestro is exactly the app whose role is Maestro. */
  lemma CurrentMaestroExactlyWhen(roles: seq<RoleAssignment>, app: string)
    requires WellFormed(roles)
    ensures CurrentMaestro(roles) == Some(RoleAssignment(app, Maestro)) <==> Lookup(roles, app) == Maestro
  {
    CurrentMaestroIsMaestro(roles);
    var found := IndexOf(roles, app);
    if found.Some? {
      LookupAt(roles, found.value);
      if Lookup(roles, app) == Maestro {
        CurrentMaestroMeaning(roles, found.value);
        assert roles[found.value] == RoleAssignment(app, Maestro);
      }
    } else {
      LookupAbsent(roles, app);
    }
    if CurrentMaestro(roles) == Some(RoleAssignment(app, Maestro)) {
      var i: nat :| i < |roles| && roles[i] == RoleAssignment(app, Maestro);
      LookupAt(roles, i);
    }
  }

  /** After a promotion the current Maestro is the promoted app. */
  lemma PromotionTakesEffect(roles: seq<RoleAssignment>, appId: string)
    requires WellFormed(roles)
    ensures CurrentMaestro(SetRoleForApp(roles, appId, Maestro)) == Some(RoleAssignment(appId, Maestro))
  {
    PromoteMeaning(roles, appId, appId);
    var promoted := Promote(roles, appId);
    var found := IndexOf(promoted, appId);
    if found.None? {
      LookupAbsent(promoted, appId);
      assert false;
    } else {
      LookupAt(promoted, found.value);
      CurrentMaestroMeaning(promoted, found.value);
    }
  }

  // ---- Whole sessions ----

  type Session = seq<(string, BranchRole)>

  function After(roles: seq<RoleAssignment>, session: Session): seq<RoleAssignment> {
    if session == [] then roles
    else
      var n := |session| - 1;
      SetRoleForApp(After(roles, session[..n]), session[n].0, session[n].1)
  }

  function ExpectedAfter(initial: BranchRole, app: string, session: Session): BranchRole {
    if session == [] then initial
    else
      var n := |session| - 1;
      Expected(ExpectedAfter(initial, app, session[..n]), app, session[n].0, session[n].1)
  }

  /** Over any session the list refines the map from apps to roles, app by app. */
  lemma {:induction false} RolesRefineMap(roles: seq<RoleAssignment>, session: Session, app: string)
    requires WellFormed(roles)
    ensures WellFormed(After(roles, session))
    ensures Lookup(After(roles, session), app) == ExpectedAfter(Lookup(roles, app), app, session)
  {
    if session != [] {
      var n := |session| - 1;
      RolesRefineMap(roles, session[..n], app);
      SetRoleForAppMeaning(After(roles, session[..n]), session[n].0, session[n].1, app);
    }
  }
}
