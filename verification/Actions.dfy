/** Acceptance of the submitted actions and their canonical order. */
module Actions {
  import opened Domain

  function StationKnown(st: MatchState, id: WorkstationID): bool {
    exists w :: w in st.plant.stations && w.id == id
  }

  predicate ValidProduction(st: MatchState, a: ProductionAction) {
    && (forall r | r in a.releases :: r.quantity >= 0)
    && (forall c | c in a.allocations :: c.capacity >= 0 && StationKnown(st, c.station))
    && (forall o | o in a.overtime :: o.capacity >= 0 && StationKnown(st, o.station))
  }

  predicate ValidTargets(t: BudgetTargets) {
    && t.procurementBudget >= 0
    && t.productionSpendBudget >= 0
    && t.revenueTarget >= 0
    && t.cashFloorTarget >= 0
    && t.debtCeilingTarget >= 0
  }

  /** Exactly the payload of the role is present, and its values are legal. */
  predicate ValidPayload(st: MatchState, role: RoleID, a: RoleAction) {
    match role
    case ProcurementManager =>
      && a.procurement.Some? && a.production.None? && a.sales.None? && a.finance.None?
      && forall o | o in a.procurement.value :: o.quantity >= 0
    case ProductionManager =>
      && a.procurement.None? && a.production.Some? && a.sales.None? && a.finance.None?
      && ValidProduction(st, a.production.value)
    case SalesManager =>
      && a.procurement.None? && a.production.None? && a.sales.Some? && a.finance.None?
      && forall o | o in a.sales.value :: o.unitPrice >= 0
    case FinanceController =>
      && a.procurement.None? && a.production.None? && a.sales.None? && a.finance.Some?
      && ValidTargets(a.finance.value)
    case OtherRole(_) => false
  }

  predicate Acceptable(st: MatchState, a: ActionSubmission) {
    && a.matchID == st.matchID
    && a.round == st.currentRound
    && a.role in CANONICAL_ROLES
    && (|st.roles| > 0 ==> exists r :: r in st.roles && r.role == a.role)
    && ValidPayload(st, a.role, a.action)
  }

  function CollectByRole(st: MatchState, actions: seq<ActionSubmission>, byRole: map<RoleID, ActionSubmission>)
    : Result<map<RoleID, ActionSubmission>>
    decreases |actions|
  {
    if |actions| == 0 then Ok(byRole)
    else
      var a := actions[0];
      if !Acceptable(st, a) || a.role in byRole then Err
      else CollectByRole(st, actions[1..], byRole[a.role := a])
  }

  function InOrder(byRole: map<RoleID, ActionSubmission>, roles: seq<RoleID>): seq<ActionSubmission> {
    if |roles| == 0 then []
    else (if roles[0] in byRole then [byRole[roles[0]]] else []) + InOrder(byRole, roles[1..])
  }

  /** `normalizeActions`. */
  function NormalizeActions(st: MatchState, actions: seq<ActionSubmission>): Result<seq<ActionSubmission>> {
    match CollectByRole(st, actions, map[])
    case Err => Err
    case Ok(byRole) => Ok(InOrder(byRole, CANONICAL_ROLES))
  }

  method Normalize(st: MatchState, actions: seq<ActionSubmission>) returns (r: Result<seq<ActionSubmission>>)
    ensures r == NormalizeActions(st, actions)
  {
    hide Acceptable;
    var byRole: map<RoleID, ActionSubmission> := map[];
    for i := 0 to |actions|
      invariant CollectByRole(st, actions[i..], byRole) == CollectByRole(st, actions, map[])
    {
      var a := actions[i];
      assert actions[i..][1..] == actions[i + 1..];
      if !Acceptable(st, a) || a.role in byRole { return Err; }
      byRole := byRole[a.role := a];
    }
    assert actions[|actions|..] == [];
    var ordered := PutInOrder(byRole, CANONICAL_ROLES);
    return Ok(ordered);
  }

  method PutInOrder(byRole: map<RoleID, ActionSubmission>, roles: seq<RoleID>) returns (ordered: seq<ActionSubmission>)
    ensures ordered == InOrder(byRole, roles)
  {
    ordered := [];
    for i := 0 to |roles|
      invariant ordered + InOrder(byRole, roles[i..]) == InOrder(byRole, roles)
    {
      assert roles[i..][1..] == roles[i + 1..];
      if roles[i] in byRole {
        ordered := ordered + [byRole[roles[i]]];
      }
    }
    assert roles[|roles|..] == [];
  }

  function ActionFor(actions: seq<ActionSubmission>, role: RoleID): Option<ActionSubmission> {
    if |actions| == 0 then None
    else if actions[0].role == role then Some(actions[0])
    else ActionFor(actions[1..], role)
  }

  // ---------------------------------------------------------------- what acceptance depends on

  ghost predicate DistinctRoles(actions: seq<ActionSubmission>) {
    forall i, j | 0 <= i < j < |actions| :: actions[i].role != actions[j].role
  }

  lemma DistinctRolesSplit(actions: seq<ActionSubmission>)
    requires |actions| > 0
    ensures DistinctRoles(actions) <==>
            DistinctRoles(actions[1..]) && forall x | x in actions[1..] :: x.role != actions[0].role
  {
    var rest := actions[1..];
    assert forall k | 0 <= k < |rest| :: rest[k] == actions[k + 1];
    assert forall k | 0 < k < |actions| :: actions[k] == rest[k - 1] && rest[k - 1] in rest;
  }

  /** Accepted exactly when every action is acceptable and no role occurs twice; the map is then the set of actions. */
  lemma {:induction false} CollectByRoleIs(st: MatchState, actions: seq<ActionSubmission>, byRole: map<RoleID, ActionSubmission>)
    ensures CollectByRole(st, actions, byRole).Ok? <==>
            && (forall a | a in actions :: Acceptable(st, a) && a.role !in byRole)
            && DistinctRoles(actions)
    ensures CollectByRole(st, actions, byRole).Ok? ==>
            var m := CollectByRole(st, actions, byRole).value;
            && (forall a | a in actions :: a.role in m && m[a.role] == a)
            && (forall r | r in byRole :: r in m && m[r] == byRole[r])
            && (forall r | r in m :: r in byRole || exists a :: a in actions && a.role == r)
    decreases |actions|
  {
    hide Acceptable;
    if |actions| > 0 {
      var a, rest := actions[0], actions[1..];
      assert forall x | x in actions :: x == a || x in rest;
      DistinctRolesSplit(actions);
      if Acceptable(st, a) && a.role !in byRole {
        CollectByRoleIs(st, rest, byRole[a.role := a]);
      }
    }
  }

  ghost predicate SameActions(a: seq<ActionSubmission>, b: seq<ActionSubmission>) { multiset(a) == multiset(b) }

  lemma DistinctRolesPermuted(a: seq<ActionSubmission>, b: seq<ActionSubmission>)
    requires SameActions(a, b) && DistinctRoles(a)
    ensures DistinctRoles(b)
  {
    forall i, j | 0 <= i < j < |b| ensures b[i].role != b[j].role {
      if b[i].role == b[j].role {
        assert b[i] in multiset(a) && b[j] in multiset(a);
        var k :| 0 <= k < |a| && a[k] == b[i];
        var l :| 0 <= l < |a| && a[l] == b[j];
        assert k == l;
        Twice(b, i, j);
        Once(a, k);
        assert false;
      }
    }
  }

  lemma Twice(s: seq<ActionSubmission>, i: nat, j: nat)
    requires i < j < |s| && s[i] == s[j]
    ensures multiset(s)[s[i]] >= 2
  {
    assert s == s[..i] + [s[i]] + s[i + 1..j] + [s[j]] + s[j + 1..];
  }

  lemma Once(s: seq<ActionSubmission>, i: nat)
    requires i < |s| && DistinctRoles(s)
    ensures multiset(s)[s[i]] == 1
  {
    assert s == s[..i] + [s[i]] + s[i + 1..];
    assert s[i] !in s[..i] && s[i] !in s[i + 1..];
  }

  lemma SameMembers(a: seq<ActionSubmission>, b: seq<ActionSubmission>)
    requires SameActions(a, b)
    ensures forall x :: x in a <==> x in b
    ensures DistinctRoles(a) <==> DistinctRoles(b)
  {
    assert forall x :: x in a <==> x in multiset(a);
    assert forall x :: x in b <==> x in multiset(b);
    if DistinctRoles(a) { DistinctRolesPermuted(a, b); }
    if DistinctRoles(b) { DistinctRolesPermuted(b, a); }
  }

  /** Permuted submissions are accepted or rejected alike and give the same canonical list. */
  lemma NormalizeIgnoresOrder(st: MatchState, a: seq<ActionSubmission>, b: seq<ActionSubmission>)
    requires multiset(a) == multiset(b)
    ensures NormalizeActions(st, a) == NormalizeActions(st, b)
  {
    hide Acceptable, CollectByRole, DistinctRoles;
    assert SameActions(a, b);
    SameMembers(a, b);
    CollectByRoleIs(st, a, map[]);
    CollectByRoleIs(st, b, map[]);
    if CollectByRole(st, a, map[]).Ok? {
      var m, n := CollectByRole(st, a, map[]).value, CollectByRole(st, b, map[]).value;
      assert forall r :: r in m <==> r in n;
      assert m == n;
    }
  }

  function Rank(role: RoleID): nat {
    match role
    case ProcurementManager => 0
    case ProductionManager => 1
    case SalesManager => 2
    case FinanceController => 3
    case OtherRole(_) => 4
  }

  lemma {:induction false} InOrderMembers(byRole: map<RoleID, ActionSubmission>, roles: seq<RoleID>)
    requires forall r | r in byRole :: byRole[r].role == r
    ensures forall a :: a in InOrder(byRole, roles) <==> a.role in roles && a.role in byRole && byRole[a.role] == a
  {
    if |roles| > 0 {
      InOrderMembers(byRole, roles[1..]);
    }
  }

  ghost predicate Ranked(actions: seq<ActionSubmission>) {
    forall i, j | 0 <= i < j < |actions| :: Rank(actions[i].role) < Rank(actions[j].role)
  }

  lemma RankedCons(a: ActionSubmission, rest: seq<ActionSubmission>)
    requires Ranked(rest) && forall x | x in rest :: Rank(a.role) < Rank(x.role)
    ensures Ranked([a] + rest)
  {
    hide Rank;
    var all := [a] + rest;
    forall i, j | 0 <= i < j < |all| ensures Rank(all[i].role) < Rank(all[j].role) {
      assert all[j] == rest[j - 1] && rest[j - 1] in rest;
      assert i > 0 ==> all[i] == rest[i - 1];
    }
  }

  lemma {:induction false} InOrderIs(byRole: map<RoleID, ActionSubmission>, roles: seq<RoleID>)
    requires forall i, j | 0 <= i < j < |roles| :: Rank(roles[i]) < Rank(roles[j])
    requires forall r | r in byRole :: byRole[r].role == r
    ensures forall a :: a in InOrder(byRole, roles) <==> a.role in roles && a.role in byRole && byRole[a.role] == a
    ensures Ranked(InOrder(byRole, roles))
  {
    hide Rank, Ranked;
    InOrderMembers(byRole, roles);
    if |roles| == 0 {
      RankedNone();
    } else {
      InOrderIs(byRole, roles[1..]);
      assert forall r | r in roles[1..] :: Rank(roles[0]) < Rank(r);
      if roles[0] in byRole {
        RankedCons(byRole[roles[0]], InOrder(byRole, roles[1..]));
      } else {
        assert InOrder(byRole, roles) == InOrder(byRole, roles[1..]);
      }
    }
  }

  lemma RankedNone()
    ensures Ranked([])
  {
  }

  lemma AcceptableRole(st: MatchState, a: ActionSubmission)
    requires Acceptable(st, a)
    ensures a.role in CANONICAL_ROLES
  {
  }

  /** The canonical list holds exactly the submitted actions, one per role, in the order of the roles. */
  lemma NormalizeIsCanonical(st: MatchState, actions: seq<ActionSubmission>)
    ensures NormalizeActions(st, actions).Ok? <==>
            (forall a | a in actions :: Acceptable(st, a)) && DistinctRoles(actions)
    ensures NormalizeActions(st, actions).Ok? ==>
            var list := NormalizeActions(st, actions).value;
            && (forall a :: a in list <==> a in actions)
            && (forall i, j | 0 <= i < j < |list| :: Rank(list[i].role) < Rank(list[j].role))
  {
    hide Acceptable, CollectByRole, InOrder;
    CollectByRoleIs(st, actions, map[]);
    if CollectByRole(st, actions, map[]).Ok? {
      var m := CollectByRole(st, actions, map[]).value;
      assert CANONICAL_ROLES == [ProcurementManager, ProductionManager, SalesManager, FinanceController];
      InOrderIs(m, CANONICAL_ROLES);
      forall a | a in actions ensures a.role in CANONICAL_ROLES {
        AcceptableRole(st, a);
      }
    }
  }
}
