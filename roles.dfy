/** The roles list (src/components/Roles/Roles.tsx): the search filter, the level badge, the
    permission counter and the status toggle. */
module RolesView {
  import opened Seqs
  import opened JsObject
  import opened Text
  import opened RoleService

  // ---------------------------------------------------------------------------------------
  // Search

  /** A role matches when its name, or its non-empty description, contains the term in any
      letter case. */
  function MatchesTerm(term: string): Role -> bool
  {
    (role: Role) => IncludesIgnoringCase(role.nombre, term) ||
            (role.descripcion.Some? && role.descripcion.value != [] &&
             IncludesIgnoringCase(role.descripcion.value, term))
  }

  /** `filterRoles`: a blank term shows every role; otherwise the roles that match the term
      as typed (it is not trimmed for the comparison), in their order. */
  function FilterRoles(roles: seq<Role>, term: string): (r: seq<Role>)
    ensures IsSubseq(r, roles)
    ensures IsBlank(term) ==> r == roles
    ensures !IsBlank(term) ==>
              forall role :: role in r <==>
                role in roles &&
                (IncludesIgnoringCase(role.nombre, term) ||
                 (role.descripcion.Some? && role.descripcion.value != [] &&
                  IncludesIgnoringCase(role.descripcion.value, term)))
  {
    if IsBlank(term) then
      SubseqSelf(roles);
      roles
    else
      FilterIsSubseq(roles, MatchesTerm(term));
      Filter(roles, MatchesTerm(term))
  }

  lemma {:induction false} SubseqSelf<T>(xs: seq<T>)
    ensures IsSubseq(xs, xs)
  {
    if xs != [] {
      SubseqSelf(xs[1..]);
    }
  }

  lemma LowerCharIdempotent(c: char)
    ensures LowerChar(LowerChar(c)) == LowerChar(c)
    ensures IsSpace(LowerChar(c)) <==> IsSpace(c)
  {
  }

  lemma ToLowerIdempotent(s: string)
    ensures ToLower(ToLower(s)) == ToLower(s)
  {
    forall i | 0 <= i < |s|
      ensures ToLower(ToLower(s))[i] == ToLower(s)[i]
    {
      LowerCharIdempotent(s[i]);
    }
  }

  lemma ToLowerKeepsBlank(s: string)
    ensures IsBlank(ToLower(s)) <==> IsBlank(s)
  {
    forall i | 0 <= i < |s|
      ensures IsSpace(ToLower(s)[i]) <==> IsSpace(s[i])
    {
      LowerCharIdempotent(s[i]);
    }
    assert AllSpace(ToLower(s)) <==> AllSpace(s);
  }

  lemma MatchesLower(term: string, role: Role)
    requires ToLower(ToLower(term)) == ToLower(term)
    ensures MatchesTerm(ToLower(term))(role) == MatchesTerm(term)(role)
  {
  }

  lemma SameMatches(term: string)
    ensures forall role :: MatchesTerm(ToLower(term))(role) == MatchesTerm(term)(role)
  {
    ToLowerIdempotent(term);
    forall role
      ensures MatchesTerm(ToLower(term))(role) == MatchesTerm(term)(role)
    {
      MatchesLower(term, role);
    }
  }

  /** Typing the term in lower case lists the same roles. */
  lemma SearchIgnoresCase(roles: seq<Role>, term: string)
    ensures FilterRoles(roles, ToLower(term)) == FilterRoles(roles, term)
  {
    ToLowerKeepsBlank(term);
    if !IsBlank(term) {
      SameMatches(term);
      FilterEquivalent(roles, MatchesTerm(ToLower(term)), MatchesTerm(term));
    }
  }

  // ---------------------------------------------------------------------------------------
  // Level badge

  const LowLevel: string := "bg-red-100 text-red-800"
  const MiddleLevel: string := "bg-yellow-100 text-yellow-800"
  const HighLevel: string := "bg-blue-100 text-blue-800"
  const TopLevel: string := "bg-green-100 text-green-800"

  /** `getLevelColor`: four bands, up to 2, 3 to 5, 6 to 7 and above 7. */
  function LevelColor(nivel: int): (r: string)
    ensures r == LowLevel <==> nivel <= 2
    ensures r == MiddleLevel <==> 2 < nivel <= 5
    ensures r == HighLevel <==> 5 < nivel <= 7
    ensures r == TopLevel <==> 7 < nivel
  {
    if nivel <= 2 then LowLevel
    else if nivel <= 5 then MiddleLevel
    else if nivel <= 7 then HighLevel
    else TopLevel
  }

  // ---------------------------------------------------------------------------------------
  // Permission counter

  datatype Counts = Counts(active: nat, total: nat)

  /** One module's counts; `None` where `Object.values` throws on it. */
  function ModuleCounts(m: Json): Option<Counts>
  {
    var values := ObjectValues(m);
    if values.None? then None else Some(Counts(TruthyCount(values.value), |values.value|))
  }

  function AddCounts(a: Option<Counts>, b: Option<Counts>): Option<Counts>
  {
    if a.None? || b.None? then None else Some(Counts(a.value.active + b.value.active, a.value.total + b.value.total))
  }

  /** The counts over the modules in order; `None` once `Object.values` throws on one. */
  function ModulesCounts(modules: seq<Json>): (r: Option<Counts>)
  {
    if modules == [] then Some(Counts(0, 0))
    else AddCounts(ModulesCounts(modules[..|modules| - 1]), ModuleCounts(modules[|modules| - 1]))
  }

  /** What `getPermissionsCount` returns: every value of every module counted, the truthy
      ones as active. */
  function PermissionsCount(permisos: Json): Option<Counts>
  {
    var modules := ObjectValues(permisos);
    if modules.None? then None else ModulesCounts(modules.value)
  }

  /** How many of the values are truthy (`if (permission) activePermissions++`). */
  function TruthyCount(values: seq<Json>): (n: nat)
    ensures n <= |values|
  {
    if values == [] then 0
    else TruthyCount(values[..|values| - 1]) + (if Truthy(values[|values| - 1]) then 1 else 0)
  }

  /** One more module: its values are added to the running counts, unless one of them throws. */
  lemma ModulesCountsStep(ms: seq<Json>, i: nat)
    requires i < |ms|
    ensures ModulesCounts(ms[..i + 1]) == AddCounts(ModulesCounts(ms[..i]), ModuleCounts(ms[i]))
  {
    assert ms[..i + 1][..i] == ms[..i];
  }

  /** Once a module throws, every longer prefix throws too. */
  lemma {:induction false} ModulesCountsStuck(modules: seq<Json>, i: nat)
    requires i <= |modules|
    requires ModulesCounts(modules[..i]) == None
    ensures ModulesCounts(modules) == None
    decreases |modules| - i
  {
    if i < |modules| {
      ModulesCountsStep(modules, i);
      ModulesCountsStuck(modules, i + 1);
    } else {
      assert modules[..i] == modules;
    }
  }

  /** Counts the values of one module into the running totals. */
  method CountModule(values: seq<Json>, active0: nat, total0: nat) returns (active: nat, total: nat)
    ensures active == active0 + TruthyCount(values) && total == total0 + |values|
  {
    active, total := active0, total0;
    var j := 0;
    while j < |values|
      invariant 0 <= j <= |values|
      invariant active == active0 + TruthyCount(values[..j]) && total == total0 + j
    {
      total := total + 1;
      if Truthy(values[j]) {
        active := active + 1;
      }
      assert values[..j + 1][..j] == values[..j];
      j := j + 1;
    }
    assert values[..j] == values;
  }

  /** `getPermissionsCount`: the two counters over the nested `forEach`; `Object.values` of
      the permissions throws on `null`. */
  method GetPermissionsCount(permisos: Json) returns (r: Option<Counts>)
    ensures r == PermissionsCount(permisos)
  {
    var modules := ObjectValues(permisos);
    if modules.None? {
      return None;
    }
    r := CountModules(modules.value);
  }

  /** The outer `forEach`: each module's values counted in turn, stopping where
      `Object.values` throws. */
  method CountModules(ms: seq<Json>) returns (r: Option<Counts>)
    ensures r == ModulesCounts(ms)
  {
    var totalPermissions: nat := 0;
    var activePermissions: nat := 0;
    var i := 0;
    while i < |ms|
      invariant 0 <= i <= |ms|
      invariant ModulesCounts(ms[..i]) == Some(Counts(activePermissions, totalPermissions))
    {
      var values := ObjectValues(ms[i]);
      if values.None? {
        ModulesCountsThrows(ms, i);
        return None;
      }
      var vs := values.value;
      ghost var before := Counts(activePermissions, totalPermissions);
      activePermissions, totalPermissions := CountModule(vs, activePermissions, totalPermissions);
      ModuleCountsOf(ms[i], vs);
      ModulesCountsPush(ms, i, before, Counts(TruthyCount(vs), |vs|));
      i := i + 1;
    }
    assert ms[..i] == ms;
    r := Some(Counts(activePermissions, totalPermissions));
  }

  lemma ModulesCountsThrows(ms: seq<Json>, i: nat)
    requires i < |ms| && ObjectValues(ms[i]).None?
    ensures ModulesCounts(ms) == None
  {
    ModulesCountsStep(ms, i);
    ModulesCountsStuck(ms, i + 1);
  }

  /** A module that does not throw adds its counts to those of the modules before it. */
  lemma ModulesCountsPush(ms: seq<Json>, i: nat, before: Counts, added: Counts)
    requires i < |ms|
    requires ModulesCounts(ms[..i]) == Some(before) && ModuleCounts(ms[i]) == Some(added)
    ensures ModulesCounts(ms[..i + 1]) == Some(Counts(before.active + added.active, before.total + added.total))
  {
    ModulesCountsStep(ms, i);
  }

  lemma ModuleCountsOf(m: Json, vs: seq<Json>)
    requires ObjectValues(m) == Some(vs)
    ensures ModuleCounts(m) == Some(Counts(TruthyCount(vs), |vs|))
  {
  }

  /** No more permissions are active than there are. */
  lemma {:induction false} ModulesCountsBounded(modules: seq<Json>)
    requires ModulesCounts(modules).Some?
    ensures ModulesCounts(modules).value.active <= ModulesCounts(modules).value.total
  {
    if modules != [] {
      ModulesCountsBounded(modules[..|modules| - 1]);
    }
  }

  lemma CountsBounded(permisos: Json)
    requires PermissionsCount(permisos).Some?
    ensures PermissionsCount(permisos).value.active <= PermissionsCount(permisos).value.total
  {
    ModulesCountsBounded(ObjectValues(permisos).value);
  }

  lemma ModuleWithCounts(ver: bool)
    ensures ModuleCounts(ModuleWith(ver)) == Some(Counts(if ver then 1 else 0, 4))
  {
    var fields := ModuleWith(ver).fields;
    var vs := [JBool(ver), JBool(false), JBool(false), JBool(false)];
    var values := ObjectValues(ModuleWith(ver)).value;
    assert values == vs by {
      assert |values| == 4;
      assert values[0] == fields[0].1 == JBool(ver);
      assert values[1] == fields[1].1 == JBool(false);
      assert values[2] == fields[2].1 == JBool(false);
      assert values[3] == fields[3].1 == JBool(false);
    }
    assert vs[..1][..0] == [];
    assert TruthyCount(vs[..1]) == if ver then 1 else 0;
    assert vs[..2][..1] == vs[..1];
    assert TruthyCount(vs[..2]) == if ver then 1 else 0;
    assert vs[..3][..2] == vs[..2];
    assert TruthyCount(vs[..3]) == if ver then 1 else 0;
    assert vs[..3] == vs[..|vs| - 1];
    assert TruthyCount(vs) == if ver then 1 else 0;
  }

  lemma DefaultModules()
    ensures ObjectValues(DefaultPermissions()) ==
              Some([ModuleWith(true), ModuleWith(false), ModuleWith(false), ModuleWith(false), ModuleWith(false), ModuleWith(false)])
  {
    var fields := DefaultPermissions().fields;
    var ms := ObjectValues(DefaultPermissions()).value;
    assert |ms| == 6;
    assert ms[0] == fields[0].1 == ModuleWith(true);
    assert ms[1] == fields[1].1 == ModuleWith(false);
    assert ms[2] == fields[2].1 == ModuleWith(false);
    assert ms[3] == fields[3].1 == ModuleWith(false);
    assert ms[4] == fields[4].1 == ModuleWith(false);
    assert ms[5] == fields[5].1 == ModuleWith(false);
    assert ms == [ModuleWith(true), ModuleWith(false), ModuleWith(false), ModuleWith(false), ModuleWith(false), ModuleWith(false)];
  }

  /** A new role, with the default permissions, shows one active permission out of 24. */
  lemma DefaultCounts()
    ensures PermissionsCount(DefaultPermissions()) == Some(Counts(1, 24))
  {
    DefaultModules();
    var ms := ObjectValues(DefaultPermissions()).value;
    ModuleWithCounts(true);
    ModuleWithCounts(false);
    assert ms[..0] == [];
    ModulesCountsPush(ms, 0, Counts(0, 0), Counts(1, 4));
    ModulesCountsPush(ms, 1, Counts(1, 4), Counts(0, 4));
    ModulesCountsPush(ms, 2, Counts(1, 8), Counts(0, 4));
    ModulesCountsPush(ms, 3, Counts(1, 12), Counts(0, 4));
    ModulesCountsPush(ms, 4, Counts(1, 16), Counts(0, 4));
    ModulesCountsPush(ms, 5, Counts(1, 20), Counts(0, 4));
    assert ms[..6] == ms;
  }

  // ---------------------------------------------------------------------------------------
  // Status toggle

  /** `handleToggleStatus`: asks the service to set the role named by its identifier to the
      opposite of its current state. */
  function StatusRequest(role: Role): (r: StatusUpdate)
    ensures r.activo != role.activo
    ensures r.identifier == Identifier(role)
  {
    StatusUpdate(Identifier(role), !role.activo)
  }

  /** The list `loadRoles` reads back after the request, when the backend sets `activo` on
      every role the identifier names and leaves everything else as it was. */
  function AfterUpdate(roles: seq<Role>, u: StatusUpdate): (r: seq<Role>)
    ensures |r| == |roles|
  {
    seq(|roles|, j requires 0 <= j < |roles| =>
      if Identifier(roles[j]) == u.identifier then roles[j].(activo := u.activo) else roles[j])
  }

  /** Roles whose identifiers are pairwise different. */
  predicate DistinctIdentifiers(roles: seq<Role>)
  {
    forall j, k :: 0 <= j < k < |roles| ==> Identifier(roles[j]) != Identifier(roles[k])
  }

  /** Toggling a listed role flips that role's status alone: every other role, and every
      other field of the toggled one, reads back unchanged. */
  lemma ToggleFlipsOnlyTarget(roles: seq<Role>, i: nat)
    requires i < |roles| && DistinctIdentifiers(roles)
    ensures var after := AfterUpdate(roles, StatusRequest(roles[i]));
            after[i] == roles[i].(activo := !roles[i].activo) &&
            forall j :: 0 <= j < |roles| && j != i ==> after[j] == roles[j]
  {
    var after := AfterUpdate(roles, StatusRequest(roles[i]));
    forall j | 0 <= j < |roles| && j != i
      ensures after[j] == roles[j]
    {
      if j < i {
        assert Identifier(roles[j]) != Identifier(roles[i]);
      } else {
        assert Identifier(roles[i]) != Identifier(roles[j]);
      }
    }
  }

  /** Roles without a `documentId` are told apart by their numeric ids, which the fallback
      writes in a form that reads back as the same number. */
  lemma FallbackIdentifiers(a: Role, b: Role)
    requires a.documentId == "" && b.documentId == ""
    ensures Identifier(a) == Identifier(b) <==> a.id == b.id
  {
  }
}
