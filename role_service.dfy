/** The permission matrix of a role (src/services/roleService.ts): six modules, each with the
    four actions `ver`, `crear`, `editar` and `eliminar`. A role's `permisos` arrive from the
    backend as an arbitrary JSON value, which is why the validator takes any value. */
module RoleService {
  import opened Seqs
  import opened JsObject
  import Numbers

  /** A role as the backend returns it. */
  datatype Role = Role(id: int, documentId: string, nombre: string, descripcion: Option<string>,
                       nivel: int, activo: bool, permisos: Json)

  /** `role.documentId || role.id`: the path segment naming a role in the update, delete and
      status requests. An empty `documentId` is falsy and falls back to the numeric id. */
  function Identifier(role: Role): (r: string)
    ensures role.documentId != "" ==> r == role.documentId
    ensures role.documentId == "" ==> Numbers.NumberOf(r) == Some(role.id)
  {
    if role.documentId != "" then role.documentId
    else Numbers.NumberOfReadsString(role.id); Numbers.IntToString(role.id)
  }

  /** `toggleRoleStatus(role, activo)`: a PUT to `/api/roles/<identifier>` whose body holds
      `activo` alone. */
  datatype StatusUpdate = StatusUpdate(identifier: string, activo: bool)

  const Modules: seq<string> := ["dashboard", "productos", "ventas", "clientes", "reportes", "configuracion"]
  const Actions: seq<string> := ["ver", "crear", "editar", "eliminar"]

  /** One module of `getDefaultPermissions` with `ver` set as given and the rest off. */
  function ModuleWith(ver: bool): Json
  {
    JObj([("ver", JBool(ver)), ("crear", JBool(false)), ("editar", JBool(false)), ("eliminar", JBool(false))])
  }

  /** `getDefaultPermissions`: only the dashboard can be viewed. */
  function DefaultPermissions(): Json
  {
    JObj([("dashboard", ModuleWith(true)),
          ("productos", ModuleWith(false)),
          ("ventas", ModuleWith(false)),
          ("clientes", ModuleWith(false)),
          ("reportes", ModuleWith(false)),
          ("configuracion", ModuleWith(false))])
  }

  /** `permisos[m][a]` is a boolean. */
  predicate ActionValid(perms: Json, a: string)
  {
    Member(perms, a).Some? && Member(perms, a).value.JBool?
  }

  /** The inner loop: stops at the first action that is not a boolean. */
  function ActionsValid(perms: Json, actions: seq<string>): (r: bool)
    ensures r <==> forall i :: 0 <= i < |actions| ==> ActionValid(perms, actions[i])
  {
    if actions == [] then true
    else ActionValid(perms, actions[0]) && ActionsValid(perms, actions[1..])
  }

  /** `!permisos[m] || typeof permisos[m] !== 'object'` fails, then the actions are checked. */
  predicate ModuleValid(permisos: Json, m: string)
  {
    var entry := Member(permisos, m);
    entry.Some? && Truthy(entry.value) && IsObject(entry.value) && ActionsValid(entry.value, Actions)
  }

  /** The outer loop: stops at the first module that fails. */
  function ModulesValid(permisos: Json, modules: seq<string>): (r: bool)
    ensures r <==> forall i :: 0 <= i < |modules| ==> ModuleValid(permisos, modules[i])
  {
    if modules == [] then true
    else ModuleValid(permisos, modules[0]) && ModulesValid(permisos, modules[1..])
  }

  /** `validatePermissions`. */
  function ValidatePermissions(permisos: Json): (r: bool)
    ensures !Truthy(permisos) || !IsObject(permisos) ==> !r
    ensures r <==> Truthy(permisos) && IsObject(permisos) &&
                   forall i :: 0 <= i < |Modules| ==> ModuleValid(permisos, Modules[i])
  {
    Truthy(permisos) && IsObject(permisos) && ModulesValid(permisos, Modules)
  }

  /** Every cell of the six-by-four matrix holds a boolean. */
  predicate Matrix(permisos: Json)
  {
    forall m, a :: m in Modules && a in Actions ==>
      Member(permisos, m).Some? && Member(permisos, m).value.JObj? &&
      Member(Member(permisos, m).value, a).Some? && Member(Member(permisos, m).value, a).value.JBool?
  }

  lemma ValidGivesMatrix(permisos: Json)
    requires ValidatePermissions(permisos)
    ensures Matrix(permisos)
  {
    forall m, a | m in Modules && a in Actions
      ensures Member(permisos, m).Some? && Member(permisos, m).value.JObj? &&
              Member(Member(permisos, m).value, a).Some? && Member(Member(permisos, m).value, a).value.JBool?
    {
      var i :| 0 <= i < |Modules| && Modules[i] == m;
      assert ModuleValid(permisos, m);
      var j :| 0 <= j < |Actions| && Actions[j] == a;
      assert ActionValid(Member(permisos, m).value, a);
    }
  }

  lemma MatrixGivesValid(permisos: Json)
    requires Matrix(permisos)
    ensures ValidatePermissions(permisos)
  {
    assert Modules[0] in Modules && Actions[0] in Actions;
    forall i | 0 <= i < |Modules|
      ensures ModuleValid(permisos, Modules[i])
    {
      assert Modules[i] in Modules;
      var entry := Member(permisos, Modules[i]).value;
      forall j | 0 <= j < |Actions|
        ensures ActionValid(entry, Actions[j])
      {
        assert Actions[j] in Actions;
      }
    }
  }

  /** The promise in terms of the matrix: a value is accepted iff each of the six modules is
      present as an object whose four actions are all booleans. Extra modules and actions
      play no part. */
  lemma ValidateMeansMatrix(permisos: Json)
    ensures ValidatePermissions(permisos) <==> Matrix(permisos)
  {
    if ValidatePermissions(permisos) {
      ValidGivesMatrix(permisos);
    }
    if Matrix(permisos) {
      MatrixGivesValid(permisos);
    }
  }

  lemma DefaultModule(m: string)
    requires m in Modules
    ensures Member(DefaultPermissions(), m) == Some(ModuleWith(m == "dashboard"))
  {
    var o := DefaultPermissions().fields;
    var i :| 0 <= i < |Modules| && Modules[i] == m;
    assert o[i].0 == m;
    GetAt(o, i);
  }

  lemma ModuleWithAction(ver: bool, a: string)
    requires a in Actions
    ensures Member(ModuleWith(ver), a) == Some(JBool(ver && a == "ver"))
  {
    var o := ModuleWith(ver).fields;
    if a != "ver" {
      assert Get(o, a) == Get(o[1..], a);
      if a != "crear" {
        assert Get(o[1..], a) == Get(o[2..], a);
        if a != "editar" {
          assert Get(o[2..], a) == Get(o[3..], a);
        }
      }
    }
  }

  /** The defaults hold a boolean in each of the 24 cells, only `dashboard.ver` is on, and
      the validator accepts them. */
  lemma DefaultsShape()
    ensures forall m, a :: m in Modules && a in Actions ==>
              Member(DefaultPermissions(), m).Some? &&
              Member(Member(DefaultPermissions(), m).value, a) == Some(JBool(m == "dashboard" && a == "ver"))
    ensures ValidatePermissions(DefaultPermissions())
  {
    forall m, a | m in Modules && a in Actions
      ensures Member(DefaultPermissions(), m).Some? &&
              Member(Member(DefaultPermissions(), m).value, a) == Some(JBool(m == "dashboard" && a == "ver"))
    {
      DefaultModule(m);
      ModuleWithAction(m == "dashboard", a);
    }
    MatrixGivesValid(DefaultPermissions());
  }
}
