/** The create/edit role dialog (src/components/Roles/RoleModal.tsx): the form checks, the
    permission edits and the submit guard. */
module RoleModal {
  import opened Seqs
  import opened JsObject
  import Text
  import Numbers
  import RoleService

  /** The dialog's form. The level is a JavaScript number and may be NaN (`None`). */
  datatype RoleForm = RoleForm(nombre: string, descripcion: string, nivel: Option<int>, activo: bool)

  /** The effect on `[role]`: the form and permissions of the role being edited, or an empty
      form with the default permissions. */
  function InitialState(role: Option<RoleService.Role>): (r: (RoleForm, Json))
    ensures role.None? ==> r.1 == RoleService.DefaultPermissions() && r.0 == RoleForm("", "", Some(1), true)
    ensures role.Some? ==> r.1 == role.value.permisos && r.0.nombre == role.value.nombre &&
                           r.0.nivel == Some(role.value.nivel) && r.0.activo == role.value.activo
    ensures role.Some? && role.value.descripcion.None? ==> r.0.descripcion == ""
  {
    if role.None? then (RoleForm("", "", Some(1), true), RoleService.DefaultPermissions())
    else
      var rl := role.value;
      (RoleForm(rl.nombre, if rl.descripcion.Some? then rl.descripcion.value else "", Some(rl.nivel), rl.activo), rl.permisos)
  }

  // ---------------------------------------------------------------------------------------
  // Validation

  const NameRequired: string := "El nombre del rol es requerido"
  const NameTooShort: string := "El nombre debe tener al menos 3 caracteres"
  const NameTooLong: string := "El nombre no puede exceder 100 caracteres"
  const DescriptionTooLong: string := "La descripción no puede exceder 500 caracteres"
  const LevelOutOfRange: string := "El nivel debe estar entre 1 y 10"
  const PermissionsInvalid: string := "La estructura de permisos no es válida"

  /** The name rule: emptiness is judged on the trimmed name, the length on the name as typed,
      in UTF-16 code units. */
  function NameError(nombre: string): Option<string>
  {
    if Text.IsBlank(nombre) then Some(NameRequired)
    else if Text.Utf16Length(nombre) < 3 then Some(NameTooShort)
    else if Text.Utf16Length(nombre) > 100 then Some(NameTooLong)
    else None
  }

  function DescriptionError(descripcion: string): Option<string>
  {
    if descripcion != [] && Text.Utf16Length(descripcion) > 500 then Some(DescriptionTooLong) else None
  }

  /** `nivel < 1 || nivel > 10`: both comparisons are false for NaN, so NaN raises no error. */
  function LevelError(nivel: Option<int>): Option<string>
  {
    if nivel.Some? && (nivel.value < 1 || nivel.value > 10) then Some(LevelOutOfRange) else None
  }

  /** The level field's `onChange`: the typed text read with `parseInt`. */
  function LevelInput(text: string): Option<int>
  {
    Numbers.ParseInt(text)
  }

  function PermissionsError(permisos: Json): Option<string>
  {
    if !RoleService.ValidatePermissions(permisos) then Some(PermissionsInvalid) else None
  }

  /** The errors object `validateForm` builds, in the order it assigns them. */
  function FormErrors(form: RoleForm, permisos: Json): Obj<string>
  {
    Entry("nombre", NameError(form.nombre)) + Entry("descripcion", DescriptionError(form.descripcion)) +
    Entry("nivel", LevelError(form.nivel)) + Entry("permisos", PermissionsError(permisos))
  }

  /** A name passes iff it has a non-blank character and 3 to 100 characters as typed; so
      `"  a"` passes although only one character is visible. */
  lemma NameRule(nombre: string)
    ensures NameError(nombre).None? <==> !Text.IsBlank(nombre) && 3 <= Text.Utf16Length(nombre) <= 100
  {
    var blank := Text.IsBlank(nombre);
    if blank {
      assert NameError(nombre) == Some(NameRequired);
    }
  }

  lemma PaddedNamePasses()
    ensures NameError("  a") == None
  {
    assert Text.Trim("  a") == "a";
  }

  /** A name of 51 emoji has 51 characters but 102 code units, so it is too long. */
  lemma AstralNameTooLong()
    ensures NameError(seq(51, _ => '\U{1F600}')) == Some(NameTooLong)
  {
    var nombre := seq(51, _ => '\U{1F600}');
    assert Text.IsAstral(nombre[0]) && !Text.IsSpace(nombre[0]);
    assert !Text.AllSpace(nombre);
  }

  /** A description counts its code units too: 250 emoji fill the 500 allowed. */
  lemma DescriptionRule(descripcion: string)
    ensures DescriptionError(descripcion).None? <==> Text.Utf16Length(descripcion) <= 500
    ensures DescriptionError(descripcion).Some? ==> DescriptionError(descripcion).value == DescriptionTooLong
  {
  }

  /** The errors object is empty exactly when every check passes. */
  lemma FormErrorsEmpty(form: RoleForm, permisos: Json)
    ensures FormErrors(form, permisos) == [] <==>
              NameError(form.nombre).None? && DescriptionError(form.descripcion).None? &&
              LevelError(form.nivel).None? && RoleService.ValidatePermissions(permisos)
  {
  }

  /** `validateForm`: fills the errors object check by check, each check giving the message
      of the first rule its field breaks; the form is valid iff the object
      stays empty, that is iff every rule passes. */
  method ValidateForm(form: RoleForm, permisos: Json) returns (errors: Obj<string>, valid: bool)
    ensures errors == FormErrors(form, permisos)
    ensures UniqueKeys(errors)
    ensures valid <==> NameError(form.nombre).None? && DescriptionError(form.descripcion).None? &&
                       LevelError(form.nivel).None? && RoleService.ValidatePermissions(permisos)
  {
    errors := [];
    var nameError := NameError(form.nombre);
    if nameError.Some? {
      errors := Set(errors, "nombre", nameError.value);
    }
    assert errors == Put([], "nombre", nameError);
    ghost var e1 := errors;
    var descriptionError := DescriptionError(form.descripcion);
    if descriptionError.Some? {
      errors := Set(errors, "descripcion", descriptionError.value);
    }
    assert errors == Put(e1, "descripcion", descriptionError);
    ghost var e2 := errors;
    var levelError := LevelError(form.nivel);
    if levelError.Some? {
      errors := Set(errors, "nivel", levelError.value);
    }
    assert errors == Put(e2, "nivel", levelError);
    ghost var e3 := errors;
    var permissionsError := PermissionsError(permisos);
    if permissionsError.Some? {
      errors := Set(errors, "permisos", permissionsError.value);
    }
    assert errors == Put(e3, "permisos", permissionsError);
    PutChain("nombre", "descripcion", "nivel", "permisos", nameError, descriptionError, levelError, permissionsError);
    FormErrorsEmpty(form, permisos);
    valid := |errors| == 0;
  }

  // ---------------------------------------------------------------------------------------
  // Permission edits

  /** `{ ...prev[module] }`: the entries of the module, none when it is missing. */
  function ModuleFields(permisos: Json, m: string): Obj<Json>
  {
    if Member(permisos, m).Some? then Fields(Member(permisos, m).value) else []
  }

  /** `handlePermissionChange`: one action of one module set to `value`. */
  function PermissionChange(permisos: Json, m: string, action: string, value: bool): Json
  {
    JObj(Set(Fields(permisos), m, JObj(Set(ModuleFields(permisos, m), action, JBool(value)))))
  }

  function AllActions(enabled: bool): Json
  {
    JObj([("ver", JBool(enabled)), ("crear", JBool(enabled)), ("editar", JBool(enabled)), ("eliminar", JBool(enabled))])
  }

  /** `handleModuleToggle`: the module replaced by all four actions set to `enabled`. */
  function ModuleToggle(permisos: Json, m: string, enabled: bool): Json
  {
    JObj(Set(Fields(permisos), m, AllActions(enabled)))
  }

  /** `isModuleEnabled`: some value of the module is truthy; `None` where
      `Object.values` throws (the module is missing or `null`). */
  function IsModuleEnabled(permisos: Json, m: string): (r: Option<bool>)
    ensures r.None? <==> Member(permisos, m).None? || Member(permisos, m).value.JNull?
  {
    if Member(permisos, m).None? then None
    else
      var values := ObjectValues(Member(permisos, m).value);
      if values.None? then None
      else Some(exists i :: 0 <= i < |values.value| && Truthy(values.value[i]))
  }

  /** A permission change sets exactly the one cell: other modules, and other actions of the
      same module, read as before. */
  lemma PermissionChangeExact(permisos: Json, m: string, action: string, value: bool, m': string, action': string)
    requires permisos.JObj?
    ensures Member(PermissionChange(permisos, m, action, value), m).Some?
    ensures Member(Member(PermissionChange(permisos, m, action, value), m).value, action) == Some(JBool(value))
    ensures m' != m ==> Member(PermissionChange(permisos, m, action, value), m') == Member(permisos, m')
    ensures action' != action && Member(permisos, m).Some? && Member(permisos, m).value.JObj? ==>
              Member(Member(PermissionChange(permisos, m, action, value), m).value, action') ==
              Member(Member(permisos, m).value, action')
  {
    var inner := JObj(Set(ModuleFields(permisos, m), action, JBool(value)));
    GetSet(Fields(permisos), m, inner, m);
    GetSet(Fields(permisos), m, inner, m');
    GetSet(ModuleFields(permisos, m), action, JBool(value), action);
    GetSet(ModuleFields(permisos, m), action, JBool(value), action');
  }

  lemma AllActionsRead(enabled: bool, a: string)
    requires a in RoleService.Actions
    ensures Member(AllActions(enabled), a) == Some(JBool(enabled))
  {
    var o := AllActions(enabled).fields;
    var i :| 0 <= i < |RoleService.Actions| && RoleService.Actions[i] == a;
    assert o[i].0 == a;
    GetAt(o, i);
  }

  /** A module toggle sets all four actions of the module and leaves the other modules. */
  lemma ModuleToggleExact(permisos: Json, m: string, enabled: bool, m': string, a: string)
    requires permisos.JObj?
    ensures Member(ModuleToggle(permisos, m, enabled), m) == Some(AllActions(enabled))
    ensures a in RoleService.Actions ==>
              Member(Member(ModuleToggle(permisos, m, enabled), m).value, a) == Some(JBool(enabled))
    ensures m' != m ==> Member(ModuleToggle(permisos, m, enabled), m') == Member(permisos, m')
  {
    GetSet(Fields(permisos), m, AllActions(enabled), m);
    GetSet(Fields(permisos), m, AllActions(enabled), m');
    if a in RoleService.Actions {
      AllActionsRead(enabled, a);
    }
  }

  /** After a toggle the module reads as enabled exactly when it was toggled on. */
  lemma EnabledAfterToggle(permisos: Json, m: string, enabled: bool)
    ensures IsModuleEnabled(ModuleToggle(permisos, m, enabled), m) == Some(enabled)
  {
    GetSet(Fields(permisos), m, AllActions(enabled), m);
    AllActionsValues(enabled);
    var values := ObjectValues(AllActions(enabled)).value;
    if enabled {
      assert Truthy(values[0]);
    } else {
      assert forall i :: 0 <= i < |values| ==> !Truthy(values[i]);
    }
  }

  lemma AllActionsValues(enabled: bool)
    ensures ObjectValues(AllActions(enabled)) == Some([JBool(enabled), JBool(enabled), JBool(enabled), JBool(enabled)])
  {
    var fields := AllActions(enabled).fields;
    var values := ObjectValues(AllActions(enabled)).value;
    assert |values| == 4;
    assert values[0] == fields[0].1 && values[1] == fields[1].1;
    assert values[2] == fields[2].1 && values[3] == fields[3].1;
    assert fields[0].1 == JBool(enabled);
    assert values == [JBool(enabled), JBool(enabled), JBool(enabled), JBool(enabled)];
  }

  /** The toggle button passes `!isModuleEnabled(m)`: clicking an enabled module clears all
      its actions and clicking a disabled one turns them all on. */
  lemma ToggleFlips(permisos: Json, m: string)
    requires IsModuleEnabled(permisos, m).Some?
    ensures IsModuleEnabled(ModuleToggle(permisos, m, !IsModuleEnabled(permisos, m).value), m) ==
              Some(!IsModuleEnabled(permisos, m).value)
  {
    EnabledAfterToggle(permisos, m, !IsModuleEnabled(permisos, m).value);
  }

  /** Both edits keep a well-formed permission matrix well formed. */
  lemma PermissionChangeKeepsValid(permisos: Json, m: string, action: string, value: bool)
    requires RoleService.ValidatePermissions(permisos)
    ensures RoleService.ValidatePermissions(PermissionChange(permisos, m, action, value))
  {
    RoleService.ValidGivesMatrix(permisos);
    var r := PermissionChange(permisos, m, action, value);
    forall m', a' | m' in RoleService.Modules && a' in RoleService.Actions
      ensures Member(r, m').Some? && Member(r, m').value.JObj? &&
              Member(Member(r, m').value, a').Some? && Member(Member(r, m').value, a').value.JBool?
    {
      PermissionChangeExact(permisos, m, action, value, m', a');
    }
    RoleService.MatrixGivesValid(r);
  }

  lemma ModuleToggleKeepsValid(permisos: Json, m: string, enabled: bool)
    requires RoleService.ValidatePermissions(permisos)
    ensures RoleService.ValidatePermissions(ModuleToggle(permisos, m, enabled))
  {
    RoleService.ValidGivesMatrix(permisos);
    var r := ModuleToggle(permisos, m, enabled);
    forall m', a' | m' in RoleService.Modules && a' in RoleService.Actions
      ensures Member(r, m').Some? && Member(r, m').value.JObj? &&
              Member(Member(r, m').value, a').Some? && Member(Member(r, m').value, a').value.JBool?
    {
      ModuleToggleExact(permisos, m, enabled, m', a');
    }
    RoleService.MatrixGivesValid(r);
  }

  // ---------------------------------------------------------------------------------------
  // Submit

  datatype Request =
    | NoRequest(errors: Obj<string>)
    | CreateRole(form: RoleForm, permisos: Json)
    | UpdateRole(role: RoleService.Role, form: RoleForm, permisos: Json)

  /** `handleSubmit`: nothing is sent while any check fails; otherwise an update when a role
      is being edited and a create when not. */
  function Submit(role: Option<RoleService.Role>, form: RoleForm, permisos: Json): (r: Request)
    ensures r.NoRequest? <==> FormErrors(form, permisos) != []
    ensures r.CreateRole? ==> role.None? && r.form == form && r.permisos == permisos
    ensures r.UpdateRole? ==> role == Some(r.role) && r.form == form && r.permisos == permisos
  {
    var errors := FormErrors(form, permisos);
    if errors != [] then NoRequest(errors)
    else if role.Some? then UpdateRole(role.value, form, permisos)
    else CreateRole(form, permisos)
  }

  /** Emptying the level field stores NaN, which the range check lets through: a form that
      passes the other checks is sent with a NaN level. */
  lemma EmptiedLevelIsSent(role: Option<RoleService.Role>, form: RoleForm, permisos: Json)
    requires NameError(form.nombre).None? && DescriptionError(form.descripcion).None?
    requires RoleService.ValidatePermissions(permisos)
    ensures var sent := Submit(role, form.(nivel := LevelInput("")), permisos);
            !sent.NoRequest? && sent.form.nivel.None?
  {
    FormErrorsEmpty(form.(nivel := LevelInput("")), permisos);
  }

  /** A level typed in range passes; one typed out of range is refused with the range message. */
  lemma LevelRule(nivel: Option<int>)
    ensures LevelError(nivel).None? <==> nivel.None? || 1 <= nivel.value <= 10
    ensures LevelError(nivel).Some? ==> LevelError(nivel).value == LevelOutOfRange
  {
  }
}
