/** The user create/edit form (src/components/users/UserForm.tsx): field checks, the request
    payloads and the message shown when saving fails. */
module UserForm {
  import opened Seqs
  import opened JsObject
  import opened Text
  import Numbers

  datatype Form = Form(username: string, email: string, password: string, name: string,
                       role: string, estado: bool, blocked: bool, confirmed: bool)

  // ---------------------------------------------------------------------------------------
  // The e-mail pattern `^[^\s@]+@[^\s@]+\.[^\s@]+$`

  /** A character of `[^\s@]`. */
  predicate Plain(c: char)
  {
    !IsSpace(c) && c != '@'
  }

  /** `[^\s@]+`. */
  predicate PlainRun(s: string)
  {
    s != [] && forall k :: 0 <= k < |s| ==> Plain(s[k])
  }

  /** The whole string is a run, `@`, a run, `.`, a run. */
  predicate EmailPattern(s: string)
  {
    exists i, j :: 0 < i < j < |s| && s[i] == '@' && s[j] == '.' &&
                   PlainRun(s[..i]) && PlainRun(s[i + 1..j]) && PlainRun(s[j + 1..])
  }

  /** The pattern in plain terms: exactly one `@`, not first; no white space; and a dot after
      the `@` that neither follows it directly nor ends the string. */
  predicate EmailShape(s: string, i: int)
  {
    0 < i < |s| && s[i] == '@' &&
    (forall k :: 0 <= k < |s| && k != i ==> Plain(s[k])) &&
    (exists j :: i + 1 < j < |s| - 1 && s[j] == '.')
  }

  lemma PatternGivesShape(s: string, i: int, j: int)
    requires 0 < i < j < |s| && s[i] == '@' && s[j] == '.'
    requires PlainRun(s[..i]) && PlainRun(s[i + 1..j]) && PlainRun(s[j + 1..])
    ensures EmailShape(s, i)
  {
    forall k | 0 <= k < |s| && k != i
      ensures Plain(s[k])
    {
      if k < i {
        assert s[..i][k] == s[k];
      } else if k < j {
        assert s[i + 1..j][k - i - 1] == s[k];
      } else if k > j {
        assert s[j + 1..][k - j - 1] == s[k];
      }
    }
    assert s[j + 1..] != [];
  }

  lemma ShapeGivesPattern(s: string, i: int, j: int)
    requires EmailShape(s, i) && i + 1 < j < |s| - 1 && s[j] == '.'
    ensures PlainRun(s[..i]) && PlainRun(s[i + 1..j]) && PlainRun(s[j + 1..])
  {
    forall k | 0 <= k < i
      ensures Plain(s[..i][k])
    {
      assert s[..i][k] == s[k];
    }
    var middle := s[i + 1..j];
    forall k | 0 <= k < |middle|
      ensures Plain(middle[k])
    {
      assert middle[k] == s[k + i + 1];
    }
    var last := s[j + 1..];
    forall k | 0 <= k < |last|
      ensures Plain(last[k])
    {
      assert last[k] == s[k + j + 1];
    }
  }

  /** Both directions of the reading above. */
  lemma EmailPatternMeans(s: string)
    ensures EmailPattern(s) <==> exists i :: EmailShape(s, i)
  {
    if EmailPattern(s) {
      var i, j :| 0 < i < j < |s| && s[i] == '@' && s[j] == '.' &&
                  PlainRun(s[..i]) && PlainRun(s[i + 1..j]) && PlainRun(s[j + 1..]);
      PatternGivesShape(s, i, j);
    }
    if exists i :: EmailShape(s, i) {
      var i :| EmailShape(s, i);
      var j :| i + 1 < j < |s| - 1 && s[j] == '.';
      ShapeGivesPattern(s, i, j);
    }
  }

  lemma SampleAccepted()
    ensures EmailPattern("ana@tienda.pe")
  {
    var s := "ana@tienda.pe";
    assert s[..3] == "ana" && s[4..10] == "tienda" && s[11..] == "pe";
    assert s[3] == '@' && s[10] == '.';
  }

  /** Without a dot after the `@` the address is rejected. */
  lemma SampleNoDot()
    ensures !EmailPattern("ana@tienda")
  {
    var s := "ana@tienda";
    assert forall j :: 0 <= j < |s| ==> s[j] != '.';
  }

  /** Nothing before the `@`: rejected. */
  lemma SampleNoLocalPart()
    ensures !EmailPattern("@tienda.pe")
  {
    var s := "@tienda.pe";
    forall i | 0 < i < |s|
      ensures !PlainRun(s[..i])
    {
      assert s[..i][0] == '@';
    }
  }

  // ---------------------------------------------------------------------------------------
  // Validation

  const UsernameRequired: string := "El nombre de usuario es requerido"
  const UsernameTooShort: string := "El nombre de usuario debe tener al menos 3 caracteres"
  const EmailRequired: string := "El email es requerido"
  const EmailMalformed: string := "El email no tiene un formato válido"
  const PasswordRequired: string := "La contraseña es requerida para usuarios nuevos"
  const PasswordTooShort: string := "La contraseña debe tener al menos 6 caracteres"
  const RoleRequired: string := "Debe seleccionar un rol"

  function UsernameError(username: string): Option<string>
  {
    if IsBlank(username) then Some(UsernameRequired)
    else if Utf16Length(username) < 3 then Some(UsernameTooShort)
    else None
  }

  function EmailError(email: string): Option<string>
  {
    if IsBlank(email) then Some(EmailRequired)
    else if !EmailPattern(email) then Some(EmailMalformed)
    else None
  }

  /** A password is demanded only when creating; any password given must have 6 UTF-16 code
      units. */
  function PasswordError(editing: bool, password: string): Option<string>
  {
    if !editing && password == [] then Some(PasswordRequired)
    else if password != [] && Utf16Length(password) < 6 then Some(PasswordTooShort)
    else None
  }

  function RoleError(role: string): Option<string>
  {
    if role == [] then Some(RoleRequired) else None
  }

  /** The errors object `validateForm` builds, in the order it assigns them. */
  function FormErrors(form: Form, editing: bool): Obj<string>
  {
    Entry("username", UsernameError(form.username)) + Entry("email", EmailError(form.email)) +
    Entry("password", PasswordError(editing, form.password)) + Entry("role", RoleError(form.role))
  }

  lemma UsernameRule(username: string)
    ensures UsernameError(username).None? <==> !IsBlank(username) && Utf16Length(username) >= 3
  {
  }

  /** An address accepted by the pattern is never blank, so the e-mail passes iff it matches. */
  lemma EmailRule(email: string)
    ensures EmailError(email).None? <==> EmailPattern(email)
  {
    if EmailPattern(email) {
      var i, j :| 0 < i < j < |email| && email[i] == '@' && email[j] == '.' &&
                  PlainRun(email[..i]) && PlainRun(email[i + 1..j]) && PlainRun(email[j + 1..]);
      assert !IsSpace(email[i]);
      assert !AllSpace(email);
    }
  }

  /** Editing with the password left empty keeps the old one; otherwise the password must
      have at least 6 characters. */
  lemma PasswordRule(editing: bool, password: string)
    ensures PasswordError(editing, password).None? <==> (editing && password == []) || Utf16Length(password) >= 6
  {
  }

  /** Three emoji are six code units, so they make a long enough password. */
  lemma AstralPasswordAccepted()
    ensures PasswordError(false, "\U{1F600}\U{1F600}\U{1F600}") == None
  {
    var password := "\U{1F600}\U{1F600}\U{1F600}";
    assert IsAstral(password[0]) && IsAstral(password[1]) && IsAstral(password[2]);
  }

  lemma FormErrorsEmpty(form: Form, editing: bool)
    ensures FormErrors(form, editing) == [] <==>
              UsernameError(form.username).None? && EmailError(form.email).None? &&
              PasswordError(editing, form.password).None? && form.role != []
  {
  }

  /** `validateForm`: one assignment per failing field; valid iff no key was set. */
  method ValidateForm(form: Form, editing: bool) returns (errors: Obj<string>, valid: bool)
    ensures errors == FormErrors(form, editing)
    ensures UniqueKeys(errors)
    ensures valid <==> UsernameError(form.username).None? && EmailError(form.email).None? &&
                       PasswordError(editing, form.password).None? && form.role != []
  {
    errors := [];
    var usernameError := UsernameError(form.username);
    if usernameError.Some? {
      errors := Set(errors, "username", usernameError.value);
    }
    assert errors == Put([], "username", usernameError);
    ghost var e1 := errors;
    var emailError := EmailError(form.email);
    if emailError.Some? {
      errors := Set(errors, "email", emailError.value);
    }
    assert errors == Put(e1, "email", emailError);
    ghost var e2 := errors;
    var passwordError := PasswordError(editing, form.password);
    if passwordError.Some? {
      errors := Set(errors, "password", passwordError.value);
    }
    assert errors == Put(e2, "password", passwordError);
    ghost var e3 := errors;
    var roleError := RoleError(form.role);
    if roleError.Some? {
      errors := Set(errors, "role", roleError.value);
    }
    assert errors == Put(e3, "role", roleError);
    PutChain("username", "email", "password", "role", usernameError, emailError, passwordError, roleError);
    FormErrorsEmpty(form, editing);
    valid := |errors| == 0;
  }

  // ---------------------------------------------------------------------------------------
  // Payloads

  /** The request body; `None` marks a field the object does not carry (or `undefined`). */
  datatype Payload = Payload(username: string, email: string, password: Option<string>,
                             name: Option<string>, role: Option<int>, estado: bool,
                             blocked: Option<bool>, confirmed: Option<bool>)

  /** `formData.name || undefined`. */
  function NameOrUndefined(name: string): Option<string>
  {
    if name == [] then None else Some(name)
  }

  /** `createData`: always carries the password, never `blocked` or `confirmed`. */
  function CreateData(form: Form): (p: Payload)
    ensures p.password == Some(form.password) && p.blocked.None? && p.confirmed.None?
    ensures p.name.None? <==> form.name == []
    ensures p.role == Numbers.ParseInt(form.role)
  {
    Payload(form.username, form.email, Some(form.password), NameOrUndefined(form.name),
            Numbers.ParseInt(form.role), form.estado, None, None)
  }

  /** `updateData`: the object literal, then `password` added only when one was typed. */
  method UpdateData(form: Form) returns (p: Payload)
    ensures p.username == form.username && p.email == form.email && p.estado == form.estado
    ensures p.name == NameOrUndefined(form.name) && p.role == Numbers.ParseInt(form.role)
    ensures p.blocked == Some(form.blocked) && p.confirmed == Some(form.confirmed)
    ensures p.password.None? <==> form.password == []
    ensures p.password.Some? ==> p.password.value == form.password
  {
    p := Payload(form.username, form.email, None, NameOrUndefined(form.name),
                 Numbers.ParseInt(form.role), form.estado, Some(form.blocked), Some(form.confirmed));
    if form.password != [] {
      p := p.(password := Some(form.password));
    }
  }

  // ---------------------------------------------------------------------------------------
  // Save failure message

  const GenericSaveError: string := "Error al guardar el usuario"
  const InvalidData: string := "Datos inválidos. Verifique que el email y username no estén en uso."
  const AlreadyInUse: string := "El email o nombre de usuario ya están en uso."

  /** The toast text for a failed save: a message mentioning 400 wins over one mentioning
      409, and anything else gets the generic text. */
  function SaveErrorText(message: string): (r: string)
    ensures Includes(message, "400") ==> r == InvalidData
    ensures !Includes(message, "400") && Includes(message, "409") ==> r == AlreadyInUse
    ensures !Includes(message, "400") && !Includes(message, "409") ==> r == GenericSaveError
  {
    if Includes(message, "400") then InvalidData
    else if Includes(message, "409") then AlreadyInUse
    else GenericSaveError
  }

  /** A message naming both codes gets the 400 text. */
  lemma BothCodes()
    ensures SaveErrorText("HTTP 409 after 400") == InvalidData
  {
    var m := "HTTP 409 after 400";
    assert OccursAt(m, "400", 15) by { assert m[15..18] == "400"; }
  }
}
