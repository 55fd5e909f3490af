/** The collaborator create/edit dialog (src/components/Collaborators/CollaboratorModal.tsx):
    the default form, the required-field check, the save guard and the user-link selector. */
module CollaboratorModal {
  import opened Seqs
  import opened Text
  import Numbers

  /** `users_permissions_user`: left out of the object, `null`, or a number (`None` is NaN). */
  datatype UserLink = Undefined | Null | User(id: Option<int>)

  datatype Form = Form(nombres: string, dni: string, puesto: string, fechaIngreso: string,
                       fechaNacimiento: Option<string>, direccion: string, telefono: string,
                       correo: string, horarioAsignado: string, estado: bool, user: UserLink)

  /** A collaborator as loaded; `user` is the id of the linked user, if any. */
  datatype Collaborator = Collaborator(id: int, nombres: string, dni: string, puesto: string,
                                       fechaIngreso: string, fechaNacimiento: Option<string>,
                                       direccion: string, telefono: string, correo: string,
                                       horarioAsignado: string, estado: bool, user: Option<int>)

  /** The initial form; `today` is the current date as `YYYY-MM-DD`. */
  function DefaultForm(today: string): (f: Form)
    ensures f.puesto == "cajero" && f.estado && f.user.Undefined?
    ensures f.nombres == [] && f.dni == [] && f.fechaIngreso == today && f.fechaNacimiento.None?
  {
    Form("", "", "cajero", today, None, "", "", "", "", true, Undefined)
  }

  /** The form loaded from the collaborator being edited; no linked user becomes `null`. */
  function FormOf(c: Collaborator): (f: Form)
    ensures f.nombres == c.nombres && f.dni == c.dni && f.puesto == c.puesto && f.fechaIngreso == c.fechaIngreso
    ensures f.estado == c.estado
    ensures c.user.None? ==> f.user == Null
    ensures c.user.Some? ==> f.user == User(Some(c.user.value))
  {
    Form(c.nombres, c.dni, c.puesto, c.fechaIngreso, c.fechaNacimiento, c.direccion, c.telefono,
         c.correo, c.horarioAsignado, c.estado,
         if c.user.Some? then User(Some(c.user.value)) else Null)
  }

  const NombresRequired: string := "Los nombres son obligatorios"
  const DniRequired: string := "El DNI es obligatorio"
  const PuestoRequired: string := "El puesto es obligatorio"
  const FechaRequired: string := "La fecha de ingreso es obligatoria"

  /** `validate`: the message of the first missing field, in the order names, DNI, position,
      start date; names and DNI are judged after trimming. */
  function Validate(form: Form): (r: Option<string>)
    ensures r.None? <==> !IsBlank(form.nombres) && !IsBlank(form.dni) && form.puesto != [] && form.fechaIngreso != []
    ensures r == Some(NombresRequired) <==> IsBlank(form.nombres)
    ensures r == Some(DniRequired) <==> !IsBlank(form.nombres) && IsBlank(form.dni)
    ensures r == Some(PuestoRequired) <==> !IsBlank(form.nombres) && !IsBlank(form.dni) && form.puesto == []
    ensures r == Some(FechaRequired) <==>
              !IsBlank(form.nombres) && !IsBlank(form.dni) && form.puesto != [] && form.fechaIngreso == []
  {
    if IsBlank(form.nombres) then Some(NombresRequired)
    else if IsBlank(form.dni) then Some(DniRequired)
    else if form.puesto == [] then Some(PuestoRequired)
    else if form.fechaIngreso == [] then Some(FechaRequired)
    else None
  }

  /** Names made only of spaces are refused. */
  lemma SpacesAreMissing()
    ensures Validate(DefaultForm("2024-01-31").(nombres := "   ", dni := "12345678")) == Some(NombresRequired)
  {
  }

  datatype Request =
    | NoSave(message: string)
    | Create(form: Form)
    | Update(collaborator: Collaborator, form: Form)

  /** `handleSave`: no service call while `validate` reports a message. */
  function Save(collaborator: Option<Collaborator>, form: Form): (r: Request)
    ensures r.NoSave? <==> Validate(form).Some?
    ensures r.NoSave? ==> r.message == Validate(form).value
    ensures r.Create? ==> collaborator.None? && r.form == form
    ensures r.Update? ==> collaborator == Some(r.collaborator) && r.form == form
  {
    var error := Validate(form);
    if error.Some? then NoSave(error.value)
    else if collaborator.Some? then Update(collaborator.value, form)
    else Create(form)
  }

  // ---------------------------------------------------------------------------------------
  // User link selector

  const NoLink: string := "none"

  /** The selector's value: `none` for a missing link, else `String(id)`. */
  function SelectValue(link: UserLink): string
  {
    match link
    case Undefined => NoLink
    case Null => NoLink
    case User(id) => Numbers.NumberToString(id)
  }

  /** `onValueChange`: `none` clears the link, any other value is read with `Number`. */
  function SelectUser(v: string): (link: UserLink)
    ensures link.Null? <==> v == NoLink
  {
    if v == NoLink then Null else User(Numbers.NumberOf(v))
  }

  /** No number prints as `none`. */
  lemma NumberNeverNone(id: Option<int>)
    ensures Numbers.NumberToString(id) != NoLink
  {
    Numbers.NumberOfNumberToString(id);
    NoneIsNaN();
  }

  /** `Number("none")` is NaN. */
  lemma NoneIsNaN()
    ensures Numbers.NumberOf(NoLink) == None
  {
    Text.TrimUnchanged(NoLink);
    assert !Numbers.IsDigit(NoLink[0]);
  }

  /** Choosing the option shown for a link gives that link back; an absent link comes back as
      `null`. */
  lemma SelectRoundTrip(link: UserLink)
    ensures SelectUser(SelectValue(link)) == if link.Undefined? then Null else link
  {
    if link.User? {
      NumberNeverNone(link.id);
      Numbers.NumberOfNumberToString(link.id);
    }
  }
}
