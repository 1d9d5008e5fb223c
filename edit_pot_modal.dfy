/**
 * components/modals/EditPotModal.tsx: the edit form check, the form filled
 * from the pot being edited, and what a submit passes on.
 */
module EditPotModal {
  import opened Wrappers
  import opened Records

  datatype EditForm = EditForm(name: string, target: NumberField, total: NumberField, theme: string)

  const DefaultForm: EditForm := EditForm("", Number(0.0), Number(0.0), "")

  /** `schemaEdit`: a name, a target of at least 0.01, a total of at least 0 and a theme. */
  predicate EditSchema(f: EditForm) {
    && |f.name| >= 1
    && f.target.Number? && f.target.value >= 0.01
    && f.total.Number? && f.total.value >= 0.0
    && |f.theme| >= 1
  }

  /** The effect on the form when the dialog is given `pot`: refilled from it, or left as it is for no pot. */
  function Reset(f: EditForm, pot: Option<Pot>): (r: EditForm)
    ensures pot.None? ==> r == f
    ensures pot.Some? ==>
      r.name == pot.value.name && r.target == Number(pot.value.target) && r.total == Number(pot.value.total)
    ensures pot.Some? && pot.value.theme.Some? ==> r.theme == pot.value.theme.value
    ensures pot.Some? && pot.value.theme.None? ==> r.theme == ""
  {
    if pot.Some? then
      EditForm(pot.value.name, Number(pot.value.target), Number(pot.value.total), pot.value.theme.GetOr(""))
    else f
  }

  /** What `onEdit` receives: the updated pot and the original name. */
  datatype Edit = Edit(updated: Pot, originalName: Option<string>)

  /** `onSubmit`: the form's values as a pot, and the name of the pot being edited. */
  function Submit(pot: Option<Pot>, f: EditForm): (r: Option<Edit>)
    ensures r.Some? <==> EditSchema(f)
    ensures r.Some? ==>
      && r.value.updated.name == f.name && r.value.updated.target == f.target.value
      && r.value.updated.total == f.total.value && r.value.updated.theme == Some(f.theme)
    ensures r.Some? ==> r.value.updated.total >= 0.0 && r.value.updated.target >= 0.01
    ensures r.Some? ==> r.value.originalName == (if pot.Some? then Some(pot.value.name) else None)
  {
    if EditSchema(f) then
      var name := if pot.Some? then Some(pot.value.name) else None;
      Some(Edit(Pot(f.name, f.target.value, f.total.value, Some(f.theme)), name))
    else None
  }

  /** A pot the schema accepts, submitted unchanged, comes back as itself under its own name. */
  lemma UnchangedRoundTrip(f: EditForm, pot: Pot)
    requires |pot.name| >= 1 && pot.target >= 0.01 && pot.total >= 0.0
    requires pot.theme.Some? && |pot.theme.value| >= 1
    ensures Submit(Some(pot), Reset(f, Some(pot))) == Some(Edit(pot, Some(pot.name)))
  {
  }

  /** A rename keeps the old name as the key: the new name travels in the pot, the old one beside it. */
  lemma RenameKeepsKey(pot: Pot, newName: string, f: EditForm)
    requires EditSchema(Reset(f, Some(pot)).(name := newName))
    ensures var r := Submit(Some(pot), Reset(f, Some(pot)).(name := newName));
      r.Some? && r.value.updated.name == newName && r.value.originalName == Some(pot.name)
  {
  }
}
