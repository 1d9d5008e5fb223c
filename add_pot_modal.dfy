/** components/modals/AddPotModal.tsx: the new-pot form check and the pot it creates. */
module AddPotModal {
  import opened Wrappers
  import opened Records

  datatype PotForm = PotForm(name: string, target: NumberField, theme: string)

  /** The form's starting values: empty name and theme, target 0. */
  const DefaultForm: PotForm := PotForm("", Number(0.0), "")

  /** `schema`: a name, a target of at least 0.01 and a theme. */
  predicate PotSchema(f: PotForm) {
    |f.name| >= 1 && f.target.Number? && f.target.value >= 0.01 && |f.theme| >= 1
  }

  /**
   * `onSubmit`: the pot built from an accepted form, empty, with the form's
   * name, target and theme; `None` when the form is rejected.
   */
  function Submit(f: PotForm): (r: Option<Pot>)
    ensures r.Some? <==> |f.name| >= 1 && f.target.Number? && f.target.value >= 0.01 && |f.theme| >= 1
    ensures r.Some? ==>
      r.value.name == f.name && r.value.target == f.target.value && r.value.theme == Some(f.theme) && r.value.total == 0.0
    ensures r.Some? ==> 0.0 == r.value.total < r.value.target
  {
    if PotSchema(f) then Some(Pot(f.name, f.target.value, 0.0, Some(f.theme))) else None
  }

  /** The untouched form is refused. */
  lemma DefaultFormRejected()
    ensures Submit(DefaultForm) == None
  {
  }
}
