/** The create/edit user form of src/components/UserFormModal.tsx: the state
    loaded when the modal opens, the column-visibility toggle and the
    validation chain of `handleSubmit`. The `onCreate`/`onUpdate` calls are
    the outcome's `Submitted` value. */
module UserForm {

  import opened Optional
  import opened Strings
  import opened Seqs
  import opened Kanban
  import opened Leads

  datatype Form = Form(name: string, email: string, password: string, role: Role, visible: seq<Qualificacao>)

  /** The columns a new user sees: every level, not the community column. */
  const DefaultVisible: seq<Qualificacao> := [Ruim, Medio, Qualificado, Ultra]

  lemma DefaultVisibleSpec()
    ensures forall q :: q in DefaultVisible <==> q != Comunidade
  {
    forall q ensures q in DefaultVisible <==> q != Comunidade {
      match q
      case Ruim => assert DefaultVisible[0] == q;
      case Medio => assert DefaultVisible[1] == q;
      case Qualificado => assert DefaultVisible[2] == q;
      case Ultra => assert DefaultVisible[3] == q;
      case Comunidade =>
    }
  }

  /** The effect run when the modal opens: the edited user's fields with an
      empty password, or the blank new-user form. */
  function LoadForm(user: Option<Profile>): (r: Form)
    ensures r.password == ""
    ensures user.None? ==>
      r.name == "" && r.email == "" && r.role == Sdr && |r.visible| == 4 &&
      forall q :: q in r.visible <==> q != Comunidade
    ensures user.Some? ==>
      r.name == user.value.name && r.role == user.value.role &&
      (user.value.email.Some? ==> r.email == user.value.email.value) &&
      (user.value.email.None? ==> r.email == "") &&
      (user.value.visibleQualifications.Some? ==> r.visible == user.value.visibleQualifications.value) &&
      (user.value.visibleQualifications.None? ==> r.visible == [])
  {
    match user
    case None =>
      DefaultVisibleSpec();
      Form("", "", "", Sdr, DefaultVisible)
    case Some(u) => Form(u.name, u.email.GetOr(""), "", u.role, u.visibleQualifications.GetOr([]))
  }

  function Other(q: Qualificacao): Qualificacao -> bool {
    (v: Qualificacao) => v != q
  }

  /** `toggleQualification`: removes every copy of `q` when present,
      appends it otherwise. */
  function ToggleQualification(visible: seq<Qualificacao>, q: Qualificacao): (r: seq<Qualificacao>)
    ensures q in r <==> q !in visible
    ensures forall x :: x != q ==> (x in r <==> x in visible)
    ensures q in visible ==> IsSubseq(r, visible)
    ensures q !in visible ==> r == visible + [q]
  {
    if q in visible then
      FilterIsSubseq(visible, Other(q));
      forall x ensures x in Filter(visible, Other(q)) <==> x in visible && x != q {
        FilterMembership(visible, Other(q), x);
      }
      Filter(visible, Other(q))
    else
      visible + [q]
  }

  /** Two toggles restore which columns are visible; the list itself comes
      back only when `q` was absent, and otherwise `q` moves to the end. */
  lemma ToggleQualificationTwice(visible: seq<Qualificacao>, q: Qualificacao)
    ensures forall x :: x in ToggleQualification(ToggleQualification(visible, q), q) <==> x in visible
    ensures q !in visible ==> ToggleQualification(ToggleQualification(visible, q), q) == visible
    ensures q in visible ==>
      ToggleQualification(ToggleQualification(visible, q), q) == Filter(visible, Other(q)) + [q]
  {
    var once := ToggleQualification(visible, q);
    if q !in visible {
      assert once == visible + [q];
      FilterConcat(visible, [q], Other(q));
      FilterAllKept(visible, Other(q));
      assert ToggleQualification(once, q) == Filter(once, Other(q));
    } else {
      assert once == Filter(visible, Other(q)) && q !in once;
      assert ToggleQualification(once, q) == once + [q];
    }
  }

  datatype FormError = NameRequired | EmailRequired | PasswordTooShort | NoVisibleColumn

  /** The call `handleSubmit` makes: `onCreate` or `onUpdate`. */
  datatype Submission =
    | Create(email: string, password: string, name: string, role: Role, visible: seq<Qualificacao>)
    | Update(userId: string, name: string, role: Role, visible: seq<Qualificacao>)

  datatype Outcome = Rejected(error: FormError) | Submitted(call: Submission)

  /** `handleSubmit`; `user` is the edited profile, None when creating. */
  function Submit(form: Form, user: Option<Profile>): (r: Outcome)
    ensures r.Submitted? ==> (r.call.Update? <==> user.Some?)
    ensures r.Submitted? && user.Some? ==> r.call == Update(user.value.id, form.name, form.role, form.visible)
    ensures r.Submitted? && user.None? ==> r.call == Create(form.email, form.password, form.name, form.role, form.visible)
  {
    if Trim(form.name) == "" then Rejected(NameRequired)
    else if user.None? && Trim(form.email) == "" then Rejected(EmailRequired)
    else if user.None? && Utf16Length(form.password) < 6 then Rejected(PasswordTooShort)
    else if |form.visible| == 0 then Rejected(NoVisibleColumn)
    else if user.Some? then Submitted(Update(user.value.id, form.name, form.role, form.visible))
    else Submitted(Create(form.email, form.password, form.name, form.role, form.visible))
  }

  /** What the form shows once `handleSubmit` has finished: the error of the
      check that refused it, or, when the call was made, the call's failure
      (`setError(err.message || 'Erro ao salvar')`). `callSucceeds` stands
      for the outcome of `onCreate`/`onUpdate`. */
  datatype ShownError = CheckFailed(error: FormError) | SaveFailed

  function ErrorAfterSubmit(form: Form, user: Option<Profile>, callSucceeds: bool): (r: Option<ShownError>)
    ensures r.None? <==> Submit(form, user).Submitted? && callSucceeds
    ensures r == Some(SaveFailed) <==> Submit(form, user).Submitted? && !callSucceeds
    ensures Submit(form, user).Rejected? ==> r == Some(CheckFailed(Submit(form, user).error))
  {
    match Submit(form, user)
    case Rejected(e) => Some(CheckFailed(e))
    case Submitted(_) => if callSucceeds then None else Some(SaveFailed)
  }

  /** The form ends without an error exactly when every check that applies
      passes and the call succeeds; a failed call is the only way to see the
      save error. */
  lemma ErrorAfterSubmitSpec(form: Form, user: Option<Profile>, callSucceeds: bool)
    ensures ErrorAfterSubmit(form, user, callSucceeds).None? <==>
      NonBlank(form.name) && (user.Some? || (NonBlank(form.email) && Utf16Length(form.password) >= 6))
      && |form.visible| > 0 && callSucceeds
    ensures ErrorAfterSubmit(form, user, callSucceeds) == Some(SaveFailed) ==> !callSucceeds
  {
    SubmitAccepted(form, user);
  }

  /** Some character of `s` is not whitespace. */
  predicate NonBlank(s: string) {
    exists k :: 0 <= k < |s| && !IsSpace(s[k])
  }

  lemma TrimNonBlank(s: string)
    ensures Trim(s) != "" <==> NonBlank(s)
  {
    TrimBlank(s);
  }

  /** The checks in order: a blank name first; ... */
  lemma SubmitNameError(form: Form, user: Option<Profile>)
    ensures Submit(form, user) == Rejected(NameRequired) <==> !NonBlank(form.name)
  {
    TrimNonBlank(form.name);
    if Trim(form.name) != "" {
      assert Submit(form, user).Submitted? || Submit(form, user).error != NameRequired;
    }
  }

  /** ... when creating, a blank email, then a password under six
      characters ... */
  lemma SubmitEmailError(form: Form, user: Option<Profile>)
    ensures Submit(form, user) == Rejected(EmailRequired) <==>
      NonBlank(form.name) && user.None? && !NonBlank(form.email)
  {
    TrimNonBlank(form.name);
    TrimNonBlank(form.email);
  }

  /** ... then an empty column list. */
  lemma SubmitPasswordColumnErrors(form: Form, user: Option<Profile>)
    ensures Submit(form, user) == Rejected(PasswordTooShort) <==>
      NonBlank(form.name) && user.None? && NonBlank(form.email) && Utf16Length(form.password) < 6
    ensures Submit(form, user) == Rejected(NoVisibleColumn) <==>
      NonBlank(form.name) && (user.Some? || (NonBlank(form.email) && Utf16Length(form.password) >= 6))
      && |form.visible| == 0
  {
    TrimNonBlank(form.name);
    TrimNonBlank(form.email);
  }

  /** The form is submitted exactly when every check that applies passes. */
  lemma SubmitAccepted(form: Form, user: Option<Profile>)
    ensures Submit(form, user).Submitted? <==>
      NonBlank(form.name) && (user.Some? || (NonBlank(form.email) && Utf16Length(form.password) >= 6))
      && |form.visible| > 0
  {
    TrimNonBlank(form.name);
    TrimNonBlank(form.email);
  }

  /** When editing, the email and password fields are never looked at. */
  lemma EditIgnoresCredentials(form: Form, p: Profile, email: string, password: string)
    ensures Submit(form, Some(p)) == Submit(form.(email := email, password := password), Some(p))
  {
  }

  /** The name is checked trimmed but sent as typed: a name starting with
      a space is sent with it, unlike its trimmed form. */
  lemma NameSentUntrimmed(form: Form, p: Profile)
    requires NonBlank(form.name) && |form.visible| > 0
    ensures Submit(form, Some(p)) == Submitted(Update(p.id, form.name, form.role, form.visible))
    ensures IsSpace(form.name[0]) ==> Trim(form.name) != form.name
  {
    TrimNonBlank(form.name);
  }

  /** A stored profile without a column list loads with none, so saving it
      is refused until a column is chosen. */
  lemma MissingColumnsBlockSave(p: Profile)
    requires p.visibleQualifications.None? && NonBlank(p.name)
    ensures Submit(LoadForm(Some(p)), Some(p)) == Rejected(NoVisibleColumn)
  {
    TrimNonBlank(p.name);
  }

  /** The blank new-user form is refused for its name first. */
  lemma BlankNewFormRejected()
    ensures Submit(LoadForm(None), None) == Rejected(NameRequired)
  {
  }
}
