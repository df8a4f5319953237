/** `src/components/ProfileManager.tsx`: the profile form. Every handler computes a new form
    record; create and update hand the form to the parent (`WebhookTester`) as a call. */
module ProfileManager {
  import opened WebhookTypes
  import opened Text
  import opened RowEdits
  import WebhookTester

  /** The form record: like a profile without id and creation time, with a plain-string description. */
  datatype ProfileForm = ProfileForm(
    name: string,
    url: string,
    httpMethod: string,
    headers: seq<Header>,
    description: string,
    color: string)

  const DefaultColor := "#3B82F6"

  /** The form `resetForm` restores and the component starts with. */
  const DefaultForm := ProfileForm("", "", "POST", [Header("Content-Type", "application/json")], "", DefaultColor)

  /** The component's state: the form, the id being edited (`editingProfile`) and whether the create form is shown. */
  datatype Manager = Manager(form: ProfileForm, editing: Option<string>, showCreateForm: bool)

  const Initial := Manager(DefaultForm, None, false)

  /** What a handler asks of the parent: nothing, `onCreateProfile(formData)` or `onUpdateProfile(id, formData)`. */
  datatype Call =
    | NoCall
    | CreateCall(data: WebhookTester.ProfileData)
    | UpdateCall(id: string, patch: WebhookTester.ProfilePatch)

  datatype Step = Step(state: Manager, call: Call)

  /** The form handed over on create, as is (untrimmed). */
  function DataOf(f: ProfileForm): (d: WebhookTester.ProfileData)
    ensures d.name == f.name && d.url == f.url && d.httpMethod == f.httpMethod && d.headers == f.headers
    ensures d.description == Some(f.description) && d.color == f.color
  {
    WebhookTester.ProfileData(f.name, f.url, f.httpMethod, f.headers, Some(f.description), f.color)
  }

  /** The form handed over on update, as a partial profile: every form field present, id and creation time absent. */
  function PatchOf(f: ProfileForm): (u: WebhookTester.ProfilePatch)
    ensures u.id.None? && u.createdAt.None?
    ensures u.name == Some(f.name) && u.url == Some(f.url) && u.httpMethod == Some(f.httpMethod)
    ensures u.headers == Some(f.headers) && u.description == Some(Some(f.description)) && u.color == Some(f.color)
  {
    WebhookTester.ProfilePatch(None, Some(f.name), Some(f.url), Some(f.httpMethod), Some(f.headers),
      Some(Some(f.description)), Some(f.color), None)
  }

  /** The form `handleEditProfile` fills from a profile: a missing description becomes ''. */
  function FormOf(p: WebhookProfile): (f: ProfileForm)
    ensures f.name == p.name && f.url == p.url && f.httpMethod == p.httpMethod && f.headers == p.headers
    ensures f.color == p.color
    ensures f.description == if p.description.Some? then p.description.value else ""
  {
    ProfileForm(p.name, p.url, p.httpMethod, p.headers, if p.description.Some? then p.description.value else "", p.color)
  }

  /** `resetForm`: the form goes back to its defaults; which profile is being edited and whether
      the create form shows are left alone. */
  function ResetForm(s: Manager): (r: Manager)
    ensures r.form == DefaultForm
    ensures r.editing == s.editing && r.showCreateForm == s.showCreateForm
  {
    s.(form := DefaultForm)
  }

  /** `handleCreateProfile`: a no-op unless name and url both have text; otherwise hands the
      untrimmed form over, resets the form and hides it. */
  function HandleCreate(s: Manager): (r: Step)
    ensures r.call.CreateCall? <==> HasText(s.form.name) && HasText(s.form.url)
    ensures !r.call.UpdateCall?
    ensures r.call.CreateCall? ==> r.call.data == DataOf(s.form) && r.state == Manager(DefaultForm, s.editing, false)
    ensures r.call.NoCall? ==> r.state == s
  {
    if IsBlank(s.form.name) || IsBlank(s.form.url) then Step(s, NoCall)
    else Step(ResetForm(s).(showCreateForm := false), CreateCall(DataOf(s.form)))
  }

  /** `handleEditProfile`: copies the profile into the form and records its id as the edit target. */
  function HandleEdit(s: Manager, p: WebhookProfile): (r: Manager)
    ensures r.editing == Some(p.id) && r.showCreateForm == s.showCreateForm
    ensures r.form.name == p.name && r.form.url == p.url && r.form.httpMethod == p.httpMethod
    ensures r.form.headers == p.headers && r.form.color == p.color
    ensures r.form.description == if p.description.Some? then p.description.value else ""
  {
    Manager(FormOf(p), Some(p.id), s.showCreateForm)
  }

  /** `handleUpdateProfile`: a no-op unless an edit target is set (a non-empty id: '' is falsy) and
      name and url both have text; otherwise hands the form over for that id, resets the form and
      clears the target. */
  function HandleUpdate(s: Manager): (r: Step)
    ensures r.call.UpdateCall? <==>
      s.editing.Some? && s.editing.value != "" && HasText(s.form.name) && HasText(s.form.url)
    ensures !r.call.CreateCall?
    ensures r.call.UpdateCall? ==>
      r.call == UpdateCall(s.editing.value, PatchOf(s.form)) && r.state == Manager(DefaultForm, None, s.showCreateForm)
    ensures r.call.NoCall? ==> r.state == s
  {
    if s.editing.None? || s.editing.value == "" || IsBlank(s.form.name) || IsBlank(s.form.url) then Step(s, NoCall)
    else Step(ResetForm(s).(editing := None), UpdateCall(s.editing.value, PatchOf(s.form)))
  }

  /** `handleCancel`: default form, create form hidden, no edit target. */
  function HandleCancel(s: Manager): (r: Manager)
    ensures r == Initial
  {
    ResetForm(s).(showCreateForm := false, editing := None)
  }

  /** `addHeader`: one empty row at the end. */
  function AddHeader(s: Manager): (r: Manager)
    ensures |r.form.headers| == |s.form.headers| + 1
    ensures r.form.headers[..|s.form.headers|] == s.form.headers && r.form.headers[|s.form.headers|] == EmptyHeader
    ensures r.form.(headers := s.form.headers) == s.form && r.editing == s.editing && r.showCreateForm == s.showCreateForm
  {
    s.(form := s.form.(headers := s.form.headers + [EmptyHeader]))
  }

  /** `removeHeader(index)`: drops only the row at `index`. */
  function RemoveHeader(s: Manager, index: int): (r: Manager)
    ensures 0 <= index < |s.form.headers| ==>
      r.form.headers == s.form.headers[..index] + s.form.headers[index + 1..]
    ensures !(0 <= index < |s.form.headers|) ==> r == s
    ensures r.form.(headers := s.form.headers) == s.form && r.editing == s.editing && r.showCreateForm == s.showCreateForm
  {
    s.(form := s.form.(headers := RemoveAt(s.form.headers, index)))
  }

  /** `updateHeader(index, field, value)`: a new list, equal to the old except that row `index` has `field` replaced. */
  function UpdateHeader(s: Manager, index: int, field: HeaderField, v: string): (r: Manager)
    ensures |r.form.headers| == |s.form.headers|
    ensures forall i :: 0 <= i < |s.form.headers| && i != index ==> r.form.headers[i] == s.form.headers[i]
    ensures 0 <= index < |s.form.headers| ==> r.form.headers[index] == SetField(s.form.headers[index], field, v)
    ensures r.form.(headers := s.form.headers) == s.form && r.editing == s.editing && r.showCreateForm == s.showCreateForm
  {
    s.(form := s.form.(headers := UpdateAt(s.form.headers, index, field, v)))
  }

  /** Editing a freshly created profile gives back the form it was created from. */
  lemma CreateThenEdit(s: Manager, id: string, createdAt: string, e: Manager)
    requires HandleCreate(s).call.CreateCall?
    ensures HandleEdit(e, WebhookTester.NewProfile(HandleCreate(s).call.data, id, createdAt)).form == s.form
  {
  }

  /** Opening a profile for edit and saving at once hands the parent a patch that, overlaid on the
      profile, changes nothing but a missing description, which becomes ''. */
  lemma EditThenSave(s: Manager, p: WebhookProfile)
    requires p.id != "" && HasText(p.name) && HasText(p.url)
    ensures var r := HandleUpdate(HandleEdit(s, p));
      && r.call.UpdateCall? && r.call.id == p.id
      && WebhookTester.Overlay(p, r.call.patch) ==
         p.(description := Some(if p.description.Some? then p.description.value else ""))
      && r.state.form == DefaultForm && r.state.editing.None?
  {
  }

  /** Saving an edit never changes ids, so the tester's active profile follows the edited profile. */
  lemma SavedEditKeepsActive(ps: seq<WebhookProfile>, active: Option<string>, s: Manager)
    requires HandleUpdate(s).call.UpdateCall?
    ensures var c := HandleUpdate(s).call;
      WebhookTester.ActiveProfile(WebhookTester.Updated(ps, c.id, c.patch), active) ==
        match WebhookTester.ActiveProfile(ps, active)
        case None => None
        case Some(q) => Some(if q.id == c.id then WebhookTester.Overlay(q, c.patch) else q)
  {
    var c := HandleUpdate(s).call;
    WebhookTester.ActiveAfterUpdate(ps, active, c.id, c.patch);
  }
}
