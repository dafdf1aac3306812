/** The technician directory screen of `client/src/pages/technicians.tsx`: the pure
    rules (skill normalization, request bodies, submit guard, active count, which
    actions are shown) and the page state that its handlers update. */
module Technicians {
  import opened Wrappers
  import opened Text
  import opened Seqs
  import opened Query
  import opened UserRoleContext

  // ---------------------------------------------------------------- data model

  /** The trade skills the form offers. */
  datatype Skill = Mechanic | Repairer | AsstMechanic

  /** The label of a skill, which is also what is sent as `specialization`. */
  function SkillLabel(s: Skill): string
  {
    match s
    case Mechanic => "Mechanic"
    case Repairer => "Repairer"
    case AsstMechanic => "Asst. Mechanic"
  }

  /** `TechnicianFormData`: the draft being created or edited. */
  datatype FormData = FormData(name: string, phone: string, skill: Skill, isActive: bool)

  /** `initialFormData`. */
  const InitialFormData: FormData := FormData("", "", Mechanic, true)

  /** A technician record as the API returns it; `specialization` is free text. */
  datatype Technician = Technician(
    id: string,
    name: string,
    phone: string,
    specialization: Option<string>,
    isActive: bool)

  /** `Partial<TechnicianFormData>`: each field may be undefined. */
  datatype PartialForm = PartialForm(
    name: Option<string>,
    phone: Option<string>,
    skill: Option<Skill>,
    isActive: Option<bool>)

  /** A complete form seen as a partial one with every field defined. */
  function AsPartial(f: FormData): PartialForm
  {
    PartialForm(Some(f.name), Some(f.phone), Some(f.skill), Some(f.isActive))
  }

  const CollectionPath: string := "/api/technicians"

  /** The query key of the technician list. */
  const TechniciansKey: seq<string> := [CollectionPath]

  /** The path of one record, `/api/technicians/${id}`. */
  function TechnicianPath(id: string): string
  {
    CollectionPath + "/" + id
  }

  /** The field names of the wire format. */
  const WireFields: set<string> := {"name", "phone", "specialization", "isActive"}

  // ---------------------------------------------------------------- skill normalization

  /** The edit handler's heuristic from free-text `specialization` to a skill, in
      three exclusive cases on the lower-cased text (missing text reads as empty):
      "repair" anywhere wins, then "asst" or "assistant", else "Mechanic". The
      "repairer" test of the source adds nothing to "repair". */
  function NormalizeSkill(specialization: Option<string>): (r: Skill)
    ensures var spec := Lower(specialization.GetOr(""));
      && (r == Repairer <==> Contains(spec, "repair"))
      && (r == AsstMechanic <==>
            !Contains(spec, "repair") && (Contains(spec, "asst") || Contains(spec, "assistant")))
      && (r == Mechanic <==>
            !Contains(spec, "repair") && !Contains(spec, "asst") && !Contains(spec, "assistant"))
  {
    if specialization.None? || specialization.value == "" then Mechanic
    else
      var spec := Lower(specialization.value);
      RepairerIncludesRepair(spec);
      if Contains(spec, "repairer") || Contains(spec, "repair") then Repairer
      else if Contains(spec, "asst") || Contains(spec, "assistant") then AsstMechanic
      else Mechanic
  }

  lemma RepairerIncludesRepair(spec: string)
    ensures Contains(spec, "repairer") ==> Contains(spec, "repair")
  {
    if Contains(spec, "repairer") {
      assert "repairer" == "repair" + "er";
      ContainsPrefixOfNeedle(spec, "repair", "er");
    }
  }

  /** Ambiguous text is classified by the repair test first. */
  lemma RepairAssistantIsRepairer()
    ensures NormalizeSkill(Some("Repair Assistant")) == Repairer
  {
    var spec := Lower("Repair Assistant");
    assert spec[..6] == "repair";
  }

  /** Every skill label the form sends comes back as the same skill when a record is
      opened for editing. */
  lemma SkillLabelRoundTrip(s: Skill)
    ensures NormalizeSkill(Some(SkillLabel(s))) == s
  {
    match s
    case Repairer => RepairerLabelRoundTrip();
    case AsstMechanic => AsstMechanicLabelRoundTrip();
    case Mechanic => MechanicLabelRoundTrip();
  }

  lemma RepairerLabelRoundTrip()
    ensures NormalizeSkill(Some("Repairer")) == Repairer
  {
    RepairerLabelNeedles("Repairer", Lower("Repairer"));
  }

  lemma AsstMechanicLabelRoundTrip()
    ensures NormalizeSkill(Some("Asst. Mechanic")) == AsstMechanic
  {
    AsstMechanicLabelNeedles("Asst. Mechanic", Lower("Asst. Mechanic"));
  }

  lemma MechanicLabelRoundTrip()
    ensures NormalizeSkill(Some("Mechanic")) == Mechanic
  {
    MechanicLabelNeedles("Mechanic", Lower("Mechanic"));
  }

  // The needles of the heuristic in each lower-cased skill label (the labels are
  // parameters so that the solver does not unfold Contains on literals).

  lemma RepairerLabelNeedles(name: string, spec: string)
    requires name == "Repairer" && spec == Lower(name)
    ensures Contains(spec, "repair")
  {
    assert spec[..6] == "repair";
  }

  lemma AsstMechanicLabelNeedles(name: string, spec: string)
    requires name == "Asst. Mechanic" && spec == Lower(name)
    ensures !Contains(spec, "repair") && Contains(spec, "asst")
  {
    assert spec == "asst. mechanic";
    NotContainsMissingChar(spec, "repair", 'p');
    assert spec[..4] == "asst";
  }

  lemma MechanicLabelNeedles(name: string, spec: string)
    requires name == "Mechanic" && spec == Lower(name)
    ensures !Contains(spec, "repair") && !Contains(spec, "asst") && !Contains(spec, "assistant")
  {
    assert spec == "mechanic";
    NotContainsMissingChar(spec, "repair", 'p');
    NotContainsMissingChar(spec, "asst", 's');
    NotContainsMissingChar(spec, "assistant", 's');
  }

  /** The form the edit handler seeds from a record. */
  function SeedForm(tech: Technician): (f: FormData)
    ensures f.name == tech.name && f.phone == tech.phone && f.isActive == tech.isActive
    ensures forall s :: tech.specialization == Some(SkillLabel(s)) ==> f.skill == s
  {
    SkillLabelRoundTrip(Mechanic);
    SkillLabelRoundTrip(Repairer);
    SkillLabelRoundTrip(AsstMechanic);
    FormData(tech.name, tech.phone, NormalizeSkill(tech.specialization), tech.isActive)
  }

  /** A record holding exactly what a form submitted reopens in edit as that form. */
  lemma EditSeedsSubmittedForm(f: FormData, tech: Technician)
    requires tech.name == f.name && tech.phone == f.phone && tech.isActive == f.isActive
    requires tech.specialization == Some(SkillLabel(f.skill))
    ensures SeedForm(tech) == f
  {
    SkillLabelRoundTrip(f.skill);
  }

  // ---------------------------------------------------------------- request bodies

  /** The body of the create request: the same body as an update of every field,
      that is the four wire fields, with the skill's label as `specialization`. */
  function CreateBody(f: FormData): (b: map<string, JsonValue>)
    ensures b.Keys == WireFields
    ensures b == UpdateBody(AsPartial(f))
  {
    var full := UpdateBody(AsPartial(f));
    assert full.Keys == WireFields;
    map["name" := JString(f.name),
        "phone" := JString(f.phone),
        "specialization" := JString(SkillLabel(f.skill)),
        "isActive" := JBool(f.isActive)]
  }

  /** The body of the partial update: a field is present exactly when it is defined
      in the input, under its wire name, with its value. */
  function UpdateBody(p: PartialForm): (b: map<string, JsonValue>)
    ensures b.Keys <= WireFields
    ensures "name" in b <==> p.name.Some?
    ensures "phone" in b <==> p.phone.Some?
    ensures "specialization" in b <==> p.skill.Some?
    ensures "isActive" in b <==> p.isActive.Some?
    ensures p.name.Some? ==> b["name"] == JString(p.name.value)
    ensures p.phone.Some? ==> b["phone"] == JString(p.phone.value)
    ensures p.skill.Some? ==> b["specialization"] == JString(SkillLabel(p.skill.value))
    ensures p.isActive.Some? ==> b["isActive"] == JBool(p.isActive.value)
  {
    var b0: map<string, JsonValue> := map[];
    var b1 := if p.name.Some? then b0["name" := JString(p.name.value)] else b0;
    var b2 := if p.phone.Some? then b1["phone" := JString(p.phone.value)] else b1;
    var b3 := if p.skill.Some? then b2["specialization" := JString(SkillLabel(p.skill.value))] else b2;
    if p.isActive.Some? then b3["isActive" := JBool(p.isActive.value)] else b3
  }

  /** An update with nothing defined sends an empty body. */
  lemma EmptyUpdateSendsNothing()
    ensures UpdateBody(PartialForm(None, None, None, None)) == map[]
  {
  }

  // ---------------------------------------------------------------- submit guard

  /** The `disabled` expression of the submit button: blocked exactly while a create
      or update is in flight or while the name or the phone holds nothing but
      whitespace. */
  function SubmitDisabled(createPending: bool, updatePending: bool, f: FormData): (r: bool)
    ensures r <==> createPending || updatePending || IsBlank(f.name) || IsBlank(f.phone)
  {
    TrimEmptyIffBlank(f.name);
    TrimEmptyIffBlank(f.phone);
    createPending || updatePending || Trim(f.name) == "" || Trim(f.phone) == ""
  }

  /** A form whose name and phone start with a visible character can be submitted
      when nothing is in flight. */
  lemma SubmittableForm(f: FormData)
    requires f.name != [] && !IsSpace(f.name[0]) && f.phone != [] && !IsSpace(f.phone[0])
    ensures !SubmitDisabled(false, false, f)
  {
    assert !IsSpace(f.name[0]) && !IsSpace(f.phone[0]);
  }

  /** A freshly reset form cannot be submitted. */
  lemma InitialFormBlocked(createPending: bool, updatePending: bool)
    ensures SubmitDisabled(createPending, updatePending, InitialFormData)
  {
  }

  // ---------------------------------------------------------------- list and gating

  /** The state of the technician list query. */
  datatype ListState = Loading | Failed | Loaded(items: seq<Technician>)

  /** `technicianList`: the loaded records, or the empty default. */
  function Items(ls: ListState): seq<Technician>
  {
    if ls.Loaded? then ls.items else []
  }

  predicate IsActive(t: Technician)
  {
    t.isActive
  }

  /** `activeCount`: how many records are active. */
  function ActiveCount(list: seq<Technician>): (n: nat)
    ensures n <= |list|
    ensures n == |list| <==> forall i :: 0 <= i < |list| ==> list[i].isActive
    ensures n == 0 <==> forall i :: 0 <= i < |list| ==> !list[i].isActive
  {
    FilterLength(list, IsActive);
    |Filter(list, IsActive)|
  }

  /** The "Active Staff" card: the active records of `technicianList`, which is the
      empty default until the list has loaded. */
  function ShownActiveCount(ls: ListState): (n: nat)
    ensures n <= |Items(ls)|
    ensures !ls.Loaded? ==> n == 0
    ensures ls.Loaded? ==> n == ActiveCount(ls.items)
  {
    ActiveCount(Items(ls))
  }

  /** The count is additive over the parts of a list. */
  lemma ActiveCountAppend(a: seq<Technician>, b: seq<Technician>)
    ensures ActiveCount(a + b) == ActiveCount(a) + ActiveCount(b)
  {
    FilterAppend(a, b, IsActive);
  }

  /** The actions the page renders. */
  datatype Affordance = AddTechnician | ActionsColumn | EditButton(tech: Technician) | DeleteButton(id: string)

  /** The row actions of a loaded list. */
  function RowActions(ls: ListState): set<Affordance>
  {
    if ls.Loaded?
    then (set t | t in ls.items :: EditButton(t)) + (set t | t in ls.items :: DeleteButton(t.id))
    else {}
  }

  /** The rendered actions: none when the list failed to load (the error card replaces
      the page) and none unless the operator is an administrator. */
  function Affordances(isAdmin: bool, ls: ListState): (r: set<Affordance>)
    ensures r != {} ==> isAdmin && !ls.Failed?
    ensures AddTechnician in r <==> isAdmin && !ls.Failed?
    ensures ActionsColumn in r <==> isAdmin && !ls.Failed?
    ensures forall t :: EditButton(t) in r <==> isAdmin && ls.Loaded? && t in ls.items
    ensures forall id :: DeleteButton(id) in r <==>
              isAdmin && ls.Loaded? && exists t :: t in ls.items && t.id == id
  {
    if ls.Failed? || !isAdmin then {}
    else {AddTechnician, ActionsColumn} + RowActions(ls)
  }

  datatype MutationKind = CreateMutation | UpdateMutation | DeleteMutation

  // ---------------------------------------------------------------- page state

  /** The page component: its five pieces of state, the in-flight flags of its three
      mutations, the list query's state, and the query client it talks to. */
  class TechniciansPage {
    const isAdmin: bool
    const client: QueryClient
    var listState: ListState
    var isCreateOpen: bool
    var isEditOpen: bool
    var deleteTechnicianId: Option<string>
    var formData: FormData
    var editingId: Option<string>
    var createPending: bool
    var updatePending: bool
    var deletePending: bool

    /** The create/edit dialog is open. */
    predicate FormOpen()
      reads this
    {
      isCreateOpen || isEditOpen
    }

    /** The delete confirmation is open (`!!deleteTechnicianId`). */
    predicate DeleteOpen()
      reads this
    {
      deleteTechnicianId.Some? && deleteTechnicianId.value != ""
    }

    /** No dialog is open and no delete target is held. */
    predicate Idle()
      reads this
    {
      !FormOpen() && deleteTechnicianId.None?
    }

    /** Editing always knows its record, and a read-only operator never leaves Idle
        and never has a mutation in flight. */
    ghost predicate Valid()
      reads this
    {
      && (isEditOpen ==> editingId.Some?)
      && (!isAdmin ==> Idle() && !createPending && !updatePending && !deletePending)
    }

    constructor(role: RoleContextValue, client: QueryClient)
      ensures Valid()
      ensures isAdmin == role.isAdmin && this.client == client
      ensures listState == Loading && Idle() && editingId == None
      ensures formData == InitialFormData
      ensures !createPending && !updatePending && !deletePending
    {
      isAdmin := role.isAdmin;
      this.client := client;
      listState := Loading;
      isCreateOpen, isEditOpen := false, false;
      deleteTechnicianId := None;
      formData := InitialFormData;
      editingId := None;
      createPending, updatePending, deletePending := false, false, false;
    }

    /** The list query settles (first load or refetch after an invalidation). */
    method ReceiveList(ls: ListState)
      requires Valid()
      modifies this`listState
      ensures Valid() && listState == ls
    {
      listState := ls;
    }

    /** The "Add Technician" button. */
    method OpenCreate()
      requires Valid() && AddTechnician in Affordances(isAdmin, listState)
      modifies this`formData, this`isCreateOpen
      ensures Valid()
      ensures formData == InitialFormData && isCreateOpen
    {
      formData := InitialFormData;
      isCreateOpen := true;
    }

    /** The edit button of a row. */
    method OpenEdit(tech: Technician)
      requires Valid() && EditButton(tech) in Affordances(isAdmin, listState)
      modifies this`editingId, this`formData, this`isEditOpen
      ensures Valid()
      ensures editingId == Some(tech.id) && formData == SeedForm(tech) && isEditOpen
    {
      editingId := Some(tech.id);
      var skill := NormalizeSkill(tech.specialization);
      formData := FormData(tech.name, tech.phone, skill, tech.isActive);
      isEditOpen := true;
    }

    /** The delete button of a row. */
    method RequestDelete(id: string)
      requires Valid() && DeleteButton(id) in Affordances(isAdmin, listState)
      modifies this`deleteTechnicianId
      ensures Valid() && deleteTechnicianId == Some(id)
    {
      deleteTechnicianId := Some(id);
    }

    /** Clear both dialog flags, the draft and the edited id. */
    method ResetForm()
      requires Valid()
      modifies this`isCreateOpen, this`isEditOpen, this`formData, this`editingId
      ensures Valid() && !FormOpen()
      ensures formData == InitialFormData && editingId == None
    {
      isCreateOpen := false;
      isEditOpen := false;
      formData := InitialFormData;
      editingId := None;
    }

    // The dialogs below are rendered only when the list did not fail: the error card
    // replaces the whole page, so their handlers require `!listState.Failed?`.

    /** The dialog's `onOpenChange`: closing it (backdrop, escape, close button)
        discards the draft; opening changes nothing. */
    method FormOpenChange(open: bool)
      requires Valid()
      requires !listState.Failed?
      modifies this`isCreateOpen, this`isEditOpen, this`formData, this`editingId
      ensures Valid()
      ensures !open ==> !FormOpen() && formData == InitialFormData && editingId == None
      ensures open ==> isCreateOpen == old(isCreateOpen) && isEditOpen == old(isEditOpen)
                       && formData == old(formData) && editingId == old(editingId)
    {
      if !open {
        ResetForm();
      }
    }

    /** The Cancel button. */
    method Cancel()
      requires Valid() && FormOpen()
      requires !listState.Failed?
      modifies this`isCreateOpen, this`isEditOpen, this`formData, this`editingId
      ensures Valid() && !FormOpen()
      ensures formData == InitialFormData && editingId == None
    {
      ResetForm();
    }

    /** The name input's `onChange`. */
    method SetName(v: string)
      requires Valid() && FormOpen()
      requires !listState.Failed?
      modifies this`formData
      ensures Valid() && formData == old(formData).(name := v)
    {
      formData := formData.(name := v);
    }

    /** The phone input's `onChange`. */
    method SetPhone(v: string)
      requires Valid() && FormOpen()
      requires !listState.Failed?
      modifies this`formData
      ensures Valid() && formData == old(formData).(phone := v)
    {
      formData := formData.(phone := v);
    }

    /** The skill select's `onValueChange`. */
    method SetSkill(s: Skill)
      requires Valid() && FormOpen()
      requires !listState.Failed?
      modifies this`formData
      ensures Valid() && formData == old(formData).(skill := s)
    {
      formData := formData.(skill := s);
    }

    /** The status switch's `onCheckedChange`. */
    method SetIsActive(b: bool)
      requires Valid() && FormOpen()
      requires !listState.Failed?
      modifies this`formData
      ensures Valid() && formData == old(formData).(isActive := b)
    {
      formData := formData.(isActive := b);
    }

    /** The submit button: nothing while it is disabled; otherwise the update of the
        edited record when editing, the create otherwise. */
    method Submit()
      requires Valid() && FormOpen()
      requires !listState.Failed?
      modifies this`createPending, this`updatePending, client
      ensures Valid()
      ensures client.invalidations == old(client.invalidations)
      ensures SubmitDisabled(old(createPending), old(updatePending), formData) ==>
                client.requests == old(client.requests)
                && createPending == old(createPending) && updatePending == old(updatePending)
      ensures !SubmitDisabled(old(createPending), old(updatePending), formData) && isEditOpen ==>
                client.requests == old(client.requests)
                  + [Request(Patch, TechnicianPath(editingId.value), UpdateBody(AsPartial(formData)))]
                && updatePending && createPending == old(createPending)
      ensures !SubmitDisabled(old(createPending), old(updatePending), formData) && !isEditOpen ==>
                client.requests == old(client.requests) + [Request(Post, CollectionPath, CreateBody(formData))]
                && createPending && updatePending == old(updatePending)
    {
      if SubmitDisabled(createPending, updatePending, formData) {
        return;
      }
      if isEditOpen {
        updatePending := true;
        client.ApiRequest(Patch, TechnicianPath(editingId.value), UpdateBody(AsPartial(formData)));
      } else {
        createPending := true;
        client.ApiRequest(Post, CollectionPath, CreateBody(formData));
      }
    }

    /** The create mutation succeeded. */
    method OnCreateSuccess()
      requires Valid() && createPending
      modifies this`createPending, this`isCreateOpen, this`formData, client
      ensures Valid()
      ensures client.invalidations == old(client.invalidations) + [QueryKey(TechniciansKey)]
      ensures client.requests == old(client.requests)
      ensures !createPending && !isCreateOpen && formData == InitialFormData
    {
      createPending := false;
      client.InvalidateQueries(QueryKey(TechniciansKey));
      isCreateOpen := false;
      formData := InitialFormData;
    }

    /** The update mutation succeeded. */
    method OnUpdateSuccess()
      requires Valid() && updatePending
      modifies this`updatePending, this`isEditOpen, this`formData, this`editingId, client
      ensures Valid()
      ensures client.invalidations == old(client.invalidations) + [QueryKey(TechniciansKey)]
      ensures client.requests == old(client.requests)
      ensures !updatePending && !isEditOpen && formData == InitialFormData && editingId == None
    {
      updatePending := false;
      client.InvalidateQueries(QueryKey(TechniciansKey));
      isEditOpen := false;
      formData := InitialFormData;
      editingId := None;
    }

    /** The confirmation's action button: deletes the target if one is held. */
    method ConfirmDelete()
      requires Valid()
      requires !listState.Failed?
      modifies this`deletePending, client
      ensures Valid()
      ensures client.invalidations == old(client.invalidations)
      ensures DeleteOpen() ==>
                client.requests == old(client.requests) + [Request(Delete, TechnicianPath(deleteTechnicianId.value), map[])]
                && deletePending
      ensures !DeleteOpen() ==> client.requests == old(client.requests) && deletePending == old(deletePending)
    {
      if DeleteOpen() {
        deletePending := true;
        client.ApiRequest(Delete, TechnicianPath(deleteTechnicianId.value), map[]);
      }
    }

    /** The delete mutation succeeded. */
    method OnDeleteSuccess()
      requires Valid() && deletePending
      modifies this`deletePending, this`deleteTechnicianId, client
      ensures Valid()
      ensures client.invalidations == old(client.invalidations) + [QueryKey(TechniciansKey)]
      ensures client.requests == old(client.requests)
      ensures !deletePending && deleteTechnicianId == None
    {
      deletePending := false;
      client.InvalidateQueries(QueryKey(TechniciansKey));
      deleteTechnicianId := None;
    }

    /** A mutation failed: only its in-flight flag drops; the dialogs, the draft and
        the delete target stay as they were, and nothing is invalidated. */
    method OnError(kind: MutationKind)
      requires Valid()
      requires kind == CreateMutation ==> createPending
      requires kind == UpdateMutation ==> updatePending
      requires kind == DeleteMutation ==> deletePending
      modifies this`createPending, this`updatePending, this`deletePending
      ensures Valid()
      ensures createPending == (old(createPending) && kind != CreateMutation)
      ensures updatePending == (old(updatePending) && kind != UpdateMutation)
      ensures deletePending == (old(deletePending) && kind != DeleteMutation)
    {
      match kind
      case CreateMutation => createPending := false;
      case UpdateMutation => updatePending := false;
      case DeleteMutation => deletePending := false;
    }

    /** The confirmation's `onOpenChange`, whichever way it goes, drops the target. */
    method DeleteOpenChange(open: bool)
      requires Valid()
      requires !listState.Failed?
      modifies this`deleteTechnicianId
      ensures Valid() && deleteTechnicianId == None
    {
      deleteTechnicianId := None;
    }
  }

  // ---------------------------------------------------------------- scenarios

  /** An administrator registers "Bruce Smith": exactly one POST with the mapped body
      is sent, and its success invalidates the list. */
  method RegisterScenario(client: QueryClient)
    modifies client
    ensures client.requests == old(client.requests)
              + [Request(Post, CollectionPath, CreateBody(FormData("Bruce Smith", "0400 000 000", Repairer, true)))]
    ensures client.invalidations == old(client.invalidations) + [QueryKey(TechniciansKey)]
  {
    var page := new TechniciansPage(ContextValue("Admin"), client);
    page.ReceiveList(Loaded([]));
    page.OpenCreate();
    page.SetName("Bruce Smith");
    page.SetPhone("0400 000 000");
    page.SetSkill(Repairer);
    SubmittableForm(page.formData);
    page.Submit();
    page.OnCreateSuccess();
  }

  /** An administrator asks to delete a record and then dismisses the confirmation:
      no request is sent and the target is cleared. */
  method CancelDeleteScenario(client: QueryClient, tech: Technician)
    modifies client
    ensures client.requests == old(client.requests)
    ensures client.invalidations == old(client.invalidations)
  {
    var page := new TechniciansPage(ContextValue("Admin"), client);
    page.ReceiveList(Loaded([tech]));
    page.RequestDelete(tech.id);
    page.DeleteOpenChange(false);
    assert page.Idle();
  }

  /** An administrator confirms a delete: the action sends one DELETE for the target,
      the confirmation then closes (clearing the target), and the success invalidates
      the list. */
  method ConfirmDeleteScenario(client: QueryClient, tech: Technician)
    requires tech.id != ""
    modifies client
    ensures client.requests == old(client.requests) + [Request(Delete, TechnicianPath(tech.id), map[])]
    ensures client.invalidations == old(client.invalidations) + [QueryKey(TechniciansKey)]
  {
    var page := new TechniciansPage(ContextValue("Admin"), client);
    page.ReceiveList(Loaded([tech]));
    page.RequestDelete(tech.id);
    page.ConfirmDelete();
    page.DeleteOpenChange(false);
    page.OnDeleteSuccess();
    assert page.Idle();
  }

  /** A read-only operator is offered no action whatever the list holds. */
  lemma ReadOnlyShowsNoActions(ls: ListState)
    ensures Affordances(false, ls) == {}
  {
  }
}
