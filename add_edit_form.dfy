/** The add/edit page (src/pages/AddEditForm.tsx): the form's state, its ingredient list and
    what submitting it does to the store. */
module AddEditForm {
  import opened DosageTypes
  import opened Sequences
  import opened Text
  import opened DosageFormStore

  /** The fields a submitted record is built from. */
  datatype Fields = Fields(
    name: string,
    formType: string,
    activeIngredients: seq<string>,
    strength: string,
    releaseType: ReleaseType,
    routeOfAdministration: RouteOfAdministration,
    description: string)

  /** What pressing "save" leads to. */
  datatype SubmitOutcome =
    | MissingFields            // the "Missing fields" toast; nothing is saved
    | EditTargetMissing        // editing a record that is gone: reading its `createdAt` throws
    | Saved(form: DosageForm)  // the record handed to the store's `save`

  /** The input box, trimmed, becomes a new ingredient when it is not blank and not already listed;
      otherwise the list is unchanged. */
  function WithIngredient(list: seq<string>, input: string): (r: seq<string>)
    ensures Trim(input) != "" && Trim(input) !in list ==> r == list + [Trim(input)]
    ensures Trim(input) == "" || Trim(input) in list ==> r == list
  {
    var t := Trim(input);
    if t != "" && t !in list then list + [t] else list
  }

  /** Every occurrence of `ingredient` removed, the rest kept in order. */
  function WithoutIngredient(list: seq<string>, ingredient: string): (r: seq<string>)
    ensures ingredient !in r
    ensures Subsequence(r, list)
    ensures forall i :: 0 <= i < |list| && list[i] != ingredient ==> list[i] in r
    ensures forall x: string :: multiset(r)[x] == if x != ingredient then multiset(list)[x] else 0
  {
    FilterIsSubsequence(list, i => i != ingredient);
    assert forall x: string :: multiset(Filter(list, i => i != ingredient))[x]
             == if x != ingredient then multiset(list)[x] else 0 by {
      forall x: string {
        FilterCount(list, i => i != ingredient, x);
      }
    }
    Filter(list, i => i != ingredient)
  }

  /** The shape of a list built only by adding and removing: no blanks, no surrounding
      whitespace, no duplicates. */
  ghost predicate CleanIngredients(list: seq<string>)
  {
    Distinct(list) && AllClean(list)
  }

  ghost predicate AllClean(list: seq<string>)
  {
    forall x :: x in list ==> CleanEntry(x)
  }

  /** A non-empty name with no surrounding white space. */
  ghost predicate CleanEntry(x: string)
  {
    x != "" && Trim(x) == x
  }

  /** Adding keeps the list clean. */
  lemma AddKeepsClean(list: seq<string>, input: string)
    requires CleanIngredients(list)
    ensures CleanIngredients(WithIngredient(list, input))
  {
    var t := Trim(input);
    if t != "" && t !in list {
      TrimIdempotent(input);
      AppendKeepsClean(list, t);
    }
  }

  lemma AppendKeepsClean(list: seq<string>, t: string)
    requires CleanIngredients(list)
    requires CleanEntry(t) && t !in list
    ensures CleanIngredients(list + [t])
  {
    DistinctSnoc(list, t);
  }

  /** Removing keeps the list clean. */
  lemma RemoveKeepsClean(list: seq<string>, ingredient: string)
    requires CleanIngredients(list)
    ensures CleanIngredients(WithoutIngredient(list, ingredient))
  {
    FilterDistinct(list, i => i != ingredient);
  }

  /** Removing an ingredient that was just added gives back the list from before. */
  lemma RemoveUndoesAdd(list: seq<string>, input: string)
    requires Trim(input) != "" && Trim(input) !in list
    ensures WithoutIngredient(WithIngredient(list, input), Trim(input)) == list
  {
    var t := Trim(input);
    var p := (i: string) => i != t;
    FilterAppend(list, [t], p);
    FilterAll(list, p);
    assert Filter([t], p) == [];
  }

  /** Adding an ingredient that is already listed changes nothing. */
  lemma AddTwice(list: seq<string>, input: string)
    ensures WithIngredient(WithIngredient(list, input), input) == WithIngredient(list, input)
  {
  }

  /** The submit guard: a required field is the empty string or no ingredient is listed. Only
      emptiness is checked, so a name of spaces passes. */
  predicate Missing(f: Fields)
  {
    f.name == "" || f.formType == "" || |f.activeIngredients| == 0 || f.strength == "" || f.description == ""
  }

  /** The page edits when its route parameter is present and not the empty string. */
  predicate IsEdit(editId: Option<string>)
  {
    editId.Some? && editId.value != ""
  }

  /** The outcome of submitting `f` against the stored `forms`. An edit keeps the route's id and the
      old record's creation time; a new record takes `freshId` and `now`; both are stamped `now`. */
  function Submit(f: Fields, editId: Option<string>, freshId: string, now: Timestamp,
                  forms: seq<DosageForm>): (r: SubmitOutcome)
    ensures r.MissingFields? <==> Missing(f)
    ensures r.EditTargetMissing? <==> !Missing(f) && IsEdit(editId) && FindById(forms, editId.value).None?
    ensures r.Saved? ==>
      r.form.name == f.name && r.form.formType == f.formType &&
      r.form.activeIngredients == f.activeIngredients && r.form.strength == f.strength &&
      r.form.releaseType == f.releaseType && r.form.routeOfAdministration == f.routeOfAdministration &&
      r.form.description == f.description && r.form.updatedAt == now
    ensures r.Saved? && IsEdit(editId) ==>
      r.form.id == editId.value && r.form.createdAt == FindById(forms, editId.value).value.createdAt
    ensures r.Saved? && !IsEdit(editId) ==> r.form.id == freshId && r.form.createdAt == now
  {
    if Missing(f) then MissingFields
    else if IsEdit(editId) then
      match FindById(forms, editId.value)
      case None => EditTargetMissing
      case Some(existing) =>
        Saved(DosageForm(editId.value, f.name, f.formType, f.activeIngredients, f.strength,
                         f.releaseType, f.routeOfAdministration, f.description, existing.createdAt, now))
    else
      Saved(DosageForm(freshId, f.name, f.formType, f.activeIngredients, f.strength,
                       f.releaseType, f.routeOfAdministration, f.description, now, now))
  }

  /** The store after a submission. Reaching for the edit target already writes the sample data
      through, as every read of the store does. */
  function StoredAfter(outcome: SubmitOutcome, stored: Option<seq<DosageForm>>, forms: seq<DosageForm>,
                       now: Timestamp): Option<seq<DosageForm>>
  {
    match outcome
    case MissingFields => stored
    case EditTargetMissing => Some(forms)
    case Saved(form) => Some(Upsert(forms, form, now))
  }

  /** Saving an edit replaces the record in place: same count, the new fields under the old id,
      the original creation time kept. */
  lemma EditReplaces(f: Fields, id: string, freshId: string, now: Timestamp, forms: seq<DosageForm>)
    requires !Missing(f) && id != "" && FindById(forms, id).Some?
    ensures var r := Submit(f, Some(id), freshId, now, forms);
            r.Saved? &&
            |Upsert(forms, r.form, now)| == |forms| &&
            FindById(Upsert(forms, r.form, now), id) == Some(r.form) &&
            r.form.createdAt == FindById(forms, id).value.createdAt
  {
    var r := Submit(f, Some(id), freshId, now, forms);
    SaveThenGet(forms, r.form, now);
  }

  /** Saving a new record under an id nobody has appends it and leaves every other record alone. */
  lemma CreateAppends(f: Fields, freshId: string, now: Timestamp, forms: seq<DosageForm>, other: string)
    requires !Missing(f) && FindById(forms, freshId).None? && other != freshId
    ensures var r := Submit(f, None, freshId, now, forms);
            r.Saved? &&
            Upsert(forms, r.form, now) == forms + [r.form] &&
            FindById(Upsert(forms, r.form, now), other) == FindById(forms, other)
  {
    var r := Submit(f, None, freshId, now, forms);
    SaveKeepsOthers(forms, r.form, now, other);
  }

  /** The form's React state. */
  class FormState {
    var name: string
    var formType: string
    var activeIngredients: seq<string>
    var newIngredient: string
    var strength: string
    var releaseType: ReleaseType
    var routeOfAdministration: RouteOfAdministration
    var description: string

    /** The blank form. */
    constructor ()
      ensures name == "" && formType == "" && activeIngredients == [] && newIngredient == ""
      ensures strength == "" && releaseType == Immediate && routeOfAdministration == Oral
      ensures description == ""
    {
      name := "";
      formType := "";
      activeIngredients := [];
      newIngredient := "";
      strength := "";
      releaseType := Immediate;
      routeOfAdministration := Oral;
      description := "";
    }

    function Current(): Fields
      reads this
    {
      Fields(name, formType, activeIngredients, strength, releaseType, routeOfAdministration, description)
    }

    /** `addIngredient`: the input joins the list and the box is cleared, or nothing happens. */
    method AddIngredient()
      modifies this
      ensures activeIngredients == WithIngredient(old(activeIngredients), old(newIngredient))
      ensures newIngredient == (if activeIngredients == old(activeIngredients) then old(newIngredient) else "")
      ensures name == old(name) && formType == old(formType) && strength == old(strength)
      ensures releaseType == old(releaseType) && routeOfAdministration == old(routeOfAdministration)
      ensures description == old(description)
    {
      var t := Trim(newIngredient);
      if t != "" && t !in activeIngredients {
        activeIngredients := activeIngredients + [t];
        newIngredient := "";
      }
    }

    /** `removeIngredient`. */
    method RemoveIngredient(ingredient: string)
      modifies this
      ensures activeIngredients == WithoutIngredient(old(activeIngredients), ingredient)
      ensures newIngredient == old(newIngredient) && Current() == old(Current()).(activeIngredients := activeIngredients)
    {
      activeIngredients := Filter(activeIngredients, i => i != ingredient);
    }

    /** The effect that fills the form from the record being edited. Returns false, leaving the
        fields alone, when there is nothing to edit or the record is not found. */
    method Load(store: Store, editId: Option<string>) returns (found: bool)
      modifies this, store
      ensures !IsEdit(editId) ==> !found && Current() == old(Current()) && store.stored == old(store.stored)
      ensures IsEdit(editId) ==> store.stored == Some(old(store.Current())) &&
                                 found == FindById(old(store.Current()), editId.value).Some?
      ensures IsEdit(editId) && found ==>
        var form := FindById(old(store.Current()), editId.value).value;
        Current() == Fields(form.name, form.formType, form.activeIngredients, form.strength,
                            form.releaseType, form.routeOfAdministration, form.description)
      ensures !found ==> Current() == old(Current())
      ensures newIngredient == old(newIngredient)
    {
      found := false;
      if IsEdit(editId) {
        var form := store.GetById(editId.value);
        if form.Some? {
          name := form.value.name;
          formType := form.value.formType;
          activeIngredients := form.value.activeIngredients;
          strength := form.value.strength;
          releaseType := form.value.releaseType;
          routeOfAdministration := form.value.routeOfAdministration;
          description := form.value.description;
          found := true;
        }
      }
    }

    /** `handleSubmit`: check the fields, build the record and save it. */
    method HandleSubmit(store: Store, editId: Option<string>, freshId: string, now: Timestamp)
      returns (outcome: SubmitOutcome)
      modifies store
      ensures outcome == Submit(Current(), editId, freshId, now, old(store.Current()))
      ensures store.stored == StoredAfter(outcome, old(store.stored), old(store.Current()), now)
    {
      if name == "" || formType == "" || |activeIngredients| == 0 || strength == "" || description == "" {
        return MissingFields;
      }
      var id := freshId;
      var createdAt := now;
      if IsEdit(editId) {
        id := editId.value;
        var existing := store.GetById(id);
        if existing.None? {
          return EditTargetMissing;
        }
        createdAt := existing.value.createdAt;
      }
      var form := DosageForm(id, name, formType, activeIngredients, strength, releaseType,
                             routeOfAdministration, description, createdAt, now);
      store.Save(form, now);
      outcome := Saved(form);
    }
  }
}
