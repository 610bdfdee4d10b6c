/** The record store of src/lib/dosageFormStore.ts: an ordered list of records keyed by
    string id. The browser's localStorage is a field of the `Store` class holding the
    persisted list, or `None` while nothing has been written yet. */
module DosageFormStore {
  import opened DosageTypes
  import opened Sequences

  /** The three demonstration records written on first use. */
  function SampleForms(): seq<DosageForm>
  {
    [IbuprofenTablet(), MetforminTablet(), NicotinePatch()]
  }

  function IbuprofenTablet(): (f: DosageForm)
    ensures f.id == "1" && f.releaseType == Immediate
  {
    DosageForm("1", "Ibuprofen Tablet", "Tablet", ["Ibuprofen"], "400 mg", Immediate, Oral,
               "Non-steroidal anti-inflammatory drug (NSAID) for pain and inflammation relief.",
               1705276800000, 1705276800000)   // 2024-01-15
  }

  function MetforminTablet(): (f: DosageForm)
    ensures f.id == "2" && f.releaseType == Extended
  {
    DosageForm("2", "Extended Release Metformin", "Tablet", ["Metformin Hydrochloride"], "500 mg",
               Extended, Oral,
               "Extended-release antidiabetic medication for type 2 diabetes management.",
               1705708800000, 1705708800000)   // 2024-01-20
  }

  function NicotinePatch(): (f: DosageForm)
    ensures f.id == "3" && f.releaseType == Controlled
  {
    DosageForm("3", "Nicotine Transdermal Patch", "Transdermal Patch", ["Nicotine"], "21 mg/24h",
               Controlled, Transdermal,
               "Controlled-release nicotine patch for smoking cessation therapy.",
               1706745600000, 1706745600000)   // 2024-02-01
  }

  /** No two records share an id. */
  ghost predicate IdsDistinct(forms: seq<DosageForm>)
  {
    forall i, j :: 0 <= i < j < |forms| ==> forms[i].id != forms[j].id
  }

  /** `forms.findIndex(f => f.id === id)`: the first index holding `id`, or -1. */
  function IndexOf(forms: seq<DosageForm>, id: string): (k: int)
    ensures -1 <= k < |forms|
    ensures k >= 0 ==> forms[k].id == id && forall j :: 0 <= j < k ==> forms[j].id != id
    ensures k < 0 ==> forall j :: 0 <= j < |forms| ==> forms[j].id != id
  {
    if forms == [] then -1
    else if forms[0].id == id then 0
    else
      var k := IndexOf(forms[1..], id);
      if k < 0 then -1 else k + 1
  }

  /** `getById`: the first record with that id, if any. */
  function FindById(forms: seq<DosageForm>, id: string): (r: Option<DosageForm>)
    ensures r.None? <==> forall j :: 0 <= j < |forms| ==> forms[j].id != id
    ensures r.Some? ==> exists k :: 0 <= k < |forms| && forms[k] == r.value && r.value.id == id &&
                                    forall j :: 0 <= j < k ==> forms[j].id != id
  {
    var k := IndexOf(forms, id);
    if k >= 0 then Some(forms[k]) else None
  }

  /** `save`: replace the first record with the same id, stamping `updatedAt` with `now`;
      with no such record, append `form` unchanged. */
  function Upsert(forms: seq<DosageForm>, form: DosageForm, now: Timestamp): (r: seq<DosageForm>)
    ensures (forall j :: 0 <= j < |forms| ==> forms[j].id != form.id) ==>
              |r| == |forms| + 1 && r[..|forms|] == forms && r[|forms|] == form
    ensures (exists j :: 0 <= j < |forms| && forms[j].id == form.id) ==>
              |r| == |forms| &&
              var k := IndexOf(forms, form.id);
              r[k] == form.(updatedAt := now) &&
              forall j :: 0 <= j < |forms| && j != k ==> r[j] == forms[j]
  {
    var k := IndexOf(forms, form.id);
    if k >= 0 then forms[k := form.(updatedAt := now)] else forms + [form]
  }

  predicate HasOtherId(form: DosageForm, id: string)
  {
    form.id != id
  }

  /** `delete`: every record with that id filtered out. */
  function RemoveId(forms: seq<DosageForm>, id: string): (r: seq<DosageForm>)
    ensures |r| <= |forms|
    ensures forall i :: 0 <= i < |r| ==> r[i].id != id && r[i] in forms
    ensures forall i :: 0 <= i < |forms| && forms[i].id != id ==> forms[i] in r
    ensures forall f: DosageForm :: multiset(r)[f] == if f.id != id then multiset(forms)[f] else 0
  {
    assert forall f: DosageForm :: multiset(Filter(forms, g => HasOtherId(g, id)))[f]
                                    == if f.id != id then multiset(forms)[f] else 0 by {
      forall f: DosageForm {
        FilterCount(forms, g => HasOtherId(g, id), f);
      }
    }
    Filter(forms, f => HasOtherId(f, id))
  }

  /** After a save, looking the id up finds the saved record (re-stamped when it replaced one). */
  lemma SaveThenGet(forms: seq<DosageForm>, form: DosageForm, now: Timestamp)
    ensures FindById(Upsert(forms, form, now), form.id) ==
            if IndexOf(forms, form.id) >= 0 then Some(form.(updatedAt := now)) else Some(form)
  {
    var k := IndexOf(forms, form.id);
    var r := Upsert(forms, form, now);
    if k >= 0 {
      assert forall j :: 0 <= j < k ==> r[j] == forms[j];
      assert IndexOf(r, form.id) == k;
    } else {
      assert forall j :: 0 <= j < |forms| ==> r[j] == forms[j];
      assert IndexOf(r, form.id) == |forms|;
    }
  }

  /** A save leaves every other id's lookup as it was. */
  lemma SaveKeepsOthers(forms: seq<DosageForm>, form: DosageForm, now: Timestamp, other: string)
    requires other != form.id
    ensures FindById(Upsert(forms, form, now), other) == FindById(forms, other)
  {
    var r := Upsert(forms, form, now);
    var k := IndexOf(forms, other);
    assert forall j :: 0 <= j < |forms| && forms[j].id != form.id ==> r[j] == forms[j];
    assert forall j :: 0 <= j < |forms| ==> (r[j].id == other <==> forms[j].id == other);
    if k >= 0 {
      assert IndexOf(r, other) == k;
    } else {
      assert IndexOf(r, other) < 0;
    }
  }

  /** Saving keeps ids distinct. */
  lemma SaveKeepsIdsDistinct(forms: seq<DosageForm>, form: DosageForm, now: Timestamp)
    requires IdsDistinct(forms)
    ensures IdsDistinct(Upsert(forms, form, now))
  {
    var r := Upsert(forms, form, now);
    var k := IndexOf(forms, form.id);
    assert forall j :: 0 <= j < |forms| ==> r[j].id == forms[j].id;
  }

  /** After a delete the id is gone, the other records stay in their order, and at most the
      deleted ones are missing. */
  lemma {:induction false} DeleteRemoves(forms: seq<DosageForm>, id: string)
    ensures FindById(RemoveId(forms, id), id).None?
    ensures Subsequence(RemoveId(forms, id), forms)
    ensures forall j :: 0 <= j < |forms| && forms[j].id != id ==> forms[j] in RemoveId(forms, id)
    ensures forall f: DosageForm ::
              multiset(RemoveId(forms, id))[f] == if f.id != id then multiset(forms)[f] else 0
  {
    FilterIsSubsequence(forms, f => HasOtherId(f, id));
  }

  /** Deleting an id that is not there changes nothing. */
  lemma DeleteAbsent(forms: seq<DosageForm>, id: string)
    requires FindById(forms, id).None?
    ensures RemoveId(forms, id) == forms
  {
    FilterAll(forms, f => HasOtherId(f, id));
  }

  /** A delete leaves every other id's lookup as it was. */
  lemma {:induction false} DeleteKeepsOthers(forms: seq<DosageForm>, id: string, other: string)
    requires other != id
    ensures FindById(RemoveId(forms, id), other) == FindById(forms, other)
  {
    if forms != [] {
      var rest := RemoveId(forms[1..], id);
      DeleteKeepsOthers(forms[1..], id, other);
      FindByIdCons(forms, other);
      if forms[0].id != id {
        var r := [forms[0]] + rest;
        assert RemoveId(forms, id) == r;
        assert r[0] == forms[0] && r[1..] == rest;
        FindByIdCons(r, other);
      }
    }
  }

  /** Looking up in a non-empty list checks its head first. */
  lemma FindByIdCons(forms: seq<DosageForm>, id: string)
    requires forms != []
    ensures FindById(forms, id) == if forms[0].id == id then Some(forms[0]) else FindById(forms[1..], id)
  {
    if forms[0].id != id {
      var k := IndexOf(forms[1..], id);
      if k >= 0 {
        assert forms[1..][k] == forms[k + 1];
      }
    }
  }

  /** Deleting keeps ids distinct. */
  lemma DeleteKeepsIdsDistinct(forms: seq<DosageForm>, id: string)
    requires IdsDistinct(forms)
    ensures IdsDistinct(RemoveId(forms, id))
  {
    IdsDistinctFilter(forms, f => HasOtherId(f, id));
  }

  lemma {:induction false} IdsDistinctFilter(forms: seq<DosageForm>, p: DosageForm -> bool)
    requires IdsDistinct(forms)
    ensures IdsDistinct(Filter(forms, p))
  {
    if forms != [] {
      IdsDistinctFilter(forms[1..], p);
      var rest := Filter(forms[1..], p);
      if p(forms[0]) {
        forall j | 0 <= j < |rest| ensures rest[j].id != forms[0].id {
          assert rest[j] in forms[1..];
        }
        assert Filter(forms, p) == [forms[0]] + rest;
      }
    }
  }

  /** The sample records have distinct ids. */
  lemma SampleIdsDistinct()
    ensures IdsDistinct(SampleForms())
  {
    SampleIds();
  }

  /** The sample records carry the ids "1", "2" and "3", in that order. */
  lemma SampleIds()
    ensures |SampleForms()| == 3
    ensures SampleForms()[0].id == "1" && SampleForms()[1].id == "2" && SampleForms()[2].id == "3"
  {
  }

  /** There is one sample record per release kind: immediate, extended, controlled. */
  lemma SampleKinds()
    ensures |SampleForms()| == 3
    ensures SampleForms()[0].releaseType == Immediate && SampleForms()[1].releaseType == Extended
    ensures SampleForms()[2].releaseType == Controlled
  {
  }

  /** The persisted store. */
  class Store {
    /** The list saved under the storage key, or `None` while no list has been saved. */
    var stored: Option<seq<DosageForm>>
    /** The records written on first use: the module's sample list. */
    const samples: seq<DosageForm>

    constructor ()
      ensures stored == None && samples == SampleForms()
    {
      stored := None;
      samples := SampleForms();
    }

    /** What `getAll` would return now. */
    function Current(): seq<DosageForm>
      reads this
    {
      match stored
      case None => samples
      case Some(forms) => forms
    }

    /** `getAll`: the saved list; on first use the sample records, which are saved as well. */
    method GetAll() returns (forms: seq<DosageForm>)
      modifies this
      ensures forms == old(Current())
      ensures old(stored).None? ==> forms == samples
      ensures stored == Some(forms)
    {
      match stored {
        case Some(s) =>
          forms := s;
        case None =>
          stored := Some(samples);
          forms := samples;
      }
    }

    /** `getById`. */
    method GetById(id: string) returns (r: Option<DosageForm>)
      modifies this
      ensures r == FindById(old(Current()), id)
      ensures stored == Some(old(Current()))
    {
      var forms := GetAll();
      r := FindById(forms, id);
    }

    /** `save`: `forms[index] = ...` in place when the id is present, `push` otherwise. */
    method Save(form: DosageForm, now: Timestamp)
      modifies this
      ensures stored == Some(Upsert(old(Current()), form, now))
    {
      var forms := GetAll();
      var index := IndexOf(forms, form.id);
      if index >= 0 {
        forms := forms[index := form.(updatedAt := now)];
      } else {
        forms := forms + [form];
      }
      stored := Some(forms);
    }

    /** `delete`. */
    method Delete(id: string)
      modifies this
      ensures stored == Some(RemoveId(old(Current()), id))
    {
      var forms := GetAll();
      stored := Some(RemoveId(forms, id));
    }
  }
}
