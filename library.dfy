/** The search and release-type filter of the library page (src/pages/Library.tsx). */
module Library {
  import opened DosageTypes
  import opened Sequences
  import opened Text

  /** Some active ingredient, lower-cased, includes the lower-cased query. */
  predicate SomeIngredientMatches(ingredients: seq<string>, loweredQuery: string)
  {
    exists i :: 0 <= i < |ingredients| && Includes(Lower(ingredients[i]), loweredQuery)
  }

  /** The search test: the lower-cased query occurs in the lower-cased name, type or some ingredient. */
  predicate MatchesSearch(form: DosageForm, searchQuery: string)
  {
    var q := Lower(searchQuery);
    Includes(Lower(form.name), q) || Includes(Lower(form.formType), q) ||
    SomeIngredientMatches(form.activeIngredients, q)
  }

  /** The release test: the filter is "all" or the form's release tag equals it. */
  predicate MatchesRelease(form: DosageForm, releaseFilter: string)
  {
    releaseFilter == "all" || ReleaseTypeName(form.releaseType) == releaseFilter
  }

  predicate Matches(form: DosageForm, searchQuery: string, releaseFilter: string)
  {
    MatchesSearch(form, searchQuery) && MatchesRelease(form, releaseFilter)
  }

  /** `filteredForms`: the forms passing both tests, in library order. */
  function FilteredForms(forms: seq<DosageForm>, searchQuery: string, releaseFilter: string)
    : (r: seq<DosageForm>)
    ensures Subsequence(r, forms)
    ensures forall i :: 0 <= i < |r| ==> Matches(r[i], searchQuery, releaseFilter)
    ensures forall i :: 0 <= i < |forms| && Matches(forms[i], searchQuery, releaseFilter) ==> forms[i] in r
    ensures forall f: DosageForm ::
              multiset(r)[f] == if Matches(f, searchQuery, releaseFilter) then multiset(forms)[f] else 0
  {
    FilterIsSubsequence(forms, f => Matches(f, searchQuery, releaseFilter));
    assert forall f: DosageForm :: multiset(Filter(forms, g => Matches(g, searchQuery, releaseFilter)))[f]
             == if Matches(f, searchQuery, releaseFilter) then multiset(forms)[f] else 0 by {
      forall f: DosageForm {
        FilterCount(forms, g => Matches(g, searchQuery, releaseFilter), f);
      }
    }
    Filter(forms, f => Matches(f, searchQuery, releaseFilter))
  }

  /** With the filter "all" a form passes the release test; otherwise exactly when its type has that tag. */
  lemma ReleaseFilterMeaning(form: DosageForm, releaseFilter: string)
    ensures releaseFilter == "all" ==> MatchesRelease(form, releaseFilter)
    ensures releaseFilter != "all" ==>
              (MatchesRelease(form, releaseFilter) <==> ReleaseTypeName(form.releaseType) == releaseFilter)
    ensures MatchesRelease(form, ReleaseTypeName(form.releaseType))
  {
  }

  /** An empty query matches every form, so only the release filter is left. */
  lemma EmptyQuery(forms: seq<DosageForm>, releaseFilter: string)
    ensures FilteredForms(forms, "", releaseFilter) == Filter(forms, f => MatchesRelease(f, releaseFilter))
  {
    forall f: DosageForm ensures MatchesSearch(f, "") {
      IncludesEmpty(Lower(f.name));
    }
    FilterCongruent(forms, f => Matches(f, "", releaseFilter), f => MatchesRelease(f, releaseFilter));
  }

  /** With the filter "all" only the search is left. */
  lemma AllReleaseTypes(forms: seq<DosageForm>, searchQuery: string)
    ensures FilteredForms(forms, searchQuery, "all") == Filter(forms, f => MatchesSearch(f, searchQuery))
  {
    FilterCongruent(forms, f => Matches(f, searchQuery, "all"), f => MatchesSearch(f, searchQuery));
  }

  /** The search ignores the case of the query: queries that lower-case alike give the same list. */
  lemma SearchIgnoresCase(forms: seq<DosageForm>, q1: string, q2: string, releaseFilter: string)
    requires Lower(q1) == Lower(q2)
    ensures FilteredForms(forms, q1, releaseFilter) == FilteredForms(forms, q2, releaseFilter)
  {
    FilterCongruent(forms, f => Matches(f, q1, releaseFilter), f => Matches(f, q2, releaseFilter));
  }

  /** In particular an upper-cased query finds the same forms. */
  lemma UpperCaseQuery(forms: seq<DosageForm>, searchQuery: string, releaseFilter: string)
    ensures FilteredForms(forms, Upper(searchQuery), releaseFilter) == FilteredForms(forms, searchQuery, releaseFilter)
  {
    LowerOfUpper(searchQuery);
    SearchIgnoresCase(forms, Upper(searchQuery), searchQuery, releaseFilter);
  }

  /** Narrowing the search and the release filter one after the other is the same as both at once. */
  lemma FilterInStages(forms: seq<DosageForm>, searchQuery: string, releaseFilter: string)
    ensures Filter(Filter(forms, f => MatchesRelease(f, releaseFilter)), f => MatchesSearch(f, searchQuery))
            == FilteredForms(forms, searchQuery, releaseFilter)
  {
    var p := f => MatchesRelease(f, releaseFilter);
    var q := f => MatchesSearch(f, searchQuery);
    FilterFilter(forms, p, q, f => Matches(f, searchQuery, releaseFilter));
  }
}
