/** The worker search of the public "Find Workers" page. */
module SearchWorkers {
  import opened Text
  import Seqs

  /** The fields of a worker card the filter reads (ratings and prices are display-only). */
  datatype Worker = Worker(
    id: int,
    name: string,
    category: string,
    location: string,
    specialties: seq<string>)

  /** The page's state cells: search box, category and location dropdowns, sort dropdown. */
  datatype SearchState = SearchState(
    searchTerm: string,
    selectedCategory: string,
    selectedLocation: string,
    sortBy: string)

  /** `useState` initial values. */
  const INITIAL_STATE := SearchState("", "", "", "rating")

  predicate MatchesSearch(w: Worker, term: string) {
    IncludesIgnoringCase(w.name, term) ||
    IncludesIgnoringCase(w.category, term) ||
    exists i | 0 <= i < |w.specialties| :: IncludesIgnoringCase(w.specialties[i], term)
  }

  /** An empty dropdown value is "All"; otherwise the value must be equal, case included. */
  predicate MatchesChoice(value: string, selected: string) {
    selected == "" || value == selected
  }

  predicate Matches(st: SearchState, w: Worker) {
    MatchesSearch(w, st.searchTerm) &&
    MatchesChoice(w.category, st.selectedCategory) &&
    MatchesChoice(w.location, st.selectedLocation)
  }

  /** `filteredWorkers`: the workers passing all three tests, in the order of `workers`. */
  function FilteredWorkers(workers: seq<Worker>, st: SearchState): (r: seq<Worker>)
    ensures Seqs.IsSubsequence(r, workers)
    ensures forall w :: w in r ==> w in workers && Matches(st, w)
    ensures forall i :: 0 <= i < |workers| && Matches(st, workers[i]) ==> workers[i] in r
    ensures st.selectedCategory != "" ==> forall w :: w in r ==> w.category == st.selectedCategory
    ensures st.selectedLocation != "" ==> forall w :: w in r ==> w.location == st.selectedLocation
    ensures forall w :: w in workers ==> multiset(r)[w] == if Matches(st, w) then multiset(workers)[w] else 0
  {
    Seqs.Filter(workers, w => Matches(st, w))
  }

  /** With an empty term and both dropdowns on "All", every worker is listed, in order. */
  lemma EmptyFiltersKeepAll(workers: seq<Worker>, sortBy: string)
    ensures FilteredWorkers(workers, SearchState("", "", "", sortBy)) == workers
  {
    var st := SearchState("", "", "", sortBy);
    forall i | 0 <= i < |workers| ensures Matches(st, workers[i]) {
      EmptyIsIncluded(ToLower(workers[i].name));
    }
    Seqs.FilterKeepsAll(workers, w => Matches(st, w));
  }

  /** The sort dropdown is never read: the result does not depend on it. */
  lemma SortByIsIgnored(workers: seq<Worker>, st: SearchState, sortBy: string)
    ensures FilteredWorkers(workers, st.(sortBy := sortBy)) == FilteredWorkers(workers, st)
  {
    var st' := st.(sortBy := sortBy);
    forall i | 0 <= i < |workers| ensures Matches(st', workers[i]) == Matches(st, workers[i]) {
      assert st'.searchTerm == st.searchTerm;
    }
    Seqs.FilterCongruent(workers, w => Matches(st', w), w => Matches(st, w));
  }

  /** Search terms that differ only in letter case select the same workers. */
  lemma SearchIgnoresTermCase(workers: seq<Worker>, st: SearchState, term: string)
    requires EqualIgnoringCase(term, st.searchTerm)
    ensures FilteredWorkers(workers, st.(searchTerm := term)) == FilteredWorkers(workers, st)
  {
    ToLowerEqualIff(term, st.searchTerm);
    var st' := st.(searchTerm := term);
    forall i | 0 <= i < |workers| ensures Matches(st', workers[i]) == Matches(st, workers[i]) {
      SearchDependsOnLowerCaseTerm(workers[i], term, st.searchTerm);
    }
    Seqs.FilterCongruent(workers, w => Matches(st', w), w => Matches(st, w));
  }

  lemma SearchDependsOnLowerCaseTerm(w: Worker, t1: string, t2: string)
    requires ToLower(t1) == ToLower(t2)
    ensures MatchesSearch(w, t1) == MatchesSearch(w, t2)
  {
  }
}
