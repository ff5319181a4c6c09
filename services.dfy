/** The public "Services" page: featured categories and the category search. */
module Services {
  import opened Text
  import Seqs

  /** A service category card (the icon component is left out). */
  datatype Service = Service(title: string, description: string, count: string, featured: bool)

  /** `featuredServices`: the featured categories, in catalogue order. It takes no search term. */
  function FeaturedServices(catalog: seq<Service>): (r: seq<Service>)
    ensures Seqs.IsSubsequence(r, catalog)
    ensures forall s :: s in r ==> s in catalog && s.featured
    ensures forall i :: 0 <= i < |catalog| && catalog[i].featured ==> catalog[i] in r
    ensures forall s :: s in catalog ==> multiset(r)[s] == if s.featured then multiset(catalog)[s] else 0
  {
    Seqs.Filter(catalog, (s: Service) => s.featured)
  }

  predicate MatchesSearch(s: Service, term: string) {
    IncludesIgnoringCase(s.title, term) || IncludesIgnoringCase(s.description, term)
  }

  /** `filteredServices`: the categories whose title or description contains the term, ignoring case, in order. */
  function FilteredServices(catalog: seq<Service>, searchTerm: string): (r: seq<Service>)
    ensures Seqs.IsSubsequence(r, catalog)
    ensures forall s :: s in r ==> s in catalog && MatchesSearch(s, searchTerm)
    ensures forall i :: 0 <= i < |catalog| && MatchesSearch(catalog[i], searchTerm) ==> catalog[i] in r
    ensures forall s :: s in catalog ==> multiset(r)[s] == if MatchesSearch(s, searchTerm) then multiset(catalog)[s] else 0
  {
    Seqs.Filter(catalog, s => MatchesSearch(s, searchTerm))
  }

  /** An empty search term lists the whole catalogue, in order. */
  lemma EmptySearchKeepsAll(catalog: seq<Service>)
    ensures FilteredServices(catalog, "") == catalog
  {
    forall i | 0 <= i < |catalog| ensures MatchesSearch(catalog[i], "") {
      EmptyIsIncluded(ToLower(catalog[i].title));
    }
    Seqs.FilterKeepsAll(catalog, s => MatchesSearch(s, ""));
  }
}
