/** The service listing (`src/pages/Services.tsx`): the search and category
    filter over the catalogue and the category selector's entries. */
module ServicesPage {
  import opened Common
  import opened Strings
  import opened ServiceCatalogue

  /** The search box matches the name or the short description, ignoring case; tags are not searched. */
  predicate MatchesSearch(s: Service, query: string) {
    IncludesIgnoringCase(s.name, query) || IncludesIgnoringCase(s.shortDescription, query)
  }

  predicate MatchesCategory(s: Service, category: string) {
    category == "all" || s.category == category
  }

  predicate Shown(s: Service, query: string, category: string) {
    MatchesSearch(s, query) && MatchesCategory(s, category)
  }

  /** `filteredServices`: the services passing both tests, in catalogue order. */
  function FilteredServices(services: seq<Service>, query: string, category: string): (r: seq<Service>)
    ensures forall s :: s in r <==> s in services && MatchesSearch(s, query) && MatchesCategory(s, category)
    ensures forall s :: multiset(r)[s] == if MatchesSearch(s, query) && MatchesCategory(s, category) then multiset(services)[s] else 0
    ensures SubsequenceOf(r, services)
  {
    FilterIsSubsequence((s: Service) => Shown(s, query, category), services);
    Filter((s: Service) => Shown(s, query, category), services)
  }

  /** With an empty search the page lists exactly what `getServicesByCategory`
      returns for the chosen category, and with `'all'` the whole catalogue. */
  lemma EmptyQueryIsCategoryLookup(services: seq<Service>, category: string)
    requires category != "all"
    ensures FilteredServices(services, "", category) == ServicesByCategory(services, category)
    ensures FilteredServices(services, "", "all") == services
  {
    forall s: Service ensures MatchesSearch(s, "") {
      EmptyQueryMatches(s.name);
    }
    FilterCongruent((s: Service) => Shown(s, "", category), (s: Service) => s.category == category, services);
    FilterAll((s: Service) => Shown(s, "", "all"), services);
  }

  function CategoryOf(s: Service): string { s.category }

  /** `['all', ...Array.from(new Set(services.map(s => s.category)))]`. */
  function Categories(services: seq<Service>): seq<string> {
    SelectorEntries(CategoryOf, services)
  }

  /** Every category the selector offers besides `'all'` lists at least one service. */
  lemma OfferedCategoriesNonEmpty(services: seq<Service>, k: nat)
    requires 1 <= k < |Categories(services)|
    ensures ServicesByCategory(services, Categories(services)[k]) != []
  {
    var c := Categories(services)[k];
    assert c in Categories(services)[1..] by { assert Categories(services)[1..][k - 1] == c; }
    var i :| 0 <= i < |services| && services[i].category == c;
    assert services[i] in ServicesByCategory(services, c);
  }
}
