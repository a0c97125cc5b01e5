/** The static service catalogue (`src/data/services.ts`) and its two
    lookups. Only the fields the core reads are kept: ids, names, short
    descriptions, categories and package prices. */
module ServiceCatalogue {
  import opened Common

  datatype Package = Package(id: string, name: string, price: int)

  datatype Service = Service(id: string, name: string, shortDescription: string, category: string, packages: seq<Package>)

  const Mehndi: Service :=
    Service("mehndi", "Mehndi Artist", "Traditional & bridal mehndi designs by experienced artists", "Beauty & Grooming",
      [Package("mehndi-basic", "Basic", 1500), Package("mehndi-bridal", "Bridal", 5000),
       Package("mehndi-bridal-plus", "Bridal + Extras", 8000)])

  const Dhol: Service :=
    Service("dhol", "Dhol & Music", "Professional dhol players, bands & DJ for your celebrations", "Entertainment",
      [Package("dhol-only", "Dhol Only", 3000), Package("dhol-band", "Band (3-6 people)", 15000),
       Package("dhol-dj", "Dhol + DJ Combo", 25000)])

  const Decoration: Service :=
    Service("decoration", "Decoration", "Stunning event decoration for all occasions", "Event Services",
      [Package("decor-basic", "Basic Decor", 10000), Package("decor-premium", "Premium Decor", 30000),
       Package("decor-theme", "Thematic Decor", 50000)])

  const Pandit: Service :=
    Service("pandit", "Pandit Ji", "Experienced pandits for all Hindu ceremonies & rituals", "Religious Services",
      [Package("pandit-simple", "Simple Puja", 2100), Package("pandit-wedding", "Full Wedding Rituals", 11000),
       Package("pandit-extended", "Multi-day Ceremonies", 21000)])

  const Makeup: Service :=
    Service("makeup", "Beauty & Makeup", "Professional bridal & party makeup by expert artists", "Beauty & Grooming",
      [Package("makeup-trial", "Trial Session", 3000), Package("makeup-bridal", "Bridal Makeup", 15000),
       Package("makeup-guest", "Guest Makeup", 5000)])

  const Photography: Service :=
    Service("photography", "Photography", "Professional photography & videography for your events", "Documentation",
      [Package("photo-4hr", "4-Hour Coverage", 15000), Package("photo-8hr", "8-Hour Coverage", 25000),
       Package("photo-wedding", "Full Wedding Package", 50000)])

  const Helper: Service :=
    Service("helper", "Helper Services", "Reliable helpers for cooking, cleaning & event assistance", "Home Services",
      [Package("helper-hourly", "Hourly Help", 500), Package("helper-cook", "Cooking Services", 2000),
       Package("helper-event", "Event Assistance", 5000)])

  const Shopping: Service :=
    Service("shopping", "Bhaat & Mayera Shopping", "Curated wedding essentials & traditional items", "Shopping",
      [Package("shopping-basic", "Essential Set", 5000), Package("shopping-premium", "Premium Collection", 15000),
       Package("shopping-custom", "Custom Order", 25000)])

  /** The eight services, in the order the site lists them. */
  const Catalogue: seq<Service> := [Mehndi, Dhol, Decoration, Pandit, Makeup, Photography, Helper, Shopping]

  /** `getServiceById(id)` over a catalogue: the first service with that id. */
  function ServiceById(services: seq<Service>, id: string): (r: Option<Service>)
    ensures r.Some? ==> r.value in services && r.value.id == id
    ensures r.Some? ==>
      exists k :: 0 <= k < |services| && services[k] == r.value && forall j :: 0 <= j < k ==> services[j].id != id
    ensures r.None? <==> forall i :: 0 <= i < |services| ==> services[i].id != id
  {
    match FindFirst((s: Service) => s.id == id, services)
    case None => None
    case Some(k) => Some(services[k])
  }

  /** `getServicesByCategory(category)`: exactly the services of that category, in catalogue order. */
  function ServicesByCategory(services: seq<Service>, category: string): (r: seq<Service>)
    ensures forall i :: 0 <= i < |r| ==> r[i].category == category
    ensures forall s :: s in services && s.category == category ==> s in r
    ensures forall s :: multiset(r)[s] == if s.category == category then multiset(services)[s] else 0
    ensures SubsequenceOf(r, services)
  {
    FilterIsSubsequence((s: Service) => s.category == category, services);
    Filter((s: Service) => s.category == category, services)
  }

  /** `service.packages.find(p => p.id === packageId)`. */
  function PackageById(service: Service, packageId: string): (r: Option<Package>)
    ensures r.Some? ==> r.value in service.packages && r.value.id == packageId
    ensures r.Some? ==>
      exists k :: 0 <= k < |service.packages| && service.packages[k] == r.value
        && forall j :: 0 <= j < k ==> service.packages[j].id != packageId
    ensures r.None? <==> forall i :: 0 <= i < |service.packages| ==> service.packages[i].id != packageId
  {
    match FindFirst((p: Package) => p.id == packageId, service.packages)
    case None => None
    case Some(k) => Some(service.packages[k])
  }

  /** With distinct ids, a lookup by the id of a listed service returns that very service. */
  lemma ServiceByIdFindsListed(services: seq<Service>, k: nat)
    requires k < |services|
    requires forall i, j :: 0 <= i < j < |services| ==> services[i].id != services[j].id
    ensures ServiceById(services, services[k].id) == Some(services[k])
  {
    var r := FindFirst((s: Service) => s.id == services[k].id, services);
    assert r.Some?;
  }

  /** The eight service ids of the catalogue are pairwise distinct. */
  lemma CatalogueIdsDistinct()
    ensures |Catalogue| == 8
    ensures forall i, j :: 0 <= i < j < |Catalogue| ==> Catalogue[i].id != Catalogue[j].id
  {
  }

  /** A service with three packages, each priced at a positive multiple of 100 rupees. */
  predicate WellPriced(s: Service) {
    |s.packages| == 3 && forall i :: 0 <= i < 3 ==> s.packages[i].price > 0 && s.packages[i].price % 100 == 0
  }

  /** Each package of a well-priced service costs a positive multiple of 100. */
  lemma WellPricedPackage(s: Service, p: Package)
    requires WellPriced(s) && p in s.packages
    ensures p.price > 0 && p.price % 100 == 0 && p.price % 10 == 0
  {
    var i :| 0 <= i < |s.packages| && s.packages[i] == p;
    var m := p.price / 100;
    assert p.price == 10 * (10 * m);
  }

  /** The first four services are well priced. */
  lemma FirstFourPriced()
    ensures WellPriced(Mehndi) && WellPriced(Dhol) && WellPriced(Decoration) && WellPriced(Pandit)
  {
  }

  /** The last four services are well priced. */
  lemma LastFourPriced()
    ensures WellPriced(Makeup) && WellPriced(Photography) && WellPriced(Helper) && WellPriced(Shopping)
  {
  }

  /** Every catalogue service is well priced, so a 10% deposit is always a whole number of rupees. */
  lemma CataloguePrices()
    ensures forall i :: 0 <= i < |Catalogue| ==> WellPriced(Catalogue[i])
  {
    FirstFourPriced();
    LastFourPriced();
  }
}
