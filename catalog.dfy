/**
 * The studio's fixed list of services and the tag lookup behind the
 * "Use suggestion" button.
 */
module Catalog {
  import opened Wrappers
  import opened Text

  /** One offering of the studio; `price` is a whole amount in rupees. */
  datatype Service = Service(
    id: string,
    title: string,
    desc: string,
    price: int,
    duration: string,
    tag: string)

  const SERVICES: seq<Service> := [
    Service("prints-8x10", "8x10 Photo Print",
      "High-quality glossy print on archival paper.", 250, "1 day", "Print"),
    Service("framing-basic", "Basic Frame (A4)",
      "Wooden frame with glass. Multiple finishes available.", 800, "2 days", "Frame"),
    Service("restoration", "Photo Restoration",
      "Remove scratches, color-correct and restore old photos.", 1200, "3-5 days", "Editing"),
    Service("passport", "Passport / ID Photos",
      "Studio-lit, compliant passport photos, printed instantly.", 250, "Same day", "ID"),
    Service("event-mini", "Mini Event Shoot (2 hrs)",
      "2 hours coverage, 30 edited photos delivered digitally.", 5000, "1 week", "Shoot"),
    Service("pro-edit", "Professional Editing (per photo)",
      "Retouching, color grading, background removal.", 400, "2 days", "Editing")
  ]

  /** The catalog is non-empty, its ids are unique and every price is positive. */
  lemma CatalogWellFormed()
    ensures |SERVICES| == 6
    ensures forall i, j :: 0 <= i < j < |SERVICES| ==> SERVICES[i].id != SERVICES[j].id
    ensures forall s :: s in SERVICES ==> s.price > 0
  {
  }

  /** The tags compare equal once both are lower-cased. */
  predicate TagMatches(s: Service, tag: string) {
    Lower(s.tag) == Lower(tag)
  }

  /** `k` is the first position of `catalog` whose tag matches. */
  ghost predicate FirstWithTag(catalog: seq<Service>, tag: string, k: int) {
    0 <= k < |catalog| && TagMatches(catalog[k], tag) &&
    forall j :: 0 <= j < k ==> !TagMatches(catalog[j], tag)
  }

  /**
   * The lookup behind "Use suggestion":
   * the first service whose tag equals `tag` ignoring case, if any.
   */
  function FindTag(catalog: seq<Service>, tag: string): (r: Option<Service>)
    ensures r.None? <==> forall k :: 0 <= k < |catalog| ==> !TagMatches(catalog[k], tag)
    ensures r.Some? ==> r.value in catalog && TagMatches(r.value, tag)
    ensures r.Some? ==> exists k :: FirstWithTag(catalog, tag, k) && catalog[k] == r.value
  {
    if catalog == [] then None
    else if TagMatches(catalog[0], tag) then
      assert FirstWithTag(catalog, tag, 0); Some(catalog[0])
    else
      var r := FindTag(catalog[1..], tag);
      assert r.Some? ==> exists k :: FirstWithTag(catalog, tag, k) && catalog[k] == r.value by {
        if r.Some? {
          var k :| FirstWithTag(catalog[1..], tag, k) && catalog[1..][k] == r.value;
          assert FirstWithTag(catalog, tag, k + 1);
        }
      }
      assert r.None? ==> forall k :: 0 <= k < |catalog| ==> !TagMatches(catalog[k], tag) by {
        if r.None? {
          forall k | 0 < k < |catalog| ensures !TagMatches(catalog[k], tag) {
            assert catalog[k] == catalog[1..][k - 1];
          }
        }
      }
      r
  }
}
