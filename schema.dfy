/**
 * The JSON-LD builder: `generateSchema` produces a JSON-LD node object whose
 * `@context` and `@type` keywords (sections 3.1 and 3.5 of the JSON-LD 1.1
 * W3C Recommendation) are set first, then overlaid by the page data, and
 * for the types "Course", "Event" and "Blog" given the organisation as
 * `publisher` and `provider`. The per-page generators feed it with `||`
 * defaults.
 */
module JsonLd {
  import opened Wrappers

  /** A JavaScript value as it can appear in the schema; `Undefined` is a key set to `undefined`. */
  datatype Json =
    | Undefined
    | Null
    | Bool(b: bool)
    | Number(n: real)
    | Str(s: string)
    | Array(items: seq<Json>)
    | Object(fields: map<string, Json>)

  /** JavaScript truthiness. */
  predicate Truthy(v: Json) {
    match v
    case Undefined => false
    case Null => false
    case Bool(b) => b
    case Number(n) => n != 0.0
    case Str(s) => s != ""
    case Array(_) => true
    case Object(_) => true
  }

  /** `a || b`. */
  function Or(a: Json, b: Json): Json {
    if Truthy(a) then a else b
  }

  /** `data.key` on a plain object: `undefined` when the key is missing. */
  function Get(data: map<string, Json>, key: string): Json {
    if key in data then data[key] else Undefined
  }

  /** `v?.key`: `undefined` unless `v` is an object holding `key`. */
  function Member(v: Json, key: string): Json {
    if v.Object? then Get(v.fields, key) else Undefined
  }

  /** `PUBLIC_SITE_URL` as a value: `undefined` when unset. */
  function SiteUrl(site: Option<string>): Json {
    if site.Some? then Str(site.value) else Undefined
  }

  // ---------------------------------------------------------------------------
  // schemaTypes and baseOrganization
  // ---------------------------------------------------------------------------

  /** The keys of `schemaTypes`. */
  datatype SchemaKey =
    | HomeKey | BlogKey | PostingKey | CoursesKey | CourseKey | LandingPageKey | InstructorKey
    | EventKey | OrganizationKey | ContactKey | FaqKey | CalendarKey | PartnersKey

  /**
   * `schemaTypes[key]`: the schema.org type name of each page kind. Three
   * names are shared: home and organization are both "Organization",
   * courses and partners "ItemList", landing page and calendar "WebPage".
   */
  function SchemaTypeName(key: SchemaKey): (name: string)
    ensures name == "Organization" <==> key in {HomeKey, OrganizationKey}
    ensures name == "ItemList" <==> key in {CoursesKey, PartnersKey}
    ensures name == "WebPage" <==> key in {LandingPageKey, CalendarKey}
  {
    match key
    case HomeKey => "Organization"
    case BlogKey => "Blog"
    case PostingKey => "BlogPosting"
    case CoursesKey => "ItemList"
    case CourseKey => "Course"
    case LandingPageKey => "WebPage"
    case InstructorKey => "Person"
    case EventKey => "Event"
    case OrganizationKey => "Organization"
    case ContactKey => "ContactPage"
    case FaqKey => "FAQPage"
    case CalendarKey => "WebPage"
    case PartnersKey => "ItemList"
  }

  /** `["Course", "Event", "Blog"].includes(type)`: the types that get the organisation attached. */
  predicate Published(typ: string)
    ensures Published(typ) <==> typ in ["Course", "Event", "Blog"]
  {
    typ == "Course" || typ == "Event" || typ == "Blog"
  }

  /** Of all page kinds, exactly Blog, Course and Event are organisation-published. */
  lemma PublishedKinds(key: SchemaKey)
    ensures Published(SchemaTypeName(key)) <==> key in {BlogKey, CourseKey, EventKey}
  {
  }

  /** `baseOrganization`. */
  function BaseOrganization(site: Option<string>): (org: Json)
    ensures org.Object? && org.fields.Keys == {"@type", "name", "url", "logo", "sameAs"}
    ensures org.fields["@type"] == Str("Organization") && org.fields["url"] == SiteUrl(site)
  {
    Object(map[
      "@type" := Str("Organization"),
      "name" := Str("Live Fire Instruction"),
      "url" := SiteUrl(site),
      "logo" := Str("/images/LiveFireInstruction.png"),
      "sameAs" := Array([Str("https://facebook.com/livefireinstruction"),
                         Str("https://instagram.com/livefireinstruction")])
    ])
  }

  // ---------------------------------------------------------------------------
  // generateSchema
  // ---------------------------------------------------------------------------

  const FixedKeys: set<string> := {"@context", "@type"}
  const OrganizationKeys: set<string> := {"publisher", "provider"}

  /**
   * `generateSchema(type, pageData)`: the page data overrides `@context`
   * and `@type` when it supplies them, is otherwise copied unchanged, and
   * for a published type loses its own `publisher` / `provider` to the
   * organisation.
   */
  function Schema(typ: string, pageData: map<string, Json>, site: Option<string>): (r: map<string, Json>)
    ensures "@context" in r && "@type" in r
    ensures forall k :: k in r <==> k in FixedKeys || k in pageData || (Published(typ) && k in OrganizationKeys)
    ensures r["@context"] == (if "@context" in pageData then pageData["@context"] else Str("https://schema.org"))
    ensures r["@type"] == (if "@type" in pageData then pageData["@type"] else Str(typ))
    ensures Published(typ) ==>
      r["publisher"] == BaseOrganization(site) && r["provider"] == BaseOrganization(site)
    ensures forall k :: k in pageData && (!Published(typ) || k !in OrganizationKeys) ==> r[k] == pageData[k]
  {
    var base := map["@context" := Str("https://schema.org"), "@type" := Str(typ)] + pageData;
    if Published(typ) then
      base["publisher" := BaseOrganization(site)]["provider" := BaseOrganization(site)]
    else
      base
  }

  /**
   * `generateSchema` step by step: build the object, then assign
   * the organisation into it in place for a published type.
   */
  method GenerateSchema(typ: string, pageData: map<string, Json>, site: Option<string>)
    returns (schema: map<string, Json>)
    ensures schema == Schema(typ, pageData, site)
  {
    schema := map["@context" := Str("https://schema.org"), "@type" := Str(typ)] + pageData;
    if Published(typ) {
      var org := BaseOrganization(site);
      schema := schema["publisher" := org];
      schema := schema["provider" := org];
    }
  }

  /** With the default (empty) page data the schema holds only its fixed keys. */
  lemma DefaultPageData(typ: string, site: Option<string>)
    ensures !Published(typ) ==>
      Schema(typ, map[], site) == map["@context" := Str("https://schema.org"), "@type" := Str(typ)]
    ensures Published(typ) ==> Schema(typ, map[], site).Keys == FixedKeys + OrganizationKeys
  {
  }

  /** Outside the published types, every key comes from the fixed pair or from the page data. */
  lemma UnpublishedKeysFromPageData(typ: string, pageData: map<string, Json>, site: Option<string>, k: string)
    requires !Published(typ)
    requires k in Schema(typ, pageData, site) && k !in FixedKeys
    ensures k in pageData && Schema(typ, pageData, site)[k] == pageData[k]
  {
  }

  // ---------------------------------------------------------------------------
  // schemaGenerators
  // ---------------------------------------------------------------------------

  /** The postal address `home` builds, each part defaulted when the input's is falsy. */
  function HomeAddress(address: Json): Json {
    Object(map[
      "@type" := Str("PostalAddress"),
      "streetAddress" := Or(Member(address, "streetAddress"), Str("11250 Waples Mill Road")),
      "addressLocality" := Or(Member(address, "addressLocality"), Str("Fairfax")),
      "addressRegion" := Or(Member(address, "addressRegion"), Str("VA")),
      "addressCountry" := Or(Member(address, "addressCountry"), Str("US"))
    ])
  }

  /** Each part of the address is the input's part when truthy and its default otherwise. */
  lemma AddressPartDefaults(address: Json)
    ensures var a := HomeAddress(address);
      && a.Object? && "@type" in a.fields && a.fields["@type"] == Str("PostalAddress")
      && "streetAddress" in a.fields && a.fields["streetAddress"] ==
        (if Truthy(Member(address, "streetAddress")) then Member(address, "streetAddress") else Str("11250 Waples Mill Road"))
      && "addressLocality" in a.fields && a.fields["addressLocality"] ==
        (if Truthy(Member(address, "addressLocality")) then Member(address, "addressLocality") else Str("Fairfax"))
      && "addressRegion" in a.fields && a.fields["addressRegion"] ==
        (if Truthy(Member(address, "addressRegion")) then Member(address, "addressRegion") else Str("VA"))
      && "addressCountry" in a.fields && a.fields["addressCountry"] ==
        (if Truthy(Member(address, "addressCountry")) then Member(address, "addressCountry") else Str("US"))
  {
  }

  /** The page data `home` passes on: each field the input's value when truthy, its default otherwise. */
  function HomePage(data: map<string, Json>, site: Option<string>): (page: map<string, Json>)
    ensures "@context" !in page && "@type" !in page && "publisher" !in page && "provider" !in page
  {
    map[
      "name" := Or(Get(data, "title"), Str("Live Fire Instruction")),
      "description" := Or(Get(data, "description"), Str("Professional firearms training and safety courses")),
      "url" := Or(Get(data, "url"), SiteUrl(site)),
      "telephone" := Or(Get(data, "telephone"), Str("1-571-210-5651")),
      "email" := Or(Get(data, "email"), Str("info@livefireinstruction.com")),
      "address" := HomeAddress(Get(data, "address"))
    ]
  }

  /** `home`: an Organization, so neither published nor provided by the organisation. */
  function Home(data: map<string, Json>, site: Option<string>): (r: map<string, Json>)
    ensures "@context" in r && "@type" in r && "publisher" !in r && "provider" !in r
    ensures r["@context"] == Str("https://schema.org") && r["@type"] == Str("Organization")
    ensures forall k :: k in HomePage(data, site) ==> k in r && r[k] == HomePage(data, site)[k]
  {
    var typ := SchemaTypeName(HomeKey);
    assert typ == "Organization" && !Published(typ);
    Schema(typ, HomePage(data, site), site)
  }

  /** A field of `home` takes the input when it is truthy and the default otherwise, the empty string included. */
  lemma HomeDefaults(data: map<string, Json>, site: Option<string>)
    ensures var r := Home(data, site);
      && r["name"] == (if Truthy(Get(data, "title")) then data["title"] else Str("Live Fire Instruction"))
      && r["description"] == (if Truthy(Get(data, "description")) then data["description"]
                              else Str("Professional firearms training and safety courses"))
      && r["telephone"] == (if Truthy(Get(data, "telephone")) then data["telephone"] else Str("1-571-210-5651"))
      && r["email"] == (if Truthy(Get(data, "email")) then data["email"] else Str("info@livefireinstruction.com"))
      && r["url"] == (if Truthy(Get(data, "url")) then data["url"] else SiteUrl(site))
      && (Get(data, "title") == Str("") ==> r["name"] == Str("Live Fire Instruction"))
  {
    var page := HomePage(data, site);
    assert "name" in page && "description" in page && "telephone" in page && "email" in page && "url" in page;
  }

  /**
   * The address of `home` is built from the input's address, part by part:
   * each part is the input's when truthy and its default otherwise, so a
   * present but empty part (`{streetAddress: ""}`) is defaulted too.
   */
  lemma HomeAddressParts(data: map<string, Json>, site: Option<string>)
    ensures "address" in Home(data, site) && Home(data, site)["address"] == HomeAddress(Get(data, "address"))
  {
    assert "address" in HomePage(data, site);
  }

  /** An empty street in a present address takes the default street and keeps the other parts' rules. */
  lemma EmptyStreetDefaults(data: map<string, Json>, site: Option<string>, parts: map<string, Json>)
    requires "address" in data && data["address"] == Object(parts)
    requires "streetAddress" in parts && parts["streetAddress"] == Str("")
    ensures Home(data, site)["address"].fields["streetAddress"] == Str("11250 Waples Mill Road")
  {
    HomeAddressParts(data, site);
    AddressPartDefaults(data["address"]);
  }

  /** Without any address input, every address part takes its default. */
  lemma HomeAddressDefaults(data: map<string, Json>, site: Option<string>)
    requires "address" !in data
    ensures Home(data, site)["address"] == Object(map[
      "@type" := Str("PostalAddress"),
      "streetAddress" := Str("11250 Waples Mill Road"),
      "addressLocality" := Str("Fairfax"),
      "addressRegion" := Str("VA"),
      "addressCountry" := Str("US")])
  {
  }

  /** `blog`: a Blog, published by the organisation. */
  function Blog(data: map<string, Json>, site: Option<string>): (r: map<string, Json>)
    ensures "@type" in r && "publisher" in r && "provider" in r && "blogPostings" in r && "name" in r
    ensures r["@type"] == Str("Blog") && r["publisher"] == BaseOrganization(site) && r["provider"] == BaseOrganization(site)
    ensures r["blogPostings"] == Get(data, "blogPostings") && r["name"] == Get(data, "name")
  {
    var page := map[
      "name" := Get(data, "name"),
      "description" := Get(data, "description"),
      "url" := Get(data, "url"),
      "blogPostings" := Get(data, "blogPostings")
    ];
    assert "@context" !in page && "@type" !in page && "publisher" !in page && "provider" !in page;
    var typ := SchemaTypeName(BlogKey);
    assert typ == "Blog" && Published(typ);
    Schema(typ, page, site)
  }

  /** `blogpost`: a BlogPosting, which is not organisation-published. */
  function BlogPost(data: map<string, Json>, site: Option<string>): (r: map<string, Json>)
    ensures "@type" in r && "headline" in r && "author" in r
    ensures r["@type"] == Str("BlogPosting") && "publisher" !in r && "provider" !in r
    ensures r["headline"] == Get(data, "headline") && r["author"] == Get(data, "author")
  {
    var page := map[
      "headline" := Get(data, "headline"),
      "url" := Get(data, "url"),
      "publishedDate" := Get(data, "publishedDate"),
      "keywords" := Get(data, "keywords"),
      "author" := Get(data, "author"),
      "image" := Get(data, "image"),
      "articleSection" := Get(data, "articleSection")
    ];
    assert "@context" !in page && "@type" !in page && "publisher" !in page && "provider" !in page;
    var typ := SchemaTypeName(PostingKey);
    assert typ == "BlogPosting" && !Published(typ);
    Schema(typ, page, site)
  }

  /** `courses`: an ItemList of courses, not organisation-published. */
  function Courses(data: map<string, Json>, site: Option<string>): (r: map<string, Json>)
    ensures "@type" in r && "itemListElement" in r && "publisher" !in r && "provider" !in r
    ensures r["@type"] == Str("ItemList") && r["itemListElement"] == Get(data, "itemListElement")
  {
    var page := map[
      "name" := Get(data, "name"),
      "description" := Get(data, "description"),
      "url" := Get(data, "url"),
      "itemListElement" := Get(data, "itemListElement")
    ];
    assert "@context" !in page && "@type" !in page && "publisher" !in page && "provider" !in page;
    var typ := SchemaTypeName(CoursesKey);
    assert typ == "ItemList" && !Published(typ);
    Schema(typ, page, site)
  }

  /** `course`: a Course, published and provided by the organisation. */
  function Course(data: map<string, Json>, site: Option<string>): (r: map<string, Json>)
    ensures "@type" in r && "publisher" in r && "provider" in r
    ensures r["@type"] == Str("Course") && r["publisher"] == BaseOrganization(site) && r["provider"] == BaseOrganization(site)
  {
    var page := map[
      "name" := Get(data, "name"),
      "description" := Get(data, "description")
    ];
    assert "@context" !in page && "@type" !in page && "publisher" !in page && "provider" !in page;
    var typ := SchemaTypeName(CourseKey);
    assert typ == "Course" && Published(typ);
    Schema(typ, page, site)
  }

  /** `landingpage`: a WebPage. */
  function LandingPage(data: map<string, Json>, site: Option<string>): (r: map<string, Json>)
    ensures "@type" in r && "image" in r && "publisher" !in r && "provider" !in r
    ensures r["@type"] == Str("WebPage") && r["image"] == Get(data, "image")
  {
    var page := map[
      "name" := Get(data, "name"),
      "description" := Get(data, "description"),
      "url" := Get(data, "url"),
      "image" := Get(data, "image")
    ];
    assert "@context" !in page && "@type" !in page && "publisher" !in page && "provider" !in page;
    var typ := SchemaTypeName(LandingPageKey);
    assert typ == "WebPage" && !Published(typ);
    Schema(typ, page, site)
  }

  /** `calendar`: a WebPage. */
  function Calendar(data: map<string, Json>, site: Option<string>): (r: map<string, Json>)
    ensures "@type" in r && "url" in r && "publisher" !in r && "provider" !in r
    ensures r["@type"] == Str("WebPage") && r["url"] == Get(data, "url")
  {
    var page := map[
      "name" := Get(data, "name"),
      "description" := Get(data, "description"),
      "url" := Get(data, "url")
    ];
    assert "@context" !in page && "@type" !in page && "publisher" !in page && "provider" !in page;
    var typ := SchemaTypeName(CalendarKey);
    assert typ == "WebPage" && !Published(typ);
    Schema(typ, page, site)
  }

  /** The `mainEntity` wrapper: an ItemList around the given list. */
  function ItemList(items: Json): (r: Json)
    ensures r.Object? && r.fields.Keys == {"@type", "itemListElement"}
    ensures r.fields["@type"] == Str("ItemList") && r.fields["itemListElement"] == items
  {
    Object(map["@type" := Str("ItemList"), "itemListElement" := items])
  }

  /** `partners`: an ItemList page whose `mainEntity` wraps the partner list. */
  function Partners(data: map<string, Json>, site: Option<string>): (r: map<string, Json>)
    ensures "@type" in r && "mainEntity" in r && "publisher" !in r && "provider" !in r
    ensures r["@type"] == Str("ItemList") && r["mainEntity"] == ItemList(Get(data, "partnersList"))
  {
    var page := map[
      "name" := Get(data, "name"),
      "description" := Get(data, "description"),
      "url" := Get(data, "url"),
      "mainEntity" := ItemList(Get(data, "partnersList"))
    ];
    assert "@context" !in page && "@type" !in page && "publisher" !in page && "provider" !in page;
    var typ := SchemaTypeName(PartnersKey);
    assert typ == "ItemList" && !Published(typ);
    Schema(typ, page, site)
  }

  /** `contact`: a ContactPage whose `mainEntity` wraps the item list. */
  function Contact(data: map<string, Json>, site: Option<string>): (r: map<string, Json>)
    ensures "@type" in r && "mainEntity" in r && "publisher" !in r && "provider" !in r
    ensures r["@type"] == Str("ContactPage") && r["mainEntity"] == ItemList(Get(data, "itemListElement"))
  {
    var page := map[
      "name" := Get(data, "name"),
      "description" := Get(data, "description"),
      "url" := Get(data, "url"),
      "mainEntity" := ItemList(Get(data, "itemListElement"))
    ];
    assert "@context" !in page && "@type" !in page && "publisher" !in page && "provider" !in page;
    var typ := SchemaTypeName(ContactKey);
    assert typ == "ContactPage" && !Published(typ);
    Schema(typ, page, site)
  }
}
