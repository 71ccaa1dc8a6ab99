/** The public landing page: it reads the four tables once, keeps what they
    return, and shows hard-coded fallbacks wherever a list is empty or a text
    is missing. */
module PublicPage {
  import opened Common
  import opened JsText
  import opened Rows

  // ---------------------------------------------------------------- queries

  /** All services, oldest first. */
  const PublicServicesQuery := Select("services", [], Some(Ascending("created_at")), None)
  /** The six newest gallery images. */
  const PublicGalleryQuery := Select("gallery", [], Some(Descending("created_at")), Some(6))
  /** The rows "home" and "about". */
  const PublicContentQuery := Select("content", [IdIn(["home", "about"])], None, None)
  /** The active social links by ascending display order. */
  const PublicSocialQuery := Select("social_media", [ActiveOnly], Some(Ascending("display_order")), None)

  // ---------------------------------------------------------------- fallbacks

  const FallbackServices: seq<Service> := [
    Service("1", "Facial Treatments",
      Some("https://images.unsplash.com/photo-1616394584738-fc6e612e71b9?w=400&h=400&fit=crop"),
      Some("Rejuvenating facial treatments for all skin types"), Some("60-90 minutes"),
      Some(["Deep cleansing", "Anti-aging benefits", "Glowing skin"])),
    Service("2", "Hair Styling",
      Some("https://images.unsplash.com/photo-1522337360788-8b13dee7a37e?w=400&h=400&fit=crop"),
      Some("Professional cuts, colors, and styling"), Some("2-3 hours"),
      Some(["Color consultation", "Premium products", "Style that lasts"])),
    Service("3", "Nail Care",
      Some("https://images.unsplash.com/photo-1604654894610-df63bc536371?w=400&h=400&fit=crop"),
      Some("Professional manicure and pedicure services"), Some("45-60 minutes"),
      Some(["Nail shaping", "Cuticle care", "Long-lasting polish"]))
  ]

  const FallbackGallery: seq<GalleryItem> := [
    GalleryItem("1", "https://images.unsplash.com/photo-1560066984-138dadb4c035?w=400&h=400&fit=crop", Some("Bridal Makeup")),
    GalleryItem("2", "https://images.unsplash.com/photo-1522337360788-8b13dee7a37e?w=400&h=400&fit=crop", Some("Hair Styling")),
    GalleryItem("3", "https://images.unsplash.com/photo-1616394584738-fc6e612e71b9?w=400&h=400&fit=crop", Some("Facial Treatment")),
    GalleryItem("4", "https://images.unsplash.com/photo-1604654894610-df63bc536371?w=400&h=400&fit=crop", Some("Nail Art"))
  ]

  const FallbackSocialMedia: seq<SocialLink> := [
    SocialLink("1", "Instagram", "#", "Instagram", true, 1),
    SocialLink("2", "Facebook", "#", "Facebook", true, 2)
  ]

  const DefaultHomeTitle := "Where beauty blossoms"
  const DefaultHomeBody := "Discover your natural radiance at our luxurious beauty salon. We offer premium services in a serene, elegant environment designed to make you feel beautiful inside and out."
  const DefaultAboutTitle := "About Oshin Beauty Salon & Academy & Academy"
  const DefaultAboutBody := "At Oshin Beauty Salon & Academy & Academy, we believe that beauty is not just about appearance—it's about confidence, self-care, and feeling your absolute best."
  const DefaultPhilosophy := "Founded with a passion for enhancing natural beauty, our salon combines luxury with accessibility. We use only premium products and the latest techniques to ensure every client receives exceptional service."
  const DefaultWhatSetsApart: seq<string> := [
    "Personalized consultations for every service",
    "Premium, cruelty-free products only",
    "Relaxing, luxurious atmosphere",
    "Highly trained and certified professionals"
  ]
  const DefaultServiceImage := "https://images.unsplash.com/photo-1616394584738-fc6e612e71b9?w=400&h=400&fit=crop"

  // ---------------------------------------------------------------- selection

  /** `fetched.length > 0 ? fetched : fallback`. */
  function WithFallback<T>(fetched: seq<T>, fallback: seq<T>): (shown: seq<T>)
    ensures |fetched| > 0 ==> shown == fetched
    ensures |fetched| == 0 ==> shown == fallback
  {
    if |fetched| > 0 then fetched else fallback
  }

  /** The services shown: the fetched ones, or the fallbacks; never none. */
  function DisplayServices(services: seq<Service>): (shown: seq<Service>)
    ensures |shown| > 0
    ensures services != [] ==> shown == services
    ensures services == [] ==> shown == FallbackServices
  {
    WithFallback(services, FallbackServices)
  }

  /** The images shown: the fetched ones, or the fallbacks; never none. */
  function DisplayGallery(gallery: seq<GalleryItem>): (shown: seq<GalleryItem>)
    ensures |shown| > 0
    ensures gallery != [] ==> shown == gallery
    ensures gallery == [] ==> shown == FallbackGallery
  {
    WithFallback(gallery, FallbackGallery)
  }

  /** The social links shown: the fetched ones, or the fallbacks; never none. */
  function DisplaySocialMedia(links: seq<SocialLink>): (shown: seq<SocialLink>)
    ensures |shown| > 0
    ensures links != [] ==> shown == links
    ensures links == [] ==> shown == FallbackSocialMedia
  {
    WithFallback(links, FallbackSocialMedia)
  }

  /** `rows.find(c => c.id === id) || null`: the first row with this id. */
  function FindById(rows: seq<ContentItem>, id: string): (r: Option<ContentItem>)
    ensures r.None? <==> forall k :: 0 <= k < |rows| ==> rows[k].id != id
    ensures r.Some? ==> exists k :: 0 <= k < |rows| && rows[k] == r.value
                                  && r.value.id == id
                                  && forall j :: 0 <= j < k ==> rows[j].id != id
  {
    if rows == [] then None
    else if rows[0].id == id then Some(rows[0])
    else
      var r := FindById(rows[1..], id);
      assert forall k :: 1 <= k < |rows| ==> rows[k] == rows[1..][k - 1];
      r
  }

  /** The icon a social link is drawn with. */
  datatype Icon = Instagram | Facebook

  /** `getIconComponent`: the lower-cased name picks Facebook for "facebook",
      and Instagram for "instagram" and for anything else. */
  function IconFor(iconName: string): (icon: Icon)
    ensures icon == Facebook <==> ToLower(iconName) == "facebook"
  {
    match ToLower(iconName)
    case "instagram" => Instagram
    case "facebook" => Facebook
    case _ => Instagram
  }

  /** Names that differ only in the case of ASCII letters get the same icon. */
  lemma IconIgnoresAsciiCase(a: string, b: string)
    requires SameUpToAsciiCase(a, b)
    ensures IconFor(a) == IconFor(b)
  {
    ToLowerIgnoresAsciiCase(a, b);
  }

  /** "facebook" written in any mix of cases gets the Facebook icon. */
  lemma FacebookInAnyCase(name: string)
    requires SameUpToAsciiCase(name, "facebook")
    ensures IconFor(name) == Facebook
  {
    IconIgnoresAsciiCase(name, "facebook");
    assert ToLower("facebook") == "facebook";
  }

  /** Lower-casing a name first does not change its icon. */
  lemma IconOfLowered(name: string)
    ensures IconFor(ToLower(name)) == IconFor(name)
  {
    ToLowerIdempotent(name);
  }

  /** The two names the switch knows, in any case, and a name it does not. */
  lemma IconExamples()
    ensures IconFor("instagram") == Instagram
    ensures IconFor("Facebook") == Facebook
    ensures IconFor("FACEBOOK") == Facebook
    ensures IconFor("TikTok") == Instagram
  {
    assert ToLower("Facebook") == "facebook";
    assert ToLower("FACEBOOK") == "facebook";
    assert ToLower("TikTok")[0] == 't';
  }

  /** The list block of a service card: the duration (when set) and at most
      three benefits. */
  datatype BenefitList = BenefitList(duration: Option<string>, items: seq<string>)

  /** The list block is shown only for a non-null, non-empty benefits list;
      it holds the first three benefits (or all, if fewer) and the duration
      when it is non-null and non-empty. */
  function BenefitBlock(s: Service): (b: Option<BenefitList>)
    ensures b.Some? <==> s.benefits.Some? && |s.benefits.value| > 0
    ensures b.Some? ==> |b.value.items| == (if |s.benefits.value| < 3 then |s.benefits.value| else 3)
    ensures b.Some? ==> b.value.items == s.benefits.value[..|b.value.items|]
    ensures b.Some? ==> (b.value.duration.Some? <==> Truthy(s.duration))
    ensures b.Some? && b.value.duration.Some? ==> b.value.duration == s.duration
  {
    if s.benefits.Some? && |s.benefits.value| > 0 then
      var all := s.benefits.value;
      Some(BenefitList(
        if Truthy(s.duration) then s.duration else None,
        if |all| < 3 then all else all[..3]))
    else None
  }

  /** The card image: the service's photo, or the default one when it is
      null or empty. */
  function ServiceImage(s: Service): (url: string)
    ensures url != ""
    ensures Truthy(s.photoUrl) ==> url == s.photoUrl.value
    ensures !Truthy(s.photoUrl) ==> url == DefaultServiceImage
  {
    OrFallback(s.photoUrl, DefaultServiceImage)
  }

  /** A gallery image's alternative text: its caption, or "Gallery image"
      when the caption is null or empty. */
  function ImageAlt(item: GalleryItem): (alt: string)
    ensures alt != ""
    ensures Truthy(item.caption) ==> alt == item.caption.value
    ensures !Truthy(item.caption) ==> alt == "Gallery image"
  {
    OrFallback(item.caption, "Gallery image")
  }

  // ---------------------------------------------------------------- page copy

  /** The texts of the hero and about sections. */
  datatype PageCopy = PageCopy(
    homeTitle: string,
    homeBody: string,
    aboutTitle: string,
    aboutBody: string,
    philosophy: string,
    whatSetsApart: seq<string>)

  /** `row?.field`: null when the row is. */
  function FieldOf(row: Option<ContentItem>, f: ContentItem -> Option<string>): (field: Option<string>) {
    if row.Some? then f(row.value) else None
  }

  /** Each text is the row's field when the row exists and the field is
      non-null and non-empty (`||`), the default copy otherwise; the list is
      the row's list whenever it is non-null, even when it is empty (an empty
      array is truthy). */
  function Copy(home: Option<ContentItem>, about: Option<ContentItem>): (c: PageCopy)
    ensures c.homeTitle != "" && c.homeBody != "" && c.aboutTitle != "" && c.aboutBody != "" && c.philosophy != ""
    ensures home.Some? && Truthy(home.value.title) ==> c.homeTitle == home.value.title.value
    ensures !(home.Some? && Truthy(home.value.title)) ==> c.homeTitle == DefaultHomeTitle
    ensures home.Some? && Truthy(home.value.body) ==> c.homeBody == home.value.body.value
    ensures !(home.Some? && Truthy(home.value.body)) ==> c.homeBody == DefaultHomeBody
    ensures about.Some? && Truthy(about.value.title) ==> c.aboutTitle == about.value.title.value
    ensures !(about.Some? && Truthy(about.value.title)) ==> c.aboutTitle == DefaultAboutTitle
    ensures about.Some? && Truthy(about.value.body) ==> c.aboutBody == about.value.body.value
    ensures !(about.Some? && Truthy(about.value.body)) ==> c.aboutBody == DefaultAboutBody
    ensures about.Some? && Truthy(about.value.philosophy) ==> c.philosophy == about.value.philosophy.value
    ensures !(about.Some? && Truthy(about.value.philosophy)) ==> c.philosophy == DefaultPhilosophy
    ensures about.Some? && about.value.whatSetsApart.Some? ==> c.whatSetsApart == about.value.whatSetsApart.value
    ensures !(about.Some? && about.value.whatSetsApart.Some?) ==> c.whatSetsApart == DefaultWhatSetsApart
  {
    PageCopy(
      OrFallback(FieldOf(home, (r: ContentItem) => r.title), DefaultHomeTitle),
      OrFallback(FieldOf(home, (r: ContentItem) => r.body), DefaultHomeBody),
      OrFallback(FieldOf(about, (r: ContentItem) => r.title), DefaultAboutTitle),
      OrFallback(FieldOf(about, (r: ContentItem) => r.body), DefaultAboutBody),
      OrFallback(FieldOf(about, (r: ContentItem) => r.philosophy), DefaultPhilosophy),
      if about.Some? && about.value.whatSetsApart.Some? then about.value.whatSetsApart.value
      else DefaultWhatSetsApart)
  }

  // ---------------------------------------------------------------- state

  /** The state of the `Index` page. */
  class LandingPage {
    var services: seq<Service>
    var gallery: seq<GalleryItem>
    var socialMedia: seq<SocialLink>
    var home: Option<ContentItem>
    var about: Option<ContentItem>

    constructor ()
      ensures services == [] && gallery == [] && socialMedia == [] && home == None && about == None
    {
      services, gallery, socialMedia := [], [], [];
      home, about := None, None;
    }

    /** `fetchData`, given the `data` of each of the four queries (null when
        a query failed, its error being ignored): the three lists take the
        data or become empty; the two content rows are looked up by id, and
        are left as they were when the content query returned no data. */
    method FetchData(servicesData: Option<seq<Service>>, galleryData: Option<seq<GalleryItem>>,
                     contentData: Option<seq<ContentItem>>, socialMediaData: Option<seq<SocialLink>>)
      returns (queries: seq<Query>)
      modifies this
      ensures queries == [PublicServicesQuery, PublicGalleryQuery, PublicContentQuery, PublicSocialQuery]
      ensures services == (if servicesData.Some? then servicesData.value else [])
      ensures gallery == (if galleryData.Some? then galleryData.value else [])
      ensures socialMedia == (if socialMediaData.Some? then socialMediaData.value else [])
      ensures contentData.Some? ==>
        home == FindById(contentData.value, "home") && about == FindById(contentData.value, "about")
      ensures contentData.None? ==> home == old(home) && about == old(about)
    {
      queries := [PublicServicesQuery, PublicGalleryQuery, PublicContentQuery, PublicSocialQuery];
      services := if servicesData.Some? then servicesData.value else [];
      gallery := if galleryData.Some? then galleryData.value else [];
      socialMedia := if socialMediaData.Some? then socialMediaData.value else [];
      if contentData.Some? {
        home := FindById(contentData.value, "home");
        about := FindById(contentData.value, "about");
      }
    }
  }

  /** After any fetch the page shows at least one service, one image and one
      social link, and each content row it uses carries its own id. */
  lemma PageNeverEmpty(services: seq<Service>, gallery: seq<GalleryItem>, links: seq<SocialLink>,
                       rows: seq<ContentItem>)
    ensures |DisplayServices(services)| > 0 && |DisplayGallery(gallery)| > 0 && |DisplaySocialMedia(links)| > 0
    ensures FindById(rows, "home").Some? ==> FindById(rows, "home").value.id == "home"
    ensures FindById(rows, "about").Some? ==> FindById(rows, "about").value.id == "about"
  {
  }
}
