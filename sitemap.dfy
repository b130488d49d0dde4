/** The storefront's sitemap: the home page, then one page per category
    slug, all stamped with the time the sitemap is built. */
module Sitemap {
  const BaseUrl := "https://savia-sigma.vercel.app"

  const Categories := ["vegano", "frutos-secos", "sin-lactosa", "sin-tacc", "sin-azucar", "yuyitos",
                       "condimentos", "suplementos-vitaminicos", "suplementos-dietarios", "ofertas"]

  datatype Entry = Entry(url: string, lastModified: int, changeFrequency: string, priority: real)

  function CategoryEntry(slug: string, now: int): (e: Entry)
    ensures e.url == BaseUrl + "/categoria/" + slug && e.changeFrequency == "weekly" && e.lastModified == now
    ensures e.priority == 0.9 <==> slug == "ofertas"
    ensures slug != "ofertas" ==> e.priority == 0.8
  {
    Entry(BaseUrl + "/categoria/" + slug, now, "weekly", if slug == "ofertas" then 0.9 else 0.8)
  }

  /** `sitemap()` with `new Date()` read as `now`. */
  function Build(now: int): (entries: seq<Entry>)
    ensures |entries| == 1 + |Categories|
  {
    [Entry(BaseUrl + "/", now, "daily", 1.0)] +
    seq(|Categories|, i requires 0 <= i < |Categories| => CategoryEntry(Categories[i], now))
  }

  /** Eleven entries: the home page first, daily with priority 1, then the
      categories in list order, weekly, the offers page above the rest. */
  lemma BuildShape(now: int)
    ensures var entries := Build(now);
      |entries| == 11 &&
      entries[0] == Entry(BaseUrl + "/", now, "daily", 1.0) &&
      (forall i :: 0 <= i < |Categories| ==>
        entries[i + 1].url == BaseUrl + "/categoria/" + Categories[i] &&
        entries[i + 1].changeFrequency == "weekly" &&
        (entries[i + 1].priority == 0.9 <==> Categories[i] == "ofertas") &&
        (entries[i + 1].priority == 0.8 <==> Categories[i] != "ofertas")) &&
      (forall e :: e in entries ==> e.lastModified == now)
  {
  }

  /** Only the last category is the offers page. */
  lemma OnlyOffersRaised(now: int)
    ensures forall i :: 1 <= i < 11 ==> (Build(now)[i].priority == 0.9 <==> i == 10)
  {
    var c := Categories;
    assert c[0] != "ofertas" && c[1] != "ofertas" && c[2] != "ofertas" && c[3] != "ofertas" && c[4] != "ofertas";
    assert c[5] != "ofertas" && c[6] != "ofertas" && c[7] != "ofertas" && c[8] != "ofertas";
  }

  /** No page is listed twice. */
  lemma UrlsDistinct(now: int)
    ensures forall i, j :: 0 <= i < j < 11 ==> Build(now)[i].url != Build(now)[j].url
  {
    var entries := Build(now);
    BuildShape(now);
    forall i, j | 0 <= i < j < 11 ensures entries[i].url != entries[j].url {
      if i == 0 {
        HomeShorter(entries[j].url, Categories[j - 1]);
      } else {
        CategoryUrlsDiffer(i - 1, j - 1);
      }
    }
  }

  /** A category page's url is longer than the home page's. */
  lemma HomeShorter(url: string, slug: string)
    requires url == BaseUrl + "/categoria/" + slug
    ensures url != BaseUrl + "/"
  {
    assert |url| > |BaseUrl| + 1;
  }

  /** Different categories have different urls. */
  lemma CategoryUrlsDiffer(a: int, b: int)
    requires 0 <= a < b < |Categories|
    ensures BaseUrl + "/categoria/" + Categories[a] != BaseUrl + "/categoria/" + Categories[b]
  {
    var prefix := BaseUrl + "/categoria/";
    var c := Categories;
    assert c[a] != c[b];
    assert (prefix + c[a])[|prefix|..] == c[a];
    assert (prefix + c[b])[|prefix|..] == c[b];
  }
}
