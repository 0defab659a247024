/**
 * The Philippine data sources of `PhilippineAgriculturalAPIs`
 * (philippine_apis.py): the constant tables (crop calendars, pests database,
 * regional coordinates, manual market prices), their lookups, and the rules
 * by which the scrapers shape what they parsed. The fetching and HTML/RSS
 * parsing themselves are not modelled: what a scraper parsed is an input,
 * `None` when the fetch or the parse raised.
 */
module PhilippineApis {
  import opened Wrappers
  import opened Text

  // ======================================================== lookup tables

  /** A Python dict literal, as its (key, value) pairs in insertion order. */
  type Table<V> = seq<(string, V)>

  function Keys<V>(t: Table<V>): (ks: seq<string>)
    ensures |ks| == |t|
    ensures forall i :: 0 <= i < |t| ==> ks[i] == t[i].0
  {
    seq(|t|, i requires 0 <= i < |t| => t[i].0)
  }

  /** `key in t and t[key]`: the value of the first pair with that key. */
  function Lookup<V(==)>(t: Table<V>, key: string): (r: Option<V>)
    ensures r.None? <==> forall i :: 0 <= i < |t| ==> t[i].0 != key
    ensures r.Some? ==> exists i :: 0 <= i < |t| && t[i] == (key, r.value)
                                   && forall j :: 0 <= j < i ==> t[j].0 != key
  {
    if t == [] then None
    else if t[0].0 == key then Some(t[0].1)
    else
      var rest := t[1..];
      var r := Lookup(rest, key);
      assert forall i :: 1 <= i < |t| ==> t[i] == rest[i - 1];
      if r.Some? then
        var i :| 0 <= i < |rest| && rest[i] == (key, r.value)
                 && forall j :: 0 <= j < i ==> rest[j].0 != key;
        assert t[i + 1] == (key, r.value);
        r
      else r
  }

  /** A key is found exactly when it is one of the table's keys. */
  lemma LookupKeys<V>(t: Table<V>, key: string)
    ensures Lookup(t, key).Some? <==> key in Keys(t)
  {
    if key in Keys(t) {
      var i :| 0 <= i < |Keys(t)| && Keys(t)[i] == key;
      assert t[i].0 == key;
    }
  }

  // ================================================================ weather

  /** One RSS entry as feedparser exposes it; `None` for a missing attribute. */
  datatype FeedEntry = FeedEntry(title: Option<string>, summary: Option<string>,
                                 description: Option<string>, published: Option<string>,
                                 link: Option<string>)

  datatype Forecast = Forecast(title: string, summary: string, published: string, link: string)

  /** The record built for one entry; `None` when an attribute it reads is missing
    * (the AttributeError that makes the whole call return None). The summary
    * falls back to the description when the entry has no summary. */
  function ForecastOf(e: FeedEntry): Option<Forecast> {
    var summary := if e.summary.Some? then e.summary else e.description;
    if e.title.Some? && summary.Some? && e.published.Some? && e.link.Some?
    then Some(Forecast(e.title.value, summary.value, e.published.value, e.link.value))
    else None
  }

  /** The records for `entries`, in order, or `None` if any entry lacks an attribute. */
  function ForecastsOf(entries: seq<FeedEntry>): (r: Option<seq<Forecast>>)
    ensures r.Some? <==> forall i :: 0 <= i < |entries| ==> ForecastOf(entries[i]).Some?
    ensures r.Some? ==> |r.value| == |entries|
                        && forall i :: 0 <= i < |entries| ==> ForecastOf(entries[i]) == Some(r.value[i])
  {
    if entries == [] then Some([])
    else
      match (ForecastOf(entries[0]), ForecastsOf(entries[1..]))
      case (Some(f), Some(fs)) =>
        var r := [f] + fs;
        assert forall i :: 1 <= i < |entries| ==> entries[i] == entries[1..][i - 1];
        Some(r)
      case (None, _) => None
      case (_, None) =>
        assert forall i :: 1 <= i < |entries| ==> entries[i] == entries[1..][i - 1];
        None
  }

  /** `get_pagasa_weather_forecast`: the first five feed entries as forecast records. */
  function PagasaWeatherForecast(feed: Option<seq<FeedEntry>>): (r: Option<seq<Forecast>>)
    ensures feed.None? ==> r.None?
    ensures r.Some? ==> |r.value| <= 5 && |r.value| <= |feed.value|
    ensures r.Some? ==> forall i :: 0 <= i < |r.value| ==> ForecastOf(feed.value[i]) == Some(r.value[i])
    ensures feed.Some? ==>
      (r.Some? <==> forall i :: 0 <= i < |feed.value| && i < 5 ==> ForecastOf(feed.value[i]).Some?)
    ensures feed.Some? && r.Some? ==> |r.value| == |Take(feed.value, 5)|
  {
    match feed
    case None => None
    case Some(entries) => ForecastsOf(Take(entries, 5))
  }

  datatype Bulletin = Bulletin(content: string, timestamp: string)

  /** What `get_pagasa_tropical_cyclone_info` returns when it does not fail:
    * a list of bulletins, or a status string. */
  datatype CycloneInfo = Bulletins(bulletins: seq<Bulletin>) | CycloneStatus(message: string)

  const NoActiveCyclones := "No active tropical cyclones"

  /** `get_pagasa_tropical_cyclone_info`: the texts of at most three bulletin
    * elements, stamped with `now`; the status string when the page holds none. */
  function TropicalCycloneInfo(texts: Option<seq<string>>, now: string): (r: Option<CycloneInfo>)
    ensures r.None? <==> texts.None?
    ensures r.Some? && r.value.Bulletins? ==>
      && 1 <= |r.value.bulletins| <= 3
      && |r.value.bulletins| == |Take(texts.value, 3)|
      && forall i :: 0 <= i < |r.value.bulletins| ==> r.value.bulletins[i] == Bulletin(texts.value[i], now)
    ensures r.Some? && r.value.CycloneStatus? <==> texts == Some([])
    ensures r.Some? && r.value.CycloneStatus? ==> r.value.message == NoActiveCyclones
  {
    match texts
    case None => None
    case Some(ts) =>
      var first := Take(ts, 3);
      var info := seq(|first|, i requires 0 <= i < |first| => Bulletin(first[i], now));
      if info != [] then Some(Bulletins(info)) else Some(CycloneStatus(NoActiveCyclones))
  }

  /** The rows of the regional coordinates table, in the source's order. */
  function RegionRow(i: int): (string, (real, real)) {
    if i == 0 then ("NCR", (14.5995, 120.9842))
    else if i == 1 then ("CAR", (16.4023, 120.5960))
    else if i == 2 then ("I", (16.0934, 120.3320))
    else if i == 3 then ("II", (16.9754, 121.8107))
    else if i == 4 then ("III", (15.4800, 120.7100))
    else if i == 5 then ("IV-A", (14.1008, 121.0794))
    else if i == 6 then ("IV-B", (13.0563, 121.0543))
    else if i == 7 then ("V", (13.4215, 123.4137))
    else if i == 8 then ("VI", (11.0050, 122.5378))
    else if i == 9 then ("VII", (10.3157, 123.8854))
    else if i == 10 then ("VIII", (11.2504, 125.0076))
    else if i == 11 then ("IX", (8.4869, 123.8083))
    else if i == 12 then ("X", (8.4542, 124.6319))
    else if i == 13 then ("XI", (7.0731, 125.6128))
    else if i == 14 then ("XII", (6.9214, 124.8458))
    else if i == 15 then ("XIII", (8.9476, 125.5406))
    else ("BARMM", (7.2045, 124.2302))
  }

  /** Regional coordinates: the seventeen rows. */
  function RegionCoordinates(): Table<(real, real)> {
    seq(17, RegionRow)
  }

  /** The fields the regional fetch reads from Open-Meteo's answer, kept opaque. */
  datatype RegionalData = RegionalData(currentWeather: string, daily: string)

  datatype RegionalReport =
    | RegionReport(region: string, current: string, forecast: string)
    | RegionNotFound(message: string)

  function RegionNotFoundMessage(region: string): string {
    "Region '" + region + "' not found. Use: NCR, CAR, I-XIII, BARMM"
  }

  /** `get_regional_weather`: resolve the region case-insensitively, then fetch
    * at its coordinates (`fetch` is the Open-Meteo call, `None` when it raised). */
  function RegionalWeather(region: string, fetch: (real, real) -> Option<RegionalData>): (r: Option<RegionalReport>)
    ensures Upper(region) !in Keys(RegionCoordinates()) ==> r == Some(RegionNotFound(RegionNotFoundMessage(region)))
    ensures Upper(region) in Keys(RegionCoordinates()) ==>
      exists i :: 0 <= i < |RegionCoordinates()| && RegionCoordinates()[i].0 == Upper(region)
        && var data := fetch(RegionCoordinates()[i].1.0, RegionCoordinates()[i].1.1);
           r == if data.None? then None
                else Some(RegionReport(Upper(region), data.value.currentWeather, data.value.daily))
  {
    match Lookup(RegionCoordinates(), Upper(region))
    case None => Some(RegionNotFound(RegionNotFoundMessage(region)))
    case Some(coordinates) =>
      match fetch(coordinates.0, coordinates.1)
      case None => None
      case Some(data) => Some(RegionReport(Upper(region), data.currentWeather, data.daily))
  }

  /** The region table has exactly the seventeen codes NCR, CAR, I-XIII, IV-A, IV-B, BARMM. */
  lemma RegionCodes()
    ensures Keys(RegionCoordinates()) == ["NCR", "CAR", "I", "II", "III", "IV-A", "IV-B", "V", "VI",
                                        "VII", "VIII", "IX", "X", "XI", "XII", "XIII", "BARMM"]
    ensures forall i, j :: 0 <= i < j < |RegionCoordinates()| ==> RegionCoordinates()[i].0 != RegionCoordinates()[j].0
  {
  }

  /** An unknown region is answered without calling the fetch at all. */
  lemma UnknownRegionIsNotFetched(region: string, f: (real, real) -> Option<RegionalData>,
                                  g: (real, real) -> Option<RegionalData>)
    requires Upper(region) !in Keys(RegionCoordinates())
    ensures RegionalWeather(region, f) == RegionalWeather(region, g)
  {
  }

  // ======================================================= crop calendar

  datatype Season = Season(planting: string, harvesting: string, duration: string)

  datatype CropCalendar =
    | GrainCalendar(wetSeason: Season, drySeason: Season, varieties: seq<string>, notes: string)
    | VegetableCalendar(rainySeason: seq<string>, dryCrops: seq<string>, yearRound: seq<string>, notes: string)
    | PerennialCalendar(planting: string, harvesting: string, varieties: seq<string>, notes: string)
    | NoCalendar(message: string, availableCrops: seq<string>)

  /** The rows of the calendar table, in the source's order. */
  function CropCalendarRow(i: int): (string, CropCalendar) {
    if i == 0 then
      ("rice", GrainCalendar(
         Season("June-July", "October-November", "120-140 days"),
         Season("December-January", "April-May", "110-120 days"),
         ["PSB Rc82", "NSIC Rc222", "NSIC Rc160"],
         "Ensure adequate irrigation for dry season"))
    else if i == 1 then
      ("corn", GrainCalendar(
         Season("May-June", "August-September", "90-110 days"),
         Season("November-December", "February-March", "85-95 days"),
         ["IPB Var 6", "Pioneer 30G97", "Dekalb 9130"],
         "Yellow corn for feeds, white corn for food"))
    else if i == 2 then
      ("vegetables", VegetableCalendar(
         ["kangkong", "sitaw", "talong", "ampalaya"],
         ["tomato", "repolyo", "lettuce", "carrots"],
         ["sili", "okra", "kalabasa"],
         "Timing varies by specific vegetable and region"))
    else
      ("banana", PerennialCalendar(
         "Year-round, best during start of rainy season",
         "9-12 months after planting",
         ["Lakatan", "Latundan", "Saba", "Cavendish"],
         "Requires consistent moisture and drainage"))
  }

  /** The calendar table: rice, corn, vegetables, banana. */
  function CropCalendars(): Table<CropCalendar> {
    seq(4, CropCalendarRow)
  }

  /** The calendar covers rice, corn, vegetables and banana, in that order. */
  lemma CropCalendarsCrops()
    ensures Keys(CropCalendars()) == ["rice", "corn", "vegetables", "banana"]
  {
  }

  /** `get_philippine_crop_calendar`: the calendar of the crop named case-insensitively;
    * otherwise a record quoting the name as given and listing the known crops. */
  function PhilippineCropCalendar(crop: string): (r: CropCalendar)
    ensures Lower(crop) in Keys(CropCalendars()) ==> (Lower(crop), r) in CropCalendars()
    ensures Lower(crop) !in ["rice", "corn", "vegetables", "banana"] ==>
      r == NoCalendar("No calendar data for '" + crop + "'", ["rice", "corn", "vegetables", "banana"])
  {
    CropCalendarsCrops();
    match Lookup(CropCalendars(), Lower(crop))
    case Some(calendar) => calendar
    case None =>
      NoCalendar("No calendar data for '" + crop + "'", Keys(CropCalendars()))
  }

  // ================================================================ pests

  datatype Pest = Pest(name: string, symptoms: string, control: string)

  /** One crop's entry of the pests database: a list of pests, or (for
    * vegetables) lists of pest and disease names. */
  datatype CropPests =
    | PestList(pests: seq<Pest>, prevention: string)
    | PestSummary(commonPests: seq<string>, diseases: seq<string>, control: string)

  /** What `get_common_philippine_pests` returns: one crop's entry, or the whole database. */
  datatype PestsResult = OneCrop(entry: CropPests) | WholeDatabase(database: Table<CropPests>)

  /** The rows of the pests database, in the source's order. */
  function PestsRow(i: int): (string, CropPests) {
    if i == 0 then
      ("rice", PestList([
         Pest("Rice Black Bug (Scotinophara coarctata)", "Yellowing and drying of plants",
              "Remove weeds, use insecticides, handpick bugs"),
         Pest("Rice Tungro Disease", "Yellow-orange leaves, stunted growth",
              "Plant resistant varieties, control leafhoppers"),
         Pest("Rice Blast (Pyricularia oryzae)", "Diamond-shaped lesions on leaves",
              "Use resistant varieties, apply fungicides")],
         "Use certified seeds, proper spacing, balanced fertilization"))
    else if i == 1 then
      ("corn", PestList([
         Pest("Corn Borer (Ostrinia furnacalis)", "Holes in leaves, broken tassels",
              "Bt corn varieties, early planting, crop rotation"),
         Pest("Fall Armyworm (Spodoptera frugiperda)", "Irregular holes in leaves, damaged whorl",
              "Scout regularly, use appropriate insecticides")],
         "Early planting, remove crop residues, use pheromone traps"))
    else
      ("vegetables", PestSummary(
         ["Aphids", "Whiteflies", "Fruit flies", "Leaf miners"],
         ["Bacterial wilt", "Downy mildew", "Anthracnose"],
         "Crop rotation, proper sanitation, integrated pest management"))
  }

  /** The pests database: rice, corn, vegetables. */
  function PestsDatabase(): Table<CropPests> {
    seq(3, PestsRow)
  }

  /** The database covers rice, corn and vegetables, in that order. */
  lemma PestsDatabaseCrops()
    ensures Keys(PestsDatabase()) == ["rice", "corn", "vegetables"]
  {
  }

  /** `get_common_philippine_pests(crop)`: the crop's entry when a non-empty crop
    * name is given that names (case-insensitively) rice, corn or vegetables;
    * the whole database otherwise, including when no crop is given. */
  function CommonPhilippinePests(crop: Option<string>): (r: PestsResult)
    ensures r.OneCrop? <==> crop.Some? && crop.value != "" && Lower(crop.value) in ["rice", "corn", "vegetables"]
    ensures r.OneCrop? ==> exists i :: 0 <= i < |PestsDatabase()| && PestsDatabase()[i] == (Lower(crop.value), r.entry)
    ensures r.WholeDatabase? ==> r.database == PestsDatabase()
  {
    if crop.None? || crop.value == "" then WholeDatabase(PestsDatabase())
    else
      var found := Lookup(PestsDatabase(), Lower(crop.value));
      PestsDatabaseCrops();
      LookupKeys(PestsDatabase(), Lower(crop.value));
      if found.Some? then OneCrop(found.value) else WholeDatabase(PestsDatabase())
  }

  // =============================================================== prices

  datatype PriceTable = PriceTable(lastUpdated: string, prices: map<string, map<string, string>>,
                                   source: string, note: string)

  /** `get_market_prices_manual`: a constant table. */
  function MarketPricesManual(): (r: PriceTable)
    ensures r.lastUpdated == "2024-11"
    ensures "rice" in r.prices && "regular_milled" in r.prices["rice"]
    ensures r.prices["rice"]["regular_milled"] == "45-50 PHP/kg"
    ensures r.prices.Keys == {"rice", "corn", "vegetables", "fruits"}
  {
    PriceTable(
      "2024-11",
      map[
        "rice" := map["regular_milled" := "45-50 PHP/kg", "well_milled" := "50-55 PHP/kg",
                      "premium" := "55-65 PHP/kg"],
        "corn" := map["yellow" := "20-25 PHP/kg", "white" := "18-23 PHP/kg"],
        "vegetables" := map["tomato" := "60-80 PHP/kg", "eggplant" := "40-60 PHP/kg",
                            "cabbage" := "30-40 PHP/kg", "onion" := "80-120 PHP/kg"],
        "fruits" := map["banana" := "50-70 PHP/kg", "mango" := "80-120 PHP/kg",
                        "papaya" := "30-50 PHP/kg"]
      ],
      "DA Price Monitoring",
      "Prices vary by region and market")
  }

  // =========================================================== advisories

  /** The `<a>` element found in an article, with its `href` attribute if any. */
  datatype Anchor = Anchor(href: Option<string>)

  /** One `<article>` element as the scraper inspects it: the stripped text of its
    * first `<h2>` and first `<h3>` (if present) and its first `<a>` (if present). */
  datatype ArticleElement = ArticleElement(h2: Option<string>, h3: Option<string>, anchor: Option<Anchor>)

  datatype Advisory = Advisory(title: string, link: Option<string>, source: string)

  /** The advisory an article yields: it needs a title tag (`<h2>`, else `<h3>`)
    * and a link tag; the link itself may still be missing. */
  function AdvisoryOf(a: ArticleElement): Option<Advisory> {
    var title := if a.h2.Some? then a.h2 else a.h3;
    if title.Some? && a.anchor.Some?
    then Some(Advisory(title.value, a.anchor.value.href, "DA Philippines"))
    else None
  }

  /** The positions of the articles that yield an advisory, in increasing order:
    * an enumeration of exactly the articles with both tags. */
  function KeptPositions(articles: seq<ArticleElement>): (ps: seq<nat>)
    ensures forall k :: 0 <= k < |ps| ==> ps[k] < |articles| && AdvisoryOf(articles[ps[k]]).Some?
    ensures forall k, l :: 0 <= k < l < |ps| ==> ps[k] < ps[l]
    ensures forall i :: 0 <= i < |articles| && AdvisoryOf(articles[i]).Some? ==> i in ps
  {
    if articles == [] then []
    else
      var n := |articles| - 1;
      var init := articles[..n];
      assert forall i :: 0 <= i < n ==> init[i] == articles[i];
      KeptPositions(init) + if AdvisoryOf(articles[n]).Some? then [n] else []
  }

  /** The advisories of `articles`, in order, skipping articles without both tags. */
  function KeptAdvisories(articles: seq<ArticleElement>): (r: seq<Advisory>)
    ensures |r| <= |articles|
  {
    if articles == [] then [] else KeptAdvisories(articles[..|articles| - 1]) + KeptOne(articles[|articles| - 1])
  }

  /** What one article adds: its advisory, or nothing. */
  function KeptOne(a: ArticleElement): seq<Advisory> {
    if AdvisoryOf(a).Some? then [AdvisoryOf(a).value] else []
  }

  /** The k-th kept advisory is the advisory of the k-th article that has both
    * tags: nothing qualifying is dropped, and page order is kept. */
  lemma {:induction false} KeptAdvisoriesPositions(articles: seq<ArticleElement>)
    ensures |KeptAdvisories(articles)| == |KeptPositions(articles)|
    ensures forall k :: 0 <= k < |KeptPositions(articles)| ==>
              AdvisoryOf(articles[KeptPositions(articles)[k]]) == Some(KeptAdvisories(articles)[k])
    decreases |articles|
  {
    if articles != [] {
      var n := |articles| - 1;
      var init := articles[..n];
      KeptAdvisoriesPositions(init);
      var ps, r := KeptPositions(articles), KeptAdvisories(articles);
      var ps0, r0 := KeptPositions(init), KeptAdvisories(init);
      assert ps == ps0 + (if AdvisoryOf(articles[n]).Some? then [n] else []);
      assert r == r0 + KeptOne(articles[n]);
      forall k | 0 <= k < |ps| ensures AdvisoryOf(articles[ps[k]]) == Some(r[k]) {
        if k < |ps0| {
          assert ps[k] == ps0[k] && r[k] == r0[k] && init[ps0[k]] == articles[ps[k]];
        }
      }
    }
  }

  /** Every article with both tags contributes its advisory. */
  lemma KeptAdvisoriesComplete(articles: seq<ArticleElement>)
    ensures forall i :: 0 <= i < |articles| && AdvisoryOf(articles[i]).Some? ==>
              AdvisoryOf(articles[i]).value in KeptAdvisories(articles)
  {
    var ps := KeptPositions(articles);
    KeptAdvisoriesPositions(articles);
    forall i | 0 <= i < |articles| && AdvisoryOf(articles[i]).Some?
      ensures AdvisoryOf(articles[i]).value in KeptAdvisories(articles)
    {
      var k :| 0 <= k < |ps| && ps[k] == i;
      assert KeptAdvisories(articles)[k] == AdvisoryOf(articles[i]).value;
    }
  }

  /** Keeping advisories distributes over concatenation: order is kept and each
    * article is judged on its own. */
  lemma {:induction false} KeptAdvisoriesAppend(a: seq<ArticleElement>, b: seq<ArticleElement>)
    ensures KeptAdvisories(a + b) == KeptAdvisories(a) + KeptAdvisories(b)
    decreases |b|
  {
    if b == [] {
      assert a + b == a;
    } else {
      var c, init := a + b, b[..|b| - 1];
      assert c[..|c| - 1] == a + init;
      assert c[|c| - 1] == b[|b| - 1];
      KeptAdvisoriesAppend(a, init);
      calc {
        KeptAdvisories(c);
        KeptAdvisories(a + init) + KeptOne(b[|b| - 1]);
        KeptAdvisories(a) + (KeptAdvisories(init) + KeptOne(b[|b| - 1]));
        KeptAdvisories(a) + KeptAdvisories(b);
      }
    }
  }

  /** `get_da_advisories`: the first five `<article>` elements, each kept when it
    * has both tags, in page order. */
  function DaAdvisories(articles: Option<seq<ArticleElement>>): (r: Option<seq<Advisory>>)
    ensures r.None? <==> articles.None?
    ensures r.Some? ==> |r.value| <= 5
    ensures r.Some? ==> var ps := KeptPositions(Take(articles.value, 5));
      |r.value| == |ps| && forall k :: 0 <= k < |ps| ==> ps[k] < 5 && AdvisoryOf(articles.value[ps[k]]) == Some(r.value[k])
    ensures r.Some? ==> forall i :: 0 <= i < |articles.value| && i < 5 && AdvisoryOf(articles.value[i]).Some? ==>
      AdvisoryOf(articles.value[i]).value in r.value
  {
    match articles
    case None => None
    case Some(page) =>
      var first := Take(page, 5);
      assert forall i :: 0 <= i < |first| ==> first[i] == page[i];
      KeptAdvisoriesPositions(first);
      KeptAdvisoriesComplete(first);
      Some(KeptAdvisories(first))
  }
}
