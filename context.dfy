/**
 * The context dictionary that `FarmerChatbot.gather_context_data`
 * (agriaid_chatbot.py) builds for one turn: its keys, the shape of the value
 * under each key, the providers it calls, and which keys a set of intents
 * fills. Providers are inputs: the global services of api_services.py
 * (Open-Meteo, soil, pest observations, news) and the network side of the
 * Philippine scrapers are not part of this model; only their results are.
 */
module Context {
  import opened Wrappers
  import opened Text
  import opened Intent
  import opened Session
  import opened PhilippineApis

  // ============================================= results of global services

  /** The `current` record of the Open-Meteo answer; readings are kept as the text they print as. */
  datatype Conditions = Conditions(temperature: string, humidity: string, precipitation: string,
                                   windspeed: string, time: string)

  datatype DetailedWeather = DetailedWeather(current: Conditions, dailyForecast: string)

  datatype SoilReading = SoilReading(soilTemp: string, soilMoisture: string, timestamp: string)

  datatype Observation = Observation(species: string, commonName: string, observedOn: string,
                                     place: string, photo: Option<string>)

  datatype NewsArticle = NewsArticle(title: string, description: string, source: string,
                                     url: string, published: string, image: Option<string>)

  /** What the providers answer this turn. Coordinate-taking calls are functions of
    * the coordinates they are given; `None` stands for a provider that failed. */
  datatype Providers = Providers(
    pagasaFeed: Option<seq<FeedEntry>>,
    regionalFetch: (real, real) -> Option<RegionalData>,
    cycloneTexts: Option<seq<string>>,
    openMeteo: (real, real) -> Option<DetailedWeather>,
    soil: (real, real) -> Option<SoilReading>,
    pestObservations: (real, real) -> Option<seq<Observation>>,
    advisoryArticles: Option<seq<ArticleElement>>,
    news: string -> Option<seq<NewsArticle>>,
    now: string)

  // =============================================================== context

  /** The keys `gather_context_data` may set. */
  datatype Key =
    | PagasaKey | RegionalKey | TyphoonKey | DetailedKey | SoilKey
    | PestsKey | ObservationsKey | CalendarKey | PricesKey | AdvisoriesKey | NewsKey

  /** The key as the dictionary spells it. */
  function KeyName(k: Key): string {
    match k
    case PagasaKey => "pagasa_weather"
    case RegionalKey => "regional_weather"
    case TyphoonKey => "typhoon_alert"
    case DetailedKey => "detailed_weather"
    case SoilKey => "soil"
    case PestsKey => "ph_pests"
    case ObservationsKey => "pest_observations"
    case CalendarKey => "crop_calendar"
    case PricesKey => "prices"
    case AdvisoriesKey => "da_advisories"
    case NewsKey => "news"
  }

  /** No two keys are spelled alike, so one record field per key loses nothing. */
  lemma KeyNamesDistinct(a: Key, b: Key)
    ensures KeyName(a) == KeyName(b) <==> a == b
  {
  }

  /**
   * The context dictionary: one field per key, `None` when the key is not set.
   * Under a set key, an inner `None` is the `None` a failed provider returns.
   */
  datatype Context = Context(
    pagasaWeather: Option<Option<seq<Forecast>>>,
    regionalWeather: Option<Option<RegionalReport>>,
    typhoonAlert: Option<Option<CycloneInfo>>,
    detailedWeather: Option<Option<DetailedWeather>>,
    soil: Option<Option<SoilReading>>,
    phPests: Option<PestsResult>,
    pestObservations: Option<Option<seq<Observation>>>,
    cropCalendar: Option<CropCalendar>,
    prices: Option<PriceTable>,
    daAdvisories: Option<Option<seq<Advisory>>>,
    news: Option<Option<seq<NewsArticle>>>)

  /** `{}` */
  const EmptyContext := Context(None, None, None, None, None, None, None, None, None, None, None)

  /** `key in context` */
  predicate Has(ctx: Context, key: Key) {
    match key
    case PagasaKey => ctx.pagasaWeather.Some?
    case RegionalKey => ctx.regionalWeather.Some?
    case TyphoonKey => ctx.typhoonAlert.Some?
    case DetailedKey => ctx.detailedWeather.Some?
    case SoilKey => ctx.soil.Some?
    case PestsKey => ctx.phPests.Some?
    case ObservationsKey => ctx.pestObservations.Some?
    case CalendarKey => ctx.cropCalendar.Some?
    case PricesKey => ctx.prices.Some?
    case AdvisoriesKey => ctx.daAdvisories.Some?
    case NewsKey => ctx.news.Some?
  }

  /** The list under a key, `[]` when the key is unset or holds `None`: for
    * list values `key in context and context[key]` is `Listed(...) != []`. */
  function Listed<T>(entry: Option<Option<seq<T>>>): seq<T> {
    if entry.Some? && entry.value.Some? then entry.value.value else []
  }

  /** The record under a key, when the key is set and does not hold `None`. */
  function Held<T>(entry: Option<Option<T>>): Option<T> {
    if entry.Some? then entry.value else None
  }

  /** What the formatter reads exists: a whole pests database has no crop named
    * "pests", and a price table with a rice row has a regular-milled price. */
  predicate WellFormed(ctx: Context) {
    && (ctx.phPests.Some? && ctx.phPests.value.WholeDatabase? ==> "pests" !in Keys(ctx.phPests.value.database))
    && (ctx.prices.Some? && "rice" in ctx.prices.value.prices ==> "regular_milled" in ctx.prices.value.prices["rice"])
  }

  /** The intent whose branch fills a key. */
  function KeyOwner(key: Key): Tag {
    match key
    case PagasaKey | RegionalKey | TyphoonKey | DetailedKey => Weather
    case SoilKey => Soil
    case PestsKey | ObservationsKey => Tag.Pest
    case CalendarKey => Crop
    case PricesKey => Price
    case AdvisoriesKey | NewsKey => News
  }

  // =========================================================== coordinates

  const ManilaLat: real := 14.5995
  const ManilaLon: real := 120.9842

  /** `if not lat or not lon: lat, lon = 14.5995, 120.9842`. */
  function Coordinates(lat: Option<real>, lon: Option<real>): (at: (real, real))
    ensures at.0 != 0.0 && at.1 != 0.0
    ensures at == (ManilaLat, ManilaLon) || (lat == Some(at.0) && lon == Some(at.1))
    ensures lat.Some? && lon.Some? && lat.value != 0.0 && lon.value != 0.0 ==> at == (lat.value, lon.value)
  {
    if lat.None? || lon.None? || lat.value == 0.0 || lon.value == 0.0 then (ManilaLat, ManilaLon)
    else (lat.value, lon.value)
  }

  /** `if region:` — a region was given and is not empty. */
  predicate RegionGiven(region: Option<string>) {
    region.Some? && region.value != ""
  }

  // ============================================================ crop scan

  const CropCandidates: seq<string> := ["rice", "corn", "vegetables", "banana"]

  const NewsQuery := "philippines agriculture"

  function TagNames(tags: seq<Tag>): (names: seq<string>)
    ensures |names| == |tags|
    ensures forall i :: 0 <= i < |tags| ==> names[i] == TagName(tags[i])
  {
    seq(|tags|, i requires 0 <= i < |tags| => TagName(tags[i]))
  }

  /** `str(self.conversation_history[-1:])`: the printed one-element list holding
    * the newest entry (or `[]`); the string quoting of the content is not modelled. */
  function LastEntryText(history: seq<Message>): string {
    if history == [] then "[]"
    else
      var m := history[|history| - 1];
      "[{'role': '" + RoleName(m.role) + "', 'content': '" + m.content + "'}]"
  }

  /** `crop in intents or crop in str(self.conversation_history[-1:]).lower()`. */
  predicate CropMentioned(crop: string, tags: seq<Tag>, history: seq<Message>) {
    crop in TagNames(tags) || Occurs(crop, Lower(LastEntryText(history)))
  }

  /** A name occurring in the lower-cased content of the newest entry occurs in
    * the printed entry too, so it counts as mentioned. */
  lemma NewestContentMentions(crop: string, tags: seq<Tag>, history: seq<Message>)
    requires history != []
    requires Occurs(crop, Lower(history[|history| - 1].content))
    ensures CropMentioned(crop, tags, history)
  {
    var m := history[|history| - 1];
    var pre := "[{'role': '" + RoleName(m.role) + "', 'content': '";
    assert LastEntryText(history) == pre + m.content + "'}]";
    OccursInside(crop, pre, m.content, "'}]");
  }

  /** The first candidate mentioned, as the loop with its `break` finds it. */
  function FirstCrop(candidates: seq<string>, tags: seq<Tag>, history: seq<Message>): (r: Option<string>)
    ensures r.None? <==> forall i :: 0 <= i < |candidates| ==> !CropMentioned(candidates[i], tags, history)
    ensures r.Some? ==> exists i :: 0 <= i < |candidates| && candidates[i] == r.value
                          && CropMentioned(r.value, tags, history)
                          && forall j :: 0 <= j < i ==> !CropMentioned(candidates[j], tags, history)
  {
    if candidates == [] then None
    else if CropMentioned(candidates[0], tags, history) then Some(candidates[0])
    else
      var r := FirstCrop(candidates[1..], tags, history);
      assert forall i :: 1 <= i < |candidates| ==> candidates[i] == candidates[1..][i - 1];
      if r.Some? then
        var i :| 0 <= i < |candidates[1..]| && candidates[1..][i] == r.value
                 && CropMentioned(r.value, tags, history)
                 && forall j :: 0 <= j < i ==> !CropMentioned(candidates[1..][j], tags, history);
        assert candidates[i + 1] == r.value;
        r
      else r
  }

  /** `crop in intents` never holds: no crop name is a tag name. So a crop is
    * mentioned exactly when it occurs in the newest history entry. */
  lemma CropScanReadsHistoryOnly(tags: seq<Tag>, history: seq<Message>)
    ensures forall i :: 0 <= i < |CropCandidates| ==>
              (CropMentioned(CropCandidates[i], tags, history)
               <==> Occurs(CropCandidates[i], Lower(LastEntryText(history))))
  {
    forall i, t | 0 <= i < |CropCandidates| ensures CropCandidates[i] != TagName(t) {
      if |CropCandidates[i]| == |TagName(t)| && CropCandidates[i][0] == TagName(t)[0] {
        assert CropCandidates[i] == "corn" && TagName(t) == "crop";
        assert CropCandidates[i][1] != TagName(t)[1];
      }
    }
  }

  // ============================================================== gather

  /**
   * What every key would hold this turn, whichever intents are detected: each
   * provider's answer at the settled coordinates, regional weather only when a
   * region is given (`if region:`), and the calendar only of a crop the scan found.
   */
  function Answers(region: Option<string>, at: (real, real), crop: Option<string>, p: Providers): (all: Context)
    ensures WellFormed(all)
  {
    PestsDatabaseCrops();
    Context(
      pagasaWeather := Some(PagasaWeatherForecast(p.pagasaFeed)),
      regionalWeather := if RegionGiven(region) then Some(RegionalWeather(region.value, p.regionalFetch)) else None,
      typhoonAlert := Some(TropicalCycloneInfo(p.cycloneTexts, p.now)),
      detailedWeather := Some(p.openMeteo(at.0, at.1)),
      soil := Some(p.soil(at.0, at.1)),
      phPests := Some(CommonPhilippinePests(None)),
      pestObservations := Some(p.pestObservations(at.0, at.1)),
      cropCalendar := if crop.Some? then Some(PhilippineCropCalendar(crop.value)) else None,
      prices := Some(MarketPricesManual()),
      daAdvisories := Some(DaAdvisories(p.advisoryArticles)),
      news := Some(p.news(NewsQuery)))
  }

  /** Every key has an answer, except regional weather without a region and the
    * calendar without a crop. */
  lemma AnswersKey(region: Option<string>, at: (real, real), crop: Option<string>, p: Providers, key: Key)
    ensures Has(Answers(region, at, crop, p), key) <==>
              (key == RegionalKey ==> RegionGiven(region)) && (key == CalendarKey ==> crop.Some?)
  {
  }

  /** The keys of detected intents, holding what they hold in `all`; no other key. */
  function Select(all: Context, tags: seq<Tag>): (ctx: Context)
    ensures forall key :: Has(ctx, key) <==> Has(all, key) && KeyOwner(key) in tags
    ensures WellFormed(all) ==> WellFormed(ctx)
  {
    Context(
      pagasaWeather := if Weather in tags then all.pagasaWeather else None,
      regionalWeather := if Weather in tags then all.regionalWeather else None,
      typhoonAlert := if Weather in tags then all.typhoonAlert else None,
      detailedWeather := if Weather in tags then all.detailedWeather else None,
      soil := if Soil in tags then all.soil else None,
      phPests := if Tag.Pest in tags then all.phPests else None,
      pestObservations := if Tag.Pest in tags then all.pestObservations else None,
      cropCalendar := if Crop in tags then all.cropCalendar else None,
      prices := if Price in tags then all.prices else None,
      daAdvisories := if News in tags then all.daAdvisories else None,
      news := if News in tags then all.news else None)
  }

  /** `if 'weather' in intents:` — the PAGASA forecast, the region's weather
    * when there is one, the cyclone information and Open-Meteo's reading. */
  function WeatherStage(ctx: Context, tags: seq<Tag>, all: Context): Context {
    if Weather !in tags then ctx
    else
      ctx.(pagasaWeather := all.pagasaWeather,
           regionalWeather := if all.regionalWeather.Some? then all.regionalWeather else ctx.regionalWeather,
           typhoonAlert := all.typhoonAlert,
           detailedWeather := all.detailedWeather)
  }

  /** `if 'soil' in intents:` */
  function SoilStage(ctx: Context, tags: seq<Tag>, all: Context): Context {
    if Soil !in tags then ctx else ctx.(soil := all.soil)
  }

  /** `if 'pest' in intents:` — the pests database and nearby observations. */
  function PestStage(ctx: Context, tags: seq<Tag>, all: Context): Context {
    if Tag.Pest !in tags then ctx else ctx.(phPests := all.phPests, pestObservations := all.pestObservations)
  }

  /** `if 'crop' in intents:` — the calendar, when the scan found a crop. */
  function CropStage(ctx: Context, tags: seq<Tag>, all: Context): Context {
    if Crop !in tags || all.cropCalendar.None? then ctx else ctx.(cropCalendar := all.cropCalendar)
  }

  /** `if 'price' in intents:` */
  function PriceStage(ctx: Context, tags: seq<Tag>, all: Context): Context {
    if Price !in tags then ctx else ctx.(prices := all.prices)
  }

  /** `if 'news' in intents:` */
  function NewsStage(ctx: Context, tags: seq<Tag>, all: Context): Context {
    if News !in tags then ctx else ctx.(daAdvisories := all.daAdvisories, news := all.news)
  }

  /** The branches of `gather_context_data` in the source's order, from `{}`. */
  function Stages(all: Context, tags: seq<Tag>): Context {
    var weather := WeatherStage(EmptyContext, tags, all);
    var soil := SoilStage(weather, tags, all);
    var pests := PestStage(soil, tags, all);
    NewsStage(PriceStage(CropStage(pests, tags, all), tags, all), tags, all)
  }

  /** Running the branches in order builds exactly the selection of the detected
    * intents' keys: no branch overwrites a key another branch set. */
  lemma StagesSelect(all: Context, tags: seq<Tag>)
    ensures Stages(all, tags) == Select(all, tags)
  {
  }

  /** The context `gather_context_data` builds: the answers at the coordinates
    * settled first, for the crop the scan finds, restricted to detected intents. */
  function Gather(tags: seq<Tag>, lat: Option<real>, lon: Option<real>, region: Option<string>,
                  history: seq<Message>, p: Providers): (ctx: Context)
    ensures WellFormed(ctx)
  {
    Select(Answers(region, Coordinates(lat, lon), FirstCrop(CropCandidates, tags, history), p), tags)
  }

  /** Only keys of detected intents are set: a key is present exactly when its
    * intent was detected, `regional_weather` only when a region is given, and
    * `crop_calendar` only when a crop was found. */
  lemma GatherKeys(tags: seq<Tag>, lat: Option<real>, lon: Option<real>, region: Option<string>,
                   history: seq<Message>, p: Providers)
    ensures var ctx := Gather(tags, lat, lon, region, history, p);
            forall key :: Has(ctx, key) <==>
              && KeyOwner(key) in tags
              && (key == RegionalKey ==> RegionGiven(region))
              && (key == CalendarKey ==> FirstCrop(CropCandidates, tags, history).Some?)
  {
    var crop := FirstCrop(CropCandidates, tags, history);
    forall key ensures Has(Answers(region, Coordinates(lat, lon), crop, p), key) <==>
                         (key == RegionalKey ==> RegionGiven(region)) && (key == CalendarKey ==> crop.Some?) {
      AnswersKey(region, Coordinates(lat, lon), crop, p, key);
    }
  }

  /** `['general']` gathers nothing: the context is `{}`. */
  lemma GatherGeneral(lat: Option<real>, lon: Option<real>, region: Option<string>,
                      history: seq<Message>, p: Providers)
    ensures Gather([General], lat, lon, region, history, p) == EmptyContext
  {
  }

  /** Missing or zero coordinates are replaced by Manila's before any provider
    * that takes coordinates is called: the context is the one gathered at Manila. */
  lemma GatherDefaultsToManila(tags: seq<Tag>, lat: Option<real>, lon: Option<real>, region: Option<string>,
                               history: seq<Message>, p: Providers)
    requires lat.None? || lon.None? || lat == Some(0.0) || lon == Some(0.0)
    ensures Gather(tags, lat, lon, region, history, p) == Gather(tags, Some(ManilaLat), Some(ManilaLon), region, history, p)
    ensures var ctx := Gather(tags, lat, lon, region, history, p);
            && (Weather in tags ==> ctx.detailedWeather == Some(p.openMeteo(ManilaLat, ManilaLon)))
            && (Soil in tags ==> ctx.soil == Some(p.soil(ManilaLat, ManilaLon)))
            && (Tag.Pest in tags ==> ctx.pestObservations == Some(p.pestObservations(ManilaLat, ManilaLon)))
  {
    assert Coordinates(lat, lon) == (ManilaLat, ManilaLon) == Coordinates(Some(ManilaLat), Some(ManilaLon));
  }

  /** The crop calendar is the one of the first of rice, corn, vegetables, banana
    * that occurs in the newest history entry (the previous turn's, since the
    * current message is appended only after gathering); absent when none occurs. */
  lemma GatherCropCalendar(tags: seq<Tag>, lat: Option<real>, lon: Option<real>, region: Option<string>,
                           history: seq<Message>, p: Providers)
    requires Crop in tags
    ensures var ctx := Gather(tags, lat, lon, region, history, p);
            var text := Lower(LastEntryText(history));
            && (ctx.cropCalendar.Some? <==> exists i :: 0 <= i < |CropCandidates| && Occurs(CropCandidates[i], text))
            && forall i :: 0 <= i < |CropCandidates| && Occurs(CropCandidates[i], text)
                           && (forall j :: 0 <= j < i ==> !Occurs(CropCandidates[j], text))
                           ==> ctx.cropCalendar == Some(PhilippineCropCalendar(CropCandidates[i]))
  {
    CropScanReadsHistoryOnly(tags, history);
    var text := Lower(LastEntryText(history));
    var crop := FirstCrop(CropCandidates, tags, history);
    forall i | 0 <= i < |CropCandidates| && Occurs(CropCandidates[i], text)
                && (forall j :: 0 <= j < i ==> !Occurs(CropCandidates[j], text))
      ensures crop == Some(CropCandidates[i])
    {
      var k :| 0 <= k < |CropCandidates| && CropCandidates[k] == crop.value
               && CropMentioned(crop.value, tags, history)
               && forall j :: 0 <= j < k ==> !CropMentioned(CropCandidates[j], tags, history);
      assert k == i;
    }
  }
}
