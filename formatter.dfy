/**
 * The text block `FarmerChatbot.format_context_for_llm` (agriaid_chatbot.py)
 * renders from a context: a header, one section per set and truthy key in a
 * fixed order (weather forecast, typhoon, detailed conditions, soil, pests,
 * prices, advisories, news), each capped to its first few items, and a footer.
 */
module Formatter {
  import opened Wrappers
  import opened Text
  import opened PhilippineApis
  import opened Intent
  import opened Session
  import opened Context

  const Header := "\n\n[REAL-TIME AGRICULTURAL DATA]\n"
  const Footer := "\n[END OF REAL-TIME DATA]\n"

  const PagasaHeading := "\n\U{1F1F5}\U{1F1ED} PAGASA WEATHER FORECAST:\n"
  const TyphoonStatusHeading := "\n\U{26A0}\U{FE0F} TYPHOON STATUS: "
  const TyphoonAlertHeading := "\n\U{26A0}\U{FE0F} TYPHOON ALERT:\n"
  const DetailedHeading := "\n\U{1F324}\U{FE0F} DETAILED CONDITIONS:\n"
  const SoilHeading := "\n\U{1F331} SOIL CONDITIONS:\n"
  const PestsHeading := "\n\U{1F41B} COMMON PHILIPPINE PESTS:\n"
  const PricesHeading := "\n\U{1F4B0} CURRENT MARKET PRICES (as of "
  const AdvisoriesHeading := "\n\U{1F4F0} DA ADVISORIES:\n"
  const NewsHeading := "\n\U{1F4E1} LATEST AGRICULTURAL NEWS:\n"

  /** How many items of each list are rendered, and how long an excerpt is. */
  const ForecastCap := 3
  const AlertCap := 2
  const PestCap := 2
  const ItemCap := 3
  const ExcerptLength := 200

  /** Python's `f"{x}"` of an optional string: `None` prints as `None`. */
  function Shown(s: Option<string>): string {
    if s.Some? then s.value else "None"
  }

  // ------------------------------------------------------------ item lines

  function ForecastLines(f: Forecast): string {
    "- " + f.title + "\n" + "  " + Take(f.summary, ExcerptLength) + "...\n"
  }

  function AlertLine(b: Bulletin): string {
    "  " + Take(b.content, ExcerptLength) + "...\n"
  }

  function PestLine(p: Pest): string {
    "- " + p.name + ": " + p.symptoms + "\n"
  }

  function AdvisoryLines(a: Advisory): string {
    "- " + a.title + "\n  " + Shown(a.link) + "\n"
  }

  function ArticleLines(n: NewsArticle): string {
    "- " + n.title + "\n  " + n.url + "\n"
  }

  function ConditionsLines(w: Conditions): string {
    "- Temperature: " + w.temperature + "\U{B0}C\n"
    + "- Humidity: " + w.humidity + "%\n"
    + "- Wind: " + w.windspeed + " km/h\n"
    + "- Precipitation: " + w.precipitation + " mm\n"
  }

  function SoilLines(s: SoilReading): string {
    "- Temperature: " + s.soilTemp + "\U{B0}C\n" + "- Moisture: " + s.soilMoisture + "\n"
  }

  // -------------------------------------------------------------- sections

  /** The truthiness test of each section, `key in context and context[key]`. */
  predicate Shows(ctx: Context, key: Key) {
    match key
    case PagasaKey => Listed(ctx.pagasaWeather) != []
    case TyphoonKey =>
      var c := Held(ctx.typhoonAlert);
      c.Some? && (if c.value.Bulletins? then c.value.bulletins != [] else c.value.message != "")
    case DetailedKey => Held(ctx.detailedWeather).Some?
    case SoilKey => Held(ctx.soil).Some?
    case PestsKey => ctx.phPests.Some? && (ctx.phPests.value.WholeDatabase? ==> ctx.phPests.value.database != [])
    case PricesKey => ctx.prices.Some?
    case AdvisoriesKey => Listed(ctx.daAdvisories) != []
    case NewsKey => Listed(ctx.news) != []
    case RegionalKey | ObservationsKey | CalendarKey => false
  }

  function PagasaSection(ctx: Context): (r: string)
    ensures r != "" <==> Shows(ctx, PagasaKey)
  {
    var fs := Listed(ctx.pagasaWeather);
    if fs == [] then "" else PagasaHeading + Concat(Take(fs, ForecastCap), ForecastLines)
  }

  /** A status string is printed whole on the heading line; bulletins are listed. */
  function TyphoonSection(ctx: Context): (r: string)
    ensures r != "" <==> Shows(ctx, TyphoonKey)
  {
    var alert: Option<CycloneInfo> := Held(ctx.typhoonAlert);
    if alert.None? then ""
    else
      match alert.value
      case CycloneStatus(message) => if message == "" then "" else TyphoonStatusHeading + message + "\n"
      case Bulletins(bs) => if bs == [] then "" else TyphoonAlertHeading + Concat(Take(bs, AlertCap), AlertLine)
  }

  function DetailedSection(ctx: Context): (r: string)
    ensures r != "" <==> Shows(ctx, DetailedKey)
  {
    match Held(ctx.detailedWeather)
    case None => ""
    case Some(w) => DetailedHeading + ConditionsLines(w.current)
  }

  function SoilSection(ctx: Context): (r: string)
    ensures r != "" <==> Shows(ctx, SoilKey)
  {
    match Held(ctx.soil)
    case None => ""
    case Some(s) => SoilHeading + SoilLines(s)
  }

  /** Only a single crop's list of pests has a `pests` entry to list. */
  function PestsSection(ctx: Context): (r: string)
    requires WellFormed(ctx)
    ensures r != "" <==> Shows(ctx, PestsKey)
    ensures r != "" ==> PestsHeading <= r
    ensures (ctx.phPests.Some? && ctx.phPests.value.WholeDatabase?) ==> r == "" || r == PestsHeading
  {
    if !Shows(ctx, PestsKey) then ""
    else
      match ctx.phPests.value
      case OneCrop(PestList(pests, _)) => PestsHeading + Concat(Take(pests, PestCap), PestLine)
      case _ => PestsHeading
  }

  function PricesSection(ctx: Context): (r: string)
    requires WellFormed(ctx)
    ensures r != "" <==> Shows(ctx, PricesKey)
  {
    match ctx.prices
    case None => ""
    case Some(t) =>
      PricesHeading + t.lastUpdated + "):\n"
      + (if "rice" in t.prices then "- Rice: " + t.prices["rice"]["regular_milled"] + "\n" else "")
  }

  function AdvisoriesSection(ctx: Context): (r: string)
    ensures r != "" <==> Shows(ctx, AdvisoriesKey)
  {
    var advisories := Listed(ctx.daAdvisories);
    if advisories == [] then "" else AdvisoriesHeading + Concat(Take(advisories, ItemCap), AdvisoryLines)
  }

  function NewsSection(ctx: Context): (r: string)
    ensures r != "" <==> Shows(ctx, NewsKey)
  {
    var articles := Listed(ctx.news);
    if articles == [] then "" else NewsHeading + Concat(Take(articles, ItemCap), ArticleLines)
  }

  /** `format_context_for_llm(context)`: the header, the sections in the order
    * they are appended, and the footer. */
  function Render(ctx: Context): (r: string)
    requires WellFormed(ctx)
    ensures Header <= r
    ensures r[|r| - |Footer|..] == Footer
  {
    Header + PagasaSection(ctx) + TyphoonSection(ctx) + DetailedSection(ctx) + SoilSection(ctx)
    + PestsSection(ctx) + PricesSection(ctx) + AdvisoriesSection(ctx) + NewsSection(ctx) + Footer
  }

  // ---------------------------------------------------------------- lemmas

  /** Nothing renders between header and footer exactly when no rendered key is
    * set to something truthy. */
  lemma RenderEmpty(ctx: Context)
    requires WellFormed(ctx)
    ensures Render(ctx) == Header + Footer <==> forall key :: !Shows(ctx, key)
  {
    var pagasa, typhoon, detailed, soil := PagasaSection(ctx), TyphoonSection(ctx), DetailedSection(ctx), SoilSection(ctx);
    var pests, prices, advisories, news := PestsSection(ctx), PricesSection(ctx), AdvisoriesSection(ctx), NewsSection(ctx);
    assert |Render(ctx)| == |Header| + |pagasa| + |typhoon| + |detailed| + |soil| + |pests| + |prices|
                            + |advisories| + |news| + |Footer|;
    if forall key :: !Shows(ctx, key) {
      assert !Shows(ctx, PagasaKey) && !Shows(ctx, TyphoonKey) && !Shows(ctx, DetailedKey) && !Shows(ctx, SoilKey);
      assert !Shows(ctx, PestsKey) && !Shows(ctx, PricesKey) && !Shows(ctx, AdvisoriesKey) && !Shows(ctx, NewsKey);
      assert Render(ctx) == Header + "" + "" + "" + "" + "" + "" + "" + "" + Footer;
    }
  }

  /** `{}` renders as the bare frame. */
  lemma RenderEmptyContext()
    ensures Render(EmptyContext) == Header + Footer
  {
    RenderEmpty(EmptyContext);
  }

  /** Regional weather, pest observations and the crop calendar are gathered but
    * never rendered: changing them leaves the text unchanged. */
  lemma RenderIgnoresUnrenderedKeys(ctx: Context, regional: Option<Option<RegionalReport>>,
                                    observations: Option<Option<seq<Observation>>>,
                                    calendar: Option<CropCalendar>)
    requires WellFormed(ctx)
    ensures WellFormed(ctx.(regionalWeather := regional, pestObservations := observations, cropCalendar := calendar))
    ensures Render(ctx.(regionalWeather := regional, pestObservations := observations, cropCalendar := calendar))
            == Render(ctx)
  {
    var other := ctx.(regionalWeather := regional, pestObservations := observations, cropCalendar := calendar);
    assert PagasaSection(other) == PagasaSection(ctx);
    assert TyphoonSection(other) == TyphoonSection(ctx);
    assert DetailedSection(other) == DetailedSection(ctx);
    assert SoilSection(other) == SoilSection(ctx);
    assert PestsSection(other) == PestsSection(ctx);
    assert PricesSection(other) == PricesSection(ctx);
    assert AdvisoriesSection(other) == AdvisoriesSection(ctx);
    assert NewsSection(other) == NewsSection(ctx);
  }

  /** Only the first three forecasts reach the text: forecasts past the third
    * can be anything. */
  lemma {:induction false} PagasaCap(ctx: Context, fs: seq<Forecast>, more: seq<Forecast>)
    requires |fs| >= ForecastCap
    ensures PagasaSection(ctx.(pagasaWeather := Some(Some(fs + more))))
            == PagasaSection(ctx.(pagasaWeather := Some(Some(fs))))
  {
    assert Take(fs + more, ForecastCap) == Take(fs, ForecastCap);
  }

  /** Only the first two cyclone bulletins reach the text. */
  lemma {:induction false} TyphoonCap(ctx: Context, bs: seq<Bulletin>, more: seq<Bulletin>)
    requires |bs| >= AlertCap
    ensures TyphoonSection(ctx.(typhoonAlert := Some(Some(Bulletins(bs + more)))))
            == TyphoonSection(ctx.(typhoonAlert := Some(Some(Bulletins(bs)))))
  {
    assert Take(bs + more, AlertCap) == Take(bs, AlertCap);
  }

  /** Only the first two pests of a crop's list reach the text. */
  lemma {:induction false} PestsCap(ctx: Context, pests: seq<Pest>, more: seq<Pest>, prevention: string)
    requires WellFormed(ctx)
    requires |pests| >= PestCap
    ensures WellFormed(ctx.(phPests := Some(OneCrop(PestList(pests + more, prevention)))))
    ensures PestsSection(ctx.(phPests := Some(OneCrop(PestList(pests + more, prevention)))))
            == PestsSection(ctx.(phPests := Some(OneCrop(PestList(pests, prevention)))))
  {
    assert Take(pests + more, PestCap) == Take(pests, PestCap);
  }

  /** Only the first three advisories reach the text. */
  lemma {:induction false} AdvisoriesCap(ctx: Context, items: seq<Advisory>, more: seq<Advisory>)
    requires |items| >= ItemCap
    ensures AdvisoriesSection(ctx.(daAdvisories := Some(Some(items + more))))
            == AdvisoriesSection(ctx.(daAdvisories := Some(Some(items))))
  {
    assert Take(items + more, ItemCap) == Take(items, ItemCap);
  }

  /** Only the first three news articles reach the text. */
  lemma {:induction false} NewsCap(ctx: Context, articles: seq<NewsArticle>, more: seq<NewsArticle>)
    requires |articles| >= ItemCap
    ensures NewsSection(ctx.(news := Some(Some(articles + more))))
            == NewsSection(ctx.(news := Some(Some(articles))))
  {
    assert Take(articles + more, ItemCap) == Take(articles, ItemCap);
  }

  /** A bulletin's line quotes the first 200 characters of its content, or all
    * of it when it is shorter, between the indent and the ellipsis. */
  lemma AlertLineExcerpt(b: Bulletin)
    ensures 6 <= |AlertLine(b)| <= ExcerptLength + 6
    ensures AlertLine(b)[2..|AlertLine(b)| - 4] <= b.content
    ensures |b.content| <= ExcerptLength ==> AlertLine(b)[2..|AlertLine(b)| - 4] == b.content
    ensures |b.content| > ExcerptLength ==> |AlertLine(b)| == ExcerptLength + 6
  {
    var excerpt := Take(b.content, ExcerptLength);
    assert AlertLine(b)[2..|AlertLine(b)| - 4] == excerpt;
  }

  /** Every forecast line pair keeps at most 200 characters of the summary:
    * a rendered forecast is never longer than its title plus 209 characters. */
  lemma ForecastLinesBound(f: Forecast)
    ensures |ForecastLines(f)| <= |f.title| + ExcerptLength + 9
    ensures |f.summary| <= ExcerptLength ==> |ForecastLines(f)| == |f.title| + |f.summary| + 9
  {
  }

  /** The gathered pests are the whole database, which has no `pests` entry:
    * when the pest intent is detected the section is the bare heading. */
  lemma GatheredPestsRenderHeadingOnly(tags: seq<Tag>, lat: Option<real>, lon: Option<real>,
                                       region: Option<string>, history: seq<Message>, p: Providers)
    requires Tag.Pest in tags
    ensures PestsSection(Gather(tags, lat, lon, region, history, p)) == PestsHeading
  {
    var ctx := Gather(tags, lat, lon, region, history, p);
    assert ctx.phPests == Some(WholeDatabase(PestsDatabase()));
    assert |PestsDatabase()| == 3;
  }

  /** The gathered price table renders its date and the regular-milled rice price. */
  lemma GatheredPricesRender(tags: seq<Tag>, lat: Option<real>, lon: Option<real>,
                             region: Option<string>, history: seq<Message>, p: Providers)
    requires Price in tags
    ensures PricesSection(Gather(tags, lat, lon, region, history, p))
            == PricesHeading + "2024-11" + "):\n" + "- Rice: " + "45-50 PHP/kg" + "\n"
  {
    var ctx := Gather(tags, lat, lon, region, history, p);
    assert ctx.prices == Some(MarketPricesManual());
  }
}
