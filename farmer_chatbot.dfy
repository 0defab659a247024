/**
 * `FarmerChatbot` (agriaid_chatbot.py): the conversation history it keeps, and
 * one chat turn — detect intents, gather and render context, record the user's
 * enhanced message, prompt the model with the last ten entries, and record the
 * answer. Each method is proved against the function that specifies it.
 */
module Chatbot {
  import opened Wrappers
  import opened Text
  import opened Intent
  import opened Session
  import opened PhilippineApis
  import opened Context
  import opened Formatter

  const DefaultHost := "http://localhost:11434"
  const DefaultModel := "agriaid"

  /** The Ollama server as the chatbot sees it: what a POST to the url answers,
    * without and with streaming. */
  datatype Backend = Backend(generate: (string, Request) -> Reply, stream: (string, Request) -> StreamReply)

  /** Every assistant entry directly follows a user entry. */
  predicate Alternating(history: seq<Message>) {
    forall i :: 0 <= i < |history| && history[i].role == Assistant ==> i > 0 && history[i - 1].role == User
  }

  /** An answer recorded after the user's entry keeps the alternation. */
  lemma AnswerKeepsAlternating(history: seq<Message>, o: Outcome)
    requires Alternating(history) && history != [] && history[|history| - 1].role == User
    ensures Alternating(history + Recorded(o))
  {
    var h := history + Recorded(o);
    forall i | 0 <= i < |h| && h[i].role == Assistant ensures i > 0 && h[i - 1].role == User {
      if i < |history| {
        assert h[i] == history[i] && h[i - 1] == history[i - 1];
      } else {
        assert i == |history| && h[i - 1] == history[|history| - 1];
      }
    }
  }

  /** One turn adds the user's entry and, when the answer is recorded, the
    * assistant's entry right after it. */
  lemma TurnKeepsAlternating(history: seq<Message>, content: string, o: Outcome)
    requires Alternating(history)
    ensures Alternating(history + [Message(User, content)] + Recorded(o))
    ensures |history + [Message(User, content)] + Recorded(o)| <= |history| + 2
  {
    var asked := history + [Message(User, content)];
    forall i | 0 <= i < |asked| && asked[i].role == Assistant ensures i > 0 && asked[i - 1].role == User {
      assert i < |history| && asked[i] == history[i] && asked[i - 1] == history[i - 1];
    }
    AnswerKeepsAlternating(asked, o);
  }

  class FarmerChatbot {
    const ollamaUrl: string
    const model: string
    var history: seq<Message>

    /** The class invariant: every assistant entry answers the user entry before it. */
    predicate Valid()
      reads this
    {
      Alternating(history)
    }

    /** `OLLAMA_HOST` and `OLLAMA_MODEL` are the environment settings, when set. */
    constructor(hostSetting: Option<string>, modelSetting: Option<string>)
      ensures ollamaUrl == hostSetting.GetOr(DefaultHost) + "/api/generate"
      ensures model == modelSetting.GetOr(DefaultModel)
      ensures history == []
      ensures Valid()
    {
      ollamaUrl := hostSetting.GetOr(DefaultHost) + "/api/generate";
      model := modelSetting.GetOr(DefaultModel);
      history := [];
    }

    /** `detect_intent`: scan the keyword table in order. */
    method DetectIntent(input: string) returns (tags: seq<Tag>)
      ensures tags == Intents(input)
    {
      var lowered := Lower(input);
      var detected: seq<Tag> := [];
      for i := 0 to |IntentKeywords|
        invariant detected == Matched(IntentKeywords[..i], lowered)
      {
        var (tag, keywords) := IntentKeywords[i];
        var found := false;
        for j := 0 to |keywords|
          invariant found <==> exists k :: 0 <= k < j && Occurs(keywords[k], lowered)
        {
          if Occurs(keywords[j], lowered) {
            found := true;
          }
        }
        assert found <==> Mentions(keywords, lowered);
        assert IntentKeywords[..i + 1][..i] == IntentKeywords[..i];
        if found {
          detected := detected + [tag];
        }
      }
      assert IntentKeywords[..|IntentKeywords|] == IntentKeywords;
      tags := if detected == [] then [General] else detected;
    }

    /** The crop scan of `gather_context_data`: the first candidate that is a
      * detected tag or occurs in the printed newest history entry. */
    method FindCrop(tags: seq<Tag>) returns (chosen: Option<string>)
      ensures chosen == FirstCrop(CropCandidates, tags, history)
    {
      var recent := Lower(LastEntryText(history));
      var names := TagNames(tags);
      chosen := None;
      for i := 0 to |CropCandidates|
        invariant chosen.None?
        invariant FirstCrop(CropCandidates, tags, history) == FirstCrop(CropCandidates[i..], tags, history)
      {
        var crop := CropCandidates[i];
        if crop in names || Occurs(crop, recent) {
          chosen := Some(crop);
          break;
        }
        assert CropCandidates[i..][1..] == CropCandidates[i + 1..];
      }
    }

    /**
     * The `weather` branch of `gather_context_data`. Each branch helper is told,
     * as the ghost `all`, this turn's answers for every key (with the ghost
     * inputs they are the answers for), and is proved to set its keys to them.
     */
    static method AddWeatherData(ctx: Context, tags: seq<Tag>, region: Option<string>, lat: real, lon: real,
                                 p: Providers, ghost crop: Option<string>, ghost all: Context) returns (r: Context)
      requires all == Answers(region, (lat, lon), crop, p)
      ensures r == WeatherStage(ctx, tags, all)
    {
      r := ctx;
      if Weather in tags {
        r := r.(pagasaWeather := Some(PagasaWeatherForecast(p.pagasaFeed)));
        if region.Some? && region.value != "" {
          r := r.(regionalWeather := Some(RegionalWeather(region.value, p.regionalFetch)));
        }
        r := r.(typhoonAlert := Some(TropicalCycloneInfo(p.cycloneTexts, p.now)));
        r := r.(detailedWeather := Some(p.openMeteo(lat, lon)));
      }
    }

    /** The `soil` branch of `gather_context_data`. */
    static method AddSoilData(ctx: Context, tags: seq<Tag>, lat: real, lon: real, p: Providers,
                              ghost region: Option<string>, ghost crop: Option<string>, ghost all: Context)
      returns (r: Context)
      requires all == Answers(region, (lat, lon), crop, p)
      ensures r == SoilStage(ctx, tags, all)
    {
      r := ctx;
      if Soil in tags {
        r := r.(soil := Some(p.soil(lat, lon)));
      }
    }

    /** The `pest` branch of `gather_context_data`. */
    static method AddPestData(ctx: Context, tags: seq<Tag>, lat: real, lon: real, p: Providers,
                              ghost region: Option<string>, ghost crop: Option<string>, ghost all: Context)
      returns (r: Context)
      requires all == Answers(region, (lat, lon), crop, p)
      ensures r == PestStage(ctx, tags, all)
    {
      r := ctx;
      if Tag.Pest in tags {
        r := r.(phPests := Some(CommonPhilippinePests(None)));
        r := r.(pestObservations := Some(p.pestObservations(lat, lon)));
      }
    }

    /** The `crop` branch of `gather_context_data`. */
    method AddCropData(ctx: Context, tags: seq<Tag>, ghost region: Option<string>, ghost at: (real, real),
                       ghost p: Providers, ghost all: Context) returns (r: Context)
      requires all == Answers(region, at, FirstCrop(CropCandidates, tags, history), p)
      ensures r == CropStage(ctx, tags, all)
    {
      r := ctx;
      if Crop in tags {
        var chosen := FindCrop(tags);
        if chosen.Some? {
          r := r.(cropCalendar := Some(PhilippineCropCalendar(chosen.value)));
        }
      }
    }

    /** The `price` branch of `gather_context_data`. */
    static method AddPriceData(ctx: Context, tags: seq<Tag>, ghost region: Option<string>, ghost at: (real, real),
                               ghost crop: Option<string>, ghost p: Providers, ghost all: Context) returns (r: Context)
      requires all == Answers(region, at, crop, p)
      ensures r == PriceStage(ctx, tags, all)
    {
      r := ctx;
      if Price in tags {
        r := r.(prices := Some(MarketPricesManual()));
      }
    }

    /** The `news` branch of `gather_context_data`. */
    static method AddNewsData(ctx: Context, tags: seq<Tag>, p: Providers, ghost region: Option<string>,
                              ghost at: (real, real), ghost crop: Option<string>, ghost all: Context) returns (r: Context)
      requires all == Answers(region, at, crop, p)
      ensures r == NewsStage(ctx, tags, all)
    {
      r := ctx;
      if News in tags {
        r := r.(daAdvisories := Some(DaAdvisories(p.advisoryArticles)));
        r := r.(news := Some(p.news(NewsQuery)));
      }
    }

    /** `gather_context_data`: the branches in order; `location` is accepted
      * and not used, as in the source. */
    method GatherContext(tags: seq<Tag>, location: string, lat: Option<real>, lon: Option<real>,
                         region: Option<string>, p: Providers) returns (ctx: Context)
      ensures ctx == Gather(tags, lat, lon, region, history, p)
    {
      var useLat, useLon := ManilaLat, ManilaLon;
      if lat.Some? && lon.Some? && lat.value != 0.0 && lon.value != 0.0 {
        useLat, useLon := lat.value, lon.value;
      }
      assert (useLat, useLon) == Coordinates(lat, lon);
      ghost var crop := FirstCrop(CropCandidates, tags, history);
      ghost var all := Answers(region, (useLat, useLon), crop, p);
      ctx := AddWeatherData(EmptyContext, tags, region, useLat, useLon, p, crop, all);
      ctx := AddSoilData(ctx, tags, useLat, useLon, p, region, crop, all);
      ctx := AddPestData(ctx, tags, useLat, useLon, p, region, crop, all);
      ctx := AddCropData(ctx, tags, region, (useLat, useLon), p, all);
      ctx := AddPriceData(ctx, tags, region, (useLat, useLon), crop, p, all);
      ctx := AddNewsData(ctx, tags, p, region, (useLat, useLon), crop, all);
      StagesSelect(all, tags);
    }

    /** `formatted += line(item)` for each item, in order. */
    static method AppendLines<T>(formatted: string, items: seq<T>, line: T -> string) returns (r: string)
      ensures r == formatted + Concat(items, line)
    {
      r := formatted;
      for i := 0 to |items|
        invariant r == formatted + Concat(items[..i], line)
      {
        assert items[..i + 1][..i] == items[..i];
        r := r + line(items[i]);
      }
      assert items[..|items|] == items;
    }

    /** The PAGASA section: the heading, then the first three forecasts. */
    static method PagasaPart(ctx: Context) returns (section: string)
      ensures section == PagasaSection(ctx)
    {
      section := "";
      var forecasts := Listed(ctx.pagasaWeather);
      if forecasts != [] {
        section := AppendLines(PagasaHeading, Take(forecasts, ForecastCap), ForecastLines);
      }
    }

    /** The typhoon section: a status line, or the heading and the first two bulletins. */
    static method TyphoonPart(ctx: Context) returns (section: string)
      ensures section == TyphoonSection(ctx)
    {
      section := "";
      var alert: Option<CycloneInfo> := Held(ctx.typhoonAlert);
      if alert.Some? {
        match alert.value
        case CycloneStatus(message) =>
          if message != "" {
            section := TyphoonStatusHeading + message + "\n";
          }
        case Bulletins(bulletins) =>
          if bulletins != [] {
            section := AppendLines(TyphoonAlertHeading, Take(bulletins, AlertCap), AlertLine);
          }
      }
    }

    /** The pests section: the heading, then the first two pests of a single crop's list. */
    static method PestsPart(ctx: Context) returns (section: string)
      requires WellFormed(ctx)
      ensures section == PestsSection(ctx)
    {
      section := "";
      if Shows(ctx, PestsKey) {
        section := PestsHeading;
        match ctx.phPests.value
        case OneCrop(PestList(pests, _)) =>
          section := AppendLines(section, Take(pests, PestCap), PestLine);
        case _ =>
      }
    }

    /** The advisories section: the heading, then the first three advisories. */
    static method AdvisoriesPart(ctx: Context) returns (section: string)
      ensures section == AdvisoriesSection(ctx)
    {
      section := "";
      var advisories := Listed(ctx.daAdvisories);
      if advisories != [] {
        section := AppendLines(AdvisoriesHeading, Take(advisories, ItemCap), AdvisoryLines);
      }
    }

    /** The news section: the heading, then the first three articles. */
    static method NewsPart(ctx: Context) returns (section: string)
      ensures section == NewsSection(ctx)
    {
      section := "";
      var articles := Listed(ctx.news);
      if articles != [] {
        section := AppendLines(NewsHeading, Take(articles, ItemCap), ArticleLines);
      }
    }

    /** `format_context_for_llm`: the header, each section in turn, the footer. */
    static method FormatContext(ctx: Context) returns (formatted: string)
      requires WellFormed(ctx)
      ensures formatted == Render(ctx)
    {
      formatted := Header;
      var pagasa := PagasaPart(ctx);
      formatted := formatted + pagasa;
      var typhoon := TyphoonPart(ctx);
      formatted := formatted + typhoon;
      var detailed := "";
      var weather: Option<DetailedWeather> := Held(ctx.detailedWeather);
      if weather.Some? {
        detailed := DetailedHeading + ConditionsLines(weather.value.current);
      }
      formatted := formatted + detailed;
      var soilText := "";
      var soil: Option<SoilReading> := Held(ctx.soil);
      if soil.Some? {
        soilText := SoilHeading + SoilLines(soil.value);
      }
      formatted := formatted + soilText;
      var pests := PestsPart(ctx);
      formatted := formatted + pests;
      var prices := "";
      if ctx.prices.Some? {
        var table := ctx.prices.value;
        prices := PricesHeading + table.lastUpdated + "):\n";
        prices := prices + (if "rice" in table.prices then "- Rice: " + table.prices["rice"]["regular_milled"] + "\n" else "");
      }
      formatted := formatted + prices;
      var advisories := AdvisoriesPart(ctx);
      formatted := formatted + advisories;
      var news := NewsPart(ctx);
      formatted := formatted + news;
      formatted := formatted + Footer;
    }

    /** `_stream_response`: read the lines until the first `done`, record the text. */
    method StreamResponse(request: Request, backend: Backend) returns (reply: string)
      requires Valid() && history != [] && history[|history| - 1].role == User
      modifies this
      ensures Valid()
      ensures var o := Streamed(backend.stream(ollamaUrl, request));
              reply == o.reply && history == old(history) + Recorded(o)
    {
      match backend.stream(ollamaUrl, request)
      case StreamRaised(e) =>
        reply := "Error: " + e;
      case StreamOpened(status, lines) =>
        if status != 200 {
          reply := "Ollama error: " + NatToString(status);
          return;
        }
        var full := "";
        var i := 0;
        while i < |lines|
          invariant 0 <= i <= |lines|
          invariant ReadStream(lines[i..], full) == ReadStream(lines, "")
        {
          assert lines[i..][1..] == lines[i + 1..];
          match lines[i] {
            case BlankLine =>
            case Undecodable =>
            case LineRaised(e) =>
              reply := "Error: " + e;
              return;
            case Fragment(token, done) =>
              var before := full;
              if token.Some? {
                full := full + token.value;
              }
              assert full == before + token.GetOr("");
              if done {
                assert ReadStream(lines, "") == Finished(full);
                break;
              }
          }
          i := i + 1;
        }
        assert ReadStream(lines, "") == Finished(full);
        if IsBlank(full) {
          full := Fallback;
        }
        AnswerKeepsAlternating(history, Outcome(full, Some(full)));
        history := history + [Message(Assistant, full)];
        reply := full;
    }

    /** The user's entry of a turn: the input followed by the context rendered
      * for the intents it mentions, gathered before the entry is recorded. */
    method UserEntry(input: string, location: string, lat: Option<real>, lon: Option<real>,
                     region: Option<string>, p: Providers) returns (user: Message)
      ensures user == Message(User, input + Render(Gather(Intents(input), lat, lon, region, history, p)))
    {
      var tags := DetectIntent(input);
      var ctx := GatherContext(tags, location, lat, lon, region, p);
      var contextText := FormatContext(ctx);
      user := Message(User, input + contextText);
    }

    /** The prompt of a history: the lines of its last ten entries, oldest first. */
    static method PromptOf(messages: seq<Message>) returns (prompt: string)
      ensures prompt == Prompt(messages)
    {
      prompt := AppendLines("", Window(messages), MessageLine);
      assert "" + Concat(Window(messages), MessageLine) == Concat(Window(messages), MessageLine);
    }

    /** The non-streaming request of `chat`: only a non-blank answer is recorded. */
    method Generate(request: Request, backend: Backend) returns (reply: string)
      requires Valid() && history != [] && history[|history| - 1].role == User
      modifies this
      ensures Valid()
      ensures var o := SingleShot(backend.generate(ollamaUrl, request));
              reply == o.reply && history == old(history) + Recorded(o)
    {
      match backend.generate(ollamaUrl, request)
      case PostRaised(e) =>
        reply := CrossMark + " Error: " + e;
      case Replied(status, text, body) =>
        if status != 200 {
          reply := "Ollama error: " + NatToString(status) + " - " + text;
        } else {
          match body
          case NotJson(e) =>
            reply := CrossMark + " Error: " + e;
          case JsonObject(None) =>
            reply := MissingResponse;
          case JsonObject(Some(answer)) =>
            if IsBlank(answer) {
              reply := Fallback;
            } else {
              AnswerKeepsAlternating(history, Outcome(answer, Some(answer)));
              history := history + [Message(Assistant, answer)];
              reply := answer;
            }
        }
    }

    /** `chat`: one turn of the conversation. The user's entry carries the
      * rendered context and is recorded before the model is asked; the reply is
      * recorded only as `SingleShot` or `Streamed` says. */
    method Chat(input: string, location: string, lat: Option<real>, lon: Option<real>, region: Option<string>,
                stream: bool, p: Providers, backend: Backend) returns (reply: string)
      requires Valid()
      modifies this
      ensures Valid()
      ensures var user := Message(User, input + Render(Gather(Intents(input), lat, lon, region, old(history), p)));
              var request := Request(model, Prompt(old(history) + [user]), stream);
              var o := if stream then Streamed(backend.stream(ollamaUrl, request))
                       else SingleShot(backend.generate(ollamaUrl, request));
              reply == o.reply && history == old(history) + [user] + Recorded(o)
    {
      var user := UserEntry(input, location, lat, lon, region, p);
      TurnKeepsAlternating(history, user.content, Outcome("", None));
      assert history + [user] + [] == history + [user];
      history := history + [user];
      var prompt := PromptOf(history);
      var request := Request(model, prompt, stream);
      if stream {
        reply := StreamResponse(request, backend);
      } else {
        reply := Generate(request, backend);
      }
    }

    /** `reset_conversation`. */
    method ResetConversation()
      modifies this
      ensures history == []
      ensures Valid()
    {
      history := [];
    }
  }
}
