# AgriAid chatbot core, modelled in Dafny

AgriAid is a farmer-facing chatbot for the Philippines. One chat turn of its
`FarmerChatbot` (agriaid_chatbot.py) goes through these steps:

1. It detects the intents of the farmer's message (weather, soil, pest, crop,
   news, price, or `general`) by substring matching against a bilingual
   keyword table.
2. It gathers a context dictionary holding only the data those intents call
   for: PAGASA forecasts and cyclone bulletins, regional and detailed weather,
   soil readings, the Philippine pests database and nearby observations, a
   crop calendar, a price table, DA advisories and news.
3. It renders that context as a text block of capped sections.
4. It appends the enhanced message to the conversation history.
5. It prompts the model with the last ten history entries, either in one
   response or as a stream of lines, and records the answer when there is one.

The Philippine scrapers and tables of philippine_apis.py are modelled as pure
functions of what their pages or feeds contain.

The project is made of these files:

- text.dfy: ASCII lower and upper case, `isspace`, substring search, slicing.
- intent.dfy: the keyword table and the detected intents.
- session.dfy: messages, the prompt window, the backend's answers, and the
  outcome of a single or streamed response.
- philippine_apis.dfy: the PAGASA feed and cyclone page, the regional weather
  lookup, the crop calendar, the pests database, the manual price table and
  the DA advisories.
- context.dfy: the context dictionary, as one optional field per key, and
  which keys a set of intents fills.
- formatter.dfy: the rendered text block.
- farmer_chatbot.dfy: the class `FarmerChatbot`. Its `history` field is the
  conversation history. Its methods run the turn step by step and are each
  proved equal to the function that specifies them.

Network and provider results are inputs. A `Providers` value carries this
turn's feed, page and API answers; coordinate-taking services are functions
of the coordinates they get. A `Backend` value carries what a POST to the
model answers.

The gathered context is specified in two parts:

- `Answers` is the value every key would hold this turn.
- `Select` keeps the keys of the detected intents.

The branches of `gather_context_data`, run in their order, are proved to
build exactly this selection (`StagesSelect`).

Some behaviours that follow from the code as written, each stated by a lemma:

- An input containing "ani" (such as "Manila") asks about crops
  (`ManilaMentionsCrop`).
- The crop scan reads the previous turn's entry, never the current message
  (`GatherCropCalendar`).
- The gathered pests entry is the whole database, whose crops are not named
  `pests`, so its section is the bare heading (`GatheredPestsRenderHeadingOnly`).
- Regional weather, pest observations and the crop calendar are gathered but
  never rendered (`RenderIgnoresUnrenderedKeys`).
- A blank non-streamed answer returns the fallback text without recording
  anything, while a blank streamed answer records the fallback text
  (`SingleShot`, `Streamed`).
- The user's entry stays in the history when the request then fails (`Chat`).

## Model

| member | source | states |
|---|---|---|
| Text.Lower | agriaid_chatbot.py:23 | `str.lower()` for ASCII text: keeps the length and maps each character to its lower-case form |
| Text.OccursAt | agriaid_chatbot.py:37 | `keyword in text` holds exactly when the keyword matches at some position of the text |
| Text.Upper | philippine_apis.py:208 | `str.upper()` for ASCII text: keeps the length and maps each character to its upper-case form |
| Text.IsBlank | agriaid_chatbot.py:243 | `not s or not s.strip()`: the text is empty or made only of whitespace |
| Text.Occurs | agriaid_chatbot.py:37 | `needle in haystack`: a prefix of the text or an occurrence in its tail |
| Text.OccursInside | agriaid_chatbot.py:89 | a substring of the lower-cased middle of a text is a substring of the whole lower-cased text |
| Text.Take | agriaid_chatbot.py:116 | the slice `[:n]` is a prefix of length `min(n, len)` |
| Text.NatToString | agriaid_chatbot.py:225 | `str(status_code)`: a non-empty string of decimal digits that denotes the code, with no leading zero except for 0 |
| Text.Concat | agriaid_chatbot.py:116-118 | `out += f(x)` for each item in order, starting from `""` (also the prompt loop at :196-198) |
| Text.ConcatPrepend | agriaid_chatbot.py:116-118 | appending each item's lines in order: the first item's lines come first |
| Intent.Mentions | agriaid_chatbot.py:37 | `any(keyword in text for keyword in keywords)`: some keyword of the row occurs in the text |
| Intent.Matched | agriaid_chatbot.py:35-38 | the tags of the table rows that mention a keyword, in table order |
| Intent.Intents | agriaid_chatbot.py:40 | at least one tag is always returned (`['general']` when nothing matched) |
| Intent.MatchedRows | agriaid_chatbot.py:36-38 | scanning the first n rows detects a tag exactly when its row mentions a keyword; detected tags keep strictly increasing row order |
| Intent.RowTags | agriaid_chatbot.py:25-32 | the keyword table `IntentKeywords` has one row per intent other than `general`, in rank order |
| Intent.MatchedTags | agriaid_chatbot.py:36-38 | a tag is detected exactly when one of its own keywords occurs in the lower-cased input |
| Intent.IntentsSpec | agriaid_chatbot.py:21-40 | a non-general tag is detected iff one of its keywords occurs; `general` is detected iff no row matches, and then alone; tags come in table order without repeats |
| Intent.ManilaMentionsCrop | agriaid_chatbot.py:29 | the input "Manila" is detected as a crop question, since it contains the keyword "ani" |
| Session.Window | agriaid_chatbot.py:197 | `history[-10:]`: the last ten entries, or all of them when there are fewer |
| Session.MessageLine | agriaid_chatbot.py:198 | one prompt line, `role: content` followed by a newline |
| Session.Prompt | agriaid_chatbot.py:196-198 | one `role: content` line per entry of the last ten, oldest first |
| Session.PromptEndsWithNewest | agriaid_chatbot.py:196-198 | the prompt ends with the newest entry's `role: content` line |
| Session.PromptForgetsOlder | agriaid_chatbot.py:197 | entries older than the last ten do not affect the prompt |
| Session.Recorded | agriaid_chatbot.py:247-250 | the history entries an outcome adds: one assistant entry holding the recorded text, or none |
| Session.SingleShot | agriaid_chatbot.py:207-253 | only a status-200 reply with a non-blank `response` is recorded, and it is returned as is; a blank response returns the fallback; a non-200 status returns "Ollama error: <status> - <text>"; a raised POST or an undecodable body returns "❌ Error: <error>"; a body without `response` returns the key-not-found message; the reply is never blank |
| Session.ReadStream | agriaid_chatbot.py:268-283 | the read loop: blank and undecodable lines are skipped, each fragment's `response` is appended, reading stops after the first `done`, and a raising line ends it with its error |
| Session.Consumed | agriaid_chatbot.py:268-283 | the lines read are a prefix that ends at the first `done` fragment, or all lines |
| Session.NoRaisePrepend | agriaid_chatbot.py:268-283 | no line of `[head] + rest` raises iff the head does not and no line of the rest does |
| Session.ReadStreamSpec | agriaid_chatbot.py:268-283 | the read loop finishes iff no consumed line raises, and then its text is the concatenated `response` tokens of the consumed lines |
| Session.ReadStreamStep | agriaid_chatbot.py:268-283 | after a line that neither ends nor breaks the loop, the same finish condition and text hold |
| Session.ReadStreamStopsAtDone | agriaid_chatbot.py:279-280 | lines after a `done` fragment are never read |
| Session.Streamed | agriaid_chatbot.py:255-303 | a streamed answer is recorded iff the status is 200 and reading finished, and the reply is what is recorded; a non-200 status returns "Ollama error: <status>"; a raised POST or a raising line returns "Error: <error>"; the reply is never blank |
| Session.StreamedText | agriaid_chatbot.py:288-298 | a finished stream records its concatenated tokens, or the fallback when they are blank |
| PhilippineApis.Lookup | philippine_apis.py:287-288 | dictionary lookup: `None` iff no row has the key; otherwise the value of the first row with the key |
| PhilippineApis.LookupKeys | philippine_apis.py:287 | a lookup succeeds exactly when the key is among the table's keys |
| PhilippineApis.ForecastOf | philippine_apis.py:26-31 | one entry's record, the summary falling back to the description; `None` when an attribute read is missing |
| PhilippineApis.ForecastsOf | philippine_apis.py:24-33 | one forecast per entry, in order; `None` (the AttributeError) iff some entry lacks an attribute |
| PhilippineApis.PagasaWeatherForecast | philippine_apis.py:15-36 | at most five forecasts, the i-th built from the i-th feed entry; `None` when the feed fails or one of the first five entries lacks an attribute |
| PhilippineApis.TropicalCycloneInfo | philippine_apis.py:38-61 | `None` iff the page fails; otherwise one to three bulletins holding the first texts stamped with `now`, or the "No active tropical cyclones" status when the page has no bulletin |
| PhilippineApis.RegionalWeather | philippine_apis.py:183-234 | an unknown region (case-insensitive) gives the not-found message; a known one reports the fetch at that region's coordinates under the upper-cased name, or `None` when the fetch fails |
| PhilippineApis.RegionCoordinates | philippine_apis.py:188-206 | the region table: each code with its coordinates, in the source's order |
| PhilippineApis.RegionNotFoundMessage | philippine_apis.py:234 | the not-found message quoting the region as given and listing the accepted codes |
| PhilippineApis.RegionCodes | philippine_apis.py:188-206 | the region table has exactly the seventeen codes, in order and distinct |
| PhilippineApis.UnknownRegionIsNotFetched | philippine_apis.py:233-234 | an unknown region's answer does not depend on the weather service |
| PhilippineApis.CropCalendars | philippine_apis.py:243-284 | the crop calendar table: each crop's seasons and activities, in the source's order |
| PhilippineApis.CropCalendarsCrops | philippine_apis.py:243-284 | the calendar table covers rice, corn, vegetables and banana, in that order |
| PhilippineApis.PhilippineCropCalendar | philippine_apis.py:238-295 | a crop named case-insensitively in the table gets its own calendar; any other name gets the no-data record quoting the name as given and listing the four crops |
| PhilippineApis.PestsDatabase | philippine_apis.py:301-342 | the pests database: each crop's pests and prevention advice, in the source's order |
| PhilippineApis.PestsDatabaseCrops | philippine_apis.py:301-342 | the pests database covers rice, corn and vegetables, in that order |
| PhilippineApis.CommonPhilippinePests | philippine_apis.py:297-347 | one crop's entry iff a non-empty crop naming (case-insensitively) a database crop is given; the whole database otherwise, including when no crop is given |
| PhilippineApis.MarketPricesManual | philippine_apis.py:92-126 | the table dated 2024-11 lists rice, corn, vegetables and fruits; regular-milled rice is 45-50 PHP/kg |
| PhilippineApis.AdvisoryOf | philippine_apis.py:144-152 | an article yields an advisory iff it has a title tag (`h2`, else `h3`) and a link tag; the link's `href` may be missing |
| PhilippineApis.KeptPositions | philippine_apis.py:143-147 | the positions of the articles with both tags: strictly increasing, each qualifying, and every qualifying article listed |
| PhilippineApis.KeptAdvisories | philippine_apis.py:143-152 | never more advisories than articles |
| PhilippineApis.KeptAdvisoriesPositions | philippine_apis.py:143-152 | the k-th advisory is the advisory of the k-th article with both tags, so page order is kept and nothing qualifying is dropped |
| PhilippineApis.KeptAdvisoriesComplete | philippine_apis.py:143-152 | every article with both tags contributes its advisory |
| PhilippineApis.KeptAdvisoriesAppend | philippine_apis.py:143-152 | articles are judged one by one, keeping their order |
| PhilippineApis.DaAdvisories | philippine_apis.py:130-157 | `None` iff the page fails; otherwise, of the first five articles, exactly those with both tags give an advisory each, in page order (at most five) |
| Context.Coordinates | agriaid_chatbot.py:46-48 | the coordinates used are never zero; they are the given pair when both are set and non-zero, and Manila's otherwise |
| Context.RegionGiven | agriaid_chatbot.py:59 | `if region:`: a region is given and is not the empty string |
| Context.LastEntryText | agriaid_chatbot.py:89 | the printed one-element list holding the newest entry, or `[]` |
| Context.CropMentioned | agriaid_chatbot.py:89 | a crop is mentioned when it is an intent name or occurs in the lower-cased printed newest entry |
| Context.NewestContentMentions | agriaid_chatbot.py:89 | a crop occurring in the lower-cased content of the newest entry is mentioned |
| Context.KeyName | agriaid_chatbot.py:51-105 | each key as the dictionary spells it |
| Context.KeyNamesDistinct | agriaid_chatbot.py:51-105 | no two keys are spelled alike, so a record with one field per key stands for the dictionary |
| Context.Has | agriaid_chatbot.py:114 | `key in context`: the key's field is set |
| Context.FirstCrop | agriaid_chatbot.py:87-92 | the crop chosen is the first candidate mentioned (over `CropCandidates`, the list at :87); `None` iff no candidate is mentioned |
| Context.CropScanReadsHistoryOnly | agriaid_chatbot.py:89 | `crop in intents` never holds, so a crop is chosen only by occurring in the printed newest history entry |
| Context.Answers | agriaid_chatbot.py:51-105 | every key's value is one the formatter can read (the pests database has no `pests` crop; a rice row has a regular-milled price) |
| Context.AnswersKey | agriaid_chatbot.py:51-105 | every key gets a value, except regional weather without a region and the calendar without a found crop |
| Context.KeyOwner | agriaid_chatbot.py:51-105 | the intent whose `if '<intent>' in intents` branch fills each key |
| Context.Select | agriaid_chatbot.py:51-105 | a key is kept exactly when it has a value and its intent was detected, and selection keeps values readable |
| Context.WeatherStage | agriaid_chatbot.py:51-69 | the weather branch copies the forecast, cyclone and conditions answers, and the regional one when there is one |
| Context.SoilStage | agriaid_chatbot.py:71-74 | the soil branch copies the soil answer |
| Context.PestStage | agriaid_chatbot.py:76-82 | the pest branch copies the pests and observations answers |
| Context.CropStage | agriaid_chatbot.py:84-92 | the crop branch copies the calendar when a crop was found |
| Context.PriceStage | agriaid_chatbot.py:94-97 | the price branch copies the price table |
| Context.NewsStage | agriaid_chatbot.py:99-105 | the news branch copies the advisories and the news |
| Context.Stages | agriaid_chatbot.py:51-105 | the six branches in the source's order, starting from `{}` |
| Context.StagesSelect | agriaid_chatbot.py:51-105 | running the six branches in order from `{}` builds exactly the selection: no branch overwrites another's keys |
| Context.Gather | agriaid_chatbot.py:42-107 | the gathered context is readable by the formatter |
| Context.GatherKeys | agriaid_chatbot.py:44-107 | a key is set iff its intent was detected, `regional_weather` only with a non-empty region, and `crop_calendar` only when a crop was found |
| Context.GatherGeneral | agriaid_chatbot.py:42-107 | the intents `['general']` gather `{}` |
| Context.GatherDefaultsToManila | agriaid_chatbot.py:46-48 | missing or zero coordinates gather the same context as Manila's coordinates, and every coordinate-taking service is asked at Manila |
| Context.GatherCropCalendar | agriaid_chatbot.py:84-92 | with the crop intent, a calendar is set iff a candidate occurs in the newest history entry, and it is the calendar of the first candidate that occurs |
| Formatter.Shows | agriaid_chatbot.py:113-168 | the truthiness test `key in context and context[key]` of each rendered section; the unrendered keys never show |
| Formatter.Shown | agriaid_chatbot.py:163 | `f"{x}"` of an optional text: the text, or `None` when it is missing |
| Formatter.ForecastLines | agriaid_chatbot.py:117-118 | a forecast's title line and its summary cut to 200 characters, followed by `...` |
| Formatter.AlertLine | agriaid_chatbot.py:127 | a bulletin's content cut to 200 characters, indented and followed by `...` |
| Formatter.PestLine | agriaid_chatbot.py:151 | `- name: symptoms` |
| Formatter.AdvisoryLines | agriaid_chatbot.py:163 | an advisory's title line and its indented link, `None` when the link is missing |
| Formatter.ArticleLines | agriaid_chatbot.py:168 | a news article's title line and its indented url |
| Formatter.ConditionsLines | agriaid_chatbot.py:134-137 | the temperature, humidity, wind and precipitation lines of a reading |
| Formatter.SoilLines | agriaid_chatbot.py:143-144 | the soil temperature and moisture lines |
| Formatter.PagasaSection | agriaid_chatbot.py:114-118 | the forecast section is non-empty iff the key holds a non-empty list |
| Formatter.TyphoonSection | agriaid_chatbot.py:121-127 | the typhoon section is non-empty iff the key holds a non-empty status or bulletin list |
| Formatter.DetailedSection | agriaid_chatbot.py:130-137 | the conditions section is non-empty iff the key holds a reading |
| Formatter.SoilSection | agriaid_chatbot.py:140-144 | the soil section is non-empty iff the key holds a reading |
| Formatter.PestsSection | agriaid_chatbot.py:147-151 | the pests section is non-empty iff the key holds a truthy value; it starts with the heading; for the whole database it is the heading alone |
| Formatter.PricesSection | agriaid_chatbot.py:154-157 | the prices section is non-empty iff the key is set |
| Formatter.AdvisoriesSection | agriaid_chatbot.py:160-163 | the advisories section is non-empty iff the key holds a non-empty list |
| Formatter.NewsSection | agriaid_chatbot.py:165-168 | the news section is non-empty iff the key holds a non-empty list |
| Formatter.Render | agriaid_chatbot.py:109-172 | the text starts with the header and ends with the footer |
| Formatter.RenderEmpty | agriaid_chatbot.py:109-172 | the text is the bare header and footer iff no rendered key holds a truthy value |
| Formatter.RenderEmptyContext | agriaid_chatbot.py:109-172 | `{}` renders as the bare header and footer |
| Formatter.RenderIgnoresUnrenderedKeys | agriaid_chatbot.py:109-172 | changing regional weather, pest observations or the crop calendar leaves the text unchanged |
| Formatter.PagasaCap | agriaid_chatbot.py:116 | forecasts past the third never reach the text |
| Formatter.TyphoonCap | agriaid_chatbot.py:126 | cyclone bulletins past the second never reach the text |
| Formatter.PestsCap | agriaid_chatbot.py:150 | a crop's pests past the second never reach the text |
| Formatter.AdvisoriesCap | agriaid_chatbot.py:162 | advisories past the third never reach the text |
| Formatter.NewsCap | agriaid_chatbot.py:167 | news articles past the third never reach the text |
| Formatter.AlertLineExcerpt | agriaid_chatbot.py:127 | a bulletin's line quotes a prefix of its content between the indent and the ellipsis: all of it when it has at most 200 characters, exactly the first 200 otherwise |
| Formatter.ForecastLinesBound | agriaid_chatbot.py:117-118 | a forecast's lines keep at most 200 characters of its summary |
| Formatter.GatheredPestsRenderHeadingOnly | agriaid_chatbot.py:149 | with the pest intent, the gathered pests render as the bare heading: the database has no `pests` entry |
| Formatter.GatheredPricesRender | agriaid_chatbot.py:155-157 | with the price intent, the section shows the date 2024-11 and the regular-milled rice price |
| Chatbot.AnswerKeepsAlternating | agriaid_chatbot.py:247-250 | recording an answer right after the user's entry keeps every assistant entry after a user entry |
| Chatbot.TurnKeepsAlternating | agriaid_chatbot.py:190-193 | a turn adds the user's entry and at most the assistant's right after it, so every assistant entry follows a user entry |
| Chatbot.FarmerChatbot.constructor | agriaid_chatbot.py:12-15 | the url is the host setting (default localhost:11434) plus `/api/generate`; the model defaults to `agriaid`; the history starts empty, so the class invariant (every assistant entry follows a user entry) holds |
| Chatbot.FarmerChatbot.DetectIntent | agriaid_chatbot.py:21-40 | the loop over the keyword table returns `Intents(input)` |
| Chatbot.FarmerChatbot.FindCrop | agriaid_chatbot.py:87-92 | the loop with its `break` returns the first crop mentioned |
| Chatbot.FarmerChatbot.AddWeatherData | agriaid_chatbot.py:51-69 | the weather branch sets the four weather keys to this turn's answers, the regional one only for a non-empty region |
| Chatbot.FarmerChatbot.AddSoilData | agriaid_chatbot.py:71-74 | the soil branch sets `soil` |
| Chatbot.FarmerChatbot.AddPestData | agriaid_chatbot.py:76-82 | the pest branch sets `ph_pests` and `pest_observations` |
| Chatbot.FarmerChatbot.AddCropData | agriaid_chatbot.py:84-92 | the crop branch sets the calendar of the crop found, if any |
| Chatbot.FarmerChatbot.AddPriceData | agriaid_chatbot.py:94-97 | the price branch sets `prices` |
| Chatbot.FarmerChatbot.AddNewsData | agriaid_chatbot.py:99-105 | the news branch sets `da_advisories` and `news` |
| Chatbot.FarmerChatbot.GatherContext | agriaid_chatbot.py:42-107 | the branches in order build `Gather`, at the settled coordinates |
| Chatbot.FarmerChatbot.AppendLines | agriaid_chatbot.py:116-118 | the loop appends each item's lines in order |
| Chatbot.FarmerChatbot.PagasaPart | agriaid_chatbot.py:114-118 | the method builds the forecast section |
| Chatbot.FarmerChatbot.TyphoonPart | agriaid_chatbot.py:121-127 | the method builds the typhoon section |
| Chatbot.FarmerChatbot.PestsPart | agriaid_chatbot.py:147-151 | the method builds the pests section |
| Chatbot.FarmerChatbot.AdvisoriesPart | agriaid_chatbot.py:160-163 | the method builds the advisories section |
| Chatbot.FarmerChatbot.NewsPart | agriaid_chatbot.py:165-168 | the method builds the news section |
| Chatbot.FarmerChatbot.FormatContext | agriaid_chatbot.py:109-172 | the appends build exactly `Render(ctx)` |
| Chatbot.FarmerChatbot.StreamResponse | agriaid_chatbot.py:255-303 | the reply and the new history are those of `Streamed`: the history gains at most the recorded text; called after the user's entry, it keeps the class invariant |
| Chatbot.FarmerChatbot.UserEntry | agriaid_chatbot.py:177-193 | the user's entry is the input followed by the rendered context gathered for its intents, against the history before the entry |
| Chatbot.FarmerChatbot.PromptOf | agriaid_chatbot.py:196-198 | the loop builds the prompt of the last ten entries |
| Chatbot.FarmerChatbot.Generate | agriaid_chatbot.py:221-253 | the reply and the new history are those of `SingleShot`; called after the user's entry, it keeps the class invariant |
| Chatbot.FarmerChatbot.Chat | agriaid_chatbot.py:174-253 | the history gains the user's enhanced entry and then only what the outcome records; the prompt covers the last ten entries including the new one; the reply is the outcome's; the class invariant is kept |
| Chatbot.FarmerChatbot.ResetConversation | agriaid_chatbot.py:305-307 | the history is emptied, which keeps the class invariant |

## Left out

- Printing (progress lines, the streamed tokens echoed to the console) and
  the command-line demos at the end of both files are not modelled.
- Network I/O, `requests`, `feedparser` and `BeautifulSoup` are not modelled.
  Their results are parameters: feed entries with optional attributes,
  bulletin texts, article elements, fetch functions and backend answers.
- api_services.py (Open-Meteo, soil, pest observations, news) is not part of
  this model beyond the results it returns.
- `get_da_bantay_presyo` and `get_bpi_plant_quarantine_alerts` are not
  modelled, because nothing in the chatbot calls them.
- Environment variables are constructor parameters, and the clock's
  timestamp is one `now` string per turn.
- Lower and upper case are ASCII only. Python's full Unicode case mapping
  is not modelled.
- Floating-point numbers are not modelled. Coordinates are `real` literals
  and are only compared with zero; readings and prices are kept as the text
  they print as.
- Context.LastEntryText: the content is printed as is, without the escapes
  `repr` adds. `repr` also picks the quote character, escapes backslashes and
  turns carriage returns, tabs, newlines and other non-printable characters
  into escape sequences. Those escapes can spell a crop name the raw content
  does not contain. For example, content made of a carriage return followed by
  "ice" prints as `\rice`, so the source finds rice where the model finds
  nothing. Letters are never escaped, so a crop named in the content itself is
  found by both (NewestContentMentions).
- Formatter.DetailedSection: the reading always has a `current` record and
  all four fields, so the `N/A` and `0` defaults of `w.get` are not modelled.
- Chatbot.FarmerChatbot.Generate: a `response` value that is not a string
  (for example JSON null) is not modelled. The body either lacks the key or
  holds a string.
- Chatbot.FarmerChatbot.StreamResponse: each line either parses as a JSON
  object or is undecodable. A line whose handling raises stands for any
  other failure.
- Chatbot.FarmerChatbot.GatherContext: `location` is accepted and not used,
  as in the source.
- Chatbot.FarmerChatbot.UserEntry: exceptions raised while gathering are not
  modelled. Every provider catches its own errors and returns `None`.
- Python dictionaries are modelled by their shapes. The context is a record
  with one optional field per key, and the scraped tables are lists of
  (key, value) rows in the source's order.
- PhilippineApis.PhilippineCropCalendar: the calendar found is stated as the
  value of a table row whose key is the lower-cased name. The row is unique
  because the keys are distinct (CropCalendarsCrops).
