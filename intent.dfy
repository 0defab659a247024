/**
 * Intent detection of `FarmerChatbot.detect_intent` (agriaid_chatbot.py):
 * the fixed bilingual keyword table and the tags it selects, by substring
 * matching on the lower-cased input.
 */
module Intent {
  import opened Text

  datatype Tag = Weather | Soil | Pest | Crop | News | Price | General

  /** The tag's name, as the source spells it. */
  function TagName(t: Tag): string {
    match t
    case Weather => "weather"
    case Soil => "soil"
    case Pest => "pest"
    case Crop => "crop"
    case News => "news"
    case Price => "price"
    case General => "general"
  }

  /** The keyword table, in the source's order. */
  const IntentKeywords: seq<(Tag, seq<string>)> := [
    (Weather, ["weather", "temperature", "temp", "rain", "ulan", "forecast", "climate", "bagyo", "typhoon",
               "init", "lamig"]),
    (Soil, ["soil", "lupa", "moisture", "ph", "fertility", "nutrients", "pataba"]),
    (Pest, ["pest", "insect", "kulisap", "bug", "disease", "sakit", "damage", "infestation", "peste"]),
    (Crop, ["crop", "plant", "tanim", "grow", "harvest", "ani", "yield", "palay", "mais", "gulay"]),
    (News, ["news", "balita", "article", "latest", "update", "information", "advisory"]),
    (Price, ["price", "presyo", "market", "sell", "cost", "value", "halaga"])
  ]

  /** The position of a tag in the table; `General` comes after all of them. */
  function Rank(t: Tag): nat {
    match t
    case Weather => 0
    case Soil => 1
    case Pest => 2
    case Crop => 3
    case News => 4
    case Price => 5
    case General => 6
  }

  /** `any(keyword in text for keyword in keywords)`. */
  predicate Mentions(keywords: seq<string>, text: string) {
    exists k :: k in keywords && Occurs(k, text)
  }

  /** The tags of `table` with a keyword in `text`, in table order. */
  function Matched(table: seq<(Tag, seq<string>)>, text: string): seq<Tag> {
    if table == [] then []
    else
      var last := table[|table| - 1];
      Matched(table[..|table| - 1], text) + (if Mentions(last.1, text) then [last.0] else [])
  }

  /** The detected tags: the matched ones, or just `General` when none matched. */
  function Intents(input: string): (r: seq<Tag>)
    ensures r != []
  {
    var m := Matched(IntentKeywords, Lower(input));
    if m == [] then [General] else m
  }

  /** A tag is matched exactly when one of its table rows mentions a keyword,
    * and the matched tags keep the ranks of their rows, strictly increasing. */
  lemma {:induction false} MatchedRows(n: nat, text: string)
    requires n <= |IntentKeywords|
    ensures forall t :: t in Matched(IntentKeywords[..n], text) <==>
              exists i :: 0 <= i < n && IntentKeywords[i].0 == t && Mentions(IntentKeywords[i].1, text)
    ensures forall t :: t in Matched(IntentKeywords[..n], text) ==> Rank(t) < n
    ensures forall i, j :: 0 <= i < j < |Matched(IntentKeywords[..n], text)| ==>
              Rank(Matched(IntentKeywords[..n], text)[i]) < Rank(Matched(IntentKeywords[..n], text)[j])
  {
    assert forall i :: 0 <= i < |IntentKeywords| ==> Rank(IntentKeywords[i].0) == i;
    if n > 0 {
      MatchedRows(n - 1, text);
      assert IntentKeywords[..n][..n - 1] == IntentKeywords[..n - 1];
    }
  }

  /** Row `i` of the table is the tag of rank `i`, never `General`. */
  lemma RowTags()
    ensures forall i :: 0 <= i < |IntentKeywords| ==> IntentKeywords[i].0 != General && Rank(IntentKeywords[i].0) == i
  {
  }

  /** A tag is matched exactly when its own row mentions a keyword; `General`
    * has no row and is never matched. */
  lemma MatchedTags(text: string)
    ensures forall t :: t in Matched(IntentKeywords, text) <==>
              t != General && Mentions(IntentKeywords[Rank(t)].1, text)
  {
    MatchedRows(|IntentKeywords|, text);
    assert IntentKeywords[..|IntentKeywords|] == IntentKeywords;
    RowTags();
    forall t | t != General
      ensures IntentKeywords[Rank(t)].0 == t
    {
    }
  }

  /** The intent property: a tag other than `General` is detected exactly when one
    * of its keywords is a substring of the lower-cased input; `General` is
    * detected exactly when nothing else is, and then alone; the tags come in
    * table order, each at most once. */
  lemma IntentsSpec(input: string)
    ensures forall t :: t != General ==>
              (t in Intents(input) <==> Mentions(IntentKeywords[Rank(t)].1, Lower(input)))
    ensures General in Intents(input) <==> Intents(input) == [General]
    ensures General in Intents(input) <==>
              forall i :: 0 <= i < |IntentKeywords| ==> !Mentions(IntentKeywords[i].1, Lower(input))
    ensures forall i, j :: 0 <= i < j < |Intents(input)| ==> Rank(Intents(input)[i]) < Rank(Intents(input)[j])
  {
    var text := Lower(input);
    var m := Matched(IntentKeywords, text);
    MatchedTags(text);
    MatchedRows(|IntentKeywords|, text);
    assert IntentKeywords[..|IntentKeywords|] == IntentKeywords;
    RowTags();
    if m != [] {
      assert m[0] in m;
      assert Mentions(IntentKeywords[Rank(m[0])].1, text);
    } else {
      forall i | 0 <= i < |IntentKeywords|
        ensures !Mentions(IntentKeywords[i].1, text)
      {
        assert IntentKeywords[i].0 !in m;
      }
    }
  }

  /** Matching is by substring, so "Manila" asks about crops: it contains "ani". */
  lemma ManilaMentionsCrop()
    ensures Crop in Intents("Manila")
  {
    assert Lower("Manila") == "manila";
    assert "ani" <= "anila";
    assert Occurs("ani", "manila");
    assert Mentions(IntentKeywords[3].1, Lower("Manila"));
    IntentsSpec("Manila");
  }
}
