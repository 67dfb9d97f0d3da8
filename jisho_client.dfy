/**
 * The dictionary lookup client of src/helpers/jisho_client.rs: the embed
 * built from the first search result, with a fallback for every missing part.
 */
module Jisho {
  import opened Wrappers
  import opened Embeds

  // ---------------------------------------------------------------- response records

  datatype Japanese = Japanese(word: Option<string>, reading: Option<string>)

  datatype Sense = Sense(englishDefinitions: seq<string>)

  datatype Data = Data(slug: string, japanese: seq<Japanese>, senses: seq<Sense>)

  datatype Response = Response(data: seq<Data>)

  /** The searched word, and the decoded response once one has been fetched. */
  datatype JishoClient = JishoClient(word: string, response: Option<Response>)

  /** `JishoClient::new`: nothing fetched yet. */
  function New(word: string): (c: JishoClient)
    ensures c.word == word && c.response.None?
  {
    JishoClient(word, None)
  }

  // ---------------------------------------------------------------- constants

  const NO_ENGLISH: string := "Unknown English Translation"
  const NO_KANA: string := "No Kana"
  const NO_READING: string := "No Reading"
  const SUCCESS_COLOR: nat := 0x00FF00
  const ERROR_COLOR: nat := 0xFF0000

  // ---------------------------------------------------------------- field values

  /** The first definition of the first sense, if both exist. */
  function English(d: Data): (s: string)
    ensures |d.senses| > 0 && |d.senses[0].englishDefinitions| > 0 ==> s == d.senses[0].englishDefinitions[0]
    ensures |d.senses| == 0 || |d.senses[0].englishDefinitions| == 0 ==> s == NO_ENGLISH
  {
    match FirstOf(d.senses)
    case Some(sense) => FirstOf(sense.englishDefinitions).GetOr(NO_ENGLISH)
    case None => NO_ENGLISH
  }

  /** The written form of the first Japanese entry, if it has one. */
  function Kana(d: Data): (s: string)
    ensures |d.japanese| > 0 && d.japanese[0].word.Some? ==> s == d.japanese[0].word.value
    ensures |d.japanese| == 0 || d.japanese[0].word.None? ==> s == NO_KANA
  {
    match FirstOf(d.japanese)
    case Some(j) => j.word.GetOr(NO_KANA)
    case None => NO_KANA
  }

  /** The reading of the first Japanese entry, if it has one. */
  function Reading(d: Data): (s: string)
    ensures |d.japanese| > 0 && d.japanese[0].reading.Some? ==> s == d.japanese[0].reading.value
    ensures |d.japanese| == 0 || d.japanese[0].reading.None? ==> s == NO_READING
  {
    match FirstOf(d.japanese)
    case Some(j) => j.reading.GetOr(NO_READING)
    case None => NO_READING
  }

  /** `into_iter().next()`. */
  function FirstOf<T>(s: seq<T>): (r: Option<T>)
    ensures r.Some? <==> |s| > 0
    ensures r.Some? ==> r.value == s[0]
  {
    if |s| == 0 then None else Some(s[0])
  }

  const WORD_LINK: string := "[\U{1F4D7}](https://jisho.org/word/"
  const SEARCH_LINK: string := ") | [\U{1F50D}](https://jisho.org/search/"

  /** Two markdown links: the entry's page by its slug, and the search for the word. */
  function Extras(slug: string, word: string): (e: string)
    ensures |e| == |WORD_LINK| + |slug| + |SEARCH_LINK| + |word| + 1
    ensures e[..|WORD_LINK|] == WORD_LINK && e[|e| - 1] == ')'
  {
    WORD_LINK + slug + SEARCH_LINK + word + ")"
  }

  /** The slug and the searched word can both be read back out of the links. */
  lemma ExtrasRecoversParts(slug: string, word: string)
    ensures var e := Extras(slug, word);
            var a := |WORD_LINK|;
            var b := a + |slug| + |SEARCH_LINK|;
            && |e| == b + |word| + 1
            && e[..a] == WORD_LINK && e[a..a + |slug|] == slug
            && e[a + |slug|..b] == SEARCH_LINK && e[b..b + |word|] == word && e[|e| - 1] == ')'
  {
    var e := Extras(slug, word);
    var a := |WORD_LINK|;
    var b := a + |slug| + |SEARCH_LINK|;
    assert e == WORD_LINK + slug + SEARCH_LINK + word + ")";
    assert e[a..a + |slug|] == slug by {
      assert forall i :: 0 <= i < |slug| ==> e[a + i] == slug[i];
    }
    assert e[a + |slug|..b] == SEARCH_LINK by {
      assert forall i :: 0 <= i < |SEARCH_LINK| ==> e[a + |slug| + i] == SEARCH_LINK[i];
    }
    assert e[b..b + |word|] == word by {
      assert forall i :: 0 <= i < |word| ==> e[b + i] == word[i];
    }
  }

  // ---------------------------------------------------------------- embeds

  /** The red "Error" embed, without fields. */
  function ErrorEmbed(): (e: Embed)
    ensures e.title == "Error" && e.description == "No data found for that word"
    ensures e.fields == [] && e.color == Some(ERROR_COLOR)
    ensures e.url.None? && e.thumbnail.None? && e.footer.None?
  {
    Embed("Error", "No data found for that word", None, None, None, [], Some(ERROR_COLOR))
  }

  /** The green embed for result `d`: the searched word, three inline values and the links. */
  function WordEmbed(word: string, d: Data): (e: Embed)
    ensures e.title == "" && e.description == "" && e.color == Some(SUCCESS_COLOR)
    ensures e.url.None? && e.thumbnail.None? && e.footer.None?
    ensures |e.fields| == 5
    ensures [e.fields[0].name, e.fields[1].name, e.fields[2].name, e.fields[3].name, e.fields[4].name] ==
            ["Word searched", "English", "Japanese", "Reading", "Extras"]
    ensures e.fields[0].inline == Some(false) && e.fields[4].inline == Some(false)
    ensures e.fields[1].inline == Some(true) && e.fields[2].inline == Some(true) && e.fields[3].inline == Some(true)
    ensures e.fields[0].value == word && e.fields[4].value == Extras(d.slug, word)
    ensures e.fields[1].value == English(d) && e.fields[2].value == Kana(d) && e.fields[3].value == Reading(d)
  {
    Embed("", "", None, None, None, [
      EmbedField("Word searched", word, Some(false)),
      EmbedField("English", English(d), Some(true)),
      EmbedField("Japanese", Kana(d), Some(true)),
      EmbedField("Reading", Reading(d), Some(true)),
      EmbedField("Extras", Extras(d.slug, word), Some(false))
    ], Some(SUCCESS_COLOR))
  }

  /**
   * `construct_embed`: the error embed when nothing was fetched or the search
   * found nothing; otherwise five fields describing the first result.
   */
  function ConstructEmbed(c: JishoClient): (e: Embed)
    ensures c.response.None? || |c.response.value.data| == 0 ==>
              && e.title == "Error" && e.description == "No data found for that word"
              && e.fields == [] && e.color == Some(ERROR_COLOR)
              && e.url.None? && e.thumbnail.None? && e.footer.None?
    ensures c.response.Some? && |c.response.value.data| > 0 ==>
              var d := c.response.value.data[0];
              && e.title == "" && e.description == ""
              && e.url.None? && e.thumbnail.None? && e.footer.None?
              && |e.fields| == 5 && e.color == Some(SUCCESS_COLOR)
              && e.fields[0] == EmbedField("Word searched", c.word, Some(false))
              && e.fields[1] == EmbedField("English", English(d), Some(true))
              && e.fields[2] == EmbedField("Japanese", Kana(d), Some(true))
              && e.fields[3] == EmbedField("Reading", Reading(d), Some(true))
              && e.fields[4] == EmbedField("Extras", Extras(d.slug, c.word), Some(false))
  {
    match c.response
    case None => ErrorEmbed()
    case Some(res) =>
      match FirstOf(res.data)
      case Some(d) => WordEmbed(c.word, d)
      case None => ErrorEmbed()
  }

  /** The embed is an error exactly when there is no first result; the color tells which. */
  lemma ErrorExactlyWithoutData(c: JishoClient)
    ensures ConstructEmbed(c) == ErrorEmbed() <==> c.response.None? || |c.response.value.data| == 0
    ensures ConstructEmbed(c).color == Some(ERROR_COLOR) <==> c.response.None? || |c.response.value.data| == 0
  {
  }

  /** Before any fetch, a new client shows the error embed. */
  lemma NewShowsError(word: string)
    ensures ConstructEmbed(New(word)) == ErrorEmbed()
  {
  }

  /** Results after the first never change the embed. */
  lemma OnlyFirstResultUsed(word: string, first: Data, rest: seq<Data>)
    ensures ConstructEmbed(JishoClient(word, Some(Response([first] + rest)))) ==
            ConstructEmbed(JishoClient(word, Some(Response([first]))))
  {
  }

  /** Later senses, later definitions and later Japanese entries never change the embed. */
  lemma OnlyFirstEntriesUsed(word: string, d: Data, extraSenses: seq<Sense>, extraJapanese: seq<Japanese>,
                             extraDefinitions: seq<string>)
    requires |d.senses| > 0 && |d.japanese| > 0
    ensures var sense := d.senses[0].(englishDefinitions := d.senses[0].englishDefinitions + extraDefinitions);
            var d' := d.(senses := [sense] + d.senses[1..] + extraSenses, japanese := d.japanese + extraJapanese);
            |d.senses[0].englishDefinitions| > 0 ==>
              ConstructEmbed(JishoClient(word, Some(Response([d'])))) == ConstructEmbed(JishoClient(word, Some(Response([d]))))
  {
  }

  /** A result with no sense and no Japanese entry shows all three fallbacks. */
  lemma EmptyResultFallbacks(word: string, slug: string)
    ensures var e := ConstructEmbed(JishoClient(word, Some(Response([Data(slug, [], [])]))));
            && e.fields[1].value == NO_ENGLISH
            && e.fields[2].value == NO_KANA
            && e.fields[3].value == NO_READING
  {
  }
}
