/**
 * The POST handler of the find-game API route: it builds a prompt from the user's
 * preference profile, asks a text-generation model for game recommendations, looks
 * each recommendation up in the RAWG game catalog and answers with the recommendations
 * enriched with a cover image, a platform list and a store link.
 *
 * The two remote services are represented by their outcomes: the model run is a
 * function from the prompt to the parsed output, and each catalog lookup is given as
 * the outcome it had.
 */
module FindGame {
  import opened Wrappers
  import opened JsSemantics

  // ---------------------------------------------------------------------------
  // Data model. Field names are the JSON keys the route reads and writes.
  // ---------------------------------------------------------------------------

  /** The inbound request body. */
  datatype RequestBody = RequestBody(mood: string, genre: string, inspiration: string)

  /** One recommendation as the generation model returns it. */
  datatype AiGameRecommendation = AiGameRecommendation(nama_game: string, ringkasan: string, tips: seq<string>)

  /** The `platform` object of one entry of a catalog result's `platforms` array. */
  datatype PlatformInfo = PlatformInfo(id: int, name: string, slug: string)

  datatype RawgPlatform = RawgPlatform(platform: PlatformInfo)

  /** The fields of the first catalog search result that the route reads; `None` is null or absent. */
  datatype GameDetails = GameDetails(
    background_image: Option<string>,
    platforms: Option<seq<RawgPlatform>>,
    slug: Option<string>)

  /**
   * How one catalog lookup ended: a response whose status is not ok, an ok response
   * whose `results` array has (or lacks) a first element, or an exception inside the
   * callback: a rejected `fetch` or `.json()`, or `encodeURIComponent` throwing on a
   * title with a lone surrogate.
   */
  datatype LookupOutcome = NotOk | Ok(firstResult: Option<GameDetails>) | Threw

  /** One element of the success response: the recommendation plus three catalog fields. */
  datatype EnrichedGame = EnrichedGame(
    nama_game: string,
    ringkasan: string,
    tips: seq<string>,
    gambar_url: string,
    platform: string,
    store_url: string)

  /**
   * What the generation step produced: the model run rejected, or its output could not
   * be turned into recommendations (joining output that is not an array, text that does
   * not parse as JSON, or a parsed value without `map`: each throws), or it parsed to an
   * array of recommendations.
   */
  datatype AiOutput = RunFailed | Unparseable | Parsed(recommendations: seq<AiGameRecommendation>)

  datatype Body = Games(games: seq<EnrichedGame>) | Message(message: string)

  datatype Response = Response(status: int, body: Body)

  const StatusOk := 200
  const StatusServerError := 500
  const ServerErrorMessage := "Terjadi kesalahan pada server."
  const ServerError := Response(StatusServerError, Message(ServerErrorMessage))

  const StoreUrlBase := "https://rawg.io/games/"
  const NoPlatform := "N/A"
  const NoInspiration := "none provided"
  const PlatformSeparator := ", "

  // ---------------------------------------------------------------------------
  // The prompt.
  // ---------------------------------------------------------------------------

  /** The fixed text of a prompt around its three substituted fields. */
  datatype PromptTemplate = PromptTemplate(head: string, afterMood: string, afterGenre: string, tail: string)

  /** The route's prompt: it asks for three recommendations as a JSON array. */
  const RecommendationPrompt := PromptTemplate(
    "You are an expert game recommender. Your user wants three different game recommendations.\n    User's criteria:\n    - Desired Mood: \"",
    "\"\n    - Favorite Genre: \"",
    "\"\n    - A game they like for inspiration: \"",
    "\"\n    \n    Based on this, recommend three different games. Provide your answer ONLY in a valid JSON format which is an array of objects.\n    Example format: [{\"nama_game\": \"Game A\", \"ringkasan\": \"...\", \"tips\": [\"...\"]}, {\"nama_game\": \"Game B\", ...}, {\"nama_game\": \"Game C\", ...}]\n    ")

  /** `inspiration || 'none provided'`. */
  function InspirationText(inspiration: string): (text: string)
    ensures inspiration != "" ==> text == inspiration
    ensures inspiration == "" ==> text == NoInspiration
    ensures text != ""
  {
    OrElse(Some(inspiration), NoInspiration)
  }

  /** Where each substituted field starts in a filled template. */
  function MoodStart(t: PromptTemplate): nat
  {
    |t.head|
  }

  function GenreStart(t: PromptTemplate, body: RequestBody): nat
  {
    MoodStart(t) + |body.mood| + |t.afterMood|
  }

  function InspirationStart(t: PromptTemplate, body: RequestBody): nat
  {
    GenreStart(t, body) + |body.genre| + |t.afterGenre|
  }

  function TailStart(t: PromptTemplate, body: RequestBody): nat
  {
    InspirationStart(t, body) + |InspirationText(body.inspiration)|
  }

  /**
   * `p` is template `t` filled with `body`: the fixed text and the mood, the genre and
   * the inspiration text, each at its position, in that order, and nothing else.
   */
  predicate FilledFrom(t: PromptTemplate, body: RequestBody, p: string)
  {
    && OccursAt(t.head, p, 0)
    && OccursAt(body.mood, p, MoodStart(t))
    && OccursAt(t.afterMood, p, MoodStart(t) + |body.mood|)
    && OccursAt(body.genre, p, GenreStart(t, body))
    && OccursAt(t.afterGenre, p, GenreStart(t, body) + |body.genre|)
    && OccursAt(InspirationText(body.inspiration), p, InspirationStart(t, body))
    && OccursAt(t.tail, p, TailStart(t, body))
    && |p| == TailStart(t, body) + |t.tail|
  }

  /** The template literal: the fixed text with mood, genre and the inspiration (or its fallback) substituted verbatim. */
  function Fill(t: PromptTemplate, body: RequestBody): (p: string)
    ensures FilledFrom(t, body, p)
  {
    var inspiration := InspirationText(body.inspiration);
    FillSlots(t.head, body.mood, t.afterMood, body.genre, t.afterGenre, inspiration, t.tail);
    assert GenreStart(t, body) == |t.head| + |body.mood| + |t.afterMood|;
    assert InspirationStart(t, body) == GenreStart(t, body) + |body.genre| + |t.afterGenre|;
    t.head + body.mood + t.afterMood + body.genre + t.afterGenre + inspiration + t.tail
  }

  /**
   * The prompt sent to the generation model: the route's own template, filled with
   * the profile's mood, genre and inspiration text.
   */
  function Prompt(body: RequestBody): (p: string)
    ensures FilledFrom(RecommendationPrompt, body, p)
  {
    Fill(RecommendationPrompt, body)
  }

  /** Where the pieces of a seven-piece concatenation sit in it. */
  lemma FillSlots(h: string, a: string, m1: string, b: string, m2: string, c: string, t: string)
    ensures var p := h + a + m1 + b + m2 + c + t;
      && OccursAt(h, p, 0)
      && OccursAt(a, p, |h|)
      && OccursAt(m1, p, |h| + |a|)
      && OccursAt(b, p, |h| + |a| + |m1|)
      && OccursAt(m2, p, |h| + |a| + |m1| + |b|)
      && OccursAt(c, p, |h| + |a| + |m1| + |b| + |m2|)
      && OccursAt(t, p, |h| + |a| + |m1| + |b| + |m2| + |c|)
      && |p| == |h| + |a| + |m1| + |b| + |m2| + |c| + |t|
  {
  }

  // ---------------------------------------------------------------------------
  // The per-recommendation merge.
  // ---------------------------------------------------------------------------

  /** `platforms.map(p => p.platform.name)`: one name per entry, in catalog order. */
  function PlatformNames(platforms: seq<RawgPlatform>): (names: seq<string>)
    ensures |names| == |platforms|
    ensures forall i :: 0 <= i < |platforms| ==> names[i] == platforms[i].platform.name
  {
    seq(|platforms|, i requires 0 <= i < |platforms| => platforms[i].platform.name)
  }

  /** The catalog result offers no platform text: no result, no list, or names joining to "". */
  predicate NoPlatformNames(details: Option<GameDetails>)
  {
    details.None? || details.value.platforms.None?
    || PlatformNames(details.value.platforms.value) == []
    || PlatformNames(details.value.platforms.value) == [""]
  }

  /** `gameDetails?.background_image || ''`. */
  function CoverImage(details: Option<GameDetails>): (url: string)
    ensures details.Some? && Truthy(details.value.background_image) ==> url == details.value.background_image.value
    ensures url != "" ==> details.Some? && details.value.background_image == Some(url)
  {
    OrElse(if details.Some? then details.value.background_image else None, "")
  }

  /** `gameDetails?.platforms?.map(p => p.platform.name).join(', ') || 'N/A'`. */
  function PlatformLabel(details: Option<GameDetails>): (text: string)
    ensures NoPlatformNames(details) ==> text == NoPlatform
    ensures !NoPlatformNames(details) ==>
      text == Join(PlatformNames(details.value.platforms.value), PlatformSeparator) && text != ""
  {
    match details
    case None => OrElse(None, NoPlatform)
    case Some(d) =>
      match d.platforms
      case None => OrElse(None, NoPlatform)
      case Some(ps) =>
        JoinEmptyIff(PlatformNames(ps), PlatformSeparator);
        OrElse(Some(Join(PlatformNames(ps), PlatformSeparator)), NoPlatform)
  }

  /** `https://rawg.io/games/${gameDetails?.slug || ''}`. */
  function StoreUrl(details: Option<GameDetails>): (url: string)
    ensures OccursAt(StoreUrlBase, url, 0)
    ensures details.Some? && Truthy(details.value.slug) ==> url[|StoreUrlBase|..] == details.value.slug.value
    ensures !(details.Some? && Truthy(details.value.slug)) ==> url == StoreUrlBase
    ensures url != ""
  {
    StoreUrlBase + OrElse(if details.Some? then details.value.slug else None, "")
  }

  /** The recommendation's own fields are carried over unchanged by the object spread. */
  predicate KeepsAiFields(game: AiGameRecommendation, e: EnrichedGame)
  {
    e.nama_game == game.nama_game && e.ringkasan == game.ringkasan && e.tips == game.tips
  }

  /**
   * The async callback given to `gameRecommendations.map`: `None` is the rejected
   * promise (the lookup threw), `Some` the fulfilled one.
   */
  function Merge(game: AiGameRecommendation, outcome: LookupOutcome): (r: Option<EnrichedGame>)
    ensures r.None? <==> outcome.Threw?
    ensures r.Some? ==> KeepsAiFields(game, r.value)
    ensures outcome.NotOk? ==>
      r.value.gambar_url == "" && r.value.platform == NoPlatform && r.value.store_url == ""
    ensures outcome.Ok? ==>
      && r.value.gambar_url == CoverImage(outcome.firstResult)
      && r.value.platform == PlatformLabel(outcome.firstResult)
      && r.value.store_url == StoreUrl(outcome.firstResult)
      && OccursAt(StoreUrlBase, r.value.store_url, 0)
  {
    match outcome
    case Threw => None
    case NotOk => Some(EnrichedGame(game.nama_game, game.ringkasan, game.tips, "", NoPlatform, ""))
    case Ok(details) =>
      Some(EnrichedGame(game.nama_game, game.ringkasan, game.tips,
        CoverImage(details), PlatformLabel(details), StoreUrl(details)))
  }

  // ---------------------------------------------------------------------------
  // The handler.
  // ---------------------------------------------------------------------------

  /**
   * `gameRecommendations.map(async ...)`: one settled promise per recommendation, in
   * order; promise i rejects exactly when lookup i threw, and it is the merge of
   * recommendation i with lookup i alone.
   */
  function MergeAll(recommendations: seq<AiGameRecommendation>, lookups: seq<LookupOutcome>): (settled: seq<Option<EnrichedGame>>)
    requires |lookups| == |recommendations|
    ensures |settled| == |recommendations|
    ensures forall i :: 0 <= i < |settled| ==> (settled[i].None? <==> lookups[i].Threw?)
    ensures forall i :: 0 <= i < |settled| && settled[i].Some? ==> KeepsAiFields(recommendations[i], settled[i].value)
    ensures forall i :: 0 <= i < |settled| ==> settled[i] == Merge(recommendations[i], lookups[i])
  {
    seq(|recommendations|, i requires 0 <= i < |recommendations| => Merge(recommendations[i], lookups[i]))
  }

  /** No catalog lookup of the batch threw. */
  predicate NoneThrew(lookups: seq<LookupOutcome>)
  {
    forall i :: 0 <= i < |lookups| ==> !lookups[i].Threw?
  }

  /**
   * The POST handler, from the parsed request body on. `run` is the generation model
   * applied to the prompt; `lookups[i]` is how the catalog lookup for the i-th
   * recommendation ended, one lookup per recommendation.
   */
  function Post(body: RequestBody, run: string -> AiOutput, lookups: seq<LookupOutcome>): (resp: Response)
    requires run(Prompt(body)).Parsed? ==> |lookups| == |run(Prompt(body)).recommendations|
    ensures resp.status == StatusOk || resp == ServerError
    ensures resp.status == StatusOk <==> run(Prompt(body)).Parsed? && NoneThrew(lookups)
    ensures resp.status == StatusOk ==>
      var recs := run(Prompt(body)).recommendations;
      && resp.body.Games?
      && |resp.body.games| == |recs|
      && forall i :: 0 <= i < |recs| ==>
           && KeepsAiFields(recs[i], resp.body.games[i])
           && Merge(recs[i], lookups[i]) == Some(resp.body.games[i])
  {
    match run(Prompt(body))
    case RunFailed => ServerError
    case Unparseable => ServerError
    case Parsed(recs) =>
      var settled := MergeAll(recs, lookups);
      assert forall i :: 0 <= i < |recs| ==> settled[i] == Merge(recs[i], lookups[i]);
      match All(settled)
      case None => ServerError
      case Some(results) => Response(StatusOk, Games(results))
  }
}
