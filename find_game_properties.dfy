/**
 * Properties of the find-game route that relate several calls of the model, and the
 * two end-to-end scenarios: one catalog match, and one catalog outage.
 */
module FindGameProperties {
  import opened Wrappers
  import opened JsSemantics
  import opened FindGame

  /** `needle` occurs somewhere in `s`. */
  ghost predicate Contains(s: string, needle: string)
  {
    exists i: nat :: OccursAt(needle, s, i)
  }

  /**
   * The prompt quotes the mood and the genre verbatim, and the inspiration verbatim
   * when it is non-empty or the words "none provided" when it is empty.
   */
  lemma PromptEmbedsProfile(body: RequestBody)
    ensures Contains(Prompt(body), body.mood)
    ensures Contains(Prompt(body), body.genre)
    ensures body.inspiration != "" ==> Contains(Prompt(body), body.inspiration)
    ensures body.inspiration == "" ==> Contains(Prompt(body), NoInspiration)
  {
  }

  /** An empty inspiration gives the same prompt as the literal inspiration "none provided". */
  lemma EmptyInspirationFallsBack(mood: string, genre: string)
    ensures Prompt(RequestBody(mood, genre, "")) == Prompt(RequestBody(mood, genre, NoInspiration))
  {
  }

  /**
   * The response is the 500 error exactly when the generation step failed (the model
   * run or the JSON parse threw) or at least one catalog lookup threw; otherwise it is
   * a 200 with the merged array.
   */
  lemma ServerErrorIff(body: RequestBody, run: string -> AiOutput, lookups: seq<LookupOutcome>)
    requires run(Prompt(body)).Parsed? ==> |lookups| == |run(Prompt(body)).recommendations|
    ensures Post(body, run, lookups) == ServerError <==>
      !run(Prompt(body)).Parsed? || exists i :: 0 <= i < |lookups| && lookups[i].Threw?
    ensures Post(body, run, lookups) != ServerError ==> Post(body, run, lookups).status == StatusOk
  {
  }

  /**
   * Element i of a success response depends only on recommendation i and the outcome
   * of its lookup: two batches that share that pair, at any positions, agree there.
   */
  lemma ElementDependsOnlyOnItsPair(
    body1: RequestBody, run1: string -> AiOutput, lookups1: seq<LookupOutcome>, i: nat,
    body2: RequestBody, run2: string -> AiOutput, lookups2: seq<LookupOutcome>, j: nat)
    requires run1(Prompt(body1)).Parsed? && |lookups1| == |run1(Prompt(body1)).recommendations|
    requires run2(Prompt(body2)).Parsed? && |lookups2| == |run2(Prompt(body2)).recommendations|
    requires Post(body1, run1, lookups1).status == StatusOk
    requires Post(body2, run2, lookups2).status == StatusOk
    requires i < |lookups1| && j < |lookups2|
    requires run1(Prompt(body1)).recommendations[i] == run2(Prompt(body2)).recommendations[j]
    requires lookups1[i] == lookups2[j]
    ensures Post(body1, run1, lookups1).body.games[i] == Post(body2, run2, lookups2).body.games[j]
  {
  }

  /**
   * A lookup answered with a non-ok status degrades only its own element to the
   * placeholders; as long as no lookup threw, the batch is still a 200.
   */
  lemma NotOkDegradesOnlyItsElement(body: RequestBody, run: string -> AiOutput, lookups: seq<LookupOutcome>, i: nat)
    requires run(Prompt(body)).Parsed? && |lookups| == |run(Prompt(body)).recommendations|
    requires NoneThrew(lookups)
    requires i < |lookups| && lookups[i].NotOk?
    ensures var resp := Post(body, run, lookups);
      var game := run(Prompt(body)).recommendations[i];
      && resp.status == StatusOk
      && resp.body.games[i] == EnrichedGame(game.nama_game, game.ringkasan, game.tips, "", NoPlatform, "")
      && forall k :: 0 <= k < |lookups| && k != i ==>
           Some(resp.body.games[k]) == Merge(run(Prompt(body)).recommendations[k], lookups[k])
  {
  }

  /**
   * An ok lookup without a first result and a non-ok lookup give the same element
   * except for the store link: the bare catalog prefix in the first case, "" in the second.
   */
  lemma OkWithoutResultDiffersFromNotOk(game: AiGameRecommendation)
    ensures Merge(game, Ok(None)).value == Merge(game, NotOk).value.(store_url := StoreUrlBase)
    ensures Merge(game, Ok(None)).value.store_url != Merge(game, NotOk).value.store_url
  {
  }

  /** On an ok lookup whose first result has a non-empty slug, the store link is the catalog prefix and the slug. */
  lemma StoreUrlCarriesSlug(game: AiGameRecommendation, details: GameDetails, slug: string)
    requires details.slug == Some(slug) && slug != ""
    ensures Merge(game, Ok(Some(details))).value.store_url == StoreUrlBase + slug
  {
  }

  /** `PlatformNames` keeps the catalog's order: it distributes over concatenation. */
  lemma PlatformNamesConcat(a: seq<RawgPlatform>, b: seq<RawgPlatform>)
    ensures PlatformNames(a + b) == PlatformNames(a) + PlatformNames(b)
  {
  }

  /**
   * The platform text lists the names in catalog order: for a list split into two
   * non-empty parts it is the text of the first part, ", ", and the text of the second.
   */
  lemma PlatformTextInCatalogOrder(details: GameDetails, a: seq<RawgPlatform>, b: seq<RawgPlatform>)
    requires details.platforms == Some(a + b) && a != [] && b != []
    ensures PlatformLabel(Some(details)) ==
      Join(PlatformNames(a), PlatformSeparator) + PlatformSeparator + Join(PlatformNames(b), PlatformSeparator)
  {
    PlatformNamesConcat(a, b);
    assert !NoPlatformNames(Some(details)) by {
      assert |PlatformNames(a + b)| >= 2;
    }
    JoinConcat(PlatformNames(a), PlatformNames(b), PlatformSeparator);
  }

  /** A batch of one recommendation whose lookup did not throw answers 200 with that recommendation's merge. */
  lemma SingleRecommendationBatch(body: RequestBody, game: AiGameRecommendation, outcome: LookupOutcome)
    requires !outcome.Threw?
    ensures Post(body, (p: string) => Parsed([game]), [outcome]) == Response(StatusOk, Games([Merge(game, outcome).value]))
  {
    var resp := Post(body, (p: string) => Parsed([game]), [outcome]);
    assert NoneThrew([outcome]);
    assert resp.body.games == [Merge(game, outcome).value];
  }

  /** The catalog match of the Stardew Valley scenario merges into the expected element. */
  lemma StardewValleyMerge()
    ensures
      var details := GameDetails(Some("https://media.rawg.io/stardew.jpg"),
        Some([RawgPlatform(PlatformInfo(4, "PC", "pc"))]), Some("stardew-valley"));
      Merge(AiGameRecommendation("Stardew Valley", "...", ["a", "b"]), Ok(Some(details))) ==
        Some(EnrichedGame("Stardew Valley", "...", ["a", "b"], "https://media.rawg.io/stardew.jpg",
          "PC", "https://rawg.io/games/stardew-valley"))
  {
    var game := AiGameRecommendation("Stardew Valley", "...", ["a", "b"]);
    var details := GameDetails(Some("https://media.rawg.io/stardew.jpg"),
      Some([RawgPlatform(PlatformInfo(4, "PC", "pc"))]), Some("stardew-valley"));
    assert PlatformNames(details.platforms.value) == ["PC"];
    assert PlatformLabel(Some(details)) == "PC";
    StoreUrlCarriesSlug(game, details, "stardew-valley");
    assert StoreUrlBase + "stardew-valley" == "https://rawg.io/games/stardew-valley";
  }

  /** The one-candidate scenario: profile Relaxed / Simulation, one catalog match on PC. */
  lemma StardewValleyScenario()
    ensures
      var body := RequestBody("Relaxed", "Simulation", "");
      var run := (p: string) => Parsed([AiGameRecommendation("Stardew Valley", "...", ["a", "b"])]);
      var details := GameDetails(Some("https://media.rawg.io/stardew.jpg"),
        Some([RawgPlatform(PlatformInfo(4, "PC", "pc"))]), Some("stardew-valley"));
      Post(body, run, [Ok(Some(details))]) == Response(StatusOk, Games([
        EnrichedGame("Stardew Valley", "...", ["a", "b"], "https://media.rawg.io/stardew.jpg",
          "PC", "https://rawg.io/games/stardew-valley")]))
  {
    var details := GameDetails(Some("https://media.rawg.io/stardew.jpg"),
      Some([RawgPlatform(PlatformInfo(4, "PC", "pc"))]), Some("stardew-valley"));
    StardewValleyMerge();
    SingleRecommendationBatch(RequestBody("Relaxed", "Simulation", ""),
      AiGameRecommendation("Stardew Valley", "...", ["a", "b"]), Ok(Some(details)));
  }

  /** The one-candidate scenario where the catalog answers 503: placeholders, and still a 200. */
  lemma CatalogUnavailableScenario(body: RequestBody, game: AiGameRecommendation)
    ensures
      var run := (p: string) => Parsed([game]);
      Post(body, run, [NotOk]) == Response(StatusOk, Games([
        EnrichedGame(game.nama_game, game.ringkasan, game.tips, "", "N/A", "")]))
  {
  }
}
