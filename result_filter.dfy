/**
 * Filtering of a stored analysis by the features of the user's plan: only
 * the comprehensive-analysis results that a selected plan feature maps to
 * are shown.
 */
module ResultFilter {
  import opened Wrappers

  /** The result feature a plan feature is shown as. */
  function FeatureFor(planFeature: string): (r: Option<string>)
    ensures r.Some? ==> r.value in ResultFeatures
  {
    if planFeature == "brand_compliance" then Some("brand_compliance")
    else if planFeature == "channel_compliance" then Some("channel_compliance")
    else if planFeature == "content_analysis" then Some("content_analysis")
    else if planFeature == "metaphor_analysis" then Some("metaphor_analysis")
    else if planFeature == "messaging_intent" then Some("content_analysis")
    else if planFeature == "funnel_compatibility" then Some("content_analysis")
    else if planFeature == "resonance_index" then Some("metaphor_analysis")
    else None
  }

  const ResultFeatures: set<string> :=
    {"brand_compliance", "channel_compliance", "content_analysis", "metaphor_analysis"}

  /** Whether a selected plan feature shows result `f` of `original`. */
  predicate Shows<V>(planFeature: string, original: map<string, V>, f: string) {
    FeatureFor(planFeature) == Some(f) && f in original
  }

  /**
   * The shown result features, one per selected plan feature that maps to a
   * present result, in selection order (two plan features mapping to the
   * same result list it twice).
   */
  function FilteredFeatures<V>(selected: seq<string>, original: map<string, V>): (r: seq<string>)
    ensures |r| <= |selected|
    ensures forall f :: f in r ==> f in original && f in ResultFeatures
    ensures forall f :: f in r <==> exists p :: p in selected && Shows(p, original, f)
  {
    if selected == [] then []
    else
      var prefix := selected[..|selected| - 1];
      var last := selected[|selected| - 1];
      assert selected == prefix + [last];
      var rest := FilteredFeatures(prefix, original);
      match FeatureFor(last)
      case Some(f) => if f in original then assert Shows(last, original, f); rest + [f] else rest
      case None => rest
  }

  /** The features shown for a concatenation of selections are those of each part, in order. */
  lemma {:induction false} FilteredAppend<V>(a: seq<string>, b: seq<string>, original: map<string, V>)
    ensures FilteredFeatures(a + b, original) == FilteredFeatures(a, original) + FilteredFeatures(b, original)
  {
    if b != [] {
      var prefix := b[..|b| - 1];
      FilteredAppend(a, prefix, original);
      assert (a + b)[..|a + b| - 1] == a + prefix;
    } else {
      assert a + b == a;
    }
  }

  /** One selected plan feature shows its result feature exactly when that result is present. */
  lemma FilteredSingleton<V>(planFeature: string, original: map<string, V>)
    ensures FilteredFeatures([planFeature], original) ==
      (if FeatureFor(planFeature).Some? && FeatureFor(planFeature).value in original
       then [FeatureFor(planFeature).value] else [])
  {
    assert [planFeature][..0] == [];
  }

  /**
   * The filtering loop: the shown features and the results restricted to
   * them, each result unchanged.
   */
  method FilterResults<V>(selected: seq<string>, original: map<string, V>)
    returns (results: map<string, V>, features: seq<string>)
    ensures features == FilteredFeatures(selected, original)
    ensures forall f :: f in results <==> f in features
    ensures forall f :: f in results ==> f in original && results[f] == original[f]
  {
    results := map[];
    features := [];
    var i := 0;
    while i < |selected|
      invariant 0 <= i <= |selected|
      invariant features == FilteredFeatures(selected[..i], original)
      invariant forall f :: f in results <==> f in features
      invariant forall f :: f in results ==> f in original && results[f] == original[f]
    {
      assert selected[..i + 1][..i] == selected[..i];
      var mapped := FeatureFor(selected[i]);
      if mapped.Some? {
        var nested := mapped.value;
        if nested in original {
          results := results[nested := original[nested]];
          features := features + [nested];
        }
      }
      i := i + 1;
    }
    assert selected[..i] == selected;
  }

  /** `word` occurs in `text` starting at position `i`. */
  predicate OccursAt(word: string, text: string, i: int) {
    0 <= i && i + |word| <= |text| && text[i..i + |word|] == word
  }

  /**
   * The occurrences of `word` in `text` from position 1 on are its
   * occurrences in `text[1..]`, shifted by one.
   */
  lemma OccursShift(word: string, text: string)
    requires |text| >= 1
    ensures forall j :: OccursAt(word, text[1..], j) ==> OccursAt(word, text, j + 1)
    ensures forall i :: 1 <= i && OccursAt(word, text, i) ==> OccursAt(word, text[1..], i - 1)
  {
    forall j | OccursAt(word, text[1..], j)
      ensures OccursAt(word, text, j + 1)
    {
      assert text[j + 1..j + 1 + |word|] == text[1..][j..j + |word|];
    }
    forall i | 1 <= i && OccursAt(word, text, i)
      ensures OccursAt(word, text[1..], i - 1)
    {
      assert text[1..][i - 1..i - 1 + |word|] == text[i..i + |word|];
    }
  }

  /**
   * Whether `word` occurs in `text` as a contiguous piece: Python's `in` on
   * two strings.
   */
  function Occurs(word: string, text: string): (r: bool)
    ensures r <==> exists i :: OccursAt(word, text, i)
    decreases |text|
  {
    if |text| < |word| then false
    else if text[..|word|] == word then assert OccursAt(word, text, 0); true
    else
      OccursShift(word, text);
      assert !OccursAt(word, text, 0);
      Occurs(word, text[1..])
  }

  /** A word placed anywhere inside a text occurs in it. */
  lemma OccursInside(word: string, before: string, after: string)
    ensures Occurs(word, before + word + after)
  {
    var text := before + word + after;
    assert text[|before|..|before| + |word|] == word;
    assert OccursAt(word, text, |before|);
  }

  /** How a stored analysis document holds its results. */
  datatype StoredAnalysis<V> =
    | NoAnalysisResults                            // no ai_analysis_results at all
    | NoComprehensiveResults                       // no comprehensive-analysis data.results
    | TextResults(text: string)                    // comprehensive-analysis data kept as a non-JSON reply's text
    | ComprehensiveResults(results: map<string, V>)

  /** What the analysis listing shows for one document. */
  datatype AnalysisView<V> =
    | Unfiltered                                   // shown as stored, no filter fields
    | EmptyFilter                                  // shown as stored, with empty filter fields and no models
    | Filtered(results: map<string, V>, features: seq<string>, models: seq<string>)

  /** The whole analysis listing fails with a server error. */
  datatype ViewError = ListingFailed

  /**
   * The view of one stored analysis for a user with `selected` plan
   * features: without selected features or results it is shown as stored;
   * without comprehensive results it is shown as stored with empty filter
   * fields; otherwise the comprehensive results are filtered. Results kept
   * as text pass the `"results" in data` test as a substring test: text
   * without that word gets the empty filter, text with it makes the lookup
   * `data["results"]` fail, and the listing with it.
   */
  method ViewAnalysis<V>(selected: seq<string>, stored: StoredAnalysis<V>) returns (v: Result<AnalysisView<V>, ViewError>)
    ensures v.Failure? <==> selected != [] && stored.TextResults? && Occurs("results", stored.text)
    ensures v.Success? && v.value.Unfiltered? <==> selected == [] || stored.NoAnalysisResults?
    ensures v.Success? && v.value.EmptyFilter? <==>
      selected != [] && (stored.NoComprehensiveResults? || (stored.TextResults? && !Occurs("results", stored.text)))
    ensures v.Success? && v.value.Filtered? ==> stored.ComprehensiveResults? && v.value.models == ["comprehensive-analysis"]
    ensures v.Success? && v.value.Filtered? ==> v.value.features == FilteredFeatures(selected, stored.results)
    ensures v.Success? && v.value.Filtered? ==> forall f :: f in v.value.results <==> f in v.value.features
    ensures v.Success? && v.value.Filtered? ==> forall f :: f in v.value.results ==> v.value.results[f] == stored.results[f]
  {
    if stored.NoAnalysisResults? || selected == [] {
      return Success(Unfiltered);
    }
    match stored
    case NoComprehensiveResults =>
      v := Success(EmptyFilter);
    case TextResults(text) =>
      if Occurs("results", text) {
        v := Failure(ListingFailed);
      } else {
        v := Success(EmptyFilter);
      }
    case ComprehensiveResults(original) =>
      var results, features := FilterResults(selected, original);
      v := Success(Filtered(results, features, ["comprehensive-analysis"]));
  }

  /** The fresh-subscription feature list shows brand, channel and content results. */
  lemma FreshSubscriptionFeaturesShown<V>(original: map<string, V>)
    requires "brand_compliance" in original && "content_analysis" in original
    requires "channel_compliance" in original
    ensures FilteredFeatures(["brand_compliance", "messaging_intent", "funnel_compatibility", "channel_compliance"], original)
            == ["brand_compliance", "content_analysis", "content_analysis", "channel_compliance"]
  {
    var s := ["brand_compliance", "messaging_intent", "funnel_compatibility", "channel_compliance"];
    assert s[..1][..0] == [];
    assert FilteredFeatures(s[..1], original) == ["brand_compliance"];
    assert s[..2][..1] == s[..1];
    assert FilteredFeatures(s[..2], original) == ["brand_compliance", "content_analysis"];
    assert s[..3][..2] == s[..2];
    assert FilteredFeatures(s[..3], original) == ["brand_compliance", "content_analysis", "content_analysis"];
    assert s[..3] == s[..|s| - 1];
  }
}
