/**
 * Prompt composition in the generate-mockup edge function: the user's prompt and the generation
 * settings become the one instruction sent to the image model.
 */
module MockupPrompt {

  import opened Wrappers
  import opened JsText

  /** The `settings` object of a request as the handler reads it; a member the client left out is `None`. */
  datatype Settings = Settings(detailLevel: Option<int>, stylePreference: Option<string>, colorScheme: Option<string>)

  const OpeningWords: string := "Create a photorealistic 3D mockup of the following: "

  const ClosingSentence: string := "Create a high-quality 3D render without any text. High resolution, photorealistic."

  /** The opening sentence, naming the prompt text as `${prompt}` renders it. */
  function Opening(prompt: string): string
  {
    OpeningWords + prompt + ". "
  }

  /** The detail band: above 75, above 50, above 25, otherwise minimal. */
  function DetailDescription(level: int): string
  {
    if level > 75 then "highly detailed"
    else if level > 50 then "moderately detailed"
    else if level > 25 then "somewhat detailed"
    else "minimally detailed"
  }

  /** The detail clause, present only when `detailLevel` is truthy, so never for 0 or a missing level. */
  function DetailClause(level: Option<int>): string
  {
    if NumberTruthy(level) then "Make it " + DetailDescription(level.value) + ". " else ""
  }

  function StyleClause(style: Option<string>): string
  {
    if StringTruthy(style) then "Use a " + style.value + " style. " else ""
  }

  function ColorClause(color: Option<string>): string
  {
    if StringTruthy(color) then "Use a " + color.value + " color scheme. " else ""
  }

  /** Everything after the prompt text: the settings clauses and the closing sentence. */
  function SettingsTail(settings: Settings): string
  {
    ". " + DetailClause(settings.detailLevel) + StyleClause(settings.stylePreference)
    + ColorClause(settings.colorScheme) + ClosingSentence
  }

  /**
   * The enhanced prompt: the opening naming the prompt, then the detail, style and colour
   * clauses in that order (each only when its setting is truthy), then the closing sentence.
   */
  function EnhancedPrompt(prompt: string, settings: Settings): string
  {
    Opening(prompt) + DetailClause(settings.detailLevel) + StyleClause(settings.stylePreference)
    + ColorClause(settings.colorScheme) + ClosingSentence
  }

  /** Lines 46-66 of the handler: the prompt grown clause by clause with `+=`. */
  method ComposeEnhancedPrompt(prompt: string, settings: Settings) returns (enhanced: string)
    ensures enhanced == EnhancedPrompt(prompt, settings)
  {
    enhanced := OpeningWords + prompt + ". ";
    if NumberTruthy(settings.detailLevel) {
      var description := DetailDescription(settings.detailLevel.value);
      enhanced := enhanced + ("Make it " + description + ". ");
    }
    assert enhanced == Opening(prompt) + DetailClause(settings.detailLevel);
    if StringTruthy(settings.stylePreference) {
      enhanced := enhanced + ("Use a " + settings.stylePreference.value + " style. ");
    }
    assert enhanced == Opening(prompt) + DetailClause(settings.detailLevel) + StyleClause(settings.stylePreference);
    if StringTruthy(settings.colorScheme) {
      enhanced := enhanced + ("Use a " + settings.colorScheme.value + " color scheme. ");
    }
    enhanced := enhanced + ClosingSentence;
  }

  /** The enhanced prompt always starts with the opening naming the prompt and ends with the closing sentence. */
  lemma EnhancedPromptFrame(prompt: string, settings: Settings)
    ensures Opening(prompt) <= EnhancedPrompt(prompt, settings)
    ensures var r := EnhancedPrompt(prompt, settings);
      |r| >= |ClosingSentence| && r[|r| - |ClosingSentence|..] == ClosingSentence
  {
    Framed(Opening(prompt), DetailClause(settings.detailLevel), StyleClause(settings.stylePreference),
      ColorClause(settings.colorScheme), ClosingSentence);
  }

  lemma Framed(o: string, d: string, s: string, c: string, z: string)
    ensures o <= o + d + s + c + z
    ensures var r := o + d + s + c + z; r[|r| - |z|..] == z
  {
    var r := o + d + s + c + z;
    assert r == (o + d + s + c) + z;
    assert r[..|o|] == o;
  }

  /** The prompt text read back out of an enhanced prompt, given the settings it was composed with. */
  function PromptText(enhanced: string, settings: Settings): Option<string>
  {
    var tail := SettingsTail(settings);
    if |enhanced| >= |OpeningWords| + |tail| && OpeningWords <= enhanced
       && enhanced[|enhanced| - |tail|..] == tail
    then Some(enhanced[|OpeningWords|..|enhanced| - |tail|])
    else None
  }

  /** The prompt is carried verbatim: it can be read back from the enhanced prompt. */
  lemma PromptRoundTrip(prompt: string, settings: Settings)
    ensures PromptText(EnhancedPrompt(prompt, settings), settings) == Some(prompt)
  {
    Regrouped(OpeningWords, prompt, DetailClause(settings.detailLevel), StyleClause(settings.stylePreference),
      ColorClause(settings.colorScheme), ClosingSentence);
  }

  lemma Regrouped(w: string, p: string, d: string, s: string, c: string, z: string)
    ensures var r := w + p + ". " + d + s + c + z;
      var t := ". " + d + s + c + z;
      && r == w + p + t
      && |r| >= |w| + |t| && w <= r && r[|r| - |t|..] == t && r[|w|..|r| - |t|] == p
  {
    var t := ". " + d + s + c + z;
    var r := w + p + ". " + d + s + c + z;
    assert r == w + p + t;
    assert r[..|w|] == w;
  }

  /** With the same settings, different prompts give different enhanced prompts. */
  lemma EnhancedPromptInjective(p1: string, p2: string, settings: Settings)
    requires EnhancedPrompt(p1, settings) == EnhancedPrompt(p2, settings)
    ensures p1 == p2
  {
    PromptRoundTrip(p1, settings);
    PromptRoundTrip(p2, settings);
  }

  /** The thresholds are exclusive: 25, 50 and 75 stay in the lower band; 0 adds no clause at all. */
  lemma DetailBoundaries()
    ensures DetailClause(None) == "" && DetailClause(Some(0)) == ""
    ensures DetailDescription(1) == "minimally detailed" && DetailDescription(25) == "minimally detailed"
    ensures DetailDescription(26) == "somewhat detailed" && DetailDescription(50) == "somewhat detailed"
    ensures DetailDescription(51) == "moderately detailed" && DetailDescription(75) == "moderately detailed"
    ensures DetailDescription(76) == "highly detailed" && DetailDescription(100) == "highly detailed"
  {
  }

  /** The band's rank: 0 minimal, 1 somewhat, 2 moderate, 3 high. */
  function DetailRank(description: string): nat
  {
    if description == "highly detailed" then 3
    else if description == "moderately detailed" then 2
    else if description == "somewhat detailed" then 1
    else 0
  }

  /** A higher level never gives a lower band. */
  lemma DetailBandMonotone(a: int, b: int)
    requires a <= b
    ensures DetailRank(DetailDescription(a)) <= DetailRank(DetailDescription(b))
  {
  }

  /** With every setting falsy only the opening and the closing sentence remain. */
  lemma NoSettingsNoClauses(prompt: string)
    ensures EnhancedPrompt(prompt, Settings(None, None, None)) == Opening(prompt) + ClosingSentence
    ensures EnhancedPrompt(prompt, Settings(Some(0), Some(""), Some(""))) == Opening(prompt) + ClosingSentence
  {
  }
}
