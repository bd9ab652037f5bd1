/**
 * The prompt form: the prompt text, the generation settings with their defaults, the submit
 * guard on the trimmed prompt, the example shortcuts and the enablement of the buttons.
 */
module PromptInput {

  import opened JsText

  datatype Style = Realistic | Stylized | Abstract

  datatype ColorScheme = Vibrant | Muted | Monochrome

  /** The settings the form keeps; the slider gives `detailLevel` between 0 and 100 in steps of 1. */
  datatype PromptSettings = PromptSettings(detailLevel: int, stylePreference: Style, colorScheme: ColorScheme)

  /** The settings a fresh form starts with. */
  const DefaultSettings: PromptSettings := PromptSettings(50, Realistic, Vibrant)

  const EmptyPromptToast: string := "Please enter a prompt"

  /** What pressing "Generate" does: an error toast, or one call of `onSubmit`. */
  datatype SubmitOutcome = Rejected(toast: string) | Submitted(prompt: string, settings: PromptSettings)

  /** A slider position. */
  predicate ValidSettings(settings: PromptSettings)
  {
    0 <= settings.detailLevel <= 100
  }

  /** The text of an example button: long examples are cut to 30 characters and marked with `...`. */
  function ExampleLabel(example: string): (text: string)
    ensures |text| <= 33
    ensures |example| <= 30 ==> text == example
    ensures |example| > 30 ==> |text| == 33 && text[..30] == example[..30] && text[30..] == "..."
  {
    if |example| > 30 then Prefix(example, 30) + "..." else example
  }

  /** The "Generate" button. */
  predicate SubmitDisabled(isLoading: bool, prompt: string)
  {
    isLoading || Trim(prompt) == []
  }

  /** The clear button. */
  predicate ClearDisabled(isLoading: bool, prompt: string)
  {
    isLoading || prompt == []
  }

  /** "Generate" is disabled exactly while loading or while the prompt is blank. */
  lemma SubmitDisabledWhenBlank(isLoading: bool, prompt: string)
    ensures SubmitDisabled(isLoading, prompt) <==> isLoading || AllWhitespace(prompt)
  {
    TrimEmptyIffAllWhitespace(prompt);
  }

  /** Whenever the clear button is disabled, so is "Generate"; the converse fails for a blank, non-empty prompt. */
  lemma ClearDisabledThenSubmitDisabled(isLoading: bool, prompt: string)
    ensures ClearDisabled(isLoading, prompt) ==> SubmitDisabled(isLoading, prompt)
    ensures !isLoading && prompt == " " ==> SubmitDisabled(isLoading, prompt) && !ClearDisabled(isLoading, prompt)
  {
    TrimEmptyIffAllWhitespace(prompt);
  }

  class PromptForm {
    var prompt: string
    var settings: PromptSettings

    predicate Valid()
      reads this
    {
      ValidSettings(settings)
    }

    /** An empty prompt and the default settings. */
    constructor ()
      ensures prompt == "" && settings == DefaultSettings
      ensures Valid()
    {
      prompt := "";
      settings := DefaultSettings;
    }

    /**
     * `handleSubmit`: a blank prompt only raises the toast; any other prompt goes to `onSubmit`
     * untrimmed, together with the current settings. The form itself is unchanged.
     */
    method Submit() returns (outcome: SubmitOutcome)
      ensures outcome.Rejected? <==> AllWhitespace(prompt)
      ensures outcome.Rejected? ==> outcome.toast == EmptyPromptToast
      ensures outcome.Submitted? ==> outcome.prompt == prompt && outcome.settings == settings
    {
      TrimEmptyIffAllWhitespace(prompt);
      if Trim(prompt) == [] {
        return Rejected(EmptyPromptToast);
      }
      outcome := Submitted(prompt, settings);
    }

    /** Typing in the text area. */
    method SetPrompt(text: string)
      modifies this
      ensures prompt == text && settings == old(settings)
    {
      prompt := text;
    }

    /** `handleClear`. */
    method Clear()
      modifies this
      ensures prompt == "" && settings == old(settings)
    {
      prompt := "";
    }

    /** `handleExampleClick`: the prompt becomes the example, whatever it was. */
    method ExampleClick(example: string)
      modifies this
      ensures prompt == example && settings == old(settings)
    {
      prompt := example;
    }

    /** Moving the slider changes the detail level and nothing else. */
    method SetDetailLevel(level: int)
      requires Valid() && 0 <= level <= 100
      modifies this
      ensures Valid()
      ensures settings.detailLevel == level
      ensures settings.stylePreference == old(settings.stylePreference)
      ensures settings.colorScheme == old(settings.colorScheme)
      ensures prompt == old(prompt)
    {
      settings := settings.(detailLevel := level);
    }

    /** Picking a style changes the style and nothing else. */
    method SetStylePreference(style: Style)
      requires Valid()
      modifies this
      ensures Valid()
      ensures settings.stylePreference == style
      ensures settings.detailLevel == old(settings.detailLevel)
      ensures settings.colorScheme == old(settings.colorScheme)
      ensures prompt == old(prompt)
    {
      settings := settings.(stylePreference := style);
    }

    /** Picking a colour scheme changes the colour scheme and nothing else. */
    method SetColorScheme(color: ColorScheme)
      requires Valid()
      modifies this
      ensures Valid()
      ensures settings.colorScheme == color
      ensures settings.detailLevel == old(settings.detailLevel)
      ensures settings.stylePreference == old(settings.stylePreference)
      ensures prompt == old(prompt)
    {
      settings := settings.(colorScheme := color);
    }
  }
}
