/**
 * The four-step wizard of the `App` component: upload files, select languages,
 * fine-tune settings, review and translate. Its state lives in the component;
 * the handlers below are the ones that move between steps and start a run.
 */
module App {
  import opened Wrappers
  import opened Json
  import opened Types
  import opened Provider
  import opened Queue

  /** Upload Files, Select Languages, Fine-Tune, Review & Translate. */
  const StepCount: nat := 4

  const NoFilesError := "Please upload at least one JSON file to continue."
  const NoLanguagesError := "Please select at least one language to continue."
  const MissingInputError := "Missing files or languages. Please go back and check."

  /** The settings used until the user changes them. */
  const DefaultSettings := Settings(true, true, true, Standard, Neutral, "0.5", "", "", 50)

  /**
   * The jobs of a run: every file paired with every selected language, file by
   * file and, within a file, in language order.
   */
  function ExpandJobs(files: seq<UploadedFile>, languages: seq<Language>): (jobs: seq<TranslationJob>)
    ensures |jobs| == |files| * |languages|
    decreases |files|
  {
    if files == [] then []
    else
      var rest := ExpandJobs(files[1..], languages);
      assert |files| * |languages| == |languages| + (|files| - 1) * |languages|;
      seq(|languages|, l requires 0 <= l < |languages| => TranslationJob(files[0], languages[l])) + rest
  }

  /** Job number `f * |languages| + l` pairs file `f` with language `l`. */
  lemma {:induction false} ExpandJobsAt(files: seq<UploadedFile>, languages: seq<Language>, f: nat, l: nat)
    requires f < |files| && l < |languages|
    ensures f * |languages| + l < |ExpandJobs(files, languages)|
    ensures ExpandJobs(files, languages)[f * |languages| + l] == TranslationJob(files[f], languages[l])
    decreases f
  {
    RowOffset(f, l, |files|, |languages|);
    if f > 0 {
      ExpandJobsAt(files[1..], languages, f - 1, l);
      assert files[1..][f - 1] == files[f];
    }
  }

  /** Offsets into a table of `count` rows of `n` entries. */
  lemma {:induction false} RowOffset(f: nat, l: nat, count: nat, n: nat)
    requires f < count && l < n
    ensures f * n + l < count * n
    ensures f > 0 ==> f * n + l == n + ((f - 1) * n + l)
    decreases f
  {
    if f > 0 {
      RowOffset(f - 1, l, count - 1, n);
      assert count * n == n + (count - 1) * n;
      assert f * n == n + (f - 1) * n;
    }
  }

  /**
   * The run `handleTranslate` starts: the queue over every file and language
   * pair; the last percentage it reports is 100.
   */
  method RunTranslation(files: seq<UploadedFile>, languages: seq<Language>, config: Config, provider: Oracle)
    returns (results: seq<TranslationResult>, finalProgress: real)
    requires config.settings.chunkSize > 0
    ensures results == Successes(RunQueue(ExpandJobs(files, languages), config, provider, 0))
    ensures finalProgress == 100.0
  {
    var jobs := ExpandJobs(files, languages);
    var reported;
    results, reported := ProcessTranslationQueue(jobs, config, provider);
    finalProgress := reported[|reported| - 1];
  }

  class Wizard {
    var currentStep: nat
    var files: seq<UploadedFile>
    var selectedLanguages: seq<Language>
    var results: seq<TranslationResult>
    var selectedModel: string
    var settings: Settings
    var isTranslating: bool
    /** The last percentage reported by the run. */
    var progress: real
    var error: Option<string>
    var isFinished: bool

    /** The step is one of the four, and the chunk size is positive. */
    ghost predicate Valid()
      reads this
    {
      currentStep < StepCount && settings.chunkSize > 0
    }

    /** A step past the upload step is reached only with files, past the languages step only with languages. */
    ghost predicate Gated()
      reads this
    {
      (currentStep >= 1 ==> |files| > 0) && (currentStep >= 2 ==> |selectedLanguages| > 0)
    }

    /** The wizard as it opens: on the first step, with what was stored from the last session. */
    constructor (storedFiles: seq<UploadedFile>, storedModel: string, storedLanguages: seq<Language>, storedSettings: Settings)
      requires storedSettings.chunkSize > 0
      ensures Valid() && Gated()
      ensures currentStep == 0 && files == storedFiles && selectedLanguages == storedLanguages
      ensures selectedModel == storedModel && settings == storedSettings
      ensures results == [] && !isTranslating && progress == 0.0 && error == None && !isFinished
    {
      currentStep := 0;
      files := storedFiles;
      selectedLanguages := storedLanguages;
      results := [];
      selectedModel := storedModel;
      settings := storedSettings;
      isTranslating := false;
      progress := 0.0;
      error := None;
      isFinished := false;
    }

    /** The upload step replaces the file list. */
    method SetFiles(newFiles: seq<UploadedFile>)
      requires Valid() && currentStep == 0
      modifies this`files
      ensures Valid()
      ensures files == newFiles
    {
      files := newFiles;
    }

    /** The languages step replaces the selection. */
    method SetSelectedLanguages(languages: seq<Language>)
      requires Valid() && currentStep == 1
      modifies this`selectedLanguages
      ensures Valid()
      ensures selectedLanguages == languages
      ensures old(Gated()) ==> Gated()
    {
      selectedLanguages := languages;
    }

    /**
     * `handleNext`: refuses to leave the upload step without files and the
     * languages step without languages; otherwise clears the error and moves on,
     * staying put on the last step.
     */
    method HandleNext()
      requires Valid()
      modifies this`currentStep, this`error
      ensures Valid()
      ensures old(Gated()) ==> Gated()
      ensures old(currentStep) == 0 && |files| == 0 ==>
        error == Some(NoFilesError) && currentStep == old(currentStep)
      ensures old(currentStep) == 1 && |selectedLanguages| == 0 ==>
        error == Some(NoLanguagesError) && currentStep == old(currentStep)
      ensures !(old(currentStep) == 0 && |files| == 0) && !(old(currentStep) == 1 && |selectedLanguages| == 0) ==>
        error == None && currentStep == if old(currentStep) < StepCount - 1 then old(currentStep) + 1 else old(currentStep)
    {
      if currentStep == 0 && |files| == 0 {
        error := Some(NoFilesError);
        return;
      }
      if currentStep == 1 && |selectedLanguages| == 0 {
        error := Some(NoLanguagesError);
        return;
      }
      error := None;
      if currentStep < StepCount - 1 {
        currentStep := currentStep + 1;
      }
    }

    /** `handleBack`: one step back, never before the first. */
    method HandleBack()
      requires Valid()
      modifies this`currentStep
      ensures Valid()
      ensures old(Gated()) ==> Gated()
      ensures currentStep == if old(currentStep) > 0 then old(currentStep) - 1 else 0
    {
      if currentStep > 0 {
        currentStep := currentStep - 1;
      }
    }

    /**
     * `handleTranslate`: without files or languages it only reports the error;
     * otherwise it runs the queue over every file and language pair with the
     * selected model and settings and shows the results. From the review step
     * of a gated wizard the guard never fires.
     */
    method HandleTranslate(provider: Oracle)
      requires Valid()
      modifies this`error, this`isTranslating, this`results, this`progress, this`isFinished
      ensures Valid()
      ensures old(Gated()) ==> Gated()
      ensures |files| == 0 || |selectedLanguages| == 0 ==>
        error == Some(MissingInputError) && results == old(results) && progress == old(progress) &&
        isTranslating == old(isTranslating) && isFinished == old(isFinished)
      ensures |files| > 0 && |selectedLanguages| > 0 ==>
        error == None && !isTranslating && isFinished && progress == 100.0 &&
        results == Successes(RunQueue(ExpandJobs(files, selectedLanguages), Config(selectedModel, settings), provider, 0))
      ensures old(Gated()) && currentStep == StepCount - 1 ==> |files| > 0 && |selectedLanguages| > 0
    {
      if |files| == 0 || |selectedLanguages| == 0 {
        error := Some(MissingInputError);
        return;
      }
      StartRun(provider);
    }

    /** The part of `handleTranslate` past its guard: the run and its outcome. */
    method StartRun(provider: Oracle)
      requires Valid() && |files| > 0 && |selectedLanguages| > 0
      modifies this`error, this`isTranslating, this`results, this`progress, this`isFinished
      ensures error == None && !isTranslating && isFinished && progress == 100.0
      ensures results == Successes(RunQueue(ExpandJobs(old(files), old(selectedLanguages)),
                                            Config(old(selectedModel), old(settings)), provider, 0))
    {
      var translationResults, finalProgress := RunTranslation(files, selectedLanguages, Config(selectedModel, settings), provider);
      error := None;
      progress := finalProgress;
      results := translationResults;
      isFinished := true;
      isTranslating := false;
    }

    /** `handleStartNew`: back to an empty first step, keeping model and settings. */
    method HandleStartNew()
      requires Valid()
      modifies this`files, this`results, this`selectedLanguages, this`isFinished, this`currentStep, this`error
      ensures Valid() && Gated()
      ensures files == [] && results == [] && selectedLanguages == []
      ensures !isFinished && currentStep == 0 && error == None
    {
      files := [];
      results := [];
      selectedLanguages := [];
      isFinished := false;
      currentStep := 0;
      error := None;
    }
  }

  /**
   * The wizard in a first session, when storage holds nothing: no files, no
   * languages, the first model of the list and the default settings, whose
   * chunk size the constructor accepts.
   */
  method OpenFirstSession(firstModel: string) returns (w: Wizard)
    ensures fresh(w) && w.Valid() && w.Gated()
    ensures w.currentStep == 0 && w.files == [] && w.selectedLanguages == []
    ensures w.selectedModel == firstModel && w.settings == DefaultSettings
  {
    w := new Wizard([], firstModel, [], DefaultSettings);
  }
}
