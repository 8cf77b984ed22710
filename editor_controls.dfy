/**
 * The editor's control bar: the error line, and the Close, Transcribe and
 * Save buttons with the conditions under which each is shown or disabled.
 * Optional props are `Option`s; a missing `hasChanges`, `isError` or
 * `errorMessage` takes its default value.
 */
module EditorControls {
  import opened Common

  /** 'An error occurred.', the default error message. */
  const DefaultErrorMessage: string := "An error occurred."

  datatype Props = Props(
    hasOnTranscribe: bool,
    isTranscribing: bool,
    isSaving: bool,
    canTranscribe: bool,
    hasChanges: Option<bool>,
    isError: Option<bool>,
    errorMessage: Option<string>)

  /** The Transcribe button, when rendered. */
  datatype TranscribeButton = TranscribeButton(disabled: bool, spinner: bool)

  /** What the bar renders. */
  datatype Bar = Bar(
    errorLine: Option<string>,
    closeDisabled: bool,
    transcribe: Option<TranscribeButton>,
    saveDisabled: bool,
    saveSpinner: bool)

  /** onTranscribe && canTranscribe: the Transcribe button is rendered. */
  predicate TranscribeOffered(p: Props) {
    p.hasOnTranscribe && p.canTranscribe
  }

  function Render(p: Props): (r: Bar)
    ensures r.closeDisabled <==> p.isTranscribing || p.isSaving
    ensures r.saveSpinner <==> p.isSaving
    ensures r.transcribe.Some? ==> (r.transcribe.value.spinner <==> p.isTranscribing)
    ensures r.transcribe.Some? ==> r.saveDisabled
  {
    var hasChanges := p.hasChanges.GetOr(true);
    var isError := p.isError.GetOr(false);
    var errorMessage := p.errorMessage.GetOr(DefaultErrorMessage);
    Bar(
      if isError then Some(errorMessage) else None,
      p.isTranscribing || p.isSaving,
      if TranscribeOffered(p) then
        Some(TranscribeButton(p.isTranscribing || p.isSaving || !p.canTranscribe, p.isTranscribing))
      else None,
      p.isTranscribing || p.isSaving || !hasChanges || TranscribeOffered(p),
      p.isSaving)
  }

  // ---------------------------------------------------------------------------
  // Properties
  // ---------------------------------------------------------------------------

  /** While a transcription can still be started, Save stays disabled: the two are never both enabled. */
  lemma TranscribeBeforeSave(p: Props)
    ensures Render(p).transcribe.Some? ==> Render(p).saveDisabled
    ensures !(Render(p).transcribe.Some? && !Render(p).transcribe.value.disabled && !Render(p).saveDisabled)
  {
  }

  /**
   * Save is enabled exactly when nothing is in progress, there are changes
   * (by default there are), and no transcription is on offer.
   */
  lemma SaveEnabledIff(p: Props)
    ensures !Render(p).saveDisabled
            <==> !p.isTranscribing && !p.isSaving && p.hasChanges != Some(false) && !TranscribeOffered(p)
  {
  }

  /** A rendered Transcribe button is enabled exactly when nothing is in progress. */
  lemma TranscribeEnabledIff(p: Props)
    ensures Render(p).transcribe.Some? <==> p.hasOnTranscribe && p.canTranscribe
    ensures Render(p).transcribe.Some? ==>
              (!Render(p).transcribe.value.disabled <==> !p.isTranscribing && !p.isSaving)
  {
  }

  /** While transcribing or saving, every button is disabled. */
  lemma BusyLocksTheBar(p: Props)
    requires p.isTranscribing || p.isSaving
    ensures Render(p).closeDisabled && Render(p).saveDisabled
    ensures Render(p).transcribe.Some? ==> Render(p).transcribe.value.disabled
  {
  }

  /** Close is disabled exactly while transcribing or saving. */
  lemma CloseDisabledIff(p: Props)
    ensures Render(p).closeDisabled <==> p.isTranscribing || p.isSaving
  {
  }

  /** The error line: shown only when isError is true, with the default text when no message is given. */
  lemma ErrorLine(p: Props)
    ensures Render(p).errorLine.Some? <==> p.isError == Some(true)
    ensures p.isError == Some(true) && p.errorMessage.None? ==> Render(p).errorLine == Some(DefaultErrorMessage)
    ensures p.isError == Some(true) && p.errorMessage.Some? ==> Render(p).errorLine == p.errorMessage
  {
  }
}
