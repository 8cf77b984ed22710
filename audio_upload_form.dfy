/**
 * The editor's audio upload form: the same three file refinements as the
 * create dialog (with its own type message), the form's displayed file name,
 * and its submit handler, which changes nothing.
 */
module AudioUploadForm {
  import opened Common
  import opened Domain
  import CreateProjectModal

  /** 50 MiB, the largest upload the form accepts. */
  const MaxAudioBytes: nat := 50 * 1024 * 1024

  datatype Issue = AudioFileMissing | NotAudio | TooLarge

  function Message(i: Issue): string {
    match i
    case AudioFileMissing => "Audio file is required."
    case NotAudio => "File must be an audio type (MP3, WAV, M4A)."
    case TooLarge => "File size must be 50MB or less."
  }

  /** files && files.length > 0 */
  predicate HasFiles(files: Option<seq<AudioFile>>) {
    files.Some? && |files.value| > 0
  }

  /** files && files[0]?.type.startsWith("audio/") */
  predicate FirstIsAudio(files: Option<seq<AudioFile>>) {
    HasFiles(files) && StartsWith(files.value[0].fileType, "audio/")
  }

  /** files && files[0]?.size <= 50 * 1024 * 1024 */
  predicate FirstWithinSize(files: Option<seq<AudioFile>>) {
    HasFiles(files) && files.value[0].size <= MaxAudioBytes
  }

  /** The issues of the three refinements, each checked on its own, in order. */
  function FileIssues(files: Option<seq<AudioFile>>): (r: seq<Issue>)
    ensures AudioFileMissing in r <==> !(files.Some? && |files.value| > 0)
    ensures NotAudio in r <==> !(files.Some? && |files.value| > 0 && StartsWith(files.value[0].fileType, "audio/"))
    ensures TooLarge in r <==> !(files.Some? && |files.value| > 0 && files.value[0].size <= 52428800)
  {
    (if HasFiles(files) then [] else [AudioFileMissing])
    + (if FirstIsAudio(files) then [] else [NotAudio])
    + (if FirstWithinSize(files) then [] else [TooLarge])
  }

  predicate Valid(files: Option<seq<AudioFile>>) {
    FileIssues(files) == []
  }

  function ToDialogIssue(i: Issue): CreateProjectModal.Issue {
    match i
    case AudioFileMissing => CreateProjectModal.AudioFileMissing
    case NotAudio => CreateProjectModal.NotAudio
    case TooLarge => CreateProjectModal.TooLarge
  }

  /**
   * The form and the create dialog judge a file list alike: they accept the
   * same lists and raise the same issues in the same order (only the wording
   * of the type message differs).
   */
  lemma SameFileRuleAsDialog(files: Option<seq<AudioFile>>)
    ensures Valid(files) <==> CreateProjectModal.FileIssues(files) == []
    ensures |FileIssues(files)| == |CreateProjectModal.FileIssues(files)|
    ensures forall k :: 0 <= k < |FileIssues(files)| ==>
              ToDialogIssue(FileIssues(files)[k]) == CreateProjectModal.FileIssues(files)[k]
  {
    assert HasFiles(files) == CreateProjectModal.HasFiles(files);
    assert FirstIsAudio(files) == CreateProjectModal.FirstIsAudio(files);
    assert FirstWithinSize(files) == CreateProjectModal.FirstWithinSize(files);
  }

  /** The form's own state: the file name it displays. */
  datatype FormState = FormState(fileName: Option<string>)

  /** The state right after mount, before any file is chosen. */
  const Initial: FormState := FormState(None)

  /**
   * handleFormSubmit: its only statement is an empty if, so a valid
   * submission leaves the form's state as it was and calls nothing.
   */
  function HandleFormSubmit(state: FormState, files: Option<seq<AudioFile>>): (r: FormState)
    requires Valid(files)
    ensures r == state
  {
    state
  }

  // ---------------------------------------------------------------------------
  // Reacting to a newly chosen file list
  // ---------------------------------------------------------------------------

  /**
   * As written, the selection logic is passed to useState as an initializer,
   * which React runs once, at mount, when no file is chosen yet. A later
   * choice of files therefore leaves the file name unset and never calls
   * onFileSelect (the second component is that call's argument, if any).
   */
  function WatchChangedAsWritten(state: FormState, files: Option<seq<AudioFile>>): (r: (FormState, Option<AudioFile>))
    ensures r.0 == state && r.1.None?
  {
    (state, None)
  }

  /** The evidently intended effect: show the first file's name and hand that file to onFileSelect. */
  function WatchChanged(state: FormState, files: Option<seq<AudioFile>>): (r: (FormState, Option<AudioFile>))
    ensures HasFiles(files) ==> r.0.fileName == Some(files.value[0].name) && r.1 == Some(files.value[0])
    ensures !HasFiles(files) ==> r.0.fileName == None && r.1 == None
  {
    if HasFiles(files) then (FormState(Some(files.value[0].name)), Some(files.value[0]))
    else (FormState(None), None)
  }

  /** The intended effect is the one the create dialog's useEffect has: the same name for the same files. */
  lemma IntendedNameAsInDialog(state: FormState, files: Option<seq<AudioFile>>)
    ensures WatchChanged(state, files).0.fileName == CreateProjectModal.DisplayedFileName(files)
    ensures WatchChanged(state, files).1.Some? <==> CreateProjectModal.DisplayedFileName(files).Some?
  {
  }

  /** A concrete choice of one MP3 file that the as-written form ignores. */
  lemma ChosenFileIgnoredAsWritten()
    ensures var f := AudioFile("call.mp3", "audio/mpeg", 1024);
            var files := Some([f]);
            && Valid(files)
            && WatchChangedAsWritten(Initial, files) == (FormState(None), None)
            && WatchChanged(Initial, files) == (FormState(Some("call.mp3")), Some(f))
  {
    var f := AudioFile("call.mp3", "audio/mpeg", 1024);
    assert StartsWith(f.fileType, "audio/");
  }
}
