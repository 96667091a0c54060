/** The application session: the four slices of state kept across visits
    (answers, selected role, progress, settings), the view switch, the
    restore at start-up, the local save, the export envelope, the import of
    a file, and the theme lookup with its fallbacks. */
module Session {
  import opened Types
  import opened Catalog
  import Quiz

  const DEFAULT_SETTINGS: Settings := Settings("2xl", "indigo")

  const EXPORT_VERSION: string := "1.0"

  const INVALID_FORMAT_ALERT: string := "Invalid import file format."
  const READ_ERROR_ALERT: string := "Error reading import file."

  /** A decoded JSON document, field by field. `None` stands for a field that
      is missing or holds a falsy value (`null`, `false`, `0`, `""`); every
      object is truthy, so an empty answer or progress object is `Some`. */
  datatype Document = Document(
    exportVersion: Option<string>,
    exportDate: Option<string>,
    answers: Option<Answers>,
    selectedRole: Option<Role>,
    progress: Option<Progress>,
    settings: Option<Settings>)

  /** What the saved-state key of local storage holds at start-up. `Corrupt`
      is text that does not parse or parses to `null`, the one value whose
      field access throws; any other non-object value parses to a document
      with every field `None`. */
  datatype Stored = NothingSaved | Corrupt | Saved(doc: Document)

  /** What the file reader delivers on import. `Unparseable` is, as for
      `Stored`, text that does not parse or parses to `null`. */
  datatype FileRead = NoFile | NotText | Unparseable | Parsed(doc: Document)

  /** The four slices an import installs. */
  datatype Slices = Slices(answers: Answers, selectedRole: Option<Role>, progress: Progress, settings: Settings)

  /** What an import does: nothing (no file), an alert, nothing (the user
      declined), or new slices. */
  datatype ImportOutcome = Ignored | Alert(message: string) | Declined | Accepted(slices: Slices)

  /** A string field is truthy when present and not empty. */
  predicate TruthyText(o: Option<string>)
  {
    o.Some? && o.value != ""
  }

  // ---------------------------------------------------------------------------
  // Documents written

  /** The local save: exactly the four slices, with neither version nor date. */
  function LocalDocument(answers: Answers, selectedRole: Option<Role>, progress: Progress, settings: Settings): (d: Document)
    ensures d.exportVersion.None? && d.exportDate.None?
    ensures d.answers == Some(answers) && d.selectedRole == selectedRole
    ensures d.progress == Some(progress) && d.settings == Some(settings)
  {
    Document(None, None, Some(answers), selectedRole, Some(progress), Some(settings))
  }

  /** The export envelope: version "1.0", the supplied date and the four
      slices as they are. */
  function ExportEnvelope(answers: Answers, selectedRole: Option<Role>, progress: Progress, settings: Settings, now: string): (d: Document)
    ensures d.exportVersion == Some(EXPORT_VERSION) && d.exportDate == Some(now)
    ensures d.answers == Some(answers) && d.selectedRole == selectedRole
    ensures d.progress == Some(progress) && d.settings == Some(settings)
  {
    Document(Some(EXPORT_VERSION), Some(now), Some(answers), selectedRole, Some(progress), Some(settings))
  }

  // ---------------------------------------------------------------------------
  // Import

  /** The import handler's decision. A file without a truthy version or
      answers is refused before the user is asked; a confirmed import takes
      the file's slices, with the defaults for a missing role, progress or
      settings. */
  function ImportDecision(file: FileRead, confirmed: bool): (o: ImportOutcome)
    ensures file.NoFile? <==> o.Ignored?
    ensures o.Alert? <==> (|| file.NotText? || file.Unparseable?
                           || (file.Parsed? && (!TruthyText(file.doc.exportVersion) || file.doc.answers.None?)))
    ensures o.Declined? <==> file.Parsed? && TruthyText(file.doc.exportVersion) && file.doc.answers.Some? && !confirmed
    ensures o.Accepted? <==> file.Parsed? && TruthyText(file.doc.exportVersion) && file.doc.answers.Some? && confirmed
    ensures o.Accepted? ==>
      && o.slices.answers == file.doc.answers.value
      && o.slices.selectedRole == file.doc.selectedRole
      && o.slices.progress == (if file.doc.progress.Some? then file.doc.progress.value else map[])
      && o.slices.settings == (if file.doc.settings.Some? then file.doc.settings.value else DEFAULT_SETTINGS)
  {
    match file
    case NoFile => Ignored
    case NotText => Alert(READ_ERROR_ALERT)
    case Unparseable => Alert(READ_ERROR_ALERT)
    case Parsed(d) =>
      if !TruthyText(d.exportVersion) || d.answers.None? then Alert(INVALID_FORMAT_ALERT)
      else if !confirmed then Declined
      else Accepted(Slices(
        d.answers.value,
        d.selectedRole,
        match d.progress case Some(p) => p case None => map[],
        match d.settings case Some(s) => s case None => DEFAULT_SETTINGS))
  }

  /** Importing an exported envelope, confirmed, gives back the four slices
      that were exported. */
  lemma ExportImportRoundTrip(answers: Answers, selectedRole: Option<Role>, progress: Progress, settings: Settings, now: string)
    ensures ImportDecision(Parsed(ExportEnvelope(answers, selectedRole, progress, settings, now)), true)
         == Accepted(Slices(answers, selectedRole, progress, settings))
  {
  }

  /** The local save is not an importable file: it has no version. */
  lemma LocalDocumentIsNotImportable(answers: Answers, selectedRole: Option<Role>, progress: Progress, settings: Settings, confirmed: bool)
    ensures ImportDecision(Parsed(LocalDocument(answers, selectedRole, progress, settings)), confirmed)
         == Alert(INVALID_FORMAT_ALERT)
  {
  }

  /** A file with a version and answers but nothing else installs the
      defaults for the other three slices. */
  lemma ImportDefaults(version: string, answers: Answers)
    requires version != ""
    ensures ImportDecision(Parsed(Document(Some(version), None, Some(answers), None, None, None)), true)
         == Accepted(Slices(answers, None, map[], Settings("2xl", "indigo")))
  {
  }

  // ---------------------------------------------------------------------------
  // Theme lookup

  const RADIUS_VALUES: seq<string> := ["0.75rem", "1.25rem", "1.75rem"]

  /** The card corner radius of a radius setting; an unknown value gets the
      radius of the default setting. */
  function RadiusCss(radius: string): (css: string)
    ensures css in RADIUS_VALUES
  {
    if radius == "lg" then "0.75rem"
    else if radius == "2xl" then "1.25rem"
    else if radius == "3xl" then "1.75rem"
    else "1.25rem"
  }

  /** The four accent shades 400, 500, 600 and 700. */
  datatype Palette = Palette(shade400: string, shade500: string, shade600: string, shade700: string)

  const PALETTES: seq<Palette> := [
    Palette("#818cf8", "#6366f1", "#4f46e5", "#4338ca"),
    Palette("#5eead4", "#2dd4bf", "#14b8a6", "#0d9488"),
    Palette("#fb7185", "#f43f5e", "#e11d48", "#be123c")]

  /** The palette of an accent setting; an unknown value gets the palette of
      the default setting. */
  function AccentPalette(accent: string): (p: Palette)
    ensures p in PALETTES
  {
    if accent == "indigo" then Palette("#818cf8", "#6366f1", "#4f46e5", "#4338ca")
    else if accent == "teal" then Palette("#5eead4", "#2dd4bf", "#14b8a6", "#0d9488")
    else if accent == "rose" then Palette("#fb7185", "#f43f5e", "#e11d48", "#be123c")
    else Palette("#818cf8", "#6366f1", "#4f46e5", "#4338ca")
  }

  /** A setting outside the declared values, as a stored or imported file
      can carry, is shown like the default setting. */
  lemma UnknownSettingsLookLikeDefault(s: Settings)
    ensures s.borderRadius !in BORDER_RADII ==> RadiusCss(s.borderRadius) == RadiusCss(DEFAULT_SETTINGS.borderRadius)
    ensures s.accentColor !in ACCENT_COLORS ==> AccentPalette(s.accentColor) == AccentPalette(DEFAULT_SETTINGS.accentColor)
  {
  }

  /** The three radius presets look different, and so do the three accents:
      the lookup tells every declared setting apart. */
  lemma DeclaredThemesAreDistinct(a: Settings, b: Settings)
    requires DeclaredSettings(a) && DeclaredSettings(b)
    ensures RadiusCss(a.borderRadius) == RadiusCss(b.borderRadius) <==> a.borderRadius == b.borderRadius
    ensures AccentPalette(a.accentColor) == AccentPalette(b.accentColor) <==> a.accentColor == b.accentColor
  {
  }

  // ---------------------------------------------------------------------------
  // The session

  class AppSession {
    var view: AppView
    var answers: Answers
    var selectedRole: Option<Role>
    var progress: Progress
    var settings: Settings
    var isLoaded: bool

    /** The state before the saved data is read. */
    constructor()
      ensures view == QuizView && selectedRole.None? && progress == map[]
      ensures settings == DEFAULT_SETTINGS && !isLoaded
      ensures answers.Keys == Quiz.QuestionIdSet(QUESTIONS)
      ensures forall i :: 0 <= i < |QUESTIONS| && Quiz.LastWithId(QUESTIONS, i) ==>
        answers[QUESTIONS[i].id] == Quiz.InitialEntry(QUESTIONS[i])
    {
      var initial := Quiz.InitialAnswers(QUESTIONS);
      view := QuizView;
      answers := initial;
      selectedRole := None;
      progress := map[];
      settings := DEFAULT_SETTINGS;
      isLoaded := false;
    }

    /** The start-up restore: each slice the saved data holds replaces the
        current one, the view becomes the results when a role was saved, and
        loading ends in every case. Unreadable data asks for the saved key to
        be removed. */
    method Restore(stored: Stored) returns (clearStorage: bool)
      modifies this
      ensures isLoaded
      ensures clearStorage <==> stored.Corrupt?
      ensures !stored.Saved? ==> view == old(view) && answers == old(answers) && selectedRole == old(selectedRole)
                                 && progress == old(progress) && settings == old(settings)
      ensures stored.Saved? ==>
        && answers == (match stored.doc.answers case Some(a) => a case None => old(answers))
        && selectedRole == (if stored.doc.selectedRole.Some? then stored.doc.selectedRole else old(selectedRole))
        && progress == (match stored.doc.progress case Some(p) => p case None => old(progress))
        && settings == (match stored.doc.settings case Some(s) => s case None => old(settings))
        && view == (if stored.doc.selectedRole.Some? then ResultsView else old(view))
    {
      clearStorage := false;
      match stored {
        case NothingSaved =>
        case Corrupt =>
          clearStorage := true;
        case Saved(d) =>
          if d.answers.Some? { answers := d.answers.value; }
          if d.selectedRole.Some? { selectedRole := d.selectedRole; }
          if d.progress.Some? { progress := d.progress.value; }
          if d.settings.Some? { settings := d.settings.value; }
          if d.selectedRole.Some? { view := ResultsView; }
      }
      isLoaded := true;
    }

    /** What the save effect writes: nothing until loading has finished,
        then the four slices. */
    function LocalSnapshot(): (d: Option<Document>)
      reads this
      ensures d.Some? <==> isLoaded
      ensures d.Some? ==> d.value == LocalDocument(answers, selectedRole, progress, settings)
    {
      if isLoaded then Some(LocalDocument(answers, selectedRole, progress, settings)) else None
    }

    /** The export button's envelope. */
    function Export(now: string): (d: Document)
      reads this
      ensures ImportDecision(Parsed(d), true) == Accepted(Slices(answers, selectedRole, progress, settings))
    {
      ExportImportRoundTrip(answers, selectedRole, progress, settings, now);
      ExportEnvelope(answers, selectedRole, progress, settings, now)
    }

    /** The import handler: an accepted file replaces all four slices and
        shows the results; any other outcome changes nothing. The alert
        shown, if any, is returned. */
    method Import(file: FileRead, confirmed: bool) returns (alert: Option<string>)
      modifies this
      ensures var o := ImportDecision(file, confirmed);
        && (alert.Some? <==> o.Alert?)
        && (o.Alert? ==> alert.value == o.message)
        && (o.Accepted? ==>
              && answers == o.slices.answers && selectedRole == o.slices.selectedRole
              && progress == o.slices.progress && settings == o.slices.settings
              && view == ResultsView && isLoaded == old(isLoaded))
        && (!o.Accepted? ==>
              && answers == old(answers) && selectedRole == old(selectedRole)
              && progress == old(progress) && settings == old(settings)
              && view == old(view) && isLoaded == old(isLoaded))
    {
      var o := ImportDecision(file, confirmed);
      alert := None;
      match o {
        case Ignored =>
        case Declined =>
        case Alert(message) =>
          alert := Some(message);
        case Accepted(s) =>
          answers := s.answers;
          selectedRole := s.selectedRole;
          progress := s.progress;
          settings := s.settings;
          view := ResultsView;
      }
    }

    /** The finish button of the questionnaire. */
    method FinishQuiz()
      modifies this
      ensures view == ResultsView
      ensures answers == old(answers) && selectedRole == old(selectedRole) && progress == old(progress)
      ensures settings == old(settings) && isLoaded == old(isLoaded)
    {
      view := ResultsView;
    }

    /** Back to the questions: the selected role is dropped. */
    method GoBackToQuiz()
      modifies this
      ensures view == QuizView && selectedRole.None?
      ensures answers == old(answers) && progress == old(progress)
      ensures settings == old(settings) && isLoaded == old(isLoaded)
    {
      selectedRole := None;
      view := QuizView;
    }
  }

  /** A page load: the initial state, then the restore. */
  method Startup(stored: Stored) returns (s: AppSession, clearStorage: bool)
    ensures fresh(s) && s.isLoaded
    ensures clearStorage <==> stored.Corrupt?
    ensures s.view == ResultsView <==> stored.Saved? && stored.doc.selectedRole.Some?
    ensures stored.Saved? && stored.doc.answers.Some? ==> s.answers == stored.doc.answers.value
    ensures s.selectedRole == (if stored.Saved? then stored.doc.selectedRole else None)
    ensures s.progress == (if stored.Saved? && stored.doc.progress.Some? then stored.doc.progress.value else map[])
    ensures s.settings == (if stored.Saved? && stored.doc.settings.Some? then stored.doc.settings.value else DEFAULT_SETTINGS)
    ensures !(stored.Saved? && stored.doc.answers.Some?) ==>
      && s.answers.Keys == Quiz.QuestionIdSet(QUESTIONS)
      && forall i :: 0 <= i < |QUESTIONS| && Quiz.LastWithId(QUESTIONS, i) ==>
           s.answers[QUESTIONS[i].id] == Quiz.InitialEntry(QUESTIONS[i])
  {
    s := new AppSession();
    clearStorage := s.Restore(stored);
  }

  /** Saving and loading the page again gives back the four slices, and the
      results view exactly when a role was selected. */
  method Reload(previous: AppSession) returns (s: AppSession)
    requires previous.isLoaded
    ensures fresh(s) && s.isLoaded
    ensures s.answers == previous.answers && s.selectedRole == previous.selectedRole
    ensures s.progress == previous.progress && s.settings == previous.settings
    ensures s.view == ResultsView <==> previous.selectedRole.Some?
  {
    var saved := previous.LocalSnapshot();
    var clear;
    s, clear := Startup(Saved(saved.value));
  }
}
