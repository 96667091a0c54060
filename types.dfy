/** The data types of the career pathfinder: the questionnaire, the role and
    roadmap catalog, the per-topic progress records and the cosmetic settings. */
module Types {

  datatype Option<+T> = None | Some(value: T)

  /** One entry of the answer dictionary. `Unset` is the `null` stored for an
      unanswered single-choice question; a single-choice answer is one string,
      a multiple-choice answer a list of strings. */
  datatype Entry = Unset | Single(value: string) | Multi(values: seq<string>)

  /** The answer dictionary, keyed by question id. A key that is absent reads
      as `undefined`, which is not the same as `Unset`. */
  type Answers = map<string, Entry>

  datatype QuestionKind = SingleChoice | MultipleChoice

  datatype QuestionOption = QuestionOption(value: string, labelText: string)

  datatype Question = Question(
    id: string,
    title: string,
    icon: string,
    description: string,
    kind: QuestionKind,
    options: seq<QuestionOption>)

  datatype Category = Offense | Defense | Engineering | Specialized

  datatype Role = Role(
    id: string,
    name: string,
    category: Category,
    description: string,
    salaryRange: string,
    keySkills: seq<string>,
    certifications: seq<string>,
    roadmapId: string)

  datatype ResourceKind = Free | Paid

  datatype Resource = Resource(title: string, url: string, kind: ResourceKind, format: string)

  datatype RoadmapTopic = RoadmapTopic(
    id: string,
    title: string,
    description: string,
    estimatedHours: int,
    prerequisites: seq<string>,
    resources: seq<Resource>,
    whyImportant: string)

  datatype RoadmapPhase = RoadmapPhase(
    id: string,
    title: string,
    duration: string,
    estimatedHours: string,
    topics: seq<RoadmapTopic>)

  datatype Roadmap = Roadmap(id: string, name: string, phases: seq<RoadmapPhase>)

  /** A progress record: `completed` is always present, the other three
      fields are optional. Hours are whole numbers here (see README). */
  datatype ProgressDetails = ProgressDetails(
    completed: bool,
    hoursLogged: Option<int>,
    dateCompleted: Option<string>,
    notes: Option<string>)

  /** Progress is sparse: a topic has a record only once it has been touched. */
  type Progress = map<string, ProgressDetails>

  datatype AppView = QuizView | ResultsView

  /** Settings as they are stored. The declared values are the three radius
      presets and the three accent colours; a snapshot read back from storage
      or from a file is not checked, so any string can arrive here. */
  datatype Settings = Settings(borderRadius: string, accentColor: string)

  const BORDER_RADII: seq<string> := ["lg", "2xl", "3xl"]
  const ACCENT_COLORS: seq<string> := ["indigo", "teal", "rose"]

  /** The settings a user can choose in the settings dialog. */
  predicate DeclaredSettings(s: Settings)
  {
    s.borderRadius in BORDER_RADII && s.accentColor in ACCENT_COLORS
  }
}
