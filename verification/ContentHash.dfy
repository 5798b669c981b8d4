/**
 The content hash of a staged state: canonical JSON over every staged value.

 The digest itself (SHA-256) is taken to be injective on its input, so a hash
 is modelled as the text that is hashed.
 */
module ContentHash {
  import opened Options
  import opened CourseRows
  import opened Listing
  import Json = CanonicalJson

  type Hash = string

  function FieldName(f: Field): string {
    match f
    case Title => "title"
    case Description => "description"
    case Category => "category"
    case Language => "language"
    case Thumbnail => "thumbnail_url"
    case PricingType => "pricing_type"
    case Price => "price_etb"
    case FreePreview => "is_free_preview"
    case Summary => "summary"
    case Duration => "duration_seconds"
    case VideoKey => "video_s3_key"
    case VideoDuration => "video_duration_seconds"
  }

  function ValJson(v: Val): Json.Json {
    match v
    case Null => Json.Null
    case Flag(b) => Json.Bool(b)
    case Num(n) => Json.Num(Json.Decimal(n))
    case Text(s) => Json.Str(s)
  }

  function IdJson(id: Id): Json.Json {
    Json.Str(Json.Digits(id))
  }

  function MarkJson(mark: Mark): Json.Json {
    match mark
    case Plain => Json.Null
    case Added => Json.Str("added")
    case Removed => Json.Str("removed")
  }

  function Column(values: Fields, f: Field): Json.Json {
    if f in values then ValJson(values[f]) else Json.Undefined
  }

  function FieldMembers(fields: seq<Field>, values: Fields): (ms: seq<Json.Member>)
    ensures |ms| == |fields|
    ensures forall i :: 0 <= i < |fields| ==> ms[i] == Json.Member(FieldName(fields[i]), Column(values, fields[i]))
  {
    if fields == [] then []
    else [Json.Member(FieldName(fields[0]), Column(values, fields[0]))] + FieldMembers(fields[1..], values)
  }

  function ById(id: Id): int {
    0
  }

  /** No overrides and an empty set of them hash alike. */
  function PendingJson(fields: seq<Field>, pending: Option<Fields>): Json.Json {
    if Overrides(pending) == map[] then Json.Null else Json.Obj(FieldMembers(fields, Overrides(pending)))
  }

  predicate RowIsHashed(mark: Mark, pending: Option<Fields>) {
    mark != Plain || Overrides(pending) != map[]
  }

  /** A live column of an added row; other rows' live columns are not hashed. */
  function AddedColumn(mark: Mark, live: Fields, f: Field): Json.Json {
    if mark == Added then ValJson(Get(live, f)) else Json.Undefined
  }

  function SectionEntry(id: Id, s: Section): Json.Json {
    Json.Obj([
      Json.Member("id", IdJson(id)),
      Json.Member("state", MarkJson(s.mark)),
      Json.Member("pending", PendingJson(SECTION_FIELDS, s.pending)),
      Json.Member("title", AddedColumn(s.mark, s.live, Title)),
      Json.Member("is_free_preview", AddedColumn(s.mark, s.live, FreePreview))])
  }

  /** The measured length of an added lesson's video is written only when set. */
  function AddedLength(mark: Mark, live: Fields): Json.Json {
    if mark == Added && Get(live, VideoDuration) != Null then ValJson(Get(live, VideoDuration)) else Json.Undefined
  }

  function LessonEntry(id: Id, l: Lesson): Json.Json {
    Json.Obj([
      Json.Member("id", IdJson(id)),
      Json.Member("section_id", IdJson(l.section)),
      Json.Member("state", MarkJson(l.mark)),
      Json.Member("pending", PendingJson(LESSON_FIELDS, l.pending)),
      Json.Member("title", AddedColumn(l.mark, l.live, Title)),
      Json.Member("summary", AddedColumn(l.mark, l.live, Summary)),
      Json.Member("duration_seconds", AddedColumn(l.mark, l.live, Duration)),
      Json.Member("video_s3_key", AddedColumn(l.mark, l.live, VideoKey)),
      Json.Member("video_duration_seconds", AddedLength(l.mark, l.live))])
  }

  function TotalLength(chunks: seq<string>): nat {
    if chunks == [] then 0 else |chunks[0]| + TotalLength(chunks[1..])
  }

  /** A pending note by title, size and number of chunks; its text is not hashed. */
  function NoteEntry(title: string, chunks: seq<string>): Json.Json {
    Json.Obj([
      Json.Member("title", Json.Str(title)),
      Json.Member("chars", Json.Num(Json.Decimal(TotalLength(chunks)))),
      Json.Member("chunks", Json.Num(Json.Decimal(|chunks|)))])
  }

  function HashedSections(r: Rows): set<Id> {
    set s | s in r.sections && RowIsHashed(r.sections[s].mark, r.sections[s].pending)
  }

  function HashedLessons(r: Rows): set<Id> {
    set l | l in r.lessons && RowIsHashed(r.lessons[l].mark, r.lessons[l].pending)
  }

  function SectionEntries(ids: seq<Id>, r: Rows): (es: seq<Json.Json>)
    requires forall s :: s in ids ==> s in r.sections
    ensures |es| == |ids| && forall i :: 0 <= i < |ids| ==> es[i] == SectionEntry(ids[i], r.sections[ids[i]])
  {
    if ids == [] then [] else [SectionEntry(ids[0], r.sections[ids[0]])] + SectionEntries(ids[1..], r)
  }

  function LessonEntries(ids: seq<Id>, r: Rows): (es: seq<Json.Json>)
    requires forall l :: l in ids ==> l in r.lessons
    ensures |es| == |ids| && forall i :: 0 <= i < |ids| ==> es[i] == LessonEntry(ids[i], r.lessons[ids[i]])
  {
    if ids == [] then [] else [LessonEntry(ids[0], r.lessons[ids[0]])] + LessonEntries(ids[1..], r)
  }

  function NoteEntries(titles: seq<string>, notes: Notes): (es: seq<Json.Json>)
    requires forall t :: t in titles ==> t in notes
    ensures |es| == |titles| && forall i :: 0 <= i < |titles| ==> es[i] == NoteEntry(titles[i], notes[titles[i]])
  {
    if titles == [] then [] else [NoteEntry(titles[0], notes[titles[0]])] + NoteEntries(titles[1..], notes)
  }

  function Texts(ss: seq<string>): (es: seq<Json.Json>)
    ensures |es| == |ss| && forall i :: 0 <= i < |ss| ==> es[i] == Json.Str(ss[i])
  {
    if ss == [] then [] else [Json.Str(ss[0])] + Texts(ss[1..])
  }

  function SectionsJson(r: Rows): Json.Json {
    ListedElements(HashedSections(r), ById);
    Json.Arr(SectionEntries(Listed(HashedSections(r), ById), r))
  }

  function LessonsJson(r: Rows): Json.Json {
    ListedElements(HashedLessons(r), ById);
    Json.Arr(LessonEntries(Listed(HashedLessons(r), ById), r))
  }

  function NotesJson(r: Rows): Json.Json {
    AlphabeticalElements(r.stagedNotes.Keys);
    Json.Arr(NoteEntries(Alphabetical(r.stagedNotes.Keys), r.stagedNotes))
  }

  function AssessmentsJson(ids: seq<string>): Json.Json {
    if ids == [] then Json.Undefined else Json.Arr(Texts(Alphabetical(set a | a in ids)))
  }

  function ContentMembers(r: Rows, assessments: seq<string>): seq<Json.Member> {
    [Json.Member("course", PendingJson(COURSE_FIELDS, r.pending)),
     Json.Member("sections", SectionsJson(r)),
     Json.Member("lessons", LessonsJson(r)),
     Json.Member("knowledge", NotesJson(r)),
     Json.Member("assessments", AssessmentsJson(assessments))]
  }

  function ContentHashOf(r: Rows, assessments: seq<string>): Hash {
    Json.CanonicalText(Json.Obj(ContentMembers(r, assessments)))
  }
}
