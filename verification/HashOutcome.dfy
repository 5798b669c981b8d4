/**
 What an equal content hash guarantees: the same staged values, and over the
 same live rows the same course after an apply.
 */
module HashOutcome {
  import opened Options
  import opened CourseRows
  import opened Staging
  import opened StagedEdits
  import opened Listing
  import opened ContentHash
  import Json = CanonicalJson

  // ---- Reading a hashed object back -----------------------------------------

  /** Two objects that mean the same agree on the member both write at the same place. */
  lemma SameMember(ms: seq<Json.Member>, ns: seq<Json.Member>, i: nat)
    requires Json.DistinctKeys(ms) && Json.DistinctKeys(ns)
    requires Json.MeaningMembers(ms) == Json.MeaningMembers(ns)
    requires i < |ms| && i < |ns| && ms[i].key == ns[i].key
    ensures ms[i].value.Undefined? <==> ns[i].value.Undefined?
    ensures Json.Meaning(ms[i].value) == Json.Meaning(ns[i].value)
  {
    Json.MeaningAt(ms, i);
    Json.MeaningAt(ns, i);
  }

  lemma FieldNamesDiffer(f: Field, g: Field)
    ensures FieldName(f) == FieldName(g) ==> f == g
  {
    FieldNameCode(f);
    FieldNameCode(g);
  }

  /** A field is recognised by the length and the first and last characters of its name. */
  function Code(name: string): int {
    if name == "" then 0 else |name| * 1000000 + name[0] as int * 1000 + name[|name| - 1] as int
  }

  function FieldCode(f: Field): int {
    match f
    case Title => 5116101
    case Description => 11100110
    case Category => 8099121
    case Language => 8108101
    case Thumbnail => 13116108
    case PricingType => 12112101
    case Price => 9112098
    case FreePreview => 15105119
    case Summary => 7115121
    case Duration => 16100115
    case VideoKey => 12118121
    case VideoDuration => 22118115
  }

  lemma FieldNameCode(f: Field)
    ensures Code(FieldName(f)) == FieldCode(f)
  {
  }

  predicate NoRepeats(fields: seq<Field>) {
    forall i, j :: 0 <= i < j < |fields| ==> fields[i] != fields[j]
  }

  lemma FieldMembersDistinct(fields: seq<Field>, values: Fields)
    requires NoRepeats(fields)
    ensures Json.DistinctKeys(FieldMembers(fields, values)) && Json.WellFormed(Json.Obj(FieldMembers(fields, values)))
  {
    hide FieldName, Column;
    var ms := FieldMembers(fields, values);
    forall i, j | 0 <= i < j < |fields| ensures ms[i].key != ms[j].key {
      FieldNamesDiffer(fields[i], fields[j]);
    }
    assert Json.DistinctKeys(ms);
    FieldMembersWellFormed(fields, values);
  }

  lemma FieldMembersWellFormed(fields: seq<Field>, values: Fields)
    requires Json.DistinctKeys(FieldMembers(fields, values))
    ensures Json.WellFormed(Json.Obj(FieldMembers(fields, values)))
  {
    hide Json.DistinctKeys, FieldName;
  }

  lemma ValuesRead(v: Val, w: Val)
    requires Json.Meaning(ValJson(v)) == Json.Meaning(ValJson(w))
    ensures v == w
  {
    hide Json.Decimal;
    if v.Num? && w.Num? { Json.DecimalRead(v.n, w.n); }
  }

  lemma IdsRead(a: Id, b: Id)
    requires Json.Meaning(IdJson(a)) == Json.Meaning(IdJson(b))
    ensures a == b
  {
    Json.DigitsRead(a);
    Json.DigitsRead(b);
  }

  lemma MarksRead(a: Mark, b: Mark)
    requires Json.Meaning(MarkJson(a)) == Json.Meaning(MarkJson(b))
    ensures a == b
  {
    assert |"added"| == 5 && |"removed"| == 7;
  }

  predicate KeysWithin(pending: Option<Fields>, fields: seq<Field>) {
    forall f :: f in Overrides(pending) ==> f in fields
  }

  lemma ColumnRead(a: Fields, b: Fields, f: Field)
    requires Column(a, f).Undefined? <==> Column(b, f).Undefined?
    requires Json.Meaning(Column(a, f)) == Json.Meaning(Column(b, f))
    ensures f in a <==> f in b
    ensures f in a ==> a[f] == b[f]
  {
    if f in a { ValuesRead(a[f], b[f]); }
  }

  lemma FieldRead(fields: seq<Field>, a: Fields, b: Fields, i: nat)
    requires i < |fields|
    requires Json.DistinctKeys(FieldMembers(fields, a)) && Json.DistinctKeys(FieldMembers(fields, b))
    requires Json.MeaningMembers(FieldMembers(fields, a)) == Json.MeaningMembers(FieldMembers(fields, b))
    ensures fields[i] in a <==> fields[i] in b
    ensures fields[i] in a ==> a[fields[i]] == b[fields[i]]
  {
    SameMember(FieldMembers(fields, a), FieldMembers(fields, b), i);
    ColumnRead(a, b, fields[i]);
  }

  lemma FieldsRead(fields: seq<Field>, a: Fields, b: Fields)
    requires NoRepeats(fields) && (forall f :: f in a ==> f in fields) && (forall f :: f in b ==> f in fields)
    requires Json.MeaningMembers(FieldMembers(fields, a)) == Json.MeaningMembers(FieldMembers(fields, b))
    ensures a == b
  {
    hide Json.MeaningMembers, FieldMembers, Json.WellFormed, Json.DistinctKeys, NoRepeats;
    FieldMembersDistinct(fields, a);
    FieldMembersDistinct(fields, b);
    forall f | f in fields ensures f in a <==> f in b
      ensures f in a ==> a[f] == b[f]
    {
      var i :| 0 <= i < |fields| && fields[i] == f;
      FieldRead(fields, a, b, i);
    }
  }

  lemma OverridesRead(fields: seq<Field>, p: Option<Fields>, q: Option<Fields>)
    requires NoRepeats(fields) && KeysWithin(p, fields) && KeysWithin(q, fields)
    requires Json.Meaning(PendingJson(fields, p)) == Json.Meaning(PendingJson(fields, q))
    ensures Overrides(p) == Overrides(q)
  {
    hide Json.MeaningMembers, FieldMembers, Overrides;
    var a, b := Overrides(p), Overrides(q);
    assert a == map[] <==> b == map[];
    if a != map[] {
      FieldsRead(fields, a, b);
    }
  }

  lemma PendingWellFormed(fields: seq<Field>, p: Option<Fields>)
    requires NoRepeats(fields)
    ensures Json.WellFormed(PendingJson(fields, p))
  {
    FieldMembersDistinct(fields, Overrides(p));
  }

  lemma FieldListsHaveNoRepeats()
    ensures NoRepeats(COURSE_FIELDS) && NoRepeats(SECTION_FIELDS) && NoRepeats(LESSON_FIELDS)
  {
  }

  // ---- Sections -------------------------------------------------------------

  /** The place of a key in the objects below, from its code. */
  function Slot(code: int): int {
    if code == 2105100 then 0           // id
    else if code == 10115100 then 1     // section_id
    else if code == 5115101 then 2      // state
    else if code == 7112103 then 3      // pending
    else if code == 5116101 then 4      // title
    else if code == 7115121 then 5      // summary
    else if code == 16100115 then 6     // duration_seconds
    else if code == 12118121 then 7     // video_s3_key
    else if code == 22118115 then 8     // video_duration_seconds
    else if code == 15105119 then 9     // is_free_preview
    else if code == 5099115 then 10     // chars
    else if code == 6099115 then 11     // chunks
    else if code == 6099101 then 12     // course
    else if code == 8115115 then 13     // sections
    else if code == 7108115 then 14     // lessons
    else if code == 9107101 then 15     // knowledge
    else if code == 11097115 then 16    // assessments
    else -1
  }

  lemma Ascending(ms: seq<Json.Member>)
    requires forall i, j :: 0 <= i < j < |ms| ==> Slot(Code(ms[i].key)) < Slot(Code(ms[j].key))
    ensures Json.DistinctKeys(ms)
  {
  }

  lemma SectionSlots(id: Id, s: Section)
    ensures var ms := SectionEntry(id, s).members;
      |ms| == 5 && Slot(Code(ms[0].key)) == 0 && Slot(Code(ms[1].key)) == 2 && Slot(Code(ms[2].key)) == 3
      && Slot(Code(ms[3].key)) == 4 && Slot(Code(ms[4].key)) == 9
  {
  }

  lemma LessonSlots(id: Id, l: Lesson)
    ensures |LessonEntry(id, l).members| == 9
    ensures forall i :: 0 <= i < 9 ==> Slot(Code(LessonEntry(id, l).members[i].key)) == i
  {
    var ms := LessonEntry(id, l).members;
    FrontSlots(ms);
    BackSlots(ms);
  }

  lemma FrontSlots(ms: seq<Json.Member>)
    requires |ms| == 9 && ms[0].key == "id" && ms[1].key == "section_id" && ms[2].key == "state" && ms[3].key == "pending"
    ensures forall i :: 0 <= i < 4 ==> Slot(Code(ms[i].key)) == i
  {
  }

  lemma BackSlots(ms: seq<Json.Member>)
    requires |ms| == 9 && ms[4].key == "title" && ms[5].key == "summary" && ms[6].key == "duration_seconds"
    requires ms[7].key == "video_s3_key" && ms[8].key == "video_duration_seconds"
    ensures forall i :: 4 <= i < 9 ==> Slot(Code(ms[i].key)) == i
  {
  }

  lemma NoteSlots(title: string, chunks: seq<string>)
    ensures var ms := NoteEntry(title, chunks).members;
      |ms| == 3 && Slot(Code(ms[0].key)) == 4 && Slot(Code(ms[1].key)) == 10 && Slot(Code(ms[2].key)) == 11
  {
  }

  lemma ContentSlots(r: Rows, assessments: seq<string>)
    ensures var ms := ContentMembers(r, assessments);
      |ms| == 5 && Slot(Code(ms[0].key)) == 12 && Slot(Code(ms[1].key)) == 13 && Slot(Code(ms[2].key)) == 14
      && Slot(Code(ms[3].key)) == 15 && Slot(Code(ms[4].key)) == 16
  {
  }

  lemma SectionEntryWellFormed(id: Id, s: Section)
    ensures Json.WellFormed(SectionEntry(id, s))
  {
    FieldListsHaveNoRepeats();
    PendingWellFormed(SECTION_FIELDS, s.pending);
    SectionSlots(id, s);
    Ascending(SectionEntry(id, s).members);
  }

  /** Same marker, same overrides, and for an added row the same live columns. */
  predicate SameStaging(fields: seq<Field>, mark: Mark, live: Fields, p: Option<Fields>, mark': Mark, live': Fields, p': Option<Fields>) {
    && mark == mark' && Overrides(p) == Overrides(p')
    && (mark == Added ==> forall f :: f in fields ==> Get(live, f) == Get(live', f))
  }

  lemma AddedColumnRead(mark: Mark, live: Fields, live': Fields, f: Field)
    requires Json.Meaning(AddedColumn(mark, live, f)) == Json.Meaning(AddedColumn(mark, live', f))
    ensures mark == Added ==> Get(live, f) == Get(live', f)
  {
    if mark == Added { ValuesRead(Get(live, f), Get(live', f)); }
  }

  lemma SectionEntryRead(a: Id, s: Section, b: Id, t: Section)
    requires KeysWithin(s.pending, SECTION_FIELDS) && KeysWithin(t.pending, SECTION_FIELDS)
    requires Json.Meaning(SectionEntry(a, s)) == Json.Meaning(SectionEntry(b, t))
    ensures a == b && SameStaging(SECTION_FIELDS, s.mark, s.live, s.pending, t.mark, t.live, t.pending)
  {
    var ms, ns := SectionEntry(a, s).members, SectionEntry(b, t).members;
    SectionEntryWellFormed(a, s);
    SectionEntryWellFormed(b, t);
    SameMember(ms, ns, 0);
    IdsRead(a, b);
    SameMember(ms, ns, 1);
    MarksRead(s.mark, t.mark);
    SameMember(ms, ns, 2);
    FieldListsHaveNoRepeats();
    OverridesRead(SECTION_FIELDS, s.pending, t.pending);
    SameMember(ms, ns, 3);
    AddedColumnRead(s.mark, s.live, t.live, Title);
    SameMember(ms, ns, 4);
    AddedColumnRead(s.mark, s.live, t.live, FreePreview);
  }

  lemma LessonEntryWellFormed(id: Id, l: Lesson)
    ensures Json.WellFormed(LessonEntry(id, l))
  {
    FieldListsHaveNoRepeats();
    PendingWellFormed(LESSON_FIELDS, l.pending);
    LessonSlots(id, l);
    Ascending(LessonEntry(id, l).members);
  }

  lemma LessonEntryRead(a: Id, l: Lesson, b: Id, k: Lesson)
    requires KeysWithin(l.pending, LESSON_FIELDS) && KeysWithin(k.pending, LESSON_FIELDS)
    requires Json.Meaning(LessonEntry(a, l)) == Json.Meaning(LessonEntry(b, k))
    ensures a == b && l.section == k.section && SameStaging(LESSON_FIELDS, l.mark, l.live, l.pending, k.mark, k.live, k.pending)
  {
    hide Json.WellFormed, Json.DistinctKeys, AddedColumn, AddedLength, PendingJson, IdJson, MarkJson, Get;
    var ms, ns := LessonEntry(a, l).members, LessonEntry(b, k).members;
    LessonEntryWellFormed(a, l);
    LessonEntryWellFormed(b, k);
    SameMember(ms, ns, 0);
    IdsRead(a, b);
    SameMember(ms, ns, 1);
    IdsRead(l.section, k.section);
    SameMember(ms, ns, 2);
    MarksRead(l.mark, k.mark);
    SameMember(ms, ns, 3);
    FieldListsHaveNoRepeats();
    OverridesRead(LESSON_FIELDS, l.pending, k.pending);
    LessonColumnsRead(a, l, b, k);
  }

  lemma AddedAt(ms: seq<Json.Member>, ns: seq<Json.Member>, i: nat, mark: Mark, live: Fields, live': Fields, f: Field)
    requires Json.DistinctKeys(ms) && Json.DistinctKeys(ns)
    requires Json.MeaningMembers(ms) == Json.MeaningMembers(ns)
    requires i < |ms| && i < |ns| && ms[i].key == ns[i].key
    requires ms[i].value == AddedColumn(mark, live, f) && ns[i].value == AddedColumn(mark, live', f)
    ensures mark == Added ==> Get(live, f) == Get(live', f)
  {
    SameMember(ms, ns, i);
    AddedColumnRead(mark, live, live', f);
  }

  lemma LengthAt(ms: seq<Json.Member>, ns: seq<Json.Member>, i: nat, mark: Mark, live: Fields, live': Fields)
    requires Json.DistinctKeys(ms) && Json.DistinctKeys(ns)
    requires Json.MeaningMembers(ms) == Json.MeaningMembers(ns)
    requires i < |ms| && i < |ns| && ms[i].key == ns[i].key
    requires ms[i].value == AddedLength(mark, live) && ns[i].value == AddedLength(mark, live')
    ensures mark == Added ==> Get(live, VideoDuration) == Get(live', VideoDuration)
  {
    SameMember(ms, ns, i);
    if mark == Added && Get(live, VideoDuration) != Null {
      ValuesRead(Get(live, VideoDuration), Get(live', VideoDuration));
    }
  }

  lemma LessonColumnsRead(a: Id, l: Lesson, b: Id, k: Lesson)
    requires l.mark == k.mark
    requires Json.MeaningMembers(LessonEntry(a, l).members) == Json.MeaningMembers(LessonEntry(b, k).members)
    requires Json.DistinctKeys(LessonEntry(a, l).members) && Json.DistinctKeys(LessonEntry(b, k).members)
    ensures l.mark == Added ==> forall f :: f in LESSON_FIELDS ==> Get(l.live, f) == Get(k.live, f)
  {
    hide Json.MeaningMembers, Json.DistinctKeys, AddedColumn, AddedLength, PendingJson, IdJson, MarkJson;
    var ms, ns := LessonEntry(a, l).members, LessonEntry(b, k).members;
    AddedAt(ms, ns, 4, l.mark, l.live, k.live, Title);
    AddedAt(ms, ns, 5, l.mark, l.live, k.live, Summary);
    AddedAt(ms, ns, 6, l.mark, l.live, k.live, Duration);
    AddedAt(ms, ns, 7, l.mark, l.live, k.live, VideoKey);
    LengthAt(ms, ns, 8, l.mark, l.live, k.live);
  }

  // ---- Whole states ---------------------------------------------------------

  lemma ItemsMeanTheSame(xs: seq<Json.Json>, ys: seq<Json.Json>, i: nat)
    requires Json.MeaningItems(xs) == Json.MeaningItems(ys) && i < |xs|
    ensures |xs| == |ys| && Json.Meaning(xs[i]) == Json.Meaning(ys[i])
  {
    assert |xs| == |Json.MeaningItems(xs)| == |ys|;
    assert Json.MeaningItems(xs)[i] == Json.MeaningItems(ys)[i];
  }

  predicate SameSectionStaging(r: Rows, q: Rows, s: Id) {
    && s in r.sections && s in q.sections
    && SameStaging(SECTION_FIELDS, r.sections[s].mark, r.sections[s].live, r.sections[s].pending, q.sections[s].mark, q.sections[s].live, q.sections[s].pending)
  }

  predicate SameLessonStaging(r: Rows, q: Rows, l: Id) {
    && l in r.lessons && l in q.lessons
    && r.lessons[l].section == q.lessons[l].section
    && SameStaging(LESSON_FIELDS, r.lessons[l].mark, r.lessons[l].live, r.lessons[l].pending, q.lessons[l].mark, q.lessons[l].live, q.lessons[l].pending)
  }

  lemma SectionPairRead(r: Rows, a: Id, q: Rows, b: Id)
    requires WellFormed(r) && WellFormed(q) && a in r.sections && b in q.sections
    requires Json.Meaning(SectionEntry(a, r.sections[a])) == Json.Meaning(SectionEntry(b, q.sections[b]))
    ensures a == b && SameSectionStaging(r, q, a)
  {
    SectionEntryRead(a, r.sections[a], b, q.sections[b]);
  }

  lemma LessonPairRead(r: Rows, a: Id, q: Rows, b: Id)
    requires WellFormed(r) && WellFormed(q) && a in r.lessons && b in q.lessons
    requires Json.Meaning(LessonEntry(a, r.lessons[a])) == Json.Meaning(LessonEntry(b, q.lessons[b]))
    ensures a == b && SameLessonStaging(r, q, a)
  {
    LessonEntryRead(a, r.lessons[a], b, q.lessons[b]);
  }

  lemma SectionEntriesRead(r: Rows, a: seq<Id>, q: Rows, b: seq<Id>)
    requires WellFormed(r) && WellFormed(q)
    requires (forall s :: s in a ==> s in r.sections) && (forall s :: s in b ==> s in q.sections)
    requires Json.MeaningItems(SectionEntries(a, r)) == Json.MeaningItems(SectionEntries(b, q))
    ensures a == b && forall s :: s in a ==> SameSectionStaging(r, q, s)
  {
    var xs, ys := SectionEntries(a, r), SectionEntries(b, q);
    assert |xs| == |Json.MeaningItems(xs)| == |Json.MeaningItems(ys)| == |ys|;
    forall i | 0 <= i < |a| ensures a[i] == b[i] && SameSectionStaging(r, q, a[i]) {
      ItemsMeanTheSame(xs, ys, i);
      SectionPairRead(r, a[i], q, b[i]);
    }
  }

  lemma SectionsJsonList(r: Rows)
    ensures forall s :: s in Listed(HashedSections(r), ById) <==> s in HashedSections(r)
    ensures forall s :: s in HashedSections(r) ==> s in r.sections
    ensures Json.Meaning(SectionsJson(r)) == Json.VArr(Json.MeaningItems(SectionEntries(Listed(HashedSections(r), ById), r)))
  {
    ListedElements(HashedSections(r), ById);
  }

  lemma SectionsRead(r: Rows, q: Rows)
    requires WellFormed(r) && WellFormed(q)
    requires Json.Meaning(SectionsJson(r)) == Json.Meaning(SectionsJson(q))
    ensures HashedSections(r) == HashedSections(q)
    ensures forall s :: s in HashedSections(r) ==> SameSectionStaging(r, q, s)
  {
    hide SectionsJson, Listed, SectionEntries, Json.Meaning, Json.MeaningItems, HashedSections, WellFormed, SameSectionStaging;
    SectionsJsonList(r);
    SectionsJsonList(q);
    SectionEntriesRead(r, Listed(HashedSections(r), ById), q, Listed(HashedSections(q), ById));
    var a, b := HashedSections(r), HashedSections(q);
    assert forall s :: s in a <==> s in b;
  }

  lemma LessonEntriesRead(r: Rows, a: seq<Id>, q: Rows, b: seq<Id>)
    requires WellFormed(r) && WellFormed(q)
    requires (forall l :: l in a ==> l in r.lessons) && (forall l :: l in b ==> l in q.lessons)
    requires Json.MeaningItems(LessonEntries(a, r)) == Json.MeaningItems(LessonEntries(b, q))
    ensures a == b && forall l :: l in a ==> SameLessonStaging(r, q, l)
  {
    var xs, ys := LessonEntries(a, r), LessonEntries(b, q);
    assert |xs| == |Json.MeaningItems(xs)| == |Json.MeaningItems(ys)| == |ys|;
    forall i | 0 <= i < |a| ensures a[i] == b[i] && SameLessonStaging(r, q, a[i]) {
      ItemsMeanTheSame(xs, ys, i);
      LessonPairRead(r, a[i], q, b[i]);
    }
  }

  lemma LessonsJsonList(r: Rows)
    ensures forall l :: l in Listed(HashedLessons(r), ById) <==> l in HashedLessons(r)
    ensures forall l :: l in HashedLessons(r) ==> l in r.lessons
    ensures Json.Meaning(LessonsJson(r)) == Json.VArr(Json.MeaningItems(LessonEntries(Listed(HashedLessons(r), ById), r)))
  {
    ListedElements(HashedLessons(r), ById);
  }

  lemma LessonsRead(r: Rows, q: Rows)
    requires WellFormed(r) && WellFormed(q)
    requires Json.Meaning(LessonsJson(r)) == Json.Meaning(LessonsJson(q))
    ensures HashedLessons(r) == HashedLessons(q)
    ensures forall l :: l in HashedLessons(r) ==> SameLessonStaging(r, q, l)
  {
    hide LessonsJson, Listed, LessonEntries, Json.Meaning, Json.MeaningItems, HashedLessons, WellFormed, SameLessonStaging;
    LessonsJsonList(r);
    LessonsJsonList(q);
    LessonEntriesRead(r, Listed(HashedLessons(r), ById), q, Listed(HashedLessons(q), ById));
    var a, b := HashedLessons(r), HashedLessons(q);
    assert forall l :: l in a <==> l in b;
  }

  lemma NoteEntryWellFormed(title: string, chunks: seq<string>)
    ensures Json.WellFormed(NoteEntry(title, chunks))
  {
    NoteSlots(title, chunks);
    Ascending(NoteEntry(title, chunks).members);
  }

  lemma NoteEntryRead(t: string, c: seq<string>, u: string, d: seq<string>)
    requires Json.Meaning(NoteEntry(t, c)) == Json.Meaning(NoteEntry(u, d))
    ensures t == u && |c| == |d| && TotalLength(c) == TotalLength(d)
  {
    var ms, ns := NoteEntry(t, c).members, NoteEntry(u, d).members;
    NoteEntryWellFormed(t, c);
    NoteEntryWellFormed(u, d);
    SameMember(ms, ns, 0);
    SameMember(ms, ns, 1);
    SameMember(ms, ns, 2);
    hide Json.Decimal;
    Json.DecimalRead(TotalLength(c), TotalLength(d));
    Json.DecimalRead(|c|, |d|);
  }

  predicate SameNoteSize(r: Rows, q: Rows, t: string) {
    && t in r.stagedNotes && t in q.stagedNotes
    && |r.stagedNotes[t]| == |q.stagedNotes[t]| && TotalLength(r.stagedNotes[t]) == TotalLength(q.stagedNotes[t])
  }

  lemma NoteEntriesRead(r: Rows, a: seq<string>, q: Rows, b: seq<string>)
    requires (forall t :: t in a ==> t in r.stagedNotes) && (forall t :: t in b ==> t in q.stagedNotes)
    requires Json.MeaningItems(NoteEntries(a, r.stagedNotes)) == Json.MeaningItems(NoteEntries(b, q.stagedNotes))
    ensures a == b && forall t :: t in a ==> SameNoteSize(r, q, t)
  {
    var xs, ys := NoteEntries(a, r.stagedNotes), NoteEntries(b, q.stagedNotes);
    assert |xs| == |Json.MeaningItems(xs)| == |Json.MeaningItems(ys)| == |ys|;
    forall i | 0 <= i < |a| ensures a[i] == b[i] && SameNoteSize(r, q, a[i]) {
      ItemsMeanTheSame(xs, ys, i);
      assert a[i] in a && b[i] in b;
      NoteEntryRead(a[i], r.stagedNotes[a[i]], b[i], q.stagedNotes[b[i]]);
    }
  }

  lemma NotesJsonList(r: Rows)
    ensures forall t :: t in Alphabetical(r.stagedNotes.Keys) <==> t in r.stagedNotes
    ensures Json.Meaning(NotesJson(r)) == Json.VArr(Json.MeaningItems(NoteEntries(Alphabetical(r.stagedNotes.Keys), r.stagedNotes)))
  {
    AlphabeticalElements(r.stagedNotes.Keys);
  }

  lemma NotesRead(r: Rows, q: Rows)
    requires Json.Meaning(NotesJson(r)) == Json.Meaning(NotesJson(q))
    ensures forall t :: t in r.stagedNotes <==> t in q.stagedNotes
    ensures forall t :: t in r.stagedNotes ==> SameNoteSize(r, q, t)
  {
    var a, b := Alphabetical(r.stagedNotes.Keys), Alphabetical(q.stagedNotes.Keys);
    hide NotesJson, Alphabetical, NoteEntries, Json.Meaning, Json.MeaningItems, SameNoteSize;
    NotesJsonList(r);
    NotesJsonList(q);
    NoteEntriesRead(r, a, q, b);
  }

  lemma SectionsWellFormed(r: Rows)
    ensures Json.WellFormed(SectionsJson(r))
  {
    ListedElements(HashedSections(r), ById);
    var ids := Listed(HashedSections(r), ById);
    forall i | 0 <= i < |ids| ensures Json.WellFormed(SectionEntries(ids, r)[i]) {
      assert ids[i] in ids;
      SectionEntryWellFormed(ids[i], r.sections[ids[i]]);
    }
  }

  lemma LessonsWellFormed(r: Rows)
    ensures Json.WellFormed(LessonsJson(r))
  {
    ListedElements(HashedLessons(r), ById);
    var ids := Listed(HashedLessons(r), ById);
    forall i | 0 <= i < |ids| ensures Json.WellFormed(LessonEntries(ids, r)[i]) {
      assert ids[i] in ids;
      LessonEntryWellFormed(ids[i], r.lessons[ids[i]]);
    }
  }

  lemma NotesWellFormed(r: Rows)
    ensures Json.WellFormed(NotesJson(r))
  {
    AlphabeticalElements(r.stagedNotes.Keys);
    var titles := Alphabetical(r.stagedNotes.Keys);
    forall i | 0 <= i < |titles| ensures Json.WellFormed(NoteEntries(titles, r.stagedNotes)[i]) {
      assert titles[i] in titles;
      NoteEntryWellFormed(titles[i], r.stagedNotes[titles[i]]);
    }
  }

  lemma ContentWellFormed(r: Rows, assessments: seq<string>)
    ensures Json.WellFormed(Json.Obj(ContentMembers(r, assessments)))
    ensures Json.DistinctKeys(ContentMembers(r, assessments))
  {
    FieldListsHaveNoRepeats();
    PendingWellFormed(COURSE_FIELDS, r.pending);
    SectionsWellFormed(r);
    LessonsWellFormed(r);
    NotesWellFormed(r);
    ContentSlots(r, assessments);
    Ascending(ContentMembers(r, assessments));
  }

  /** Everything staged that the hash fixes. */
  ghost predicate SameStagedState(r: Rows, q: Rows) {
    && Overrides(r.pending) == Overrides(q.pending)
    && HashedSections(r) == HashedSections(q)
    && (forall s :: s in HashedSections(r) ==> SameSectionStaging(r, q, s))
    && HashedLessons(r) == HashedLessons(q)
    && (forall l :: l in HashedLessons(r) ==> SameLessonStaging(r, q, l))
    && (forall t :: t in r.stagedNotes <==> t in q.stagedNotes)
    && (forall t :: t in r.stagedNotes ==> SameNoteSize(r, q, t))
  }

  lemma PartsRead(r: Rows, a: seq<string>, q: Rows, b: seq<string>)
    requires ContentHashOf(r, a) == ContentHashOf(q, b)
    ensures Json.Meaning(PendingJson(COURSE_FIELDS, r.pending)) == Json.Meaning(PendingJson(COURSE_FIELDS, q.pending))
    ensures Json.Meaning(SectionsJson(r)) == Json.Meaning(SectionsJson(q))
    ensures Json.Meaning(LessonsJson(r)) == Json.Meaning(LessonsJson(q))
    ensures Json.Meaning(NotesJson(r)) == Json.Meaning(NotesJson(q))
    ensures AssessmentsJson(a).Undefined? <==> AssessmentsJson(b).Undefined?
    ensures Json.Meaning(AssessmentsJson(a)) == Json.Meaning(AssessmentsJson(b))
  {
    ContentWellFormed(r, a);
    ContentWellFormed(q, b);
    var ms, ns := ContentMembers(r, a), ContentMembers(q, b);
    Json.CanonicalTextIsMeaning(Json.Obj(ms), Json.Obj(ns));
    SameMember(ms, ns, 0);
    SameMember(ms, ns, 1);
    SameMember(ms, ns, 2);
    SameMember(ms, ns, 3);
    SameMember(ms, ns, 4);
  }

  /** Equal hashes come from equal staged values and the same set of assessments. */
  lemma HashFixesStaging(r: Rows, a: seq<string>, q: Rows, b: seq<string>)
    requires WellFormed(r) && WellFormed(q)
    requires ContentHashOf(r, a) == ContentHashOf(q, b)
    ensures SameStagedState(r, q)
    ensures forall x :: x in a <==> x in b
  {
    PartsRead(r, a, q, b);
    FieldListsHaveNoRepeats();
    OverridesRead(COURSE_FIELDS, r.pending, q.pending);
    SectionsRead(r, q);
    LessonsRead(r, q);
    NotesRead(r, q);
    AssessmentsRead(a, b);
  }

  lemma TextsRead(xs: seq<string>, ys: seq<string>)
    requires Json.MeaningItems(Texts(xs)) == Json.MeaningItems(Texts(ys))
    ensures xs == ys
  {
    assert |xs| == |Json.MeaningItems(Texts(xs))| == |Json.MeaningItems(Texts(ys))| == |ys|;
    forall i | 0 <= i < |xs| ensures xs[i] == ys[i] {
      ItemsMeanTheSame(Texts(xs), Texts(ys), i);
    }
  }

  lemma AssessmentsRead(a: seq<string>, b: seq<string>)
    requires AssessmentsJson(a).Undefined? <==> AssessmentsJson(b).Undefined?
    requires Json.Meaning(AssessmentsJson(a)) == Json.Meaning(AssessmentsJson(b))
    ensures forall x :: x in a <==> x in b
  {
    var s, t := set x | x in a, set x | x in b;
    AlphabeticalElements(s);
    AlphabeticalElements(t);
    hide Texts, Json.MeaningItems, Alphabetical;
    if a != [] {
      TextsRead(Alphabetical(s), Alphabetical(t));
      assert forall x :: x in a <==> x in s;
      assert forall x :: x in b <==> x in t;
    }
  }

  // ---- Over the same live rows ----------------------------------------------

  /** Rows known by the same id stand in the same place. */
  ghost predicate SamePlaces(r: Rows, q: Rows) {
    && (forall s :: s in r.sections && s in q.sections ==> r.sections[s].order == q.sections[s].order)
    && (forall l :: l in r.lessons && l in q.lessons ==>
          r.lessons[l].order == q.lessons[l].order && r.lessons[l].section == q.lessons[l].section)
  }

  lemma BaseSection(r: Rows, q: Rows, s: Id)
    requires Base(r) == Base(q) && SectionIsLive(r, s)
    ensures SectionIsLive(q, s) && r.sections[s].live == q.sections[s].live && r.sections[s].order == q.sections[s].order
  {
    assert s in Base(r).sections && s in Base(q).sections;
    assert ResetSection(r.sections[s]) == Base(r).sections[s] == ResetSection(q.sections[s]);
  }

  lemma BaseLesson(r: Rows, q: Rows, l: Id)
    requires Base(r) == Base(q) && Survives(r, l)
    ensures Survives(q, l) && r.lessons[l].live == q.lessons[l].live && r.lessons[l].order == q.lessons[l].order && r.lessons[l].section == q.lessons[l].section
  {
    assert l in Base(r).lessons && l in Base(q).lessons;
    assert ResetLesson(r.lessons[l]) == Base(r).lessons[l] == ResetLesson(q.lessons[l]);
  }

  lemma SameFields(fields: seq<Field>, live: Fields, p: Option<Fields>, live': Fields, p': Option<Fields>)
    requires Covers(fields, live, p) && Covers(fields, live', p')
    requires forall f :: f in fields ==> Get(live, f) == Get(live', f)
    ensures live == live'
  {
    forall f ensures f in live <==> f in live'
      ensures f in live ==> live[f] == live'[f]
    {
      if f in fields { assert Get(live, f) == Get(live', f); }
    }
  }

  /** A section's part in the working copy, from the staged values and the live rows. */
  lemma WorkingSectionFixed(r: Rows, q: Rows, s: Id)
    requires WellFormed(r) && WellFormed(q) && Base(r) == Base(q) && SamePlaces(r, q) && SameStagedState(r, q)
    requires s in r.sections
    ensures s in q.sections && r.sections[s].mark == q.sections[s].mark && WorkingSection(r.sections[s]) == WorkingSection(q.sections[s])
  {
    var row := r.sections[s];
    if s in HashedSections(r) {
      assert s in HashedSections(q);
      if row.mark == Added {
        SameFields(SECTION_FIELDS, row.live, row.pending, q.sections[s].live, q.sections[s].pending);
      } else {
        BaseSection(r, q, s);
      }
    } else {
      BaseSection(r, q, s);
      assert s !in HashedSections(q);
    }
  }

  lemma WorkingLessonFixed(r: Rows, q: Rows, l: Id)
    requires WellFormed(r) && WellFormed(q) && Base(r) == Base(q) && SamePlaces(r, q) && SameStagedState(r, q)
    requires Tidy(r)
    requires l in r.lessons
    ensures l in q.lessons && r.lessons[l].mark == q.lessons[l].mark && WorkingLesson(r.lessons[l]) == WorkingLesson(q.lessons[l])
  {
    var row := r.lessons[l];
    assert row.section in r.sections;
    if l in HashedLessons(r) {
      assert l in HashedLessons(q);
      if row.mark == Added {
        SameFields(LESSON_FIELDS, row.live, row.pending, q.lessons[l].live, q.lessons[l].pending);
      } else {
        BaseLesson(r, q, l);
      }
    } else {
      BaseLesson(r, q, l);
      assert l !in HashedLessons(q);
    }
  }

  lemma SameStagedStateSymmetric(r: Rows, q: Rows)
    requires SameStagedState(r, q)
    ensures SameStagedState(q, r)
  {
  }

  /** Equal hashes over the same live rows: an apply publishes the same course. */
  lemma HashFixesOutcome(r: Rows, a: seq<string>, q: Rows, b: seq<string>)
    requires WellFormed(r) && WellFormed(q) && Tidy(r) && Tidy(q)
    requires Base(r) == Base(q) && SamePlaces(r, q)
    requires ContentHashOf(r, a) == ContentHashOf(q, b)
    ensures WorkingContent(r) == WorkingContent(q)
  {
    HashFixesStaging(r, a, q, b);
    SameStagedStateSymmetric(r, q);
    SectionsFixed(r, q);
    SectionsFixed(q, r);
    LessonsFixed(r, q);
    LessonsFixed(q, r);
    SameWorkingTree(r, q);
    assert r.course == Base(r).course == Base(q).course == q.course;
  }

  lemma SectionsFixed(r: Rows, q: Rows)
    requires WellFormed(r) && WellFormed(q) && Base(r) == Base(q) && SamePlaces(r, q) && SameStagedState(r, q)
    ensures forall s | s in r.sections ::
      s in q.sections && r.sections[s].mark == q.sections[s].mark && WorkingSection(r.sections[s]) == WorkingSection(q.sections[s])
  {
    forall s | s in r.sections
      ensures s in q.sections && r.sections[s].mark == q.sections[s].mark && WorkingSection(r.sections[s]) == WorkingSection(q.sections[s])
    {
      WorkingSectionFixed(r, q, s);
    }
  }

  lemma LessonsFixed(r: Rows, q: Rows)
    requires WellFormed(r) && WellFormed(q) && Base(r) == Base(q) && SamePlaces(r, q) && SameStagedState(r, q)
    requires Tidy(r)
    ensures forall l | l in r.lessons ::
      l in q.lessons && r.lessons[l].mark == q.lessons[l].mark && WorkingLesson(r.lessons[l]) == WorkingLesson(q.lessons[l])
  {
    forall l | l in r.lessons
      ensures l in q.lessons && r.lessons[l].mark == q.lessons[l].mark && WorkingLesson(r.lessons[l]) == WorkingLesson(q.lessons[l])
    {
      WorkingLessonFixed(r, q, l);
    }
  }

  lemma SameWorkingTree(r: Rows, q: Rows)
    requires forall s :: s in r.sections <==> s in q.sections
    requires forall l :: l in r.lessons <==> l in q.lessons
    requires forall s :: s in r.sections ==> r.sections[s].mark == q.sections[s].mark && WorkingSection(r.sections[s]) == WorkingSection(q.sections[s])
    requires forall l :: l in r.lessons ==> r.lessons[l].mark == q.lessons[l].mark && WorkingLesson(r.lessons[l]) == WorkingLesson(q.lessons[l])
    ensures WorkingContent(r).sections == WorkingContent(q).sections && WorkingContent(r).lessons == WorkingContent(q).lessons
  {
    hide Merged;
    forall l | l in r.lessons ensures LessonStays(r, l) <==> LessonStays(q, l) {
      assert WorkingLesson(r.lessons[l]).section == WorkingLesson(q.lessons[l]).section;
    }
  }
}
