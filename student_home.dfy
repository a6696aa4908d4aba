/**
 * The student view (src/components/StudentHome.tsx): joining a classroom by
 * code, loading the joined classrooms and a classroom's activities from the
 * key-value store, and the display lookups.
 */
module StudentHome {
  import opened Wrappers
  import opened JsString
  import opened Records
  import opened LocalStorage
  import opened VarkQuestions

  /** Keys under which teachers' classroom lists are stored: `classrooms_<teacherId>`. */
  const ClassroomsPrefix: string := "classrooms_"
  /** Keys under which a classroom's activities are stored: `activities_<classroomId>`. */
  const ActivitiesPrefix: string := "activities_"
  /** A join code has this many characters. */
  const CodeLength: nat := 6

  /** The key of a student's own list of joined classrooms. */
  function StudentClassroomsKey(userId: string): string
  {
    "student_classrooms_" + userId
  }

  /** `classroomCode.trim().toUpperCase()`. */
  function NormalizeCode(input: string): string
  {
    ToUpper(Trim(input))
  }

  /** Normalising twice changes nothing more. */
  lemma NormalizeIdempotent(input: string)
    ensures NormalizeCode(NormalizeCode(input)) == NormalizeCode(input)
  {
    var t := Trim(input);
    var n := ToUpper(t);
    TrimSpec(input);
    if n != [] {
      assert n[0] == UpperChar(t[0]);
      assert n[|n| - 1] == UpperChar(t[|t| - 1]);
    }
    TrimKeepsTrimmed(n);
    ToUpperIdempotent(t);
  }

  lemma TrimStartExample()
    ensures TrimStart(" 7k3mxq ") == "7k3mxq "
  {
    var typed := " 7k3mxq ";
    assert IsWhitespace(typed[0]) && !IsWhitespace(typed[1]);
    assert typed[1..] == "7k3mxq ";
  }

  lemma TrimEndExample()
    ensures TrimEnd("7k3mxq ") == "7k3mxq"
  {
    var t := "7k3mxq ";
    assert IsWhitespace(t[6]) && !IsWhitespace(t[5]);
    assert t[..6] == "7k3mxq";
  }

  lemma TrimExample()
    ensures Trim(" 7k3mxq ") == "7k3mxq"
  {
    TrimStartExample();
    TrimEndExample();
  }

  lemma UpperExample()
    ensures ToUpper("7k3mxq") == "7K3MXQ"
  {
    var u := ToUpper("7k3mxq");
    assert u[0] == '7' && u[1] == 'K' && u[2] == '3' && u[3] == 'M' && u[4] == 'X' && u[5] == 'Q';
  }

  /** Surrounding spaces and lower case do not matter: " 7k3mxq " is read as "7K3MXQ". */
  lemma NormalizeExample()
    ensures NormalizeCode(" 7k3mxq ") == "7K3MXQ"
  {
    TrimExample();
    UpperExample();
  }

  /** Why a join is refused. */
  datatype JoinError = EmptyCode | WrongLength | ClassroomNotFound | AlreadyJoined

  /** The message shown for each refusal. */
  function ErrorMessage(e: JoinError): string
  {
    match e
    case EmptyCode => "Digite um código da turma"
    case WrongLength => "O código deve ter 6 caracteres"
    case ClassroomNotFound => "Turma não encontrada. Verifique o código."
    case AlreadyJoined => "Você já está nesta turma."
  }

  /** `find(c => c.code === code)`: the first classroom of the list with that code. */
  function FindByCode(cs: seq<Classroom>, code: string): (r: Option<Classroom>)
    ensures r.None? <==> forall i :: 0 <= i < |cs| ==> cs[i].code != code
    ensures r.Some? ==> exists i :: 0 <= i < |cs| && cs[i] == r.value && r.value.code == code &&
                          forall j :: 0 <= j < i ==> cs[j].code != code
  {
    if cs == [] then None
    else if cs[0].code == code then Some(cs[0])
    else
      var r := FindByCode(cs[1..], code);
      assert r.Some? ==> exists i :: 0 <= i < |cs| && cs[i] == r.value && r.value.code == code &&
                           forall j :: 0 <= j < i ==> cs[j].code != code by {
        if r.Some? {
          var i :| 0 <= i < |cs[1..]| && cs[1..][i] == r.value && r.value.code == code &&
                   forall j :: 0 <= j < i ==> cs[1..][j].code != code;
          assert cs[i + 1] == r.value;
          forall j | 0 <= j < i + 1 ensures cs[j].code != code {
            if j > 0 { assert cs[j] == cs[1..][j - 1]; }
          }
        }
      }
      r
  }

  /** `classrooms.some(c => c.id === id)`. */
  function ContainsId(cs: seq<Classroom>, id: string): (r: bool)
    ensures r <==> exists i :: 0 <= i < |cs| && cs[i].id == id
  {
    if cs == [] then false
    else if cs[0].id == id then true
    else
      assert forall i :: 1 <= i < |cs| ==> cs[i] == cs[1..][i - 1];
      ContainsId(cs[1..], id)
  }

  /** The entry is a teacher's classroom list holding a classroom with this code. */
  predicate HoldsCode(e: Entry, code: string)
  {
    StartsWith(e.key, ClassroomsPrefix) && FindByCode(ClassroomsIn(e.value), code).Some?
  }

  /** A classroom found by the scan, with the teacher id taken from its key. */
  datatype Found = Found(classroom: Classroom, teacherId: string)

  /**
   * The scan of handleJoinClassroom: the first `classrooms_` entry, in key
   * order, holding the code; the first such classroom in its list.
   */
  function FirstWithCode(store: Store, code: string): Option<Found>
  {
    if store == [] then None
    else if HoldsCode(store[0], code) then
      Some(Found(FindByCode(ClassroomsIn(store[0].value), code).value,
                 Replace(store[0].key, ClassroomsPrefix, "")))
    else FirstWithCode(store[1..], code)
  }

  /** What the scan finds, stated about the entry at `i`. */
  ghost predicate FoundAt(store: Store, code: string, i: int, f: Found)
  {
    0 <= i < |store| && HoldsCode(store[i], code) &&
    (forall j :: 0 <= j < i ==> !HoldsCode(store[j], code)) &&
    f.classroom == FindByCode(ClassroomsIn(store[i].value), code).value &&
    f.teacherId == store[i].key[|ClassroomsPrefix|..]
  }

  /**
   * The scan looks at every teacher's list: it fails exactly when no
   * `classrooms_` entry holds the code, and otherwise returns the classroom of
   * the first entry that does, with the key minus its prefix as teacher id.
   */
  lemma {:induction false} FirstWithCodeSpec(store: Store, code: string)
    ensures FirstWithCode(store, code).None? <==>
              forall i :: 0 <= i < |store| ==> !HoldsCode(store[i], code)
    ensures FirstWithCode(store, code).Some? ==>
              exists i :: FoundAt(store, code, i, FirstWithCode(store, code).value)
  {
    if store != [] {
      FirstWithCodeSpec(store[1..], code);
      var r := FirstWithCode(store, code);
      if HoldsCode(store[0], code) {
        ReplacePrefix(store[0].key, ClassroomsPrefix);
        assert FoundAt(store, code, 0, r.value);
      } else {
        assert forall i :: 1 <= i < |store| ==> store[i] == store[1..][i - 1];
        if r.Some? {
          var i :| FoundAt(store[1..], code, i, r.value);
          assert FoundAt(store, code, i + 1, r.value);
        }
      }
    }
  }

  /**
   * In a store with distinct keys, the list the scan reads at the entry it
   * stops at is what `getItem` returns for that entry's key.
   */
  lemma ScanReadsGetItem(store: Store, code: string)
    requires DistinctKeys(store)
    requires FirstWithCode(store, code).Some?
    ensures exists i :: FoundAt(store, code, i, FirstWithCode(store, code).value) &&
                        GetItem(store, store[i].key) == Some(store[i].value)
  {
    FirstWithCodeSpec(store, code);
    var i :| FoundAt(store, code, i, FirstWithCode(store, code).value);
    EntryIsGetItem(store, i);
  }

  /** Writing a key that is not a `classrooms_` key does not change what the scan finds. */
  lemma {:induction false} FirstWithCodeIgnoresOtherKeys(store: Store, key: string, v: Value, code: string)
    requires !StartsWith(key, ClassroomsPrefix)
    ensures FirstWithCode(SetItem(store, key, v), code) == FirstWithCode(store, code)
  {
    if store != [] && store[0].key != key {
      FirstWithCodeIgnoresOtherKeys(store[1..], key, v, code);
      assert SetItem(store, key, v)[1..] == SetItem(store[1..], key, v);
    } else if store != [] {
      assert SetItem(store, key, v)[1..] == store[1..];
    }
  }

  /**
   * The loop of handleJoinClassroom over the store's keys, stopping at the
   * first `classrooms_` entry whose list holds the code.
   */
  method FindClassroomByCode(store: Store, code: string) returns (found: Option<Classroom>, teacherId: string)
    ensures found.Some? <==> FirstWithCode(store, code).Some?
    ensures found.Some? ==> Found(found.value, teacherId) == FirstWithCode(store, code).value
    ensures found.None? ==> teacherId == ""
  {
    found, teacherId := None, "";
    var i := 0;
    while i < |store|
      invariant 0 <= i <= |store|
      invariant found == None && teacherId == ""
      invariant FirstWithCode(store, code) == FirstWithCode(store[i..], code)
    {
      assert store[i..][1..] == store[i + 1..];
      var key := store[i].key;
      if StartsWith(key, ClassroomsPrefix) {
        var id := Replace(key, ClassroomsPrefix, "");
        var classroom := FindByCode(ClassroomsIn(store[i].value), code);
        if classroom.Some? {
          found, teacherId := classroom, id;
          break;
        }
      }
      i := i + 1;
    }
  }

  /** The outcome of a join attempt. */
  datatype JoinOutcome = Joined(classroom: Classroom) | Rejected(error: JoinError)

  /** The classroom as the student keeps it: `original_teacher_id` is the teacher id, or absent when empty. */
  function WithTeacher(c: Classroom, teacherId: string): (r: Classroom)
    ensures r.originalTeacherId.None? <==> teacherId == ""
    ensures r.originalTeacherId.Some? ==> r.originalTeacherId.value == teacherId
    ensures r.(originalTeacherId := c.originalTeacherId) == c
  {
    c.(originalTeacherId := if teacherId == "" then None else Some(teacherId))
  }

  /** handleJoinClassroom as a function of the store, the student's list and the typed code. */
  function JoinResult(store: Store, classrooms: seq<Classroom>, input: string): JoinOutcome
  {
    var code := NormalizeCode(input);
    if code == "" then Rejected(EmptyCode)
    else if |code| != CodeLength then Rejected(WrongLength)
    else match FirstWithCode(store, code)
      case None => Rejected(ClassroomNotFound)
      case Some(f) =>
        if ContainsId(classrooms, f.classroom.id) then Rejected(AlreadyJoined)
        else Joined(WithTeacher(f.classroom, f.teacherId))
  }

  /** Each refusal happens exactly in its case, checked in the source's order. */
  lemma JoinRejections(store: Store, classrooms: seq<Classroom>, input: string)
    ensures var code := NormalizeCode(input);
            && (JoinResult(store, classrooms, input) == Rejected(EmptyCode) <==> code == "")
            && (JoinResult(store, classrooms, input) == Rejected(WrongLength) <==>
                  code != "" && |code| != CodeLength)
            && (JoinResult(store, classrooms, input) == Rejected(ClassroomNotFound) <==>
                  |code| == CodeLength && forall i :: 0 <= i < |store| ==> !HoldsCode(store[i], code))
            && (JoinResult(store, classrooms, input) == Rejected(AlreadyJoined) <==>
                  |code| == CodeLength && FirstWithCode(store, code).Some? &&
                  exists i :: 0 <= i < |classrooms| &&
                    classrooms[i].id == FirstWithCode(store, code).value.classroom.id)
  {
    var code := NormalizeCode(input);
    FirstWithCodeSpec(store, code);
    var r := JoinResult(store, classrooms, input);
    if code != "" && |code| == CodeLength && FirstWithCode(store, code).Some? {
      var f := FirstWithCode(store, code).value;
      assert r == if ContainsId(classrooms, f.classroom.id) then Rejected(AlreadyJoined)
                  else Joined(WithTeacher(f.classroom, f.teacherId));
    }
  }

  /**
   * A successful join returns the first classroom, across all teachers' lists,
   * whose code is the normalised input, marked with the teacher id of its key,
   * and one whose id the student does not hold yet.
   */
  lemma JoinedClassroom(store: Store, classrooms: seq<Classroom>, input: string)
    requires JoinResult(store, classrooms, input).Joined?
    ensures var c := JoinResult(store, classrooms, input).classroom;
            var code := NormalizeCode(input);
            && |code| == CodeLength && c.code == code
            && (exists i, f :: FoundAt(store, code, i, f) && c == WithTeacher(f.classroom, f.teacherId))
            && forall j :: 0 <= j < |classrooms| ==> classrooms[j].id != c.id
  {
    var code := NormalizeCode(input);
    FirstWithCodeSpec(store, code);
    var f := FirstWithCode(store, code).value;
    var i :| FoundAt(store, code, i, f);
    var cs := ClassroomsIn(store[i].value);
    var k :| 0 <= k < |cs| && cs[k] == f.classroom && f.classroom.code == code &&
             forall j :: 0 <= j < k ==> cs[j].code != code;
  }

  /** Classroom ids in the list are pairwise distinct. */
  ghost predicate DistinctIds(cs: seq<Classroom>)
  {
    forall i, j :: 0 <= i < j < |cs| ==> cs[i].id != cs[j].id
  }

  /** Joining never puts the same classroom id twice in the student's list. */
  lemma JoinKeepsIdsDistinct(store: Store, classrooms: seq<Classroom>, input: string)
    requires DistinctIds(classrooms)
    requires JoinResult(store, classrooms, input).Joined?
    ensures DistinctIds(classrooms + [JoinResult(store, classrooms, input).classroom])
  {
    JoinedClassroom(store, classrooms, input);
  }

  /**
   * Joining the same code again, after the join and its save, is refused as
   * already joined: the student holds the classroom once.
   */
  lemma JoinTwiceRefused(store: Store, classrooms: seq<Classroom>, input: string, userId: string)
    requires JoinResult(store, classrooms, input).Joined?
    ensures var updated := classrooms + [JoinResult(store, classrooms, input).classroom];
            var saved := SetItem(store, StudentClassroomsKey(userId), ClassroomList(updated));
            JoinResult(saved, updated, input) == Rejected(AlreadyJoined)
  {
    var code := NormalizeCode(input);
    var c := JoinResult(store, classrooms, input).classroom;
    var updated := classrooms + [c];
    var key := StudentClassroomsKey(userId);
    assert key[0] != ClassroomsPrefix[0];
    FirstWithCodeIgnoresOtherKeys(store, key, ClassroomList(updated), code);
    assert updated[|classrooms|].id == FirstWithCode(store, code).value.classroom.id;
  }

  lemma ExampleKeys()
    ensures StartsWith("classrooms_teacherA", ClassroomsPrefix)
    ensures StartsWith("classrooms_teacherB", ClassroomsPrefix)
    ensures Replace("classrooms_teacherB", ClassroomsPrefix, "") == "teacherB"
  {
    var key := "classrooms_teacherB";
    assert key[..|ClassroomsPrefix|] == ClassroomsPrefix;
    ReplacePrefix(key, ClassroomsPrefix);
    assert key[|ClassroomsPrefix|..] == "teacherB";
  }

  lemma CrossTeacherScan(c: Classroom)
    requires c.code == "7K3MXQ"
    ensures var store := [Entry("classrooms_teacherA", ActivityList([])),
                          Entry("classrooms_teacherB", ClassroomList([c]))];
            FirstWithCode(store, "7K3MXQ") == Some(Found(c, "teacherB"))
  {
    var store := [Entry("classrooms_teacherA", ActivityList([])),
                  Entry("classrooms_teacherB", ClassroomList([c]))];
    ExampleKeys();
    assert !HoldsCode(store[0], "7K3MXQ");
    var rest := store[1..];
    assert rest == [Entry("classrooms_teacherB", ClassroomList([c]))];
    assert HoldsCode(rest[0], "7K3MXQ");
  }

  /** A classroom stored under any teacher's key is found by its code typed in any case, with spaces. */
  lemma CrossTeacherExample(c: Classroom)
    requires c.code == "7K3MXQ"
    ensures var store := [Entry("classrooms_teacherA", ActivityList([])),
                          Entry("classrooms_teacherB", ClassroomList([c]))];
            JoinResult(store, [], " 7k3mxq ") == Joined(WithTeacher(c, "teacherB"))
  {
    NormalizeExample();
    CrossTeacherScan(c);
  }

  /**
   * The scan of loadClassroomActivities: the list under the first
   * `activities_` key whose rest is the classroom id, or nothing.
   */
  function FirstActivities(store: Store, classroomId: string): Option<seq<Activity>>
  {
    if store == [] then None
    else if StartsWith(store[0].key, ActivitiesPrefix) &&
            Replace(store[0].key, ActivitiesPrefix, "") == classroomId then
      Some(ActivitiesIn(store[0].value))
    else FirstActivities(store[1..], classroomId)
  }

  /** The scan reads the same list as a direct `getItem("activities_" + classroomId)`. */
  lemma {:induction false} FirstActivitiesIsGetItem(store: Store, classroomId: string)
    ensures FirstActivities(store, classroomId) ==
              match GetItem(store, ActivitiesPrefix + classroomId)
              case None => None
              case Some(v) => Some(ActivitiesIn(v))
  {
    if store != [] {
      StripPrefixIff(store[0].key, ActivitiesPrefix, classroomId);
      FirstActivitiesIsGetItem(store[1..], classroomId);
    }
  }

  /** The loop of loadClassroomActivities: the activities found, or the empty list. */
  method FindClassroomActivities(store: Store, classroomId: string) returns (found: seq<Activity>)
    ensures found == match FirstActivities(store, classroomId)
                     case None => []
                     case Some(list) => list
    ensures found == match GetItem(store, ActivitiesPrefix + classroomId)
                     case None => []
                     case Some(v) => ActivitiesIn(v)
  {
    FirstActivitiesIsGetItem(store, classroomId);
    found := [];
    var i := 0;
    while i < |store|
      invariant 0 <= i <= |store|
      invariant found == []
      invariant FirstActivities(store, classroomId) == FirstActivities(store[i..], classroomId)
    {
      assert store[i..][1..] == store[i + 1..];
      var key := store[i].key;
      if StartsWith(key, ActivitiesPrefix) {
        var activityClassroomId := Replace(key, ActivitiesPrefix, "");
        if activityClassroomId == classroomId {
          found := ActivitiesIn(store[i].value);
          break;
        }
      }
      i := i + 1;
    }
  }

  /**
   * The body of handleJoinClassroom's `try` block up to the update: normalise,
   * validate, scan, check membership; each `throw` becomes a refusal.
   */
  method TryJoin(store: Store, classrooms: seq<Classroom>, classroomCode: string) returns (outcome: JoinOutcome)
    ensures outcome == JoinResult(store, classrooms, classroomCode)
  {
    var formattedCode := NormalizeCode(classroomCode);
    if formattedCode == "" {
      return Rejected(EmptyCode);
    }
    if |formattedCode| != CodeLength {
      return Rejected(WrongLength);
    }
    var foundClassroom, foundTeacherId := FindClassroomByCode(store, formattedCode);
    if foundClassroom.None? {
      return Rejected(ClassroomNotFound);
    }
    var alreadyJoined := ContainsId(classrooms, foundClassroom.value.id);
    if alreadyJoined {
      return Rejected(AlreadyJoined);
    }
    outcome := Joined(WithTeacher(foundClassroom.value, foundTeacherId));
  }

  /** `!selectedClassroom`: no selection, or the empty id. */
  predicate NoSelection(selected: Option<string>)
  {
    selected.None? || selected.value == ""
  }

  /** The state of the StudentHome component, with the store it reads and writes. */
  class StudentHome {
    const userId: string
    var store: Store
    var classrooms: seq<Classroom>
    var activities: seq<Activity>
    var classroomCode: string
    var selectedClassroom: Option<string>
    var error: string
    var showJoinModal: bool

    /** The component's initial state over a given store. */
    constructor (userId: string, store: Store)
      ensures this.userId == userId && this.store == store
      ensures classrooms == [] && activities == [] && classroomCode == ""
      ensures selectedClassroom == None && error == "" && !showJoinModal
    {
      this.userId := userId;
      this.store := store;
      classrooms := [];
      activities := [];
      classroomCode := "";
      selectedClassroom := None;
      error := "";
      showJoinModal := false;
    }

    /**
     * loadStudentClassrooms: a saved list replaces the classrooms, and its
     * first classroom is selected when nothing is selected yet; without a
     * saved list nothing changes.
     */
    method LoadStudentClassrooms()
      modifies this
      ensures store == old(store) && activities == old(activities)
      ensures classroomCode == old(classroomCode) && error == old(error)
      ensures showJoinModal == old(showJoinModal)
      ensures GetItem(store, StudentClassroomsKey(userId)).None? ==>
                classrooms == old(classrooms) && selectedClassroom == old(selectedClassroom)
      ensures GetItem(store, StudentClassroomsKey(userId)).Some? ==>
                classrooms == ClassroomsIn(GetItem(store, StudentClassroomsKey(userId)).value) &&
                selectedClassroom ==
                  if |classrooms| > 0 && NoSelection(old(selectedClassroom))
                  then Some(classrooms[0].id) else old(selectedClassroom)
    {
      var saved := GetItem(store, StudentClassroomsKey(userId));
      if saved.Some? {
        var parsed := ClassroomsIn(saved.value);
        classrooms := parsed;
        if |parsed| > 0 && NoSelection(selectedClassroom) {
          selectedClassroom := Some(parsed[0].id);
        }
      }
    }

    /** loadClassroomActivities: the activities become those stored for the classroom. */
    method LoadClassroomActivities(classroomId: string)
      modifies this
      ensures activities == match GetItem(store, ActivitiesPrefix + classroomId)
                            case None => []
                            case Some(v) => ActivitiesIn(v)
      ensures store == old(store) && classrooms == old(classrooms)
      ensures classroomCode == old(classroomCode) && selectedClassroom == old(selectedClassroom)
      ensures error == old(error) && showJoinModal == old(showJoinModal)
    {
      activities := FindClassroomActivities(store, classroomId);
    }

    /**
     * handleJoinClassroom: on a refusal only the error message changes; on
     * success the classroom is appended, the list saved under the student's
     * key, the classroom selected, and the form closed and cleared.
     */
    method HandleJoinClassroom()
      modifies this
      ensures activities == old(activities)
      ensures var outcome := JoinResult(old(store), old(classrooms), old(classroomCode));
              outcome.Rejected? ==>
                && error == ErrorMessage(outcome.error)
                && store == old(store) && classrooms == old(classrooms)
                && selectedClassroom == old(selectedClassroom)
                && classroomCode == old(classroomCode) && showJoinModal == old(showJoinModal)
      ensures var outcome := JoinResult(old(store), old(classrooms), old(classroomCode));
              outcome.Joined? ==>
                && error == ""
                && classrooms == old(classrooms) + [outcome.classroom]
                && store == SetItem(old(store), StudentClassroomsKey(userId), ClassroomList(classrooms))
                && selectedClassroom == Some(outcome.classroom.id)
                && classroomCode == "" && !showJoinModal
    {
      error := "";
      var outcome := TryJoin(store, classrooms, classroomCode);
      match outcome
      case Rejected(e) =>
        error := ErrorMessage(e);
      case Joined(classroomWithTeacher) =>
        var updatedClassrooms := classrooms + [classroomWithTeacher];
        classrooms := updatedClassrooms;
        store := SetItem(store, StudentClassroomsKey(userId), ClassroomList(updatedClassrooms));
        selectedClassroom := Some(classroomWithTeacher.id);
        showJoinModal := false;
        classroomCode := "";
    }
  }

  /** The `getStyleInfo` record: a name, a description and study tips. */
  datatype StyleInfo = StyleInfo(name: string, description: string, tips: seq<string>)

  function InfoOf(st: Style): StyleInfo
  {
    match st
    case Visual => StyleInfo("Visual",
      "Você aprende melhor através de imagens, gráficos, diagramas e demonstrações visuais.",
      ["Use mapas mentais e esquemas coloridos", "Assista vídeos educativos",
       "Destaque informações importantes com cores", "Use diagramas e infográficos para estudar"])
    case Auditory => StyleInfo("Auditivo",
      "Você aprende melhor ouvindo explicações, conversas e discussões.",
      ["Grave áudios das suas anotações", "Participe de discussões em grupo",
       "Ouça podcasts educativos", "Explique o conteúdo em voz alta"])
    case Reading => StyleInfo("Leitura/Escrita",
      "Você aprende melhor lendo e escrevendo textos.",
      ["Faça resumos e anotações detalhadas", "Leia livros e artigos sobre o tema",
       "Reescreva informações com suas palavras", "Crie listas e glossários"])
    case Kinesthetic => StyleInfo("Cinestésico",
      "Você aprende melhor através da prática e experiências concretas.",
      ["Faça experimentos práticos", "Use simulações e jogos educativos",
       "Estude em diferentes ambientes", "Associe movimentos ao aprendizado"])
  }

  /**
   * The style whose record `styles[style] || styles.visual` picks: the tagged
   * style when the tag is known, visual otherwise.
   */
  function InfoStyle(style: string): (st: Style)
    ensures ParseStyle(style).Some? ==> st == ParseStyle(style).value
    ensures st != Visual ==> StyleName(st) == style
    ensures st == Visual <==> style == StyleName(Visual) || ParseStyle(style).None?
  {
    match ParseStyle(style)
    case Some(known) => known
    case None => Visual
  }

  /** getStyleInfo: the record of `InfoStyle(style)`. */
  function StyleInfoFor(style: string): StyleInfo
  {
    InfoOf(InfoStyle(style))
  }

  /** The badge classes of each style in the student view. */
  function ColorOf(st: Style): string
  {
    match st
    case Visual => "bg-blue-100 text-blue-800 border-blue-200"
    case Auditory => "bg-green-100 text-green-800 border-green-200"
    case Reading => "bg-yellow-100 text-yellow-800 border-yellow-200"
    case Kinesthetic => "bg-red-100 text-red-800 border-red-200"
  }

  const DefaultColor: string := "bg-gray-100 text-gray-800 border-gray-200"

  /** `colors[style] || gray`: an unknown tag gets the gray default. */
  function StyleColor(style: string): (r: string)
    ensures ParseStyle(style).Some? ==> r == ColorOf(ParseStyle(style).value)
    ensures ParseStyle(style).None? ==> r == DefaultColor
    ensures r == DefaultColor <==> ParseStyle(style).None?
  {
    match ParseStyle(style)
    case Some(st) => ColorOf(st)
    case None => DefaultColor
  }

  /** The MIME types with a label of their own. */
  const FileTypeLabels: map<string, string> := map[
    "application/pdf" := "PDF",
    "application/msword" := "Word",
    "application/vnd.openxmlformats-officedocument.wordprocessingml.document" := "Word",
    "text/plain" := "Texto",
    "image/jpeg" := "Imagem JPEG",
    "image/png" := "Imagem PNG",
    "video/mp4" := "Vídeo MP4",
    "audio/mpeg" := "Áudio MP3",
    "application/zip" := "Arquivo ZIP"
  ]

  const GenericFileLabel: string := "Arquivo"

  /** getFileTypeLabel: a missing, empty or unknown type is a generic "Arquivo". */
  function FileTypeLabel(fileType: Option<string>): (r: string)
    ensures fileType.Some? && fileType.value in FileTypeLabels ==> r == FileTypeLabels[fileType.value]
    ensures r == GenericFileLabel <==> fileType.None? || fileType.value !in FileTypeLabels
  {
    if fileType.None? || fileType.value == "" then GenericFileLabel
    else if fileType.value in FileTypeLabels then FileTypeLabels[fileType.value]
    else GenericFileLabel
  }
}
