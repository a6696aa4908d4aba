/**
 * The teacher view (src/components/TeacherHome.tsx): join-code generation,
 * the per-style activity counters, the guard of activity creation and the
 * style colours.
 */
module TeacherHome {
  import opened Wrappers
  import opened VarkQuestions
  import opened Records

  /** The 32 code symbols: capitals and digits without the look-alikes 0, O, 1 and I. */
  const Alphabet: string := "ABCDEFGHJKLMNPQRSTUVWXYZ23456789"

  /** A generated code has this many characters. */
  const CodeLength: nat := 6

  /** A capital letter other than I and O, or a digit from 2 to 9. */
  predicate Unambiguous(c: char)
  {
    ('A' <= c <= 'Z' && c != 'I' && c != 'O') || ('2' <= c <= '9')
  }

  /** The alphabet has 32 symbols, all unambiguous. */
  lemma AlphabetFacts()
    ensures |Alphabet| == 32
    ensures forall i :: 0 <= i < |Alphabet| ==> Unambiguous(Alphabet[i])
  {
  }

  /** No symbol appears twice, so each draw names a different symbol. */
  lemma AlphabetDistinct()
    ensures forall i, j :: 0 <= i < j < |Alphabet| ==> Alphabet[i] != Alphabet[j]
  {
    forall i | 0 <= i < |Alphabet|
      ensures Rank(Alphabet[i]) == i
    {
    }
  }

  /** The position of an alphabet symbol, computed from its character code. */
  function Rank(c: char): int
  {
    if 'A' <= c <= 'H' then c as int - 'A' as int
    else if 'J' <= c <= 'N' then c as int - 'A' as int - 1
    else if 'P' <= c <= 'Z' then c as int - 'A' as int - 2
    else c as int - '2' as int + 24
  }

  /** A join code: six symbols of the alphabet. */
  ghost predicate IsJoinCode(code: string)
  {
    |code| == CodeLength && forall i :: 0 <= i < |code| ==> code[i] in Alphabet
  }

  /** One draw of `Math.floor(Math.random() * chars.length)`: an index below 32. */
  type Draw = i: nat | i < 32

  /** The code spelled by a sequence of draws. */
  function CodeOf(draws: seq<Draw>): (code: string)
    ensures |code| == |draws|
    ensures forall i :: 0 <= i < |draws| ==> code[i] == Alphabet[draws[i]]
  {
    if draws == [] then [] else CodeOf(draws[..|draws| - 1]) + [Alphabet[draws[|draws| - 1]]]
  }

  /**
   * generateCode, with the six random draws given: appends `chars.charAt(draw)`
   * six times.
   */
  method GenerateCode(draws: seq<Draw>) returns (code: string)
    requires |draws| == CodeLength
    ensures code == CodeOf(draws)
    ensures IsJoinCode(code)
    ensures forall i :: 0 <= i < |code| ==> Unambiguous(code[i])
    ensures '0' !in code && 'O' !in code && '1' !in code && 'I' !in code
  {
    AlphabetFacts();
    code := "";
    var i := 0;
    while i < CodeLength
      invariant 0 <= i <= CodeLength
      invariant code == CodeOf(draws[..i])
    {
      assert draws[..i + 1][..i] == draws[..i];
      code := code + [Alphabet[draws[i]]];
      i := i + 1;
    }
    assert draws[..i] == draws;
  }

  /** Position of a symbol in the alphabet. */
  function IndexIn(s: string, c: char): (k: nat)
    requires c in s
    ensures k < |s| && s[k] == c
  {
    if s[0] == c then 0 else 1 + IndexIn(s[1..], c)
  }

  /** Every join code can be generated: the draws determine the code and reach them all. */
  lemma EveryJoinCodeGenerated(code: string)
    requires IsJoinCode(code)
    ensures exists draws: seq<Draw> :: |draws| == CodeLength && CodeOf(draws) == code
  {
    assert |Alphabet| == 32;
    var draws: seq<Draw> := seq(|code|, i requires 0 <= i < |code| => IndexIn(Alphabet, code[i]));
    assert CodeOf(draws) == code;
  }

  /**
   * `activities.filter(a => a.learning_style === style)`. The teacher view's
   * activity rows (the backend's `Activity` record, with `learning_style` a
   * plain string and no file name or type) are modelled by `Records.Activity`;
   * the counters read only `learningStyle`, which both records carry.
   */
  function WithStyle(activities: seq<Activity>, style: string): (r: seq<Activity>)
    ensures |r| <= |activities|
    ensures forall a :: a in r <==> a in activities && a.learningStyle == style
  {
    if activities == [] then []
    else (if activities[0].learningStyle == style then [activities[0]] else []) +
         WithStyle(activities[1..], style)
  }

  /** The counter shown for one style: the number of activities tagged with it. */
  function StyleCount(activities: seq<Activity>, style: string): nat
  {
    |WithStyle(activities, style)|
  }

  /** The counters in display order: visual, auditory, reading, kinesthetic. */
  function StyleCounts(activities: seq<Activity>): (r: seq<nat>)
    ensures |r| == |StyleOrder|
    ensures forall i :: 0 <= i < |r| ==> r[i] == StyleCount(activities, StyleName(StyleOrder[i]))
  {
    seq(|StyleOrder|, i requires 0 <= i < |StyleOrder| => StyleCount(activities, StyleName(StyleOrder[i])))
  }

  /** The style tag of each activity, in list order. */
  function Styles(activities: seq<Activity>): (r: seq<string>)
    ensures |r| == |activities|
    ensures forall i :: 0 <= i < |r| ==> r[i] == activities[i].learningStyle
  {
    seq(|activities|, i requires 0 <= i < |activities| => activities[i].learningStyle)
  }

  /** The counter shown for a style is the number of activities tagged with it, duplicates included. */
  lemma {:induction false} StyleCountIsOccurrences(activities: seq<Activity>, style: string)
    ensures StyleCount(activities, style) == multiset(Styles(activities))[style]
  {
    if activities != [] {
      StyleCountIsOccurrences(activities[1..], style);
      assert Styles(activities) == [activities[0].learningStyle] + Styles(activities[1..]);
    }
  }

  /** Counting splits over concatenation: each activity adds one to its own style's counter only. */
  lemma {:induction false} StyleCountConcat(a: seq<Activity>, b: seq<Activity>, style: string)
    ensures StyleCount(a + b, style) == StyleCount(a, style) + StyleCount(b, style)
  {
    if a != [] {
      StyleCountConcat(a[1..], b, style);
      assert (a + b)[1..] == a[1..] + b;
    } else {
      assert a + b == b;
    }
  }

  /** When every activity carries a valid style, the four counters add up to the number of activities. */
  lemma {:induction false} StyleCountsSum(activities: seq<Activity>)
    requires forall i :: 0 <= i < |activities| ==> ParseStyle(activities[i].learningStyle).Some?
    ensures var r := StyleCounts(activities); r[0] + r[1] + r[2] + r[3] == |activities|
  {
    if activities != [] {
      StyleCountsSum(activities[1..]);
      var st := ParseStyle(activities[0].learningStyle).value;
      assert StyleName(st) == activities[0].learningStyle;
    }
  }

  /** The activity form: title, description and the chosen style. */
  datatype ActivityForm = ActivityForm(title: string, description: string, learningStyle: Style)

  /** The row handleCreateActivity sends to the backend. */
  datatype ActivityInsert = ActivityInsert(
    classroomId: string,
    teacherId: string,
    title: string,
    description: string,
    learningStyle: string)

  /**
   * handleCreateActivity's insert: nothing when no classroom is selected (no
   * selection or the empty id); otherwise the form as it stands, for the
   * selected classroom. The handler itself does not check the title; the
   * form's `required` attribute, which keeps an empty title from being
   * submitted, is not part of this function.
   */
  function ActivityInsertFor(selected: Option<string>, teacherId: string, form: ActivityForm): (r: Option<ActivityInsert>)
    ensures r.None? <==> selected.None? || selected.value == ""
    ensures r.Some? ==> r.value.classroomId == selected.value && r.value.teacherId == teacherId &&
                        r.value.title == form.title && r.value.description == form.description &&
                        ParseStyle(r.value.learningStyle) == Some(form.learningStyle)
  {
    if selected.None? || selected.value == "" then None
    else Some(ActivityInsert(selected.value, teacherId, form.title, form.description,
                             StyleName(form.learningStyle)))
  }

  /** The badge classes of each style in the teacher view. */
  function ColorOf(st: Style): string
  {
    match st
    case Visual => "bg-blue-100 text-blue-800"
    case Auditory => "bg-green-100 text-green-800"
    case Reading => "bg-yellow-100 text-yellow-800"
    case Kinesthetic => "bg-red-100 text-red-800"
  }

  const DefaultColor: string := "bg-gray-100 text-gray-800"

  /** `colors[style] || gray`: an unknown tag gets the gray default. */
  function StyleColor(style: string): (r: string)
    ensures ParseStyle(style).Some? ==> r == ColorOf(ParseStyle(style).value)
    ensures r == DefaultColor <==> ParseStyle(style).None?
  {
    match ParseStyle(style)
    case Some(st) => ColorOf(st)
    case None => DefaultColor
  }
}
