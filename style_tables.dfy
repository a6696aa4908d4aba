/**
 * The `getStyleLabel` table, written the same way in src/components/TeacherHome.tsx
 * and src/components/StudentHome.tsx: a Portuguese display label per style tag.
 */
module StyleTables {
  import opened VarkQuestions

  /** The display label of each style. */
  function LabelOf(st: Style): string
  {
    match st
    case Visual => "Visual"
    case Auditory => "Auditivo"
    case Reading => "Leitura/Escrita"
    case Kinesthetic => "Cinestésico"
  }

  /** `labels[style] || style`: a known tag gets its label, any other string is shown as it is. */
  function StyleLabel(style: string): (r: string)
    ensures ParseStyle(style).Some? ==> r == LabelOf(ParseStyle(style).value)
    ensures ParseStyle(style).None? ==> r == style
    ensures r == style <==> ParseStyle(style).None?
  {
    match ParseStyle(style)
    case Some(st) => LabelOf(st)
    case None => style
  }

  /** Different styles are shown with different labels. */
  lemma LabelsDistinct(a: Style, b: Style)
    ensures a != b ==> LabelOf(a) != LabelOf(b)
  {
  }
}
