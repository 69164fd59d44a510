/** The badge beside each file or group: nothing, a green tick or a red cross. */
module ValidationStatusIcon {
  import opened Wrappers

  const ValidGlyph: string := "✓"
  const InvalidGlyph: string := "✕"
  const ValidColor: string := "#10B981"
  const InvalidColor: string := "#EF4444"

  datatype Badge = NoBadge | Badge(glyph: string, color: string)

  /** Nothing when the validity is unknown or icons are off; otherwise the validity decides glyph and colour. */
  function StatusIcon(isValid: Option<bool>, showIcon: bool): (r: Badge)
    ensures r.NoBadge? <==> isValid.None? || !showIcon
    ensures r == Badge(ValidGlyph, ValidColor) <==> isValid == Some(true) && showIcon
    ensures r == Badge(InvalidGlyph, InvalidColor) <==> isValid == Some(false) && showIcon
  {
    if isValid.None? || !showIcon then NoBadge
    else if isValid.value then Badge(ValidGlyph, ValidColor)
    else Badge(InvalidGlyph, InvalidColor)
  }

  /** A shown badge tells the validity back: different validities never share a badge. */
  lemma BadgeDeterminesValidity(a: Option<bool>, b: Option<bool>)
    requires StatusIcon(a, true) == StatusIcon(b, true)
    ensures a == b
  {
  }
}
