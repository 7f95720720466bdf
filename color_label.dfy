/** `getColorLabel(color)`: a clamped bucket index into five labels. */
module ColorLabel {
  import opened Wrappers

  const Labels: seq<string> := ["Dark Brown", "Brown", "Pink-Brown", "Pink", "Pink-White"]

  /** `Math.min(Math.floor(color / 10), 4)`; Dafny's `/` by the positive 10 is
      the floor. */
  function LabelIndex(color: int): (i: int)
    ensures color >= 0 ==> 0 <= i <= 4
    ensures i <= 4
    ensures i < 4 ==> 10 * i <= color < 10 * i + 10
    ensures i == 4 <==> color >= 40
  {
    if color / 10 < 4 then color / 10 else 4
  }

  /** `labels[index]`, which is `undefined` for a negative colour. */
  function GetColorLabel(color: int): (r: Option<string>)
    ensures r.Some? <==> color >= 0
    ensures r.Some? ==> r.value in Labels
  {
    var i := LabelIndex(color);
    if 0 <= i then Some(Labels[i]) else None
  }

  /** The buckets: 0-9, 10-19, 20-29, 30-39, and everything from 40 up. */
  lemma Buckets(color: int)
    requires color >= 0
    ensures 0 <= color < 10 ==> GetColorLabel(color) == Some("Dark Brown")
    ensures 10 <= color < 20 ==> GetColorLabel(color) == Some("Brown")
    ensures 20 <= color < 30 ==> GetColorLabel(color) == Some("Pink-Brown")
    ensures 30 <= color < 40 ==> GetColorLabel(color) == Some("Pink")
    ensures 40 <= color ==> GetColorLabel(color) == Some("Pink-White")
  {
  }

  /** A larger colour never gets an earlier label. */
  lemma IndexMonotone(c1: int, c2: int)
    requires c1 <= c2
    ensures LabelIndex(c1) <= LabelIndex(c2)
  {
  }
}
