/**
 Placement of the delete-confirmation popup relative to its anchor element
 (`calculateModalPosition` in delete-confirmation-prompt.jsx).

 The anchor's bounding box is an explicit input: the component reads it from
 the DOM with `getBoundingClientRect`, which is a host call. Coordinates are
 exact reals rather than IEEE doubles.
 */
module Position {
  import opened Wrappers

  /** Width of the popup content box, in pixels (`modalWidth`). */
  const ModalWidth: real := 300.0

  /** Horizontal gap between the anchor and the popup, in pixels. */
  const Gap: real := 25.0

  /** The fields of the anchor's bounding client rectangle that the placement reads. */
  datatype Rect = Rect(top: real, left: real, right: real, height: real)

  /** A popup position: either explicit `{top, left}` or the empty object `{}`,
      which leaves placement to the modal library's default. */
  datatype Placement = Empty | At(top: real, left: real)

  /** The side hint compared with `===` against the string literals. */
  predicate IsLeftHint(modalPosition: Option<string>) {
    modalPosition == Some("left")
  }

  predicate IsRightHint(modalPosition: Option<string>) {
    modalPosition == Some("right")
  }

  /** The popup starts one anchor-height above the anchor's top edge. */
  ghost predicate RaisedByAnchorHeight(p: Placement, r: Rect) {
    p.At? && p.top + r.height == r.top
  }

  /** The popup's left edge lies exactly `Gap` to the right of the anchor's right edge. */
  ghost predicate RightOfAnchor(p: Placement, r: Rect) {
    RaisedByAnchorHeight(p, r) && p.left - r.right == Gap
  }

  /** The popup's right edge (left + width) ends exactly `Gap` before the anchor's left edge. */
  ghost predicate LeftOfAnchor(p: Placement, r: Rect) {
    RaisedByAnchorHeight(p, r) && r.left - (p.left + ModalWidth) == Gap
  }

  /** A rectangle whose left edge is not to the right of its right edge. */
  predicate WellFormed(r: Rect) {
    r.left <= r.right
  }

  /** Maps anchor, side hint and layout direction to the popup position.
      A right-to-left layout overrides the hint and always places the popup
      to the right of the anchor; otherwise 'left' and 'right' pick a side
      and every other hint (including undefined) yields the empty placement. */
  function CalculateModalPosition(r: Rect, modalPosition: Option<string>, isRTL: bool): (p: Placement)
    ensures isRTL ==> RightOfAnchor(p, r)
    ensures !isRTL && IsLeftHint(modalPosition) ==> LeftOfAnchor(p, r)
    ensures !isRTL && IsRightHint(modalPosition) ==> RightOfAnchor(p, r)
    ensures p.Empty? <==> !isRTL && !IsLeftHint(modalPosition) && !IsRightHint(modalPosition)
    ensures p.At? ==> RaisedByAnchorHeight(p, r)
    ensures WellFormed(r) && p.At? ==> p.left + ModalWidth < r.left || r.right < p.left
  {
    if isRTL then
      At(r.top - r.height, r.right + 25.0)
    else if modalPosition == Some("left") then
      At(r.top - r.height, r.left - ModalWidth - 25.0)
    else if modalPosition == Some("right") then
      At(r.top - r.height, r.right + 25.0)
    else
      Empty
  }

  /** In a right-to-left layout the side hint has no influence at all. */
  lemma RtlIgnoresHint(r: Rect, h1: Option<string>, h2: Option<string>)
    ensures CalculateModalPosition(r, h1, true) == CalculateModalPosition(r, h2, true)
  {
  }

  /** LTR with hint 'right' coincides with the RTL placement for the same anchor. */
  lemma LtrRightMatchesRtl(r: Rect, h: Option<string>)
    ensures CalculateModalPosition(r, Some("right"), false) == CalculateModalPosition(r, h, true)
  {
  }

  /** The two explicit LTR sides sit symmetrically about the anchor: the same
      vertical position, and the same gap between popup and anchor. */
  lemma LtrSidesSymmetric(r: Rect)
    ensures var pl := CalculateModalPosition(r, Some("left"), false);
            var pr := CalculateModalPosition(r, Some("right"), false);
            && pl.At? && pr.At?
            && pl.top == pr.top
            && r.left - (pl.left + ModalWidth) == pr.left - r.right
  {
  }

  /** The vertical position depends only on the anchor's top and height, never
      on its horizontal edges, the side hint or the direction. */
  lemma TopIndependentOfSideAndDirection(r1: Rect, r2: Rect, h1: Option<string>, h2: Option<string>, rtl1: bool, rtl2: bool)
    requires r1.top == r2.top && r1.height == r2.height
    requires CalculateModalPosition(r1, h1, rtl1).At? && CalculateModalPosition(r2, h2, rtl2).At?
    ensures CalculateModalPosition(r1, h1, rtl1).top == CalculateModalPosition(r2, h2, rtl2).top
  {
  }

  /** The horizontal position depends only on the anchor's left and right edges. */
  lemma LeftIndependentOfVertical(r1: Rect, r2: Rect, h: Option<string>, rtl: bool)
    requires r1.left == r2.left && r1.right == r2.right
    ensures CalculateModalPosition(r1, h, rtl).At? ==>
              CalculateModalPosition(r1, h, rtl).left == CalculateModalPosition(r2, h, rtl).left
  {
  }

  function Translate(r: Rect, dx: real, dy: real): Rect {
    Rect(r.top + dy, r.left + dx, r.right + dx, r.height)
  }

  function Shift(p: Placement, dx: real, dy: real): Placement {
    match p
    case Empty => Empty
    case At(t, l) => At(t + dy, l + dx)
  }

  /** Moving the anchor moves the popup by the same amount: the placement
      uses only constant offsets from the anchor's edges. */
  lemma PlacementCommutesWithTranslation(r: Rect, h: Option<string>, rtl: bool, dx: real, dy: real)
    ensures CalculateModalPosition(Translate(r, dx, dy), h, rtl) == Shift(CalculateModalPosition(r, h, rtl), dx, dy)
  {
  }
}
