/**
 The direction-dependent choices of the `DeleteConfirmationPrompt` component
 and the wiring of its user actions to the caller's callbacks.

 Whether the document is right-to-left (the component asks the DOM for an
 element with `dir="rtl"`) and the anchor's bounding box are explicit inputs.
 The component keeps no state: it is always open while mounted, and every
 user action calls the callback wired to it.
 */
module Prompt {
  import opened Wrappers
  import opened Position
  import opened Messages

  /** The component's props that influence what is rendered. */
  datatype Props = Props(entityType: Option<string>, modalPosition: Option<string>)

  datatype Direction = Ltr | Rtl

  /** The horizontal CSS property the arrow box is pinned with. */
  datatype PinSide = PinLeft | PinRight

  datatype ArrowIcon = ArrowLeftIcon | ArrowRightIcon

  /** The two callbacks the caller supplies. */
  datatype Callback = OnOk | OnCancel

  /** Offset, in pixels, of the arrow box from the popup edge it is pinned to. */
  const ArrowOffset: real := -10.0

  /** Everything the component decides before handing markup to the modal library. */
  datatype Descriptor = Descriptor(
    position: Placement,
    width: real,
    direction: Direction,
    arrowPin: PinSide,
    arrowOffset: real,
    arrowIcon: ArrowIcon,
    question: MessageKey,
    contentLabel: MessageKey,
    okLabel: MessageKey,
    cancelLabel: MessageKey,
    onRequestClose: Callback,
    okClick: Callback,
    cancelClick: Callback)

  /** The arrow is drawn on the edge it points out of. */
  predicate ArrowConsistent(d: Descriptor) {
    d.arrowPin.PinLeft? <==> d.arrowIcon.ArrowLeftIcon?
  }

  /** Dismissal and the cancel button both cancel; only the ok button confirms. */
  predicate WiredAsPrompt(d: Descriptor) {
    d.onRequestClose == OnCancel && d.cancelClick == OnCancel && d.okClick == OnOk
  }

  function Render(props: Props, r: Rect, isRTL: bool): (d: Descriptor)
    ensures d.position == CalculateModalPosition(r, props.modalPosition, isRTL)
    ensures d.width == ModalWidth
    ensures d.direction == Rtl <==> isRTL
    ensures d.arrowPin == PinLeft <==> isRTL
    ensures d.arrowIcon == ArrowLeftIcon <==> isRTL
    ensures d.arrowOffset == -10.0
    ensures ArrowConsistent(d)
    ensures d.question == GetMessage(props.entityType) && IsDeletionQuestion(d.question)
    ensures d.contentLabel == ConfirmDeletionHeading
    ensures d.okLabel == ConfirmOption && d.cancelLabel == CancelOption
    ensures WiredAsPrompt(d)
  {
    Descriptor(
      CalculateModalPosition(r, props.modalPosition, isRTL),
      ModalWidth,
      if isRTL then Rtl else Ltr,
      if isRTL then PinLeft else PinRight,
      ArrowOffset,
      if isRTL then ArrowLeftIcon else ArrowRightIcon,
      GetMessage(props.entityType),
      ConfirmDeletionHeading,
      ConfirmOption,
      CancelOption,
      OnCancel,
      OnOk,
      OnCancel)
  }

  /** The arrow points toward the anchor: the popup is right of the anchor and
      the arrow points left, or the popup is left of it and the arrow points right. */
  ghost predicate ArrowFacesAnchor(d: Descriptor, r: Rect) {
    || (d.position.At? && d.position.left >= r.right && d.arrowIcon == ArrowLeftIcon)
    || (d.position.At? && d.position.left + ModalWidth <= r.left && d.arrowIcon == ArrowRightIcon)
  }

  /** For a placed popup and a well-formed anchor, the arrow points toward the
      anchor in every case except a left-to-right layout with hint 'right', where
      the popup is right of the anchor but the arrow points right, away from it. */
  lemma ArrowFacesAnchorUnlessLtrRight(props: Props, r: Rect, isRTL: bool)
    requires WellFormed(r)
    requires Render(props, r, isRTL).position.At?
    ensures ArrowFacesAnchor(Render(props, r, isRTL), r) <==> (isRTL || !IsRightHint(props.modalPosition))
  {
  }

  /** A user action on the rendered popup. */
  datatype UserAction =
    | ClickOk
    | ClickCancel
    | Dismiss   // overlay click or Escape, reported by the modal as onRequestClose

  /** The callback a control fires: dismissal uses `onRequestClose` (jsx line 124),
      the ok button its onClick (line 151), the cancel button its onClick (line 164). */
  function Handler(d: Descriptor, a: UserAction): Callback {
    match a
    case ClickOk => d.okClick
    case ClickCancel => d.cancelClick
    case Dismiss => d.onRequestClose
  }

  /** The callbacks invoked, in order, for a sequence of user actions. There is
      no open/closed state: each action calls its handler, whatever came before. */
  function Dispatch(d: Descriptor, actions: seq<UserAction>): (calls: seq<Callback>)
    ensures |calls| == |actions|
    ensures forall i :: 0 <= i < |actions| ==> calls[i] == Handler(d, actions[i])
  {
    if |actions| == 0 then [] else [Handler(d, actions[0])] + Dispatch(d, actions[1..])
  }

  /** Number of times `x` occurs in `s`. */
  function Occurrences<T(==)>(s: seq<T>, x: T): nat {
    if |s| == 0 then 0 else (if s[0] == x then 1 else 0) + Occurrences(s[1..], x)
  }

  /** On a rendered prompt, a callback fires as `OnOk` exactly when the action is a
      click on the ok button, and as `OnCancel` exactly for cancel or dismissal. */
  lemma OnlyOkButtonConfirms(props: Props, r: Rect, isRTL: bool, actions: seq<UserAction>, i: int)
    requires 0 <= i < |actions|
    ensures Dispatch(Render(props, r, isRTL), actions)[i] == OnOk <==> actions[i] == ClickOk
    ensures Dispatch(Render(props, r, isRTL), actions)[i] == OnCancel <==> actions[i] in {ClickCancel, Dismiss}
  {
  }

  /** Responses compose: what an action triggers never depends on earlier actions. */
  lemma DispatchAppend(d: Descriptor, a: seq<UserAction>, b: seq<UserAction>)
    ensures Dispatch(d, a + b) == Dispatch(d, a) + Dispatch(d, b)
  {
  }

  /** Every click on ok confirms and every cancel or dismissal cancels, however
      many there are: the prompt has no guard against repeated decisions. */
  lemma {:induction false} CallbackCounts(props: Props, r: Rect, isRTL: bool, actions: seq<UserAction>)
    ensures Occurrences(Dispatch(Render(props, r, isRTL), actions), OnOk) == Occurrences(actions, ClickOk)
    ensures Occurrences(Dispatch(Render(props, r, isRTL), actions), OnCancel)
            == Occurrences(actions, ClickCancel) + Occurrences(actions, Dismiss)
  {
    var d := Render(props, r, isRTL);
    if |actions| > 0 {
      CallbackCounts(props, r, isRTL, actions[1..]);
      assert Dispatch(d, actions)[1..] == Dispatch(d, actions[1..]);
    }
  }

  /** Two clicks on ok confirm twice: a decision does not close the prompt. */
  lemma RepeatedConfirmFiresTwice(props: Props, r: Rect, isRTL: bool)
    ensures Dispatch(Render(props, r, isRTL), [ClickOk, ClickOk]) == [OnOk, OnOk]
    ensures Dispatch(Render(props, r, isRTL), [ClickOk, ClickCancel]) == [OnOk, OnCancel]
  {
  }

  /** A costume prompt anchored at top 100, left 50, right 150, height 20, in a
      left-to-right document with hint 'right'. */
  lemma CostumeRightLtrScenario()
    ensures var d := Render(Props(Some("COSTUME"), Some("right")), Rect(100.0, 50.0, 150.0, 20.0), false);
            d.position == At(80.0, 175.0) && d.question == ShouldDeleteCostume && d.direction == Ltr
  {
  }

  /** The same anchor in a right-to-left document with hint 'left': the
      direction overrides the hint. */
  lemma CostumeLeftRtlScenario()
    ensures var d := Render(Props(Some("COSTUME"), Some("left")), Rect(100.0, 50.0, 150.0, 20.0), true);
            d.position == At(80.0, 175.0) && d.direction == Rtl && d.arrowPin == PinLeft
  {
  }
}
