# Delete-confirmation prompt: placement, message choice and callback wiring

This project models the logic of the scratch-gui `DeleteConfirmationPrompt`
component: a small popup, anchored next to a delete button, that asks whether a
sprite, costume or sound should be deleted. The component does three things
that are not plain markup:

- `calculateModalPosition` turns the anchor's bounding rectangle, a side hint
  (`'left'`, `'right'` or anything else) and the document direction into a
  popup position `{top, left}` or the empty position `{}`. A right-to-left
  document always puts the popup to the right of the anchor and ignores the hint.
- `getMessage` picks the question for an entity type. `'COSTUME'` and `'SOUND'`
  get their own question. Everything else gets the sprite question.
- The component body picks the content width, the text direction, the arrow's
  pinned side and icon from the direction, and wires dismissal and the cancel
  button to `onCancel` and the ok button to `onOk`.

Modules:

- `Wrappers` (`wrappers.dfy`): `Option`; `None` stands for an undefined prop.
- `Position` (`position.dfy`): the anchor rectangle, the placement, the
  constants `ModalWidth = 300` and `Gap = 25`, and `CalculateModalPosition`.
  The module also holds lemmas on direction override, symmetry, independence
  and translation.
- `Messages` (`messages.dfy`): the message-key table and `GetMessage`.
- `Prompt` (`prompt.dfy`): the render descriptor and the dispatch of user
  actions to callbacks.

The side hint and the entity type are `Option<string>` values. They are
compared with the string literals just as the source's `===` does. The anchor
rectangle and the right-to-left flag are inputs, because the component reads
both from the DOM. Coordinates are exact `real`s.

The model proves how the arrow relates to the popup's side
(`Prompt.ArrowFacesAnchorUnlessLtrRight`), as the arrow box's inline pinning
style and its icon decide; the container's CSS class is chosen with the
opposite name (`arrowContainerLeft` in a left-to-right document) and its styles
are not part of this model. In a right-to-left document, and in
a left-to-right document with hint `'left'`, the arrow points toward the anchor.
In a left-to-right document with hint `'right'`, the popup sits to the right of
the anchor but the arrow is pinned on its right edge and points right, away
from the anchor. This is stated as the source behaves. No correction is made,
because the styles and callers that would show the intent are not part of this
model.

## Model

| member | source | states |
|---|---|---|
| Position.CalculateModalPosition | src/components/delete-confirmation-prompt/delete-confirmation-prompt.jsx:48-74 | RTL places the popup `Gap` right of the anchor whatever the hint. LTR `'left'` ends the popup (left + 300) exactly 25 px before the anchor's left edge. LTR `'right'` starts it 25 px after the anchor's right edge. The placement is empty iff LTR and the hint is neither `'left'` nor `'right'`. Every placed popup has top = anchor top − anchor height. For a well-formed anchor the popup never overlaps it horizontally |
| Position.RtlIgnoresHint | src/components/delete-confirmation-prompt/delete-confirmation-prompt.jsx:52-57 | In RTL, any two side hints give the same placement |
| Position.LtrRightMatchesRtl | src/components/delete-confirmation-prompt/delete-confirmation-prompt.jsx:52-71 | LTR with `'right'` equals the RTL placement for the same anchor, for every hint given to RTL |
| Position.LtrSidesSymmetric | src/components/delete-confirmation-prompt/delete-confirmation-prompt.jsx:59-71 | The LTR `'left'` and `'right'` placements share their top, and leave the same gap to the anchor on either side |
| Position.TopIndependentOfSideAndDirection | src/components/delete-confirmation-prompt/delete-confirmation-prompt.jsx:53-68 | Two placed popups for anchors with equal top and height have equal tops, whatever the anchors' horizontal edges, the hints and the directions |
| Position.LeftIndependentOfVertical | src/components/delete-confirmation-prompt/delete-confirmation-prompt.jsx:55-69 | The popup's left coordinate depends only on the anchor's left and right edges |
| Position.PlacementCommutesWithTranslation | src/components/delete-confirmation-prompt/delete-confirmation-prompt.jsx:49-74 | Moving the anchor by (dx, dy) moves the popup by (dx, dy), and keeps an empty placement empty |
| Messages.GetMessage | src/components/delete-confirmation-prompt/delete-confirmation-prompt.jsx:76-84 | Total, and always one of the three deletion questions. The costume question iff `'COSTUME'`, the sound question iff `'SOUND'`, the sprite question iff neither |
| Messages.EntityTypeFor | src/components/delete-confirmation-prompt/delete-confirmation-prompt.jsx:76-84 | Inverse helper used by `Messages.GetMessageRoundTrip`, not a model of code of its own: each deletion question gets an entity-type string among `'SPRITE'`, `'COSTUME'`, `'SOUND'` that selects it |
| Messages.GetMessageRoundTrip | src/components/delete-confirmation-prompt/delete-confirmation-prompt.jsx:76-84 | Mapping a deletion question to its entity type and back gives the same question, so every question is reachable |
| Messages.UnknownEntityTypeIsSprite | src/components/delete-confirmation-prompt/delete-confirmation-prompt.jsx:83 | Any entity type other than `'COSTUME'`/`'SOUND'`, undefined included, behaves exactly like `'SPRITE'` |
| Prompt.Render | src/components/delete-confirmation-prompt/delete-confirmation-prompt.jsx:94-164 | Content position is the computed placement and width is always `modalWidth`. The arrow box sits exactly 10 px outside its pinned edge (offset −10). Direction is `rtl` iff RTL. The arrow is pinned left and uses the left-arrow icon iff RTL, so icon and pinned side always agree. The question is one of the three deletion questions. Dismissal and cancel route to `onCancel`, ok routes to `onOk` |
| Prompt.ArrowFacesAnchorUnlessLtrRight | src/components/delete-confirmation-prompt/delete-confirmation-prompt.jsx:130-141 | For a placed popup and a well-formed anchor, the arrow points toward the anchor iff the layout is RTL or the hint is not `'right'` |
| Prompt.Dispatch | src/components/delete-confirmation-prompt/delete-confirmation-prompt.jsx:124-164 | A sequence of user actions yields one callback per action, each the handler wired to that action, with no state between actions |
| Prompt.OnlyOkButtonConfirms | src/components/delete-confirmation-prompt/delete-confirmation-prompt.jsx:124-164 | On a rendered prompt an action fires `onOk` iff it is an ok click, and fires `onCancel` iff it is a cancel click or a dismissal |
| Prompt.DispatchAppend | src/components/delete-confirmation-prompt/delete-confirmation-prompt.jsx:97-164 | The prompt is always open and keeps no state, so the callbacks for actions `a` then `b` are those for `a` followed by those for `b` |
| Prompt.CallbackCounts | src/components/delete-confirmation-prompt/delete-confirmation-prompt.jsx:124-164 | `onOk` fires exactly as often as ok is clicked, and `onCancel` exactly as often as cancel is clicked plus the overlay is dismissed. There is no double-fire guard |
| Prompt.RepeatedConfirmFiresTwice | src/components/delete-confirmation-prompt/delete-confirmation-prompt.jsx:151-164 | Two ok clicks call `onOk` twice, and ok followed by cancel calls both callbacks |
| Prompt.CostumeRightLtrScenario | src/components/delete-confirmation-prompt/delete-confirmation-prompt.jsx:66-84 | A costume prompt at anchor (top 100, left 50, right 150, height 20), LTR, hint `'right'`, is placed at (80, 175) and asks the costume question |
| Prompt.CostumeLeftRtlScenario | src/components/delete-confirmation-prompt/delete-confirmation-prompt.jsx:52-57 | The same anchor in RTL with hint `'left'` is still placed at (80, 175), with the arrow pinned left |

## Left out

- DOM access: `getBoundingClientRect` and the `[dir="rtl"]` query are host calls. The rectangle and the right-to-left flag are inputs.
- A missing anchor: the `relativeElemRef` prop is declared optional (line 184), but `calculateModalPosition` calls `getBoundingClientRect` on it unconditionally (line 50), so rendering without it throws a TypeError. The model takes the rectangle as a required input and does not model that throw; there is no empty placement for a missing anchor.
- Open/confirm/cancel state: the component is always open while mounted and keeps no state. Closing it is the caller's business. So no session state machine and no double-fire guard are modelled. `Prompt.CallbackCounts` states the absence of such a guard.
- React, ReactModal, `Box` and CSS: class names (including `arrowContainerLeft`/`arrowContainerRight`), icon imports, the fixed overlay, z-index, and the other constant content styles are presentation only.
- Localisation: `defineMessages`, `FormattedMessage` and `intl.formatMessage` are the translation library. Messages are modelled as keys, and the ids and default texts are left out.
- Floating point: DOMRect values are doubles, but the model uses exact reals. The placement only adds and subtracts constants.
- Prop types: runtime `PropTypes` validation is a development-time check, so it is left out.
