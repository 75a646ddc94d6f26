# Connections-tree event dispatch, modelled in Dafny

This project models the event-dispatch layer of the connections tree widget
(`TreeView`) of RedisDesktopManager. The widget turns raw input into calls on
the tree item under the event. The inputs are a middle-button press, a click,
a key press and a context-menu request. Every path goes through one gate,
`preProcessEvent`. The gate drops invalid indexes, positions the model holds
no item for, and locked items.

- `keysequence.dfy` (module `KeySequences`): Qt 5's key codes and modifier
  flags as constants. It holds the key-event normaliser
  `keySequenceFromKeyEvent`, twice: as the function `Normalise`, and as the
  method `KeySequenceFromKeyEvent`, which adds the flags step by step as the
  source does and is proved equal to the function. It also holds
  `QKeySequence::matches` for sequences of at most one chord.
- `treeview.dfy` (module `ConnectionsTree`): model indexes, points, tree
  items, and the gate. There is one effect function per entry point, giving
  the sequence of observable effects that dispatch produces. The `TreeView`
  class has a `model` field and an effect `trace`. Its methods append exactly
  those effects to the trace. Lemmas relate the paths to one another.
- `wrappers.dfy`: `Option`, which stands for a pointer that may be null.

Effects are `OnClick`, `Expand`, `WheelClick`, `ContextMenuBuilt` (the call to
`getContextMenu`), `MenuShown`, `Triggered` and `DefaultHandling` (the
`QTreeView` base handler).

Modelling choices:

- Foreign Qt calls become parameters: the cursor position, `indexAt`,
  `mapToGlobal` and the list of selected indexes.
- A tree item is a value. It records whether it is locked, what `onClick`
  answers, and the menu `getContextMenu` builds (`None` for a null menu). The
  node layer may assign a new `model` between events; no dispatch changes it.
- Key codes are the `Qt::Key` range, 0 to 0x01ffffff. The four flags
  `Qt::SHIFT`, `CTRL`, `ALT` and `META` lie above that range. So the sum the
  normaliser builds never overflows a 32-bit `int`, and `Normalise` proves this.
- The signals behave as direct calls. `clicked` goes to `processClick`,
  `wheelClicked` to `processWheelClick`, and `customContextMenuRequested` to
  `processContextMenu` (treeview.cpp lines 23-25).

Where a loose reading of the dispatcher differs from the code, the model
follows the code:

- Return/Enter emits `clicked`, and `clicked` goes to `processClick`. So Enter
  passes the lock gate like a mouse click.
- On a key press, a selected item that is gated out, or that builds a null
  menu, swallows the event. The event does not reach the base handler.
- A menu that is empty but not null is still executed on the context-menu
  path. On the keyboard path such a menu finds no match, so the base handler
  runs.

## Model

| member | source | states |
|---|---|---|
| KeySequences.Normalise | src/modules/connections-tree/treeview.cpp:37-65 | the result is empty exactly for the unknown key, a lone Ctrl/Shift/Alt/Meta key, or key 0 with no modifier; otherwise the chord splits back into exactly the key code and the held Shift/Control/Alt/Meta modifiers, and it lies in (0, 0x20000000), so no bit other than the key and those four flags is set; together these pin the value to the key code plus one flag per held modifier |
| KeySequences.KeySequenceFromKeyEvent | src/modules/connections-tree/treeview.cpp:37-65 | the step-by-step `+=` construction returns the same sequence as `Normalise`, whatever the key and modifier word |
| KeySequences.NormaliseSeparatesModifiers | src/modules/connections-tree/treeview.cpp:51-64 | for a key that is neither unknown nor a lone modifier, two modifier words give the same shortcut if and only if they hold the same Shift/Control/Alt/Meta set |
| KeySequences.NoShortcutKeyMatchesNothing | src/modules/connections-tree/treeview.cpp:39-48 | the empty sequence produced for the unknown key or a lone modifier is matched by no non-empty shortcut |
| KeySequences.Matches | src/modules/connections-tree/treeview.cpp:93-94 | an empty shortcut never reports no-match; a one-chord shortcut matches exactly the equal key; an exact match means equality |
| ConnectionsTree.PreProcessEvent | src/modules/connections-tree/treeview.cpp:160-171 | nothing comes out exactly when the index is invalid, unresolved or its item locked; otherwise the resolved, unlocked item |
| ConnectionsTree.ClickEffects | src/modules/connections-tree/treeview.cpp:120-132 | no effect unless the index passes the gate; the only effects are `onClick` and an expand of that same index, with `onClick` first; `onClick` at most once and only when the gate passes; the expand exactly when the item's `onClick` asks for it, at most once |
| ConnectionsTree.WheelClickEffects | src/modules/connections-tree/treeview.cpp:134-142 | one `onWheelClick` on the index if it passes the gate, nothing otherwise; never an expand |
| ConnectionsTree.ContextMenuEffects | src/modules/connections-tree/treeview.cpp:102-118 | a null point or a null cursor produces nothing, so `getContextMenu` is never called; the menu is built exactly when the index passes the gate; it is shown exactly when, in addition, the menu is not null; then it is shown at most once, at the mapped point; the only effects are one menu build, which comes first, and that display, at most two effects in all |
| ConnectionsTree.Selects | src/modules/connections-tree/treeview.cpp:93-94 | the scan's test (non-empty shortcut that `matches` the key) holds exactly when the action has a one-chord shortcut equal to the key |
| ConnectionsTree.FirstMatch | src/modules/connections-tree/treeview.cpp:92-98 | a found position is in range, its action is selected, and no earlier action is; nothing is found exactly when no action is selected |
| ConnectionsTree.KeyPressEffects | src/modules/connections-tree/treeview.cpp:68-100 | a selection of size other than one gives only the base handler; Return/Enter on one selection gives exactly the click effects of that index, gate included; every effect concerns an item that passes the gate |
| ConnectionsTree.MousePressEffects | src/modules/connections-tree/treeview.cpp:28-35 | every press ends with exactly one base-handler call; before it comes the wheel click on the index under the cursor for the middle button, and nothing for any other button |
| ConnectionsTree.KeyPressScansMenuInOrder | src/modules/connections-tree/treeview.cpp:79-99 | with a gated-in item and a non-null menu: the menu is built, then either the first action the normalised key selects is triggered (exactly once, and no other), or the base handler runs, exactly when no action matches |
| ConnectionsTree.KeyPressDefaultHandling | src/modules/connections-tree/treeview.cpp:68-100 | a key press reaches the base handler if and only if the selection is not a single index, or the key is not Return/Enter and the gated-in item's non-null menu has no matching action |
| ConnectionsTree.KeyPressSwallowed | src/modules/connections-tree/treeview.cpp:79-88 | for a gated-out item the key press has no effect at all, since `getContextMenu` is not reached; for a gated-in item with a null menu the only effect is that one menu build; in neither case is anything triggered or the base handler run |
| ConnectionsTree.ActivationIgnoresMenu | src/modules/connections-tree/treeview.cpp:73-76 | Return/Enter on a single selection has the same effects whatever menu, or none, the selected item has |
| ConnectionsTree.FirstOfEqualShortcutsWins | src/modules/connections-tree/treeview.cpp:92-98 | of two actions with the same shortcut matching the key, the first is triggered and the second is not |
| ConnectionsTree.LockedItemIsInert | src/modules/connections-tree/treeview.cpp:160-171 | in any effect sequence that keeps to the gate, no effect addresses a locked item |
| ConnectionsTree.TreeView.constructor | src/modules/connections-tree/treeview.cpp:13-26 | the view starts on the given model with an empty trace; the signal wiring of lines 23-25 is carried out by the methods as direct calls |
| ConnectionsTree.TreeView.ProcessClick | src/modules/connections-tree/treeview.cpp:120-132 | appends exactly `ClickEffects` of the current model to the trace |
| ConnectionsTree.TreeView.ProcessWheelClick | src/modules/connections-tree/treeview.cpp:134-142 | appends exactly `WheelClickEffects` to the trace |
| ConnectionsTree.TreeView.ProcessContextMenu | src/modules/connections-tree/treeview.cpp:102-118 | appends exactly `ContextMenuEffects` for the index under the point and the point mapped to the screen |
| ConnectionsTree.TreeView.KeyPressEvent | src/modules/connections-tree/treeview.cpp:68-100 | the in-order scan with early return appends exactly `KeyPressEffects`; the Return/Enter branch goes through `ProcessClick` |
| ConnectionsTree.TreeView.MousePressEvent | src/modules/connections-tree/treeview.cpp:28-35 | appends exactly `MousePressEffects` for the index under the cursor |

## Left out

- The widget constructor's header and column setup (treeview.cpp lines 13-22): layout, with no behaviour to state. The constructor takes the model directly; `setModel` itself is not modelled.
- `setModel`, `model()` and `getParentWidget` (lines 145-158): casts and wrappers over Qt.
- `Model::getItemFromIndex` (line 165) is the foreign resolver. `GetItemFromIndex` stands for it as a plain lookup in the `model` map; it states nothing beyond that lookup.
- `FromInt` stands for Qt's `QKeySequence(int)` constructor, under Qt's convention that a zero key slot is absent; its contract is only its two branches. `Normalise` states the zero case itself.
- The concrete tree item kinds, and what `onClick`, `onWheelClick` and the menu actions do: `items/treeitem.h` and `model.h` are not part of this model. An item is a value holding its lock flag, its `onClick` answer and its menu.
- How the lock flag is set and cleared by background population: that belongs to the node layer. The flag is read at dispatch time from `model`.
- `QMenu::exec` beyond showing the menu (here `MenuShown`). What the user then chooses from the modal menu is not modelled.
- The internals of `QCursor::pos`, `indexAt`, `mapToGlobal` and the selection: they are parameters.
- The base handlers `QTreeView::mousePressEvent` and `QTreeView::keyPressEvent`: each is one `DefaultHandling` effect. The base mouse handler may later emit `clicked` on release; that is not modelled.
- The debug log line (line 127), and the unused `keyText` and `modifiersList` locals (lines 52, 54). The key event's text is not a parameter, because the normaliser ignores it.
- Shortcuts are taken to be well formed: a one-chord `KeySequence` has a non-zero code, as every sequence Qt builds from an int does. `Single(0)` is no Qt value, and for it `Count` and `Matches` would differ from Qt's; `Normalise` never produces it.
- Key sequences with more than one chord: every shortcut is empty or a single chord. Matching against a normalised one-chord key is modelled for those.
- Key codes at or above 0x02000000 (no `Qt::Key` has one): there a code would overlap the modifier flags.
- Qt's `KeypadModifier` and `GroupSwitchModifier` bits are carried in the modifier word but, as in the source, do not affect the result.
- The click path gives the same outcome on repeated calls only in the sense that `ClickEffects` depends on the model and the index alone. State that `onClick` changes lives in the node layer and is not modelled.
