/**
  The event-dispatch layer of the connections tree widget: how mouse, wheel,
  keyboard and context-menu events are turned into calls on the tree item
  under the event, through one gate that filters out invalid positions,
  unresolved positions and locked items.

  The widget toolkit is not modelled. What the dispatcher asks of it (the
  cursor position, `indexAt`, `mapToGlobal`, the selection) arrives as
  parameters, and what it does to the world is recorded as a trace of
  effects.
*/
module ConnectionsTree {
  import opened Wrappers
  import opened KeySequences

  /** A `QModelIndex`: valid when row and column are non-negative and it belongs to a model. */
  datatype ModelIndex = ModelIndex(row: int, column: int, internalId: nat, hasModel: bool)
  {
    predicate IsValid()
    {
      row >= 0 && column >= 0 && hasModel
    }
  }

  /** A `QPoint`; the null point is (0, 0). */
  datatype Point = Point(x: int, y: int)
  {
    predicate IsNull()
    {
      x == 0 && y == 0
    }
  }

  datatype MouseButton = NoButton | LeftButton | RightButton | MiddleButton | OtherButton(flag: nat)

  /** A `QAction` of a context menu, as far as dispatch looks at it: its shortcut. */
  datatype Action = Action(shortcut: KeySequence)

  /**
    A `TreeItem` as the dispatcher sees it at the moment of an event: whether
    it is locked, what `onClick` answers (true asks the view to expand it),
    and the menu `getContextMenu` builds, `None` for a null menu.
  */
  datatype TreeItem = TreeItem(locked: bool, clickExpands: bool, contextMenu: Option<seq<Action>>)

  /** The tree model: the item at each position that holds one. */
  type Model = map<ModelIndex, TreeItem>

  /** What one dispatch does, in order. */
  datatype Effect =
    | OnClick(index: ModelIndex)                  // TreeItem::onClick on the item at index
    | Expand(index: ModelIndex)                   // QTreeView::expand(index)
    | WheelClick(index: ModelIndex)               // TreeItem::onWheelClick
    | ContextMenuBuilt(index: ModelIndex)         // TreeItem::getContextMenu
    | MenuShown(index: ModelIndex, at: Point)     // QMenu::exec at a global point
    | Triggered(index: ModelIndex, action: nat)   // QAction::trigger on that action of the menu
    | DefaultHandling                             // the QTreeView base handler

  /** `Model::getItemFromIndex`: the item at that position, or null. */
  function GetItemFromIndex(model: Model, index: ModelIndex): (r: Option<TreeItem>)
    ensures r.Some? <==> index in model
    ensures r.Some? ==> r.value == model[index]
  {
    if index in model then Some(model[index]) else None
  }

  /**
    `preProcessEvent`: the gate every entry point goes through. Nothing comes
    out for an invalid index, a position without an item or a locked item;
    otherwise the item at the index.
  */
  function PreProcessEvent(model: Model, index: ModelIndex): (r: Option<TreeItem>)
    ensures r.None? <==> !index.IsValid() || index !in model || model[index].locked
    ensures r.Some? ==> index in model && r.value == model[index] && !r.value.locked
  {
    if !index.IsValid() then None
    else
      var item := GetItemFromIndex(model, index);
      if item.None? || item.value.locked then None else item
  }

  predicate Passes(model: Model, index: ModelIndex)
  {
    PreProcessEvent(model, index).Some?
  }

  /**
    Every effect of a dispatch concerns an item that passes the gate, and a
    triggered action is one of that item's menu actions.
  */
  predicate OnlyOpenItems(model: Model, effects: seq<Effect>)
  {
    forall k :: 0 <= k < |effects| ==>
      (!effects[k].DefaultHandling? ==> Passes(model, effects[k].index))
      && (effects[k].Triggered? ==>
            effects[k].index in model
            && model[effects[k].index].contextMenu.Some?
            && effects[k].action < |model[effects[k].index].contextMenu.value|)
  }

  function CountOf(effects: seq<Effect>, e: Effect): nat
  {
    multiset(effects)[e]
  }

  /**
    `processClick`: an item that passes the gate gets `onClick`, and the view
    expands that same index exactly when `onClick` says so.
  */
  function ClickEffects(model: Model, index: ModelIndex): (r: seq<Effect>)
    ensures r == [] <==> !Passes(model, index)
    ensures OnClick(index) in r <==> Passes(model, index)
    ensures Expand(index) in r <==> Passes(model, index) && model[index].clickExpands
    ensures forall e | e in r :: e == OnClick(index) || e == Expand(index)
    ensures r != [] ==> r[0] == OnClick(index)
    ensures CountOf(r, Expand(index)) <= 1 && CountOf(r, OnClick(index)) <= 1
    ensures OnlyOpenItems(model, r)
  {
    match PreProcessEvent(model, index)
    case None => []
    case Some(item) => [OnClick(index)] + (if item.clickExpands then [Expand(index)] else [])
  }

  /** `processWheelClick`: `onWheelClick` on an item that passes the gate, and never an expand. */
  function WheelClickEffects(model: Model, index: ModelIndex): (r: seq<Effect>)
    ensures r == [] <==> !Passes(model, index)
    ensures forall e | e in r :: e == WheelClick(index)
    ensures |r| <= 1
    ensures OnlyOpenItems(model, r)
  {
    if Passes(model, index) then [WheelClick(index)] else []
  }

  /**
    `processContextMenu` for a request at `point`, with the cursor at `cursor`,
    `index` the item position under the point and `global` the point mapped
    to the screen. A null point or cursor stops it before the item is asked for
    a menu; an item that does not pass the gate, or a null menu, shows
    nothing; otherwise the menu is shown once, at the mapped point.
  */
  function ContextMenuEffects(model: Model, point: Point, cursor: Point, index: ModelIndex, global: Point): (r: seq<Effect>)
    ensures point.IsNull() || cursor.IsNull() ==> r == []
    ensures ContextMenuBuilt(index) in r <==> !point.IsNull() && !cursor.IsNull() && Passes(model, index)
    ensures MenuShown(index, global) in r <==>
              !point.IsNull() && !cursor.IsNull() && Passes(model, index) && model[index].contextMenu.Some?
    ensures forall e | e in r :: e == ContextMenuBuilt(index) || e == MenuShown(index, global)
    ensures r != [] ==> r[0] == ContextMenuBuilt(index)
    ensures CountOf(r, MenuShown(index, global)) <= 1
    ensures |r| <= 2 && CountOf(r, ContextMenuBuilt(index)) <= 1
    ensures OnlyOpenItems(model, r)
  {
    if point.IsNull() || cursor.IsNull() then []
    else match PreProcessEvent(model, index)
      case None => []
      case Some(item) =>
        [ContextMenuBuilt(index)] + if item.contextMenu.None? then [] else [MenuShown(index, global)]
  }

  /**
    The test the keyboard scan applies to one action: a non-empty shortcut
    that `matches` the key, which for single chords is plain equality.
  */
  predicate Selects(action: Action, key: KeySequence)
    ensures Selects(action, key) <==> action.shortcut.Single? && action.shortcut == key
  {
    !(action.shortcut.Count() == 0) && Matches(action.shortcut, key) != NoMatch
  }

  /** The position of the first action the key selects, or nothing. */
  function FirstMatch(actions: seq<Action>, key: KeySequence): (r: Option<nat>)
    ensures r.Some? ==> r.value < |actions| && Selects(actions[r.value], key)
    ensures r.Some? ==> forall j :: 0 <= j < r.value ==> !Selects(actions[j], key)
    ensures r.None? <==> forall j :: 0 <= j < |actions| ==> !Selects(actions[j], key)
    decreases |actions|
  {
    if actions == [] then None
    else if Selects(actions[0], key) then Some(0)
    else match FirstMatch(actions[1..], key)
      case None => None
      case Some(i) => Some(i + 1)
  }

  predicate IsActivationKey(key: KeyCode)
  {
    key == KEY_RETURN || key == KEY_ENTER
  }

  /**
    `keyPressEvent` with `selected` the selected indexes. Anything but a
    single selection goes to the base handler. Return or Enter is a click on
    the selected index. Otherwise the selected item, if it passes the gate and
    builds a non-null menu, has its first action whose shortcut matches the
    key triggered; with no such action the base handler runs. A gated-out
    item or a null menu swallows the event.
  */
  function KeyPressEffects(model: Model, selected: seq<ModelIndex>, key: KeyCode, modifiers: KeyboardModifiers): (r: seq<Effect>)
    ensures |selected| != 1 ==> r == [DefaultHandling]
    ensures |selected| == 1 && IsActivationKey(key) ==> r == ClickEffects(model, selected[0])
    ensures OnlyOpenItems(model, r)
  {
    if |selected| != 1 then [DefaultHandling]
    else if IsActivationKey(key) then ClickEffects(model, selected[0])
    else
      var index := selected[0];
      match PreProcessEvent(model, index)
      case None => []
      case Some(item) =>
        [ContextMenuBuilt(index)] +
        match item.contextMenu
        case None => []
        case Some(actions) =>
          match FirstMatch(actions, Normalise(key, modifiers))
          case Some(i) => [Triggered(index, i)]
          case None => [DefaultHandling]
  }

  /**
    `mousePressEvent`: a middle-button press is a wheel click on the index
    under the cursor; every press then reaches the base handler.
  */
  function MousePressEffects(model: Model, button: MouseButton, index: ModelIndex): (r: seq<Effect>)
    ensures |r| > 0 && r[|r| - 1] == DefaultHandling
    ensures button != MiddleButton ==> r == [DefaultHandling]
    ensures button == MiddleButton ==> r[..|r| - 1] == WheelClickEffects(model, index)
    ensures forall k :: 0 <= k < |r| - 1 ==> r[k] != DefaultHandling
    ensures OnlyOpenItems(model, r)
  {
    var wheel := if button == MiddleButton then WheelClickEffects(model, index) else [];
    assert forall k :: 0 <= k < |wheel| ==> wheel[k].WheelClick?;
    wheel + [DefaultHandling]
  }

  /**
    The shortcut scan: with one selected item that passes the gate and builds
    a non-null menu, the effects are the menu build followed by exactly one
    of: the trigger of the first action the normalised key selects, or the
    base handler when no action selects it.
  */
  lemma KeyPressScansMenuInOrder(model: Model, selected: seq<ModelIndex>, key: KeyCode, modifiers: KeyboardModifiers)
    requires |selected| == 1 && !IsActivationKey(key)
    requires Passes(model, selected[0]) && model[selected[0]].contextMenu.Some?
    ensures var r := KeyPressEffects(model, selected, key, modifiers);
            var actions := model[selected[0]].contextMenu.value;
            var shortcut := Normalise(key, modifiers);
            && |r| == 2 && r[0] == ContextMenuBuilt(selected[0])
            && (forall i: nat :: Triggered(selected[0], i) in r <==>
                  i < |actions| && Selects(actions[i], shortcut)
                  && forall j :: 0 <= j < i ==> !Selects(actions[j], shortcut))
            && (DefaultHandling in r <==> forall j :: 0 <= j < |actions| ==> !Selects(actions[j], shortcut))
  {
  }

  /**
    Which keyboard events reach the base handler: those without exactly one
    selected index, and those whose selected item passes the gate, builds a
    non-null menu and has no action the key selects. A gated-out item or a
    null menu swallows the event, and so does Return or Enter.
  */
  lemma KeyPressDefaultHandling(model: Model, selected: seq<ModelIndex>, key: KeyCode, modifiers: KeyboardModifiers)
    ensures DefaultHandling in KeyPressEffects(model, selected, key, modifiers) <==>
              |selected| != 1
              || (!IsActivationKey(key) && Passes(model, selected[0])
                  && model[selected[0]].contextMenu.Some?
                  && FirstMatch(model[selected[0]].contextMenu.value, Normalise(key, modifiers)).None?)
  {
  }

  /**
    A gated-out item or a null menu consumes a key press: a gated-out item
    gets no call at all, and an item with a null menu only builds it; there is
    no trigger and no base handler.
  */
  lemma KeyPressSwallowed(model: Model, selected: seq<ModelIndex>, key: KeyCode, modifiers: KeyboardModifiers)
    requires |selected| == 1 && !IsActivationKey(key)
    requires !Passes(model, selected[0]) || model[selected[0]].contextMenu.None?
    ensures KeyPressEffects(model, selected, key, modifiers) ==
              if Passes(model, selected[0]) then [ContextMenuBuilt(selected[0])] else []
  {
  }

  /**
    Return or Enter on a single selection does not depend on the selected
    item's menu: replacing the menu, by any other or by none, changes nothing.
  */
  lemma ActivationIgnoresMenu(model: Model, selected: seq<ModelIndex>, key: KeyCode, modifiers: KeyboardModifiers,
                              menu: Option<seq<Action>>)
    requires |selected| == 1 && IsActivationKey(key) && selected[0] in model
    ensures var changed := model[selected[0] := model[selected[0]].(contextMenu := menu)];
            KeyPressEffects(changed, selected, key, modifiers) == KeyPressEffects(model, selected, key, modifiers)
  {
  }

  /**
    First match wins: when two actions of the selected item's menu carry the
    same shortcut and it is the one the key press normalises to, the first
    is triggered and the second is not.
  */
  lemma FirstOfEqualShortcutsWins(model: Model, index: ModelIndex, key: KeyCode, modifiers: KeyboardModifiers,
                                  a: Action, b: Action)
    requires !IsActivationKey(key) && Passes(model, index)
    requires model[index].contextMenu == Some([a, b])
    requires a.shortcut == b.shortcut == Normalise(key, modifiers) && a.shortcut.Single?
    ensures Triggered(index, 0) in KeyPressEffects(model, [index], key, modifiers)
    ensures Triggered(index, 1) !in KeyPressEffects(model, [index], key, modifiers)
  {
  }

  /** A locked item is inert: no dispatch that keeps to the gate addresses it. */
  lemma LockedItemIsInert(model: Model, effects: seq<Effect>, index: ModelIndex)
    requires OnlyOpenItems(model, effects)
    requires index in model && model[index].locked
    ensures forall e | e in effects && !e.DefaultHandling? :: e.index != index
  {
  }

  /**
    The tree view widget. `model` is the tree the view shows; the node layer
    may replace it between events (that is how an item becomes locked or
    unlocked), but no dispatch changes it. `trace` collects the effects of
    the dispatches in order.
  */
  class TreeView {
    var model: Model
    var trace: seq<Effect>

    constructor (model: Model)
      ensures this.model == model && trace == []
    {
      this.model := model;
      trace := [];
    }

    method ProcessClick(index: ModelIndex)
      modifies this`trace
      ensures trace == old(trace) + ClickEffects(model, index)
    {
      var item := PreProcessEvent(model, index);
      if item.None? {
        return;
      }
      trace := trace + [OnClick(index)];
      if item.value.clickExpands {
        trace := trace + [Expand(index)];
      }
    }

    method ProcessWheelClick(index: ModelIndex)
      modifies this`trace
      ensures trace == old(trace) + WheelClickEffects(model, index)
    {
      var item := PreProcessEvent(model, index);
      if item.None? {
        return;
      }
      trace := trace + [WheelClick(index)];
    }

    method ProcessContextMenu(point: Point, cursor: Point, indexAt: Point -> ModelIndex, mapToGlobal: Point -> Point)
      modifies this`trace
      ensures trace == old(trace) + ContextMenuEffects(model, point, cursor, indexAt(point), mapToGlobal(point))
    {
      if point.IsNull() || cursor.IsNull() {
        return;
      }
      var index := indexAt(point);
      var item := PreProcessEvent(model, index);
      if item.None? {
        return;
      }
      trace := trace + [ContextMenuBuilt(index)];
      var menu := item.value.contextMenu;
      if menu.None? {
        return;
      }
      trace := trace + [MenuShown(index, mapToGlobal(point))];
    }

    method KeyPressEvent(selected: seq<ModelIndex>, key: KeyCode, modifiers: KeyboardModifiers)
      modifies this`trace
      ensures trace == old(trace) + KeyPressEffects(model, selected, key, modifiers)
    {
      if |selected| != 1 {
        trace := trace + [DefaultHandling];
        return;
      }
      if key == KEY_RETURN || key == KEY_ENTER {
        ProcessClick(selected[0]);
        return;
      }
      var index := selected[0];
      var item := PreProcessEvent(model, index);
      var shortcut := KeySequenceFromKeyEvent(key, modifiers);
      if item.None? {
        return;
      }
      trace := trace + [ContextMenuBuilt(index)];
      var menu := item.value.contextMenu;
      if menu.None? {
        return;
      }
      var actions := menu.value;
      var i := 0;
      while i < |actions|
        invariant 0 <= i <= |actions|
        invariant forall j :: 0 <= j < i ==> !Selects(actions[j], shortcut)
        invariant trace == old(trace) + [ContextMenuBuilt(index)]
      {
        if !(actions[i].shortcut.Count() == 0) && Matches(actions[i].shortcut, shortcut) != NoMatch {
          trace := trace + [Triggered(index, i)];
          return;
        }
        i := i + 1;
      }
      trace := trace + [DefaultHandling];
    }

    method MousePressEvent(button: MouseButton, pos: Point, indexAt: Point -> ModelIndex)
      modifies this`trace
      ensures trace == old(trace) + MousePressEffects(model, button, indexAt(pos))
    {
      if button == MiddleButton {
        ProcessWheelClick(indexAt(pos));
      }
      trace := trace + [DefaultHandling];
    }
  }
}
