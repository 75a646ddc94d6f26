/**
  Key codes, modifier flags and single-chord key sequences as the tree view
  uses them, following the numbering of Qt 5 (`Qt::Key`, `Qt::KeyboardModifier`
  and the `Qt::SHIFT`/`CTRL`/`ALT`/`META` flags), and the normaliser that turns a
  key event into the shortcut it stands for.
*/
module KeySequences {

  // Every Qt::Key value lies below this bound; the modifier flags lie above it.
  const KEY_RANGE: int := 0x0200_0000

  const KEY_UNKNOWN: int := 0x01ff_ffff
  const KEY_RETURN: int := 0x0100_0004
  const KEY_ENTER: int := 0x0100_0005
  const KEY_SHIFT: int := 0x0100_0020
  const KEY_CONTROL: int := 0x0100_0021
  const KEY_META: int := 0x0100_0022
  const KEY_ALT: int := 0x0100_0023

  /** The value `QKeyEvent::key()` reports: one of the Qt::Key codes. */
  type KeyCode = k: int | 0 <= k < KEY_RANGE

  /** `Qt::KeyboardModifiers`: a flag word, of which the normaliser reads four bits. */
  type KeyboardModifiers = bv32

  datatype Modifier = Shift | Control | Alt | Meta

  const ALL_MODIFIERS: set<Modifier> := {Shift, Control, Alt, Meta}

  /** The `Qt::KeyboardModifier` bit reporting that `m` is held. */
  function ModifierBit(m: Modifier): bv32
  {
    match m
    case Shift => 0x0200_0000
    case Control => 0x0400_0000
    case Alt => 0x0800_0000
    case Meta => 0x1000_0000
  }

  /** The flag (`Qt::SHIFT`, `Qt::CTRL`, `Qt::ALT`, `Qt::META`) added to a key code for `m`. */
  function KeyFlag(m: Modifier): int
  {
    match m
    case Shift => 0x0200_0000
    case Control => 0x0400_0000
    case Alt => 0x0800_0000
    case Meta => 0x1000_0000
  }

  predicate IsHeld(modifiers: KeyboardModifiers, m: Modifier)
  {
    modifiers & ModifierBit(m) != 0
  }

  /** The modifiers among Shift, Control, Alt and Meta that the flag word reports held. */
  function HeldModifiers(modifiers: KeyboardModifiers): set<Modifier>
  {
    set m | m in ALL_MODIFIERS && IsHeld(modifiers, m)
  }

  /**
    A key sequence of at most one chord. `QKeySequence` can hold four chords,
    but every sequence the tree view builds or compares has one or none.
  */
  datatype KeySequence = Empty | Single(code: int)
  {
    function Count(): nat
    {
      if Empty? then 0 else 1
    }
  }

  /** `QKeySequence(int)`: a zero key slot counts as absent, so 0 gives the empty sequence. */
  function FromInt(k: int): (r: KeySequence)
    ensures r.Single? <==> k != 0
    ensures r.Single? ==> r.code == k
  {
    if k == 0 then Empty else Single(k)
  }

  /** Result of `QKeySequence::matches`. */
  datatype SequenceMatch = NoMatch | PartialMatch | ExactMatch

  /**
    `shortcut.matches(key)` for sequences of at most one chord: no match when
    the shortcut is longer than the key or a chord differs, an exact match when
    the lengths agree, a partial match otherwise. An empty shortcut is a prefix
    of everything and so never reports NoMatch.
  */
  function Matches(shortcut: KeySequence, key: KeySequence): (r: SequenceMatch)
    ensures shortcut.Empty? ==> r != NoMatch
    ensures shortcut.Single? ==> (r != NoMatch <==> key == shortcut)
    ensures r == ExactMatch <==> key == shortcut
  {
    if shortcut.Count() > key.Count() then NoMatch
    else if shortcut.Single? && shortcut.code != key.code then NoMatch
    else if shortcut.Count() == key.Count() then ExactMatch
    else PartialMatch
  }

  /** Keys that the normaliser maps to "no shortcut" whatever the modifiers. */
  predicate IsNoShortcutKey(key: KeyCode)
  {
    key == KEY_UNKNOWN
    || key == KEY_CONTROL || key == KEY_SHIFT || key == KEY_ALT || key == KEY_META
  }

  /** The base key of a chord value. */
  function ChordKey(c: int): int
  {
    c % KEY_RANGE
  }

  /** The modifiers whose flag bit is set in a chord value. */
  function ChordModifiers(c: int): set<Modifier>
  {
    set m | m in ALL_MODIFIERS && (c / KeyFlag(m)) % 2 == 1
  }

  function FlagIf(modifiers: KeyboardModifiers, m: Modifier): int
  {
    if IsHeld(modifiers, m) then KeyFlag(m) else 0
  }

  /**
    The shortcut a key event stands for: nothing for an unknown key or a lone
    Ctrl, Shift, Alt or Meta press; otherwise the key code plus the flag of
    every held modifier. The chord splits back into exactly that key and those
    modifiers, and it fits a 32-bit signed int.
  */
  function Normalise(key: KeyCode, modifiers: KeyboardModifiers): (r: KeySequence)
    ensures r.Empty? <==> IsNoShortcutKey(key) || (key == 0 && HeldModifiers(modifiers) == {})
    ensures r.Single? ==> 0 < r.code < 0x2000_0000
    ensures r.Single? ==> ChordKey(r.code) == key && ChordModifiers(r.code) == HeldModifiers(modifiers)
  {
    if IsNoShortcutKey(key) then Empty
    else
      var c := key + FlagIf(modifiers, Shift) + FlagIf(modifiers, Control)
                   + FlagIf(modifiers, Alt) + FlagIf(modifiers, Meta);
      ChordDecodes(key, modifiers);
      FromInt(c)
  }

  /** The arithmetic behind decoding: the key and each flag bit can be read back from the sum. */
  lemma ChordArithmetic(key: int, s: int, t: int, u: int, v: int)
    requires 0 <= key < KEY_RANGE
    requires 0 <= s <= 1 && 0 <= t <= 1 && 0 <= u <= 1 && 0 <= v <= 1
    ensures var c := key + s * 0x0200_0000 + t * 0x0400_0000 + u * 0x0800_0000 + v * 0x1000_0000;
      && c % 0x0200_0000 == key
      && (c / 0x0200_0000) % 2 == s
      && (c / 0x0400_0000) % 2 == t
      && (c / 0x0800_0000) % 2 == u
      && (c / 0x1000_0000) % 2 == v
  {
  }

  function Bit(modifiers: KeyboardModifiers, m: Modifier): int
  {
    if IsHeld(modifiers, m) then 1 else 0
  }

  lemma ChordDecodes(key: KeyCode, modifiers: KeyboardModifiers)
    ensures var c := key + FlagIf(modifiers, Shift) + FlagIf(modifiers, Control)
                         + FlagIf(modifiers, Alt) + FlagIf(modifiers, Meta);
      && 0 <= c < 0x2000_0000
      && (c == 0 <==> key == 0 && HeldModifiers(modifiers) == {})
      && ChordKey(c) == key
      && ChordModifiers(c) == HeldModifiers(modifiers)
  {
    var s, t, u, v := Bit(modifiers, Shift), Bit(modifiers, Control), Bit(modifiers, Alt), Bit(modifiers, Meta);
    var c := key + FlagIf(modifiers, Shift) + FlagIf(modifiers, Control)
                 + FlagIf(modifiers, Alt) + FlagIf(modifiers, Meta);
    assert c == key + s * 0x0200_0000 + t * 0x0400_0000 + u * 0x0800_0000 + v * 0x1000_0000;
    ChordArithmetic(key, s, t, u, v);
    forall m | m in ALL_MODIFIERS
      ensures m in ChordModifiers(c) <==> m in HeldModifiers(modifiers)
    {
    }
    if key == 0 && HeldModifiers(modifiers) == {} {
      assert Shift !in HeldModifiers(modifiers) && Control !in HeldModifiers(modifiers);
      assert Alt !in HeldModifiers(modifiers) && Meta !in HeldModifiers(modifiers);
    }
  }

  /**
    `keySequenceFromKeyEvent`: reject the unknown key and the lone modifier
    keys, then add one flag per held modifier to the key code, step by step.
  */
  method KeySequenceFromKeyEvent(key: KeyCode, modifiers: KeyboardModifiers) returns (s: KeySequence)
    ensures s == Normalise(key, modifiers)
  {
    var keyInt: int := key;
    if key == KEY_UNKNOWN {
      return Empty;
    }
    if key == KEY_CONTROL || key == KEY_SHIFT || key == KEY_ALT || key == KEY_META {
      return Empty;
    }
    if IsHeld(modifiers, Shift) {
      keyInt := keyInt + KeyFlag(Shift);
    }
    if IsHeld(modifiers, Control) {
      keyInt := keyInt + KeyFlag(Control);
    }
    if IsHeld(modifiers, Alt) {
      keyInt := keyInt + KeyFlag(Alt);
    }
    if IsHeld(modifiers, Meta) {
      keyInt := keyInt + KeyFlag(Meta);
    }
    s := FromInt(keyInt);
  }

  /**
    For a key that can start a shortcut, two flag words give the same shortcut
    exactly when they hold the same Shift, Control, Alt and Meta modifiers.
  */
  lemma NormaliseSeparatesModifiers(key: KeyCode, m1: KeyboardModifiers, m2: KeyboardModifiers)
    requires !IsNoShortcutKey(key)
    ensures Normalise(key, m1) == Normalise(key, m2) <==> HeldModifiers(m1) == HeldModifiers(m2)
  {
    if HeldModifiers(m1) == HeldModifiers(m2) {
      forall m | m in ALL_MODIFIERS ensures IsHeld(m1, m) == IsHeld(m2, m) {
        assert IsHeld(m1, m) <==> m in HeldModifiers(m1);
      }
    }
  }

  /** A shortcut built from a lone modifier press or the unknown key is matched by no non-empty shortcut. */
  lemma NoShortcutKeyMatchesNothing(key: KeyCode, modifiers: KeyboardModifiers, shortcut: KeySequence)
    requires IsNoShortcutKey(key) && shortcut.Single?
    ensures Matches(shortcut, Normalise(key, modifiers)) == NoMatch
  {
  }
}
