/**
 * The compound dropdown of src/routes/compound/exercise/solution.jsx.
 *
 * The provider owns one flag, `isOpen`, and hands `toggle`, `open` and `close`
 * to its children. Two document listeners feed events back into it: a keydown
 * listener that lives as long as the dropdown is mounted, and a mousedown
 * listener that is attached only while the menu is open. Both listeners are
 * modelled as "attached" flags, and the events they receive as method calls.
 */
module Dropdown {
  import opened Wrappers

  /** One call of a helper handed down through the context. */
  datatype Call = Open | Close | Toggle

  /** The value of `isOpen` after one helper call on a dropdown whose flag is `isOpen`. */
  function Apply(isOpen: bool, c: Call): (r: bool)
    ensures c == Open ==> r
    ensures c == Close ==> !r
    ensures c == Toggle ==> r == !isOpen
  {
    match c
    case Open => true
    case Close => false
    case Toggle => !isOpen
  }

  /** `isOpen` after the calls `calls`, made in order from the state `isOpen`. */
  function Replay(isOpen: bool, calls: seq<Call>): bool
    decreases |calls|
  {
    if calls == [] then isOpen
    else Apply(Replay(isOpen, calls[..|calls| - 1]), calls[|calls| - 1])
  }

  /** The value set by the last `open` or `close` among `calls`, if there is one. */
  function LastAssignment(calls: seq<Call>): Option<bool>
    decreases |calls|
  {
    if calls == [] then None
    else match calls[|calls| - 1]
      case Open => Some(true)
      case Close => Some(false)
      case Toggle => LastAssignment(calls[..|calls| - 1])
  }

  /** The number of `toggle` calls after the last `open` or `close`. */
  function TrailingToggles(calls: seq<Call>): nat
    decreases |calls|
  {
    if calls == [] then 0
    else match calls[|calls| - 1]
      case Toggle => TrailingToggles(calls[..|calls| - 1]) + 1
      case _ => 0
  }

  /**
   * Deterministic replay: after any sequence of helper calls the flag is the
   * value of the last `open`/`close` (or the start value if there was none),
   * flipped once per `toggle` that came after it.
   */
  lemma {:induction false} ReplayIsXorFold(isOpen: bool, calls: seq<Call>)
    ensures Replay(isOpen, calls)
            == (LastAssignment(calls).GetOr(isOpen) != (TrailingToggles(calls) % 2 == 1))
    decreases |calls|
  {
    if calls != [] {
      ReplayIsXorFold(isOpen, calls[..|calls| - 1]);
    }
  }

  /** A sequence of calls that ends with `close` leaves the dropdown closed, whatever came before. */
  lemma EndsClosed(isOpen: bool, calls: seq<Call>)
    requires calls != [] && calls[|calls| - 1] == Close
    ensures !Replay(isOpen, calls)
  {
  }

  /** `close` on a closed dropdown changes nothing, however it came to be closed. */
  lemma CloseIsIdempotent(isOpen: bool, calls: seq<Call>)
    requires !Replay(isOpen, calls)
    ensures Replay(isOpen, calls + [Close]) == Replay(isOpen, calls)
  {
    assert (calls + [Close])[..|calls|] == calls;
  }

  /** What `DropdownMenu` renders: nothing while closed, its children while open. */
  function Menu<T>(isOpen: bool, children: seq<T>): (r: Option<seq<T>>)
    ensures r.None? <==> !isOpen
    ensures r.Some? ==> r.value == children
  {
    if !isOpen then None else Some(children)
  }

  /** How the application's `onSelect` prop behaves when an item is clicked. */
  datatype OnSelect = NoHandler | Returns | Throws

  /** The key that dismisses the menu. */
  const EscapeKey := "Escape"

  class Dropdown {
    var isOpen: bool
    /** The component is mounted; its state setter takes effect only while it is. */
    var mounted: bool
    /** The document "keydown" listener of the first effect is attached. */
    var keyListener: bool
    /** The document "mousedown" listener of the second effect is attached. */
    var mouseListener: bool

    /**
     * The effects have run for the current state: the key listener is attached
     * exactly while mounted, the pointer listener exactly while mounted and open.
     */
    ghost predicate Valid()
      reads this
    {
      keyListener == mounted && mouseListener == (mounted && isOpen)
    }

    /** Mounting: `useState(false)`, then both effects run. */
    constructor ()
      ensures Valid() && mounted
      ensures !isOpen && keyListener && !mouseListener
    {
      isOpen := false;
      mounted := true;
      keyListener := true;
      mouseListener := false;
    }

    /** `setIsOpen(v)` followed by the re-run of the `[isOpen]` effect; ignored once unmounted. */
    method SetIsOpen(v: bool)
      requires Valid()
      modifies this
      ensures Valid() && mounted == old(mounted)
      ensures isOpen == if mounted then v else old(isOpen)
    {
      if mounted {
        isOpen := v;
        mouseListener := v;
      }
    }

    /** The helper `toggle`. */
    method Toggle()
      requires Valid()
      modifies this
      ensures Valid() && mounted == old(mounted)
      ensures isOpen == if mounted then Apply(old(isOpen), Call.Toggle) else old(isOpen)
    {
      SetIsOpen(!isOpen);
    }

    /** The helper `open`. */
    method Open()
      requires Valid()
      modifies this
      ensures Valid() && mounted == old(mounted)
      ensures isOpen == if mounted then Apply(old(isOpen), Call.Open) else old(isOpen)
    {
      SetIsOpen(true);
    }

    /** The helper `close`. */
    method Close()
      requires Valid()
      modifies this
      ensures Valid() && mounted == old(mounted)
      ensures isOpen == if mounted then Apply(old(isOpen), Call.Close) else old(isOpen)
    {
      SetIsOpen(false);
    }

    /** A keydown on the document: only "Escape" reaches `close`, and only while the listener is attached. */
    method KeyDown(key: string)
      requires Valid()
      modifies this
      ensures Valid() && mounted == old(mounted)
      ensures isOpen == if old(keyListener) && key == EscapeKey then false else old(isOpen)
    {
      if keyListener && key == EscapeKey {
        Close();
      }
    }

    /**
     * A mousedown on the document. `menuRendered` says whether the menu's ref
     * points at a rendered element, `targetInMenu` whether the press landed
     * inside it. Only a press outside an existing menu closes the dropdown.
     */
    method MouseDown(menuRendered: bool, targetInMenu: bool)
      requires Valid()
      modifies this
      ensures Valid() && mounted == old(mounted)
      ensures isOpen == if old(mouseListener) && menuRendered && !targetInMenu then false else old(isOpen)
    {
      if mouseListener && menuRendered && !targetInMenu {
        Close();
      }
    }

    /**
     * `DropdownItem.handleClick`: `onSelect(value)` when it is given, then `close()`.
     * `selected` lists the values handed to `onSelect`; when `onSelect` throws,
     * the exception propagates and `close()` is never reached.
     */
    method ItemClick<V>(value: V, onSelect: OnSelect) returns (selected: seq<V>, threw: bool)
      requires Valid()
      modifies this
      ensures Valid() && mounted == old(mounted)
      ensures selected == if onSelect == NoHandler then [] else [value]
      ensures threw <==> onSelect == Throws
      ensures isOpen == if !threw && mounted then false else old(isOpen)
    {
      selected, threw := [], false;
      if onSelect != NoHandler {
        selected := [value];
        if onSelect == Throws {
          threw := true;
          return;
        }
      }
      Close();
    }

    /** Unmounting runs both cleanups: every document listener is removed. */
    method Unmount()
      requires Valid()
      modifies this
      ensures Valid() && !mounted
      ensures !keyListener && !mouseListener && isOpen == old(isOpen)
    {
      mounted := false;
      keyListener := false;
      mouseListener := false;
    }
  }

  /** The effects of events on a dropdown, seen by a client of the class. */
  method EscapeScenario()
  {
    var d := new Dropdown();
    d.Open();
    assert d.isOpen && d.mouseListener;
    d.KeyDown("Escape");
    assert !d.isOpen && !d.mouseListener;
    d.KeyDown("Escape");
    assert !d.isOpen;
    d.Toggle();
    d.MouseDown(true, true);
    assert d.isOpen;
    d.MouseDown(true, false);
    assert !d.isOpen;
    d.Unmount();
    d.KeyDown("Escape");
    d.Toggle();
    assert !d.isOpen && !d.keyListener;
  }
}
