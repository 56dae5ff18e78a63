/**
 * The navigation state machine of the ARM9 boot menu: the current and next
 * menu, the bounded stack of menus to go back to, the pending menu event,
 * and the cursor over a menu's options.
 *
 * The transitions are first given as functions on a `NavState` value; the
 * class `Globals` holds the same data as the C globals do (the back stack is
 * an array of eight entries written in place) and its methods are proved to
 * perform exactly those transitions. A panic() is a `halted` result with
 * nothing changed, since nothing runs after it.
 */
module Menu {
  import opened Wrappers

  /** The capacity of `menu_previous_states`. */
  const StackSize: int := 8

  /**
   * The menu states. `Exit` and `Previous` are the two sentinels that
   * menuSetReturnToState treats specially.
   */
  datatype MenuState =
    | Main | NandMenu | NandBackup | NandRestore | NandFlashFirm | OptionsMenu
    | FirmLaunch | FirmLaunchSettings | Browser | Update | Credits
    | Exit | Previous

  /** The values of `menu_event_state`. */
  datatype MenuEvent = NoEvent | PowerPressed | HomePressed | StateChange | SdCardInserted | SdCardRemoved

  /** The menu globals as one value. */
  datatype NavState = NavState(state: MenuState, next: MenuState, previous: seq<MenuState>, count: int, event: MenuEvent)

  /** The stack has its eight slots and its count is within them. */
  predicate WellFormed(g: NavState)
  {
    |g.previous| == StackSize && 0 <= g.count <= StackSize
  }

  /** The live part of the back stack, oldest entry first. */
  function Stack(g: NavState): seq<MenuState>
    requires WellFormed(g)
  {
    g.previous[..g.count]
  }

  // ---------------------------------------------------------------------------
  // menuSetEnterNextState
  // ---------------------------------------------------------------------------

  /**
   * Entering a submenu: the current menu is pushed and `s` becomes the next
   * menu. `None` is the panic on a full stack.
   */
  function EnterNext(g: NavState, s: MenuState): (r: Option<NavState>)
    requires WellFormed(g)
    ensures r.None? <==> g.count >= StackSize
    ensures r.Some? ==> WellFormed(r.value) && Stack(r.value) == Stack(g) + [g.state]
    ensures r.Some? ==> r.value.previous[g.count + 1..] == g.previous[g.count + 1..]
    ensures r.Some? ==> r.value.state == g.state && r.value.next == s && r.value.event == StateChange
  {
    if g.count >= StackSize then None
    else Some(g.(previous := g.previous[g.count := g.state], count := g.count + 1, next := s, event := StateChange))
  }

  // ---------------------------------------------------------------------------
  // menuSetReturnToState
  // ---------------------------------------------------------------------------

  /**
   * The smallest index in `lo..top` whose entry is `s`, or `dflt` when there
   * is none.
   */
  function FirstMatch(previous: seq<MenuState>, s: MenuState, lo: int, top: int, dflt: int): (d: int)
    requires 1 <= lo && top < |previous|
    ensures (exists j :: lo <= j <= top && previous[j] == s) ==>
              lo <= d <= top && previous[d] == s && forall j :: lo <= j < d ==> previous[j] != s
    ensures (forall j :: lo <= j <= top ==> previous[j] != s) ==> d == dflt
    decreases top - lo
  {
    if lo > top then dflt
    else if previous[lo] == s then lo
    else FirstMatch(previous, s, lo + 1, top, dflt)
  }

  /**
   * Going back: to the previous menu (refused when only the root entry is
   * left), out of the menu altogether, or to an explicit menu, cutting the
   * stack down to that menu's lowest entry above the root. The scan for an
   * explicit menu starts at `previous[count]`, one past the stack top, so it
   * is only defined while the stack is not full.
   */
  function ReturnTo(g: NavState, s: MenuState): (r: (bool, NavState))
    requires WellFormed(g)
    requires s != Previous && s != Exit ==> g.count < StackSize
    ensures WellFormed(r.1) && r.1.state == g.state && r.1.previous == g.previous
    ensures !r.0 <==> s == Previous && g.count <= 1
    ensures !r.0 ==> r.1 == g
    ensures r.0 ==> r.1.event == StateChange && 0 <= r.1.count <= g.count
    ensures r.0 && s == Previous ==> r.1.count == g.count - 1 && r.1.next == g.previous[g.count - 1]
    ensures s == Exit ==> r.1.count == 0 && r.1.next == Exit
    ensures s != Previous && s != Exit ==> r.1.next == s
    ensures s != Previous && s != Exit && r.1.count != g.count ==>
              1 <= r.1.count && g.previous[r.1.count] == s &&
              forall j :: 1 <= j < r.1.count ==> g.previous[j] != s
    ensures s != Previous && s != Exit && (exists j :: 1 <= j < g.count && g.previous[j] == s) ==>
              r.1.count < g.count
  {
    if s == Previous then
      if g.count <= 1 then (false, g)
      else (true, g.(next := g.previous[g.count - 1], count := g.count - 1, event := StateChange))
    else if s == Exit then
      (true, g.(next := Exit, count := 0, event := StateChange))
    else
      (true, g.(next := s, count := FirstMatch(g.previous, s, 1, g.count, g.count), event := StateChange))
  }

  /**
   * Entering a submenu and then going back to the previous one restores the
   * stack and makes the menu current at the push the next one.
   */
  lemma EnterThenPrevious(g: NavState, s: MenuState)
    requires WellFormed(g) && 1 <= g.count < StackSize
    ensures var r := ReturnTo(EnterNext(g, s).value, Previous);
      r.0 && r.1.count == g.count && Stack(r.1) == Stack(g) && r.1.next == g.state
  {
    var e := EnterNext(g, s).value;
    assert Stack(e)[g.count] == g.state;
    assert Stack(e)[..g.count] == Stack(g);
  }

  // ---------------------------------------------------------------------------
  // Sequences of enter and return calls
  // ---------------------------------------------------------------------------

  /** A call that changes the stack. */
  datatype Nav = Enter(target: MenuState) | Return(target: MenuState)

  /**
   * One call; `None` when it panics, or when it is a return to an explicit
   * menu with a full stack, whose effect is undefined.
   */
  function Step(g: NavState, op: Nav): (r: Option<NavState>)
    requires WellFormed(g)
    ensures r.Some? ==> WellFormed(r.value)
  {
    match op
    case Enter(s) => EnterNext(g, s)
    case Return(s) =>
      if s != Previous && s != Exit && g.count >= StackSize then None
      else Some(ReturnTo(g, s).1)
  }

  /** A run of calls, stopping at the first that does not complete. */
  function Run(g: NavState, ops: seq<Nav>): (r: Option<NavState>)
    requires WellFormed(g)
    ensures r.Some? ==> WellFormed(r.value)
    decreases |ops|
  {
    if ops == [] then Some(g)
    else match Step(g, ops[0])
      case None => None
      case Some(g1) => Run(g1, ops[1..])
  }

  /** A call that never leaves the menu altogether. */
  predicate KeepsRoot(op: Nav)
  {
    op != Return(Exit)
  }

  /**
   * The root entry stays: unless the menu is left through `Exit`, a stack
   * that holds at least one entry keeps it at the bottom.
   */
  lemma {:induction false} RunKeepsRoot(g: NavState, ops: seq<Nav>)
    requires WellFormed(g) && g.count >= 1
    requires forall i :: 0 <= i < |ops| ==> KeepsRoot(ops[i])
    ensures Run(g, ops).Some? ==> Run(g, ops).value.count >= 1 && Run(g, ops).value.previous[0] == g.previous[0]
    decreases |ops|
  {
    if ops != [] {
      assert KeepsRoot(ops[0]);
      match Step(g, ops[0])
      case None =>
      case Some(g1) =>
        assert g1.count >= 1 && g1.previous[0] == g.previous[0];
        RunKeepsRoot(g1, ops[1..]);
    }
  }

  // ---------------------------------------------------------------------------
  // menuActState
  // ---------------------------------------------------------------------------

  /**
   * Acting on the pending event. The power-off and SD-card effects act on
   * hardware and are not part of the model; on the menu globals those events
   * only clear the event.
   */
  function Act(g: NavState): (r: NavState)
    requires WellFormed(g)
    requires g.event == HomePressed ==> g.count < StackSize
    ensures WellFormed(r) && r.event == NoEvent && r.previous == g.previous
    ensures g.event == StateChange ==> r.state == g.next && r.next == g.next && r.count == g.count
    ensures g.event == HomePressed ==> r.state == g.state && r.next == Main && r.count <= g.count
    ensures g.event == HomePressed && r.count != g.count ==>
              1 <= r.count && g.previous[r.count] == Main && forall j :: 1 <= j < r.count ==> g.previous[j] != Main
    ensures g.event == HomePressed && (exists j :: 1 <= j < g.count && g.previous[j] == Main) ==>
              r.count < g.count
    ensures g.event != StateChange && g.event != HomePressed ==> r == g.(event := NoEvent)
  {
    match g.event
    case HomePressed => ReturnTo(g, Main).1.(event := NoEvent)
    case StateChange => g.(state := g.next, event := NoEvent)
    case _ => g.(event := NoEvent)
  }

  // ---------------------------------------------------------------------------
  // menuUpdateGlobalState
  // ---------------------------------------------------------------------------

  /** The reply words the ARM11 sends to the menu. */
  datatype Reply = HomePressedReply | HomeHeldReply | PowerPressedReply | UnknownReply(code: bv32)

  /** The event a reply word stands for; `None` is the panic on an unknown one. */
  function ReplyEvent(rep: Reply): (e: Option<MenuEvent>)
    ensures e.None? <==> rep.UnknownReply?
    ensures rep.HomePressedReply? || rep.HomeHeldReply? ==> e == Some(HomePressed)
    ensures rep.PowerPressedReply? ==> e == Some(PowerPressed)
  {
    match rep
    case HomePressedReply => Some(HomePressed)
    case HomeHeldReply => Some(HomePressed)
    case PowerPressedReply => Some(PowerPressed)
    case UnknownReply(_) => None
  }

  /**
   * The event left after reading `replies` in order, starting from `acc`;
   * `None` when one of them is unknown. Only the two events a reply can
   * give ever replace `acc`.
   */
  function Drained(replies: seq<Reply>, acc: MenuEvent): (r: Option<MenuEvent>)
    ensures r.None? ==> replies != []
    ensures r.Some? ==> r.value == acc || r.value == HomePressed || r.value == PowerPressed
    decreases |replies|
  {
    if replies == [] then Some(acc)
    else match ReplyEvent(replies[0])
      case None => None
      case Some(e) => Drained(replies[1..], e)
  }

  /** Draining panics exactly when some reply is unknown. */
  lemma {:induction false} DrainedPanics(replies: seq<Reply>, acc: MenuEvent)
    ensures Drained(replies, acc).None? <==> exists i :: 0 <= i < |replies| && replies[i].UnknownReply?
    decreases |replies|
  {
    if replies != [] {
      DrainedPanics(replies[1..], if replies[0].UnknownReply? then acc else ReplyEvent(replies[0]).value);
      if !replies[0].UnknownReply? {
        assert forall i :: 1 <= i < |replies| ==> replies[i] == replies[1..][i - 1];
      }
    }
  }

  /** Otherwise the last reply decides, and no reply leaves the event as it was. */
  lemma {:induction false} DrainedLast(replies: seq<Reply>, acc: MenuEvent)
    requires forall i :: 0 <= i < |replies| ==> !replies[i].UnknownReply?
    ensures replies == [] ==> Drained(replies, acc) == Some(acc)
    ensures replies != [] ==> Drained(replies, acc) == ReplyEvent(replies[|replies| - 1])
    decreases |replies|
  {
    if replies != [] {
      assert !replies[0].UnknownReply?;
      DrainedLast(replies[1..], ReplyEvent(replies[0]).value);
    }
  }

  /**
   * The event menuUpdateGlobalState reports once the replies are drained:
   * a pending menu change overrides everything, then a change in the SD
   * card's presence, then the replies.
   */
  function Resolve(drained: MenuEvent, sdStatus: int, sdActive: bool, state: MenuState, next: MenuState): (e: MenuEvent)
    ensures state != next ==> e == StateChange
    ensures state == next && sdStatus == 0 && sdActive ==> e == SdCardInserted
    ensures state == next && sdStatus != 0 && !sdActive ==> e == SdCardRemoved
    ensures state == next && (sdStatus == 0) == !sdActive ==> e == drained
  {
    if state != next then StateChange
    else if sdStatus == 0 && sdActive then SdCardInserted
    else if sdStatus != 0 && !sdActive then SdCardRemoved
    else drained
  }

  // ---------------------------------------------------------------------------
  // The cursor in enter_menu
  // ---------------------------------------------------------------------------

  /** KEY_DUP: one option up, from the first to the last. */
  function CursorUp(c: int, n: int): (r: int)
    requires 0 <= c < n
    ensures 0 <= r < n
    ensures c == 0 ==> r == n - 1
    ensures c != 0 ==> r == c - 1
  {
    if c == 0 then n - 1 else c - 1
  }

  /** KEY_DDOWN: one option down, from the last to the first. */
  function CursorDown(c: int, n: int): (r: int)
    requires 0 <= c < n
    ensures 0 <= r < n
    ensures c == n - 1 ==> r == 0
    ensures c != n - 1 ==> r == c + 1
  {
    if c == n - 1 then 0 else c + 1
  }

  /** Up then down, or down then up, lands on the same option. */
  lemma UpDownInverse(c: int, n: int)
    requires 0 <= c < n
    ensures CursorDown(CursorUp(c, n), n) == c
    ensures CursorUp(CursorDown(c, n), n) == c
  {
  }

  /** `k` presses of KEY_DDOWN. */
  function DownTimes(c: int, n: int, k: nat): (r: int)
    requires 0 <= c < n
    ensures 0 <= r < n
    decreases k
  {
    if k == 0 then c else CursorDown(DownTimes(c, n, k - 1), n)
  }

  /**
   * KEY_DDOWN walks every option in turn: after `k` presses, `k` at most the
   * option count, the cursor is `k` options further on, wrapping past the
   * last option once; `n` presses bring it back where it started.
   */
  lemma {:induction false} DownTimesWraps(c: int, n: int, k: nat)
    requires 0 <= c < n && k <= n
    ensures DownTimes(c, n, k) == if c + k < n then c + k else c + k - n
    decreases k
  {
    if k > 0 {
      DownTimesWraps(c, n, k - 1);
    }
  }

  /** The keys enter_menu looks at, as pressed in one frame. */
  datatype Keys = Keys(up: bool, down: bool, a: bool, b: bool)

  // ---------------------------------------------------------------------------
  // The globals
  // ---------------------------------------------------------------------------

  /** The globals of menu.c. */
  class Globals {
    /** menu_state */
    var state: MenuState
    /** menu_next_state */
    var next: MenuState
    /** menu_previous_states */
    const previous: array<MenuState>
    /** menu_previous_states_count */
    var count: int
    /** menu_event_state */
    var event: MenuEvent

    ghost predicate Valid()
      reads this
    {
      previous.Length == StackSize && 0 <= count <= StackSize
    }

    /** The globals as a value. */
    ghost function Model(): (g: NavState)
      reads this, previous
      requires Valid()
      ensures WellFormed(g)
    {
      NavState(state, next, previous[..], count, event)
    }

    /** The globals before enter_menu runs: an empty stack and no event. */
    constructor (initial: MenuState)
      ensures Valid() && fresh(previous)
      ensures Model() == NavState(initial, initial, seq(StackSize, _ => initial), 0, NoEvent)
    {
      state, next, count, event := initial, initial, 0, NoEvent;
      previous := new MenuState[StackSize](_ => initial);
      new;
      assert previous[..] == seq(StackSize, _ => initial);
    }

    /** menuSetEnterNextState. */
    method EnterNextState(s: MenuState) returns (halted: bool)
      requires Valid()
      modifies this, previous
      ensures Valid()
      ensures halted <==> EnterNext(old(Model()), s).None?
      ensures halted ==> Model() == old(Model())
      ensures !halted ==> Model() == EnterNext(old(Model()), s).value
    {
      if count >= StackSize {
        return true;
      }
      previous[count] := state;
      count := count + 1;
      next := s;
      event := StateChange;
      return false;
    }

    /** menuSetReturnToState. */
    method ReturnToState(s: MenuState) returns (ok: bool)
      requires Valid()
      requires s != Previous && s != Exit ==> count < StackSize
      modifies this
      ensures Valid()
      ensures (ok, Model()) == ReturnTo(old(Model()), s)
    {
      if s == Previous {
        if count <= 1 {
          return false;
        }
        next := previous[count - 1];
        count := count - 1;
      } else if s == Exit {
        count := 0;
        next := s;
      } else {
        ghost var g := Model();
        var top := count;
        var i := count;
        while i > 0
          invariant 0 <= i <= top
          invariant count == FirstMatch(previous[..], s, i + 1, top, top)
          invariant state == g.state && next == g.next && event == g.event
        {
          if previous[i] == s {
            count := i;
          }
          i := i - 1;
        }
        assert count == FirstMatch(g.previous, s, 1, g.count, g.count);
        next := s;
      }
      event := StateChange;
      return true;
    }

    /** menuActState, on the menu globals. */
    method ActState()
      requires Valid()
      requires event == HomePressed ==> count < StackSize
      modifies this
      ensures Valid()
      ensures Model() == Act(old(Model()))
    {
      match event {
        case HomePressed =>
          var _ := ReturnToState(Main);
        case StateChange =>
          state := next;
        case _ =>
      }
      event := NoEvent;
    }

    /**
     * menuUpdateGlobalState. `replies` are the words PXI_tryRecvWord
     * delivers until it reports none left; `sdStatus` is the recorded SD
     * card status and `sdActive` what the card driver reports now.
     */
    method UpdateGlobalState(replies: seq<Reply>, sdStatus: int, sdActive: bool) returns (halted: bool, ret: MenuEvent)
      requires Valid()
      modifies this`event
      ensures halted <==> Drained(replies, NoEvent).None?
      ensures halted ==> event == old(event)
      ensures !halted ==> ret == Resolve(Drained(replies, NoEvent).value, sdStatus, sdActive, state, next)
      ensures !halted && ret != NoEvent ==> event == ret
      ensures !halted && ret == NoEvent ==> event == old(event)
    {
      var retcode := NoEvent;
      var i := 0;
      while i < |replies|
        invariant 0 <= i <= |replies|
        invariant Drained(replies, NoEvent) == Drained(replies[i..], retcode)
      {
        assert replies[i..][1..] == replies[i + 1..];
        match replies[i] {
          case HomePressedReply =>
            retcode := HomePressed;
          case HomeHeldReply =>
            retcode := HomePressed;
          case PowerPressedReply =>
            retcode := PowerPressed;
          case UnknownReply(_) =>
            return true, retcode;
        }
        i := i + 1;
      }
      if sdStatus == 0 && sdActive {
        retcode := SdCardInserted;
      } else if sdStatus != 0 && !sdActive {
        retcode := SdCardRemoved;
      }
      if state != next {
        retcode := StateChange;
      }
      if retcode != NoEvent {
        event := retcode;
      }
      return false, retcode;
    }

    /**
     * The key handling of enter_menu in a menu with `options`: up and down
     * move the cursor with wrap-around, A enters the selected option and
     * resets the cursor, B goes back and resets the cursor if that
     * succeeded. The first of up, down, A, B that is pressed wins.
     */
    method HandleKeys(options: seq<MenuState>, cursor: int, keys: Keys) returns (halted: bool, newCursor: int)
      requires Valid() && 0 <= cursor < |options|
      modifies this, previous
      ensures Valid() && 0 <= newCursor < |options|
      ensures keys.up ==> !halted && newCursor == CursorUp(cursor, |options|) && Model() == old(Model())
      ensures !keys.up && keys.down ==> !halted && newCursor == CursorDown(cursor, |options|) && Model() == old(Model())
      ensures !keys.up && !keys.down && keys.a ==>
                var r := EnterNext(old(Model()), options[cursor]);
                (halted <==> r.None?) && (r.Some? ==> Model() == r.value && newCursor == 0)
                && (halted ==> Model() == old(Model()))
      ensures !keys.up && !keys.down && !keys.a && keys.b ==>
                var r := ReturnTo(old(Model()), Previous);
                !halted && Model() == r.1 && newCursor == (if r.0 then 0 else cursor)
      ensures !keys.up && !keys.down && !keys.a && !keys.b ==>
                !halted && newCursor == cursor && Model() == old(Model())
    {
      halted, newCursor := false, cursor;
      if keys.up {
        if cursor == 0 {
          newCursor := |options| - 1;
        } else {
          newCursor := cursor - 1;
        }
      } else if keys.down {
        if cursor == |options| - 1 {
          newCursor := 0;
        } else {
          newCursor := cursor + 1;
        }
      } else if keys.a {
        halted := EnterNextState(options[cursor]);
        if !halted {
          newCursor := 0;
        }
      } else if keys.b {
        var ok := ReturnToState(Previous);
        if ok {
          newCursor := 0;
        }
      }
    }
  }
}
