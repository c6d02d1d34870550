/** The game's keyboard layer: the keys pressed in a frame, read against the
    current binding mode, become an ordered list of navigation requests. */
module KeyBinding {

  datatype KeyBindingMode = Navgation | Gaming | Keyboard

  /** The binding resource; the game starts in `Navgation`, both by the
      type's default and by the value the plugin installs. */
  class KeyBindingConfig {
    var mode: KeyBindingMode

    constructor ()
      ensures mode == Navgation
    {
      mode := Navgation;
    }
  }

  datatype KeyCode =
    | ArrowUp | ArrowDown | ArrowLeft | ArrowRight
    | KeyW | KeyS | KeyA | KeyD
    | KeyK | KeyJ | KeyH | KeyL
    | Space | Backspace | Delete | Escape
    | OtherKey(code: nat)

  datatype Direction = North | South | West | East

  datatype NavRequest = Move(direction: Direction) | Action | Cancel

  /** A key together with the direction it moves the focus in. */
  datatype MoveBinding = MoveBinding(key: KeyCode, direction: Direction)

  const ARROW_KEYS: seq<MoveBinding> :=
    [MoveBinding(ArrowUp, North), MoveBinding(ArrowDown, South), MoveBinding(ArrowLeft, West), MoveBinding(ArrowRight, East)]

  const WSAD_KEYS: seq<MoveBinding> :=
    [MoveBinding(KeyW, North), MoveBinding(KeyS, South), MoveBinding(KeyA, West), MoveBinding(KeyD, East)]

  const KJHL_KEYS: seq<MoveBinding> :=
    [MoveBinding(KeyK, North), MoveBinding(KeyJ, South), MoveBinding(KeyH, West), MoveBinding(KeyL, East)]

  /** Any of these keys confirms while gaming. */
  const GAMING_ACTION_KEYS: set<KeyCode> := {Space, Backspace, Delete, Escape}

  /** The move one binding sends: its direction when its key is pressed. */
  function MoveOf(b: MoveBinding, pressed: set<KeyCode>): seq<NavRequest> {
    if b.key in pressed then [Move(b.direction)] else []
  }

  /** The moves a table of bindings sends for the keys just pressed, in the
      table's order. */
  function MovesFor(bindings: seq<MoveBinding>, pressed: set<KeyCode>): seq<NavRequest> {
    if bindings == [] then []
    else MoveOf(bindings[0], pressed) + MovesFor(bindings[1..], pressed)
  }

  /** The buffer after the moves of `bindings` are sent onto `requests` one
      binding at a time, in the order the `move_by_*` functions send them.
      `MovesFor` says which moves a table sends; this function says how the
      buffer grows while they are sent, and `SendMovesAppends` proves the two
      agree. */
  function SendMoves(requests: seq<NavRequest>, bindings: seq<MoveBinding>, pressed: set<KeyCode>): seq<NavRequest>
    decreases |bindings|
  {
    if bindings == [] then requests
    else SendMoves(requests + MoveOf(bindings[0], pressed), bindings[1..], pressed)
  }

  /** Everything a frame sends in a mode: the arrow moves first, then what
      the mode adds. */
  function Requests(mode: KeyBindingMode, pressed: set<KeyCode>): seq<NavRequest> {
    var arrows := MovesFor(ARROW_KEYS, pressed);
    match mode
    case Navgation =>
      arrows + (if Space in pressed then [Action] else []) + (if Delete in pressed then [Cancel] else [])
      + MovesFor(WSAD_KEYS, pressed) + MovesFor(KJHL_KEYS, pressed)
    case Gaming => arrows + (if pressed * GAMING_ACTION_KEYS != {} then [Action] else [])
    case Keyboard => arrows
  }

  /** Sends the moves of the pressed arrow keys. */
  method MoveByArrow(requests: seq<NavRequest>, pressed: set<KeyCode>) returns (r: seq<NavRequest>)
    ensures r == requests + MovesFor(ARROW_KEYS, pressed)
  {
    r := requests;
    if ArrowUp in pressed {
      r := r + [Move(North)];
    }
    assert r == requests + MoveOf(ARROW_KEYS[0], pressed);
    if ArrowDown in pressed {
      r := r + [Move(South)];
    }
    assert r == requests + MoveOf(ARROW_KEYS[0], pressed) + MoveOf(ARROW_KEYS[1], pressed);
    if ArrowLeft in pressed {
      r := r + [Move(West)];
    }
    assert r == requests + MoveOf(ARROW_KEYS[0], pressed) + MoveOf(ARROW_KEYS[1], pressed) + MoveOf(ARROW_KEYS[2], pressed);
    if ArrowRight in pressed {
      r := r + [Move(East)];
    }
    assert r == requests + MoveOf(ARROW_KEYS[0], pressed) + MoveOf(ARROW_KEYS[1], pressed) + MoveOf(ARROW_KEYS[2], pressed) + MoveOf(ARROW_KEYS[3], pressed);
    SendUnfold4(requests, ARROW_KEYS, pressed);
    SendMovesAppends(requests, ARROW_KEYS, pressed);
  }

  /** Sends the moves of the pressed W/S/A/D keys, aliases of the arrows. */
  method MoveByWsad(requests: seq<NavRequest>, pressed: set<KeyCode>) returns (r: seq<NavRequest>)
    ensures r == requests + MovesFor(WSAD_KEYS, pressed)
  {
    r := requests;
    if KeyW in pressed {
      r := r + [Move(North)];
    }
    assert r == requests + MoveOf(WSAD_KEYS[0], pressed);
    if KeyS in pressed {
      r := r + [Move(South)];
    }
    assert r == requests + MoveOf(WSAD_KEYS[0], pressed) + MoveOf(WSAD_KEYS[1], pressed);
    if KeyA in pressed {
      r := r + [Move(West)];
    }
    assert r == requests + MoveOf(WSAD_KEYS[0], pressed) + MoveOf(WSAD_KEYS[1], pressed) + MoveOf(WSAD_KEYS[2], pressed);
    if KeyD in pressed {
      r := r + [Move(East)];
    }
    assert r == requests + MoveOf(WSAD_KEYS[0], pressed) + MoveOf(WSAD_KEYS[1], pressed) + MoveOf(WSAD_KEYS[2], pressed) + MoveOf(WSAD_KEYS[3], pressed);
    SendUnfold4(requests, WSAD_KEYS, pressed);
    SendMovesAppends(requests, WSAD_KEYS, pressed);
  }

  /** Sends the moves of the pressed K/J/H/L keys, aliases of the arrows. */
  method MoveByKjhl(requests: seq<NavRequest>, pressed: set<KeyCode>) returns (r: seq<NavRequest>)
    ensures r == requests + MovesFor(KJHL_KEYS, pressed)
  {
    r := requests;
    if KeyK in pressed {
      r := r + [Move(North)];
    }
    assert r == requests + MoveOf(KJHL_KEYS[0], pressed);
    if KeyJ in pressed {
      r := r + [Move(South)];
    }
    assert r == requests + MoveOf(KJHL_KEYS[0], pressed) + MoveOf(KJHL_KEYS[1], pressed);
    if KeyH in pressed {
      r := r + [Move(West)];
    }
    assert r == requests + MoveOf(KJHL_KEYS[0], pressed) + MoveOf(KJHL_KEYS[1], pressed) + MoveOf(KJHL_KEYS[2], pressed);
    if KeyL in pressed {
      r := r + [Move(East)];
    }
    assert r == requests + MoveOf(KJHL_KEYS[0], pressed) + MoveOf(KJHL_KEYS[1], pressed) + MoveOf(KJHL_KEYS[2], pressed) + MoveOf(KJHL_KEYS[3], pressed);
    SendUnfold4(requests, KJHL_KEYS, pressed);
    SendMovesAppends(requests, KJHL_KEYS, pressed);
  }

  /** The requests of one frame, sent one by one. */
  method HandleKeyBinding(config: KeyBindingConfig, pressed: set<KeyCode>) returns (requests: seq<NavRequest>)
    ensures requests == Requests(config.mode, pressed)
  {
    requests := MoveByArrow([], pressed);
    assert requests == MovesFor(ARROW_KEYS, pressed);
    match config.mode {
      case Navgation =>
        if Space in pressed {
          requests := requests + [Action];
        }
        if Delete in pressed {
          requests := requests + [Cancel];
        }
        assert requests == MovesFor(ARROW_KEYS, pressed) + (if Space in pressed then [Action] else [])
          + (if Delete in pressed then [Cancel] else []);
        requests := MoveByWsad(requests, pressed);
        requests := MoveByKjhl(requests, pressed);
      case Gaming =>
        if pressed * GAMING_ACTION_KEYS != {} {
          requests := requests + [Action];
        }
      case Keyboard =>
    }
  }

  lemma Unfold4(b: seq<MoveBinding>, pressed: set<KeyCode>)
    requires |b| == 4
    ensures MovesFor(b, pressed) == MoveOf(b[0], pressed) + MoveOf(b[1], pressed) + MoveOf(b[2], pressed) + MoveOf(b[3], pressed)
  {
    assert b[3..][0] == b[3] && b[3..][1..] == [];
    assert MovesFor(b[3..], pressed) == MoveOf(b[3], pressed) + MovesFor([], pressed);
    assert b[2..][0] == b[2] && b[2..][1..] == b[3..];
    assert MovesFor(b[2..], pressed) == MoveOf(b[2], pressed) + MovesFor(b[3..], pressed);
    assert b[1..][0] == b[1] && b[1..][1..] == b[2..];
    assert MovesFor(b[1..], pressed) == MoveOf(b[1], pressed) + MovesFor(b[2..], pressed);
  }

  lemma SendUnfold4(requests: seq<NavRequest>, b: seq<MoveBinding>, pressed: set<KeyCode>)
    requires |b| == 4
    ensures SendMoves(requests, b, pressed)
      == requests + MoveOf(b[0], pressed) + MoveOf(b[1], pressed) + MoveOf(b[2], pressed) + MoveOf(b[3], pressed)
  {
    var r1 := requests + MoveOf(b[0], pressed);
    var r2 := r1 + MoveOf(b[1], pressed);
    var r3 := r2 + MoveOf(b[2], pressed);
    assert b[3..][0] == b[3] && b[3..][1..] == [];
    assert SendMoves(r3, b[3..], pressed) == r3 + MoveOf(b[3], pressed);
    assert b[2..][0] == b[2] && b[2..][1..] == b[3..];
    assert SendMoves(r2, b[2..], pressed) == SendMoves(r3, b[3..], pressed);
    assert b[1..][0] == b[1] && b[1..][1..] == b[2..];
    assert SendMoves(r1, b[1..], pressed) == SendMoves(r2, b[2..], pressed);
  }

  /** Sending a table's moves one by one appends exactly the moves the
      table stands for. */
  lemma {:induction false} SendMovesAppends(requests: seq<NavRequest>, bindings: seq<MoveBinding>, pressed: set<KeyCode>)
    ensures SendMoves(requests, bindings, pressed) == requests + MovesFor(bindings, pressed)
    decreases |bindings|
  {
    if bindings != [] {
      var m := MoveOf(bindings[0], pressed);
      SendMovesAppends(requests + m, bindings[1..], pressed);
      assert requests + m + MovesFor(bindings[1..], pressed) == requests + (m + MovesFor(bindings[1..], pressed));
    }
  }

  /** A binding table sends only moves, one per pressed key, each in the
      direction bound to that key. */
  lemma {:induction false} MovesForMeaning(bindings: seq<MoveBinding>, pressed: set<KeyCode>)
    ensures forall r :: r in MovesFor(bindings, pressed) ==>
      r.Move? && exists k :: 0 <= k < |bindings| && bindings[k].key in pressed && r.direction == bindings[k].direction
    ensures |MovesFor(bindings, pressed)| <= |bindings|
    ensures (forall k :: 0 <= k < |bindings| ==> bindings[k].key in pressed) ==> |MovesFor(bindings, pressed)| == |bindings|
  {
    if bindings != [] {
      MovesForMeaning(bindings[1..], pressed);
      forall r | r in MovesFor(bindings, pressed)
        ensures r.Move? && exists k :: 0 <= k < |bindings| && bindings[k].key in pressed && r.direction == bindings[k].direction
      {
        if r in MovesFor(bindings[1..], pressed) {
          var k :| 0 <= k < |bindings[1..]| && bindings[1..][k].key in pressed && r.direction == bindings[1..][k].direction;
          assert bindings[k + 1] == bindings[1..][k];
        } else {
          assert r == Move(bindings[0].direction);
        }
      }
    }
  }

  /** The three tables bind the same directions in the same order, so WSAD
      and KJHL stand in for the arrows key for key. */
  lemma AliasesMatchArrows(pressed: set<KeyCode>)
    ensures MovesFor(WSAD_KEYS, pressed) == MovesFor(ARROW_KEYS, Translate(WSAD_KEYS, pressed))
    ensures MovesFor(KJHL_KEYS, pressed) == MovesFor(ARROW_KEYS, Translate(KJHL_KEYS, pressed))
  {
    Unfold4(ARROW_KEYS, Translate(WSAD_KEYS, pressed));
    Unfold4(ARROW_KEYS, Translate(KJHL_KEYS, pressed));
    Unfold4(WSAD_KEYS, pressed);
    Unfold4(KJHL_KEYS, pressed);
  }

  /** The arrow keys standing in the same places as the pressed keys of a
      four-key table. */
  function Translate(table: seq<MoveBinding>, pressed: set<KeyCode>): (arrows: set<KeyCode>)
    requires |table| == 4
    ensures forall k :: 0 <= k < 4 ==> (ARROW_KEYS[k].key in arrows <==> table[k].key in pressed)
  {
    (if table[0].key in pressed then {ArrowUp} else {}) + (if table[1].key in pressed then {ArrowDown} else {})
    + (if table[2].key in pressed then {ArrowLeft} else {}) + (if table[3].key in pressed then {ArrowRight} else {})
  }

  /** In every mode the arrow moves lead the frame's requests. */
  lemma ArrowsFirst(mode: KeyBindingMode, pressed: set<KeyCode>)
    ensures |MovesFor(ARROW_KEYS, pressed)| <= |Requests(mode, pressed)|
    ensures Requests(mode, pressed)[..|MovesFor(ARROW_KEYS, pressed)|] == MovesFor(ARROW_KEYS, pressed)
  {
  }

  /** While gaming, any of the confirm keys sends exactly one `Action`,
      however many of them are down; nothing sends `Cancel`, and the only
      moves are the arrows'. */
  lemma GamingSendsOneAction(pressed: set<KeyCode>)
    ensures multiset(Requests(Gaming, pressed))[Action] == if pressed * GAMING_ACTION_KEYS != {} then 1 else 0
    ensures Cancel !in Requests(Gaming, pressed)
    ensures forall r :: r in Requests(Gaming, pressed) && r.Move? ==> r in MovesFor(ARROW_KEYS, pressed)
  {
    MovesForMeaning(ARROW_KEYS, pressed);
    NoActionInMoves(ARROW_KEYS, pressed);
  }

  lemma NoActionInMoves(bindings: seq<MoveBinding>, pressed: set<KeyCode>)
    ensures multiset(MovesFor(bindings, pressed))[Action] == 0
    ensures multiset(MovesFor(bindings, pressed))[Cancel] == 0
  {
    MovesForMeaning(bindings, pressed);
  }

  /** In `Keyboard` mode only the arrows are read. */
  lemma KeyboardOnlyArrows(pressed: set<KeyCode>)
    ensures Requests(Keyboard, pressed) == MovesFor(ARROW_KEYS, pressed)
    ensures forall r :: r in Requests(Keyboard, pressed) ==> r.Move?
  {
    MovesForMeaning(ARROW_KEYS, pressed);
  }

  /** Navigating, Space confirms and Delete cancels, once each. */
  lemma NavigationConfirmAndCancel(pressed: set<KeyCode>)
    ensures multiset(Requests(Navgation, pressed))[Action] == if Space in pressed then 1 else 0
    ensures multiset(Requests(Navgation, pressed))[Cancel] == if Delete in pressed then 1 else 0
  {
    var arrows, wsad, kjhl := MovesFor(ARROW_KEYS, pressed), MovesFor(WSAD_KEYS, pressed), MovesFor(KJHL_KEYS, pressed);
    NoActionInMoves(ARROW_KEYS, pressed);
    NoActionInMoves(WSAD_KEYS, pressed);
    NoActionInMoves(KJHL_KEYS, pressed);
    CountsAround(arrows, if Space in pressed then [Action] else [], if Delete in pressed then [Cancel] else [], wsad, kjhl);
  }

  lemma CountsAround(arrows: seq<NavRequest>, confirm: seq<NavRequest>, cancel: seq<NavRequest>, wsad: seq<NavRequest>, kjhl: seq<NavRequest>)
    requires multiset(arrows)[Action] == 0 && multiset(wsad)[Action] == 0 && multiset(kjhl)[Action] == 0
    requires multiset(arrows)[Cancel] == 0 && multiset(wsad)[Cancel] == 0 && multiset(kjhl)[Cancel] == 0
    ensures multiset(arrows + confirm + cancel + wsad + kjhl)[Action] == multiset(confirm)[Action] + multiset(cancel)[Action]
    ensures multiset(arrows + confirm + cancel + wsad + kjhl)[Cancel] == multiset(confirm)[Cancel] + multiset(cancel)[Cancel]
  {
    assert multiset(arrows + confirm + cancel + wsad + kjhl) == multiset(arrows) + multiset(confirm) + multiset(cancel) + multiset(wsad) + multiset(kjhl);
  }
}
