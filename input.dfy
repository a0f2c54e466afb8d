/** The keyboard state one frame's `pygame.key.get_pressed()` gives the game, as booleans. */
module Input {

  /** The keys the game reads by name; `other` stands for any key it never names. */
  datatype Keys = Keys(
    up: bool, down: bool, left: bool, right: bool,
    w: bool, a: bool, s: bool, d: bool,
    enter: bool, space: bool, escape: bool,
    e: bool, f: bool, y: bool, n: bool,
    other: bool)
  {
    /** `any(keys)`: some key of the keyboard is held. */
    predicate Any() {
      up || down || left || right || w || a || s || d ||
      enter || space || escape || e || f || y || n || other
    }

    /** UP or W, the "move selection up" test every menu uses. */
    predicate NavUp() { up || w }

    /** DOWN or S, the "move selection down" test every menu uses. */
    predicate NavDown() { down || s }

    /** RETURN, SPACE or F, the "select" test of the main and pause menus. */
    predicate Select() { enter || space || f }

    /** RETURN or Y, the "yes" of every confirmation dialog. */
    predicate Yes() { enter || y }

    /** ESCAPE or N, the "no" of every confirmation dialog. */
    predicate No() { escape || n }
  }

  /** No key held at all. */
  const NoKeys := Keys(false, false, false, false, false, false, false, false,
                       false, false, false, false, false, false, false, false)
}
