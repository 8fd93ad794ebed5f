/** The record types shared by the wheel, the entry screen and the spin ledger. */
module Types {

  datatype Option<+T> = None | Some(value: T)

  /** The two prize tiers; each has its own catalog and spin-duration profile. */
  datatype SpinMode = REGULER | EXCLUSIVE

  /** The text a mode contributes to a storage key (the string literal type's value). */
  function ModeName(m: SpinMode): string
  {
    match m
    case REGULER => "REGULER"
    case EXCLUSIVE => "EXCLUSIVE"
  }

  /** One wheel segment; `text` is the label drawn on it. `color` and `textColor` only matter for drawing. */
  datatype Prize = Prize(id: int, text: string, color: string, textColor: string)

  /** A completed spin. `prize` is a copy of the prize's label, not a reference to the Prize. */
  datatype SpinResult = SpinResult(
    id: string,
    prize: string,
    timestamp: int,
    mode: SpinMode,
    userName: string,
    spinNumber: int)

  /** An identity; `selectedMode` is absent until the entry screen attaches one. */
  datatype UserProfile = UserProfile(name: string, displayName: string, selectedMode: Option<SpinMode>)
}
