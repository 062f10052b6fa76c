/** The category names and numeric constants the agent uses. The host's
    `AgentConstants` object is not part of this model; each category name is
    taken to be the string spelling of its own identifier, so that distinct
    constants are distinct strings. */
module AgentConstants {
  const CHARACTER_ACTIVATION: string := "CHARACTER_ACTIVATION"
  const ON_FALLING_LEFT: string := "ON_FALLING_LEFT"
  const ON_FALLING_RIGHT: string := "ON_FALLING_RIGHT"
  const ON_MOVE_LEFT: string := "ON_MOVE_LEFT"
  const ON_MOVE_RIGHT: string := "ON_MOVE_RIGHT"
  const ON_MOVE_UP: string := "ON_MOVE_UP"
  const ON_MOVE_DOWN: string := "ON_MOVE_DOWN"
  const ON_RELEASE: string := "ON_RELEASE"
  const ON_PICK: string := "ON_PICK"

  /** The speed a tilt reading keeps when no angular band matches. */
  const UNREGISTERED_CATEGORY_RESOURCE: int := -999

  /** Duration of every tilt step and of the release snap, in milliseconds. */
  const STEP_MS: int := 250

  /** How far above the bottom edge a released character is put back. */
  const RELEASE_MARGIN: int := 50
}
