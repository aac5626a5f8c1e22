/**
  The two mode sets that timelines range over: the board visibility modes of
  tiles, lasers and the player, and the laser activity modes.
*/
module Modes {

  /** Board visibility: out of view, rising, in view, sinking, or waiting to rise/sink. */
  datatype BoardMode = Hidden | Entering | Shown | Exiting | Waiting

  /** Laser activity: idle (and free to track the player), charging, or firing. */
  datatype LaserMode = Ready | Charging | Shooting

  /** A laser that is charging or shooting. */
  predicate Firing(m: LaserMode)
  {
    m == Charging || m == Shooting
  }
}
