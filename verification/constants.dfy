/** The game-wide constants of gameConstants.ts that the modelled code reads,
    with the debug multipliers at their shipped setting (timeouts not stretched). */
module GameConstants {

  const ScreenWidth: int := 1950
  const ScreenHeight: int := 900

  /** A user who sends no input for this long (ms) is disconnected. */
  const LastActionTimeout: int := 120_000
  /** A connection that does not ping for this long (ms) is disconnected. */
  const LastPingTimeout: int := 30_000
  /** How long (ms) a spectator may watch before being disconnected. */
  const TotalSpectatorDuration: int := 30_000

  /** 0.8 of the screen height. */
  const PlayerStartingY: int := ScreenHeight * 8 / 10
  /** 1.4 of the screen width: the horizontal span a client is sent. */
  const ScreenRange: int := ScreenWidth * 14 / 10
  /** Half the span, on each side of the viewer. */
  const HalfScreenRange: int := ScreenRange / 2

  /** Milliseconds per server tick. */
  const ServerTickRate: int := 150
  const ServerVersion: int := 9

  /** The fractional constants are exact: no rounding hides in them. */
  lemma ConstantsExact()
    ensures PlayerStartingY * 10 == ScreenHeight * 8 && PlayerStartingY == 720
    ensures ScreenRange * 10 == ScreenWidth * 14 && ScreenRange == 2730
    ensures HalfScreenRange * 2 == ScreenRange && HalfScreenRange == 1365
  {
  }
}
