/** Playing-field constants and the three difficulty profiles of the game canvas. */
module Config {

  const CanvasWidth: real := 480.0
  const CanvasHeight: real := 640.0
  /** Every pipe has this width; scoring and retirement use it directly. */
  const PipeWidth: real := 52.0
  /** Height of the ground band at the bottom of the canvas. */
  const GroundHeight: real := 112.0
  /** The spawn test is `frame % 100 == 0`; the profiles' pipe spacing is never read. */
  const SpawnPeriod: nat := 100
  /** Where every bird starts: a third of the way across, half way down. */
  const BirdStartX: real := CanvasWidth / 3.0
  const BirdStartY: real := CanvasHeight / 2.0

  datatype Difficulty = Easy | Medium | Hard

  /** One difficulty profile: physics constants and obstacle geometry. */
  datatype Settings = Settings(
    gravity: real,
    jumpForce: real,
    pipeSpeed: real,
    gapHeight: real,
    pipeSpacing: real)

  /** The profile table. Gravity and pipe speed are positive, the jump is upward
      (negative y) and every gap fits between the two 100-unit margins. */
  function SettingsOf(d: Difficulty): (s: Settings)
    ensures s.gravity > 0.0 && s.pipeSpeed > 0.0 && s.jumpForce < 0.0
    ensures 0.0 < s.gapHeight < CanvasHeight - 200.0
  {
    match d
    case Easy => Settings(0.4, -7.0, 1.5, 160.0, 220.0)
    case Medium => Settings(0.5, -8.0, 2.0, 150.0, 200.0)
    case Hard => Settings(0.6, -8.5, 2.5, 140.0, 180.0)
  }

  /** Harder profiles fall faster, scroll faster and leave smaller gaps. */
  lemma ProfilesOrdered()
    ensures SettingsOf(Easy).pipeSpeed < SettingsOf(Medium).pipeSpeed < SettingsOf(Hard).pipeSpeed
    ensures SettingsOf(Easy).gravity < SettingsOf(Medium).gravity < SettingsOf(Hard).gravity
    ensures SettingsOf(Easy).gapHeight > SettingsOf(Medium).gapHeight > SettingsOf(Hard).gapHeight
    ensures forall d :: SettingsOf(d).jumpForce < 0.0
  {
  }

  /** Top of the gap of a newly spawned pipe, from a random draw `r` in [0, 1):
      the gap never reaches into the top 100 units nor into the bottom 100 units. */
  function SpawnY(d: Difficulty, r: real): (y: real)
    requires 0.0 <= r < 1.0
    ensures 100.0 <= y < CanvasHeight - 100.0 - SettingsOf(d).gapHeight
  {
    var span := CanvasHeight - SettingsOf(d).gapHeight - 200.0;
    assert r * span < span by {
      assert (1.0 - r) * span > 0.0;
    }
    r * span + 100.0
  }
}
