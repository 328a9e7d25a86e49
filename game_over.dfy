/** The settlement of game/scenes/game-over-scene.ts: the final score of a
    run is converted to cash at one dollar per hundred points and may set a
    new high score. Loading and saving the profile become the profile passed
    in and the one the scene holds afterwards. */
module GameOver {
  import opened JsMath
  import opened PlayerProfile

  /** `data.score || 0`: a missing score counts as 0 (a zero score is 0
      either way). */
  function FinalScore(score: Option<real>): (s: real)
    ensures score.None? ==> s == 0.0
    ensures score.Some? ==> s == score.value
  {
    match score
    case None => 0.0
    case Some(v) => v
  }

  /** `Math.floor(finalScore / 100)`: the cash a score is worth. */
  function CashEarned(finalScore: real): (c: int)
    ensures finalScore >= 0.0 ==> c >= 0
    ensures c as real * 100.0 <= finalScore < (c as real + 1.0) * 100.0
  {
    (finalScore / 100.0).Floor
  }

  /** The profile after a run: cash added, and the high score raised when
      the run beat it. */
  function Settle(p: PlayerData, finalScore: real): PlayerData
  {
    var paid := p.(money := p.money + CashEarned(finalScore));
    if finalScore > paid.highScore then paid.(highScore := finalScore) else paid
  }

  /** Settling adds exactly the cash shown on the game-over screen, makes the
      high score the larger of the old one and the run's score (so it never
      falls and is never below the run), and leaves upgrades and colour
      alone. */
  lemma SettleFacts(p: PlayerData, finalScore: real)
    ensures var r := Settle(p, finalScore);
      && r.money == p.money + CashEarned(finalScore)
      && r.highScore == Max(p.highScore, finalScore)
      && r.highScore >= p.highScore && r.highScore >= finalScore
      && r.upgrades == p.upgrades && r.carColor == p.carColor
  {
  }

  /** A run with a nonnegative score never costs money. */
  lemma SettleNeverCosts(p: PlayerData, finalScore: real)
    requires finalScore >= 0.0
    ensures Settle(p, finalScore).money >= p.money
  {
  }

  class GameOverScene {
    var finalScore: real

    constructor ()
      ensures finalScore == 0.0
    {
      finalScore := 0.0;
    }

    /** `init`: keep the final score and settle the saved profile; the result
        is the profile handed to `savePlayerData`, and it gains exactly the
        "CASH EARNED" figure `create` draws. */
    method Init(score: Option<real>, saved: PlayerData) returns (settled: PlayerData)
      modifies this`finalScore
      ensures finalScore == FinalScore(score)
      ensures settled == Settle(saved, finalScore)
      ensures settled.money == saved.money + MoneyEarned()
    {
      finalScore := FinalScore(score);
      var data := saved;
      data := data.(money := data.money + (finalScore / 100.0).Floor);
      if finalScore > data.highScore {
        data := data.(highScore := finalScore);
      }
      settled := data;
    }

    /** The "CASH EARNED" figure `create` draws. */
    function MoneyEarned(): int
      reads this
    {
      CashEarned(finalScore)
    }
  }
}
