/**
 * The boss-ladder gate of the tower map: which bosses are unlocked, which
 * are defeated, and which one may be challenged, all decided by the
 * `maxBossDefeated` watermark alone (the unlocked keys play no part).
 */
module TowerMap {
  import opened Types
  import opened Constants

  /** `isUnlocked`: the first boss, or any boss whose predecessor the watermark has reached. */
  predicate IsUnlocked(maxBossDefeated: int, boss: Boss)
  {
    boss.id == 1 || maxBossDefeated >= boss.id - 1
  }

  /** `isDefeated`: the watermark has reached the boss. */
  predicate IsDefeated(maxBossDefeated: int, boss: Boss)
  {
    maxBossDefeated >= boss.id
  }

  /** The click guard: a challenge is issued only for an unlocked boss not yet defeated. */
  predicate CanChallenge(maxBossDefeated: int, boss: Boss)
  {
    IsUnlocked(maxBossDefeated, boss) && !IsDefeated(maxBossDefeated, boss)
  }

  /** Boss 1 is unlocked whatever the watermark. */
  lemma FirstBossAlwaysUnlocked(maxBossDefeated: int)
    ensures IsUnlocked(maxBossDefeated, BOSS_DATA[0])
  {
  }

  /** A defeated boss is always unlocked. */
  lemma DefeatedIsUnlocked(maxBossDefeated: int, boss: Boss)
    ensures IsDefeated(maxBossDefeated, boss) ==> IsUnlocked(maxBossDefeated, boss)
  {
  }

  /** Raising the watermark never locks a boss again. */
  lemma UnlockMonotone(m1: int, m2: int, boss: Boss)
    requires m1 <= m2
    ensures IsUnlocked(m1, boss) ==> IsUnlocked(m2, boss)
    ensures IsDefeated(m1, boss) ==> IsDefeated(m2, boss)
  {
  }

  /** From a non-negative watermark the only boss that can be challenged is the next one. */
  lemma ChallengeIsNext(maxBossDefeated: int, boss: Boss)
    requires maxBossDefeated >= 0
    ensures CanChallenge(maxBossDefeated, boss) <==> boss.id == maxBossDefeated + 1
  {
  }

  /** The table positions of the bosses that may be challenged. */
  function Challengeable(maxBossDefeated: int): set<nat>
  {
    set i: nat | i < |BOSS_DATA| && CanChallenge(maxBossDefeated, BOSS_DATA[i])
  }

  /**
   * With a watermark in 0..9 exactly one boss can be challenged, the one
   * with id `maxBossDefeated + 1`; at 10 or above none can.
   */
  lemma {:induction false} ExactlyOneChallengeable(maxBossDefeated: int)
    requires maxBossDefeated >= 0
    ensures 0 <= maxBossDefeated < 10 ==> Challengeable(maxBossDefeated) == {maxBossDefeated as nat}
    ensures 0 <= maxBossDefeated < 10 ==> BOSS_DATA[maxBossDefeated].id == maxBossDefeated + 1
    ensures maxBossDefeated >= 10 ==> Challengeable(maxBossDefeated) == {}
  {
    BossLadder();
    forall i: nat | i < |BOSS_DATA|
      ensures CanChallenge(maxBossDefeated, BOSS_DATA[i]) <==> i == maxBossDefeated
    {
      ChallengeIsNext(maxBossDefeated, BOSS_DATA[i]);
    }
    if maxBossDefeated < 10 {
      assert maxBossDefeated as nat in Challengeable(maxBossDefeated);
    }
  }
}
