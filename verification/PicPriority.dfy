/** Priority resolution: the scans of src/pic.c pick what the rotating priority order says they should. */
module PicPriority {
  import opened PicSpec

  /** Distance of a line from the highest-priority one: 0 is served first, 7 last. */
  function Rank(c: Chip, j: Line): (r: nat)
    ensures r < 8
  {
    (j - c.reg.priority) % 8
  }

  lemma RankInverse(c: Chip, i: nat, j: Line)
    requires i < 8
    ensures Rank(c, At(c, i)) == i
    ensures At(c, Rank(c, j)) == j
  {
  }

  predicate BlockedBy(c: Chip, k: Line, m: Line) {
    m in c.reg.isr && Rank(c, m) <= Rank(c, k)
  }

  /** Line `j` wins: requested, unmasked, above every other such line and above every line in service. */
  ghost predicate Wins(c: Chip, j: Line) {
    && Requested(c, j)
    && (forall k: Line :: Requested(c, k) ==> Rank(c, j) <= Rank(c, k))
    && (forall k: Line :: k in c.reg.isr ==> Rank(c, j) < Rank(c, k))
  }

  lemma {:induction false} FindFromScan(c: Chip, i: nat)
    requires i <= 8
    ensures var j := FindFrom(c, i);
            if j == -1 then
              forall k: Line :: Requested(c, k) && Rank(c, k) >= i ==> exists m: Line :: BlockedBy(c, k, m)
            else
              && 0 <= j < 8 && Requested(c, j) && Rank(c, j) >= i && j !in c.reg.isr
              && (forall k: Line :: i <= Rank(c, k) < Rank(c, j) ==> !Requested(c, k) && k !in c.reg.isr)
    decreases 8 - i
  {
    hide Requested, Rank, At;
    if i < 8 {
      RankInverse(c, i, 0);
      forall k: Line ensures At(c, Rank(c, k)) == k {
        RankInverse(c, i, k);
      }
      if At(c, i) in c.reg.isr {
        forall k: Line | Requested(c, k) && Rank(c, k) >= i ensures exists m: Line :: BlockedBy(c, k, m) {
          assert BlockedBy(c, k, At(c, i));
        }
      } else if !Requested(c, At(c, i)) {
        FindFromScan(c, i + 1);
      }
    }
  }

  lemma SameRank(c: Chip, j: Line, k: Line)
    requires Rank(c, j) == Rank(c, k)
    ensures j == k
  {
    RankInverse(c, 0, j);
    RankInverse(c, 0, k);
  }

  /** `find_best_interrupt` returns a line exactly when that line wins, and nothing exactly when none does. */
  lemma BestWins(c: Chip, j: Line)
    ensures Best(c) == j <==> Wins(c, j)
    ensures Best(c) == -1 <==> forall k: Line :: !Wins(c, k)
  {
    hide Rank, Requested, FindFrom;
    FindFromScan(c, 0);
    forall k: Line, m: Line ensures Rank(c, k) == Rank(c, m) ==> k == m {
      if Rank(c, k) == Rank(c, m) {
        SameRank(c, k, m);
      }
    }
    if Best(c) != -1 {
      assert Wins(c, Best(c));
    }
  }

  /** Line `j` is what a non-specific end of interrupt retires. */
  ghost predicate Retires(c: Chip, j: Line) {
    Retirable(c, j) && forall k: Line :: Retirable(c, k) ==> Rank(c, j) <= Rank(c, k)
  }

  lemma {:induction false} NonSpecificScan(c: Chip, i: nat)
    requires i <= 8
    ensures var j := NonSpecificFrom(c, i);
            if j == -1 then forall k: Line :: Rank(c, k) >= i ==> !Retirable(c, k)
            else 0 <= j < 8 && Retirable(c, j) && Rank(c, j) >= i
                 && forall k: Line :: i <= Rank(c, k) < Rank(c, j) ==> !Retirable(c, k)
    decreases 8 - i
  {
    hide Retirable, Rank, At;
    if i < 8 {
      RankInverse(c, i, 0);
      forall k: Line ensures At(c, Rank(c, k)) == k {
        RankInverse(c, i, k);
      }
      if !Retirable(c, At(c, i)) {
        NonSpecificScan(c, i + 1);
      }
    }
  }

  /** `pic_non_specific_find` returns the highest-priority line in service, skipping masked ones in special mask mode. */
  lemma NonSpecificRetires(c: Chip, j: Line)
    ensures NonSpecific(c) == j <==> Retires(c, j)
    ensures NonSpecific(c) == -1 <==> forall k: Line :: !Retirable(c, k)
  {
    hide Rank, Retirable, NonSpecificFrom;
    NonSpecificScan(c, 0);
    if NonSpecific(c) != -1 && Retires(c, j) {
      SameRank(c, NonSpecific(c), j);
    }
  }
}
