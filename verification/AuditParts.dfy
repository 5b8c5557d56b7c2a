/** Verifying only part of the audit log, as the optional queryset of verify_chain allows. */
module AuditParts {
  import opened Sums
  import opened AuditChain

  /** Whatever is kept, everything earlier is kept too. */
  predicate KeepsEarliest(log: seq<Record>, keep: Record -> bool) {
    forall j, k :: 0 <= j < |log| && 0 <= k < |log| && keep(log[k]) && Earlier(log[j], log[k]) ==> keep(log[j])
  }

  lemma {:induction false} FilterKeepsDistinct(log: seq<Record>, keep: Record -> bool)
    requires DistinctIds(log)
    ensures DistinctIds(Filter(log, keep))
  {
    if |log| > 0 {
      var last := |log| - 1;
      FilterKeepsDistinct(log[..last], keep);
      var earlier := Filter(log[..last], keep);
      forall j | 0 <= j < |earlier| ensures earlier[j].id != log[last].id {
        FilterMember(log[..last], keep, earlier[j]);
      }
    }
  }

  /** The part in time order: what it holds, and that it is ascending. */
  lemma PartInOrder(log: seq<Record>, keep: Record -> bool)
    requires DistinctIds(log)
    ensures Ascending(TimeOrdered(Filter(log, keep)))
    ensures forall r :: r in TimeOrdered(Filter(log, keep)) <==> r in TimeOrdered(log) && keep(r)
  {
    FilterKeepsDistinct(log, keep);
    TimeOrderSorts(Filter(log, keep));
    forall r ensures r in TimeOrdered(Filter(log, keep)) <==> r in TimeOrdered(log) && keep(r) {
      TimeOrderMember(Filter(log, keep), r);
      TimeOrderMember(log, r);
      FilterMember(log, keep, r);
    }
  }

  /** Two places of a chain that expect the same hash are the same place. */
  lemma ExpectedOnce(log: seq<Record>, chain: seq<Record>, i: nat, j: nat)
    requires DistinctRecords(log) && NoGenesis(log) && SameRecords(chain, log) && Ascending(chain)
    requires i <= |chain| && j <= |chain| && ExpectedAt(chain, GENESIS_HASH, i) == ExpectedAt(chain, GENESIS_HASH, j)
    ensures i == j
  {
    assert i > 0 ==> chain[i - 1] in log;
    assert j > 0 ==> chain[j - 1] in log;
    if i > 0 && j > 0 {
      SameHashSameRecord(log, chain[i - 1], chain[j - 1]);
      AscendingNeverRepeats(chain);
    }
  }

  /** An unbroken part follows the whole chain record by record. */
  lemma {:induction false} UnbrokenPartIsPrefix(
    hash: Hash, log: seq<Record>, chain: seq<Record>, part: seq<Record>, n: nat)
    requires DistinctRecords(log) && NoGenesis(log) && SameRecords(chain, log) && Ascending(chain)
    requires Unbroken(hash, chain) && Unbroken(hash, part) && n <= |part|
    requires forall r :: r in part ==> r in chain
    ensures n <= |chain| && part[..n] == chain[..n]
  {
    if n > 0 {
      var m := n - 1;
      UnbrokenPartIsPrefix(hash, log, chain, part, m);
      assert part[m] in chain;
      var j :| 0 <= j < |chain| && chain[j] == part[m];
      assert FitsAt(hash, part, GENESIS_HASH, m) && FitsAt(hash, chain, GENESIS_HASH, j);
      assert ExpectedAt(part, GENESIS_HASH, m) == ExpectedAt(chain, GENESIS_HASH, m) by {
        assert m > 0 ==> part[..m][m - 1] == chain[..m][m - 1];
      }
      ExpectedOnce(log, chain, m, j);
      assert part[..n] == part[..m] + [part[m]] && chain[..n] == chain[..m] + [chain[m]];
    }
  }

  /** A part that keeps the earliest is the beginning of the chain. */
  lemma {:induction false} EarliestPartIsPrefix(chain: seq<Record>, part: seq<Record>, keep: Record -> bool, n: nat)
    requires Ascending(chain) && Ascending(part) && n <= |part| && KeepsEarliest(chain, keep)
    requires forall r :: r in part <==> r in chain && keep(r)
    ensures n <= |chain| && part[..n] == chain[..n]
  {
    if n > 0 {
      var m := n - 1;
      EarliestPartIsPrefix(chain, part, keep, m);
      assert part[m] in chain;
      var j :| 0 <= j < |chain| && chain[j] == part[m];
      NextIsNext(chain, part, keep, m, j);
      assert part[..n] == part[..m] + [part[m]] && chain[..n] == chain[..m] + [chain[m]];
    }
  }

  lemma NextIsNext(chain: seq<Record>, part: seq<Record>, keep: Record -> bool, m: nat, j: nat)
    requires Ascending(chain) && Ascending(part) && KeepsEarliest(chain, keep)
    requires forall r :: r in part <==> r in chain && keep(r)
    requires m < |part| && m <= |chain| && part[..m] == chain[..m] && j < |chain| && chain[j] == part[m]
    ensures j == m
  {
    AscendingNeverRepeats(chain);
    AscendingNeverRepeats(part);
    forall i | 0 <= i < m ensures part[i] == chain[i] {
      assert part[..m][i] == chain[..m][i];
    }
    if m < j {
      EarlierIsKept(chain, part, keep, m, j);
    }
  }

  lemma EarlierIsKept(chain: seq<Record>, part: seq<Record>, keep: Record -> bool, m: nat, j: nat)
    requires Ascending(chain) && KeepsEarliest(chain, keep)
    requires forall r :: r in part <==> r in chain && keep(r)
    requires m < j < |chain| && chain[j] in part
    ensures chain[m] in part
  {
    assert Earlier(chain[m], chain[j]);
  }

  lemma PrefixOfUnbroken(hash: Hash, chain: seq<Record>, n: nat)
    requires Unbroken(hash, chain) && n <= |chain|
    ensures Unbroken(hash, chain[..n])
  {
    forall i | 0 <= i < n ensures FitsAt(hash, chain[..n], GENESIS_HASH, i) {
      assert FitsAt(hash, chain, GENESIS_HASH, i);
    }
  }

  lemma SameKeeping(log: seq<Record>, chain: seq<Record>, keep: Record -> bool)
    requires SameRecords(chain, log)
    ensures KeepsEarliest(log, keep) <==> KeepsEarliest(chain, keep)
  {
    if KeepsEarliest(log, keep) {
      forall j, k | 0 <= j < |chain| && 0 <= k < |chain| && keep(chain[k]) && Earlier(chain[j], chain[k])
        ensures keep(chain[j])
      {
        assert chain[j] in log && chain[k] in log;
      }
    }
    if KeepsEarliest(chain, keep) {
      forall j, k | 0 <= j < |log| && 0 <= k < |log| && keep(log[k]) && Earlier(log[j], log[k]) ensures keep(log[j]) {
        assert log[j] in chain && log[k] in chain;
      }
    }
  }

  lemma PrefixKeepsEarliest(chain: seq<Record>, part: seq<Record>, keep: Record -> bool)
    requires Ascending(chain) && |part| <= |chain| && part == chain[..|part|]
    requires forall r :: r in part <==> r in chain && keep(r)
    ensures KeepsEarliest(chain, keep)
  {
    forall j, k | 0 <= j < |chain| && 0 <= k < |chain| && keep(chain[k]) && Earlier(chain[j], chain[k])
      ensures keep(chain[j])
    {
      assert chain[k] in part;
      var p :| 0 <= p < |part| && part[p] == chain[k];
      AscendingNeverRepeats(chain);
      assert p == k;
      assert j < k;
      assert part[j] == chain[j];
      assert chain[j] in part;
    }
  }

  /**
    Part of an intact log verifies exactly when it keeps the earliest records: any
    other selection, such as the records of one tenant, is reported as broken.
  */
  lemma PartVerifiesIffEarliest(hash: Hash, log: seq<Record>, keep: Record -> bool)
    requires DistinctRecords(log) && NoGenesis(log) && Verifies(hash, log)
    ensures Verifies(hash, Filter(log, keep)) <==> KeepsEarliest(log, keep)
  {
    var chain, part := TimeOrdered(log), TimeOrdered(Filter(log, keep));
    TimeOrderSorts(log);
    TimeOrderSame(log);
    PartInOrder(log, keep);
    SameKeeping(log, chain, keep);
    VerifiesIffUnbroken(hash, log);
    VerifiesIffUnbroken(hash, Filter(log, keep));
    hide TimeOrdered, Filter, Verifies, SameRecords, Unbroken, Ascending, KeepsEarliest, DistinctRecords, NoGenesis;
    if Unbroken(hash, part) {
      UnbrokenPartIsPrefix(hash, log, chain, part, |part|);
      assert part[..|part|] == part;
      PrefixKeepsEarliest(chain, part, keep);
    }
    if KeepsEarliest(chain, keep) {
      EarliestPartIsPrefix(chain, part, keep, |part|);
      assert part[..|part|] == part;
      PrefixOfUnbroken(hash, chain, |part|);
    }
  }
}
