/**
  The hash-chained audit log. Appending links a record to the one with the
  greatest (created_at, id), verifying walks in ascending (created_at, id), and
  the two views of order agree only while time never runs backwards.
*/
module AuditChain {
  import opened Sums
  import opened Tables

  type Digest = string

  const GENESIS_HASH: Digest := "0000000000000000000000000000000000000000000000000000000000000000"

  /** Every column of an audit record; `id` stands for the place of its UUID in the UUID order. */
  datatype Record = Record(
    id: nat,
    createdAt: Time,
    actor: Option<nat>,
    actorLabel: string,
    tenant: Option<nat>,
    action: string,
    contentType: Option<nat>,
    objectId: string,
    before: Option<string>,
    after: Option<string>,
    metadata: string,
    ipAddress: Option<string>,
    userAgent: string,
    correlationId: string,
    previousHash: Digest,
    recordHash: Digest)

  /** _canonical_payload: the columns that are hashed. */
  datatype Payload = Payload(
    action: string, actorLabel: Option<string>, tenant: Option<nat>, contentType: Option<nat>, objectId: string,
    before: Option<string>, after: Option<string>, metadata: string, correlationId: string, createdAt: Time)

  function CanonicalPayload(r: Record): Payload {
    Payload(r.action, if r.actorLabel == "" then None else Some(r.actorLabel), r.tenant, r.contentType, r.objectId,
            r.before, r.after, r.metadata, r.correlationId, r.createdAt)
  }

  type Hash = (Digest, Payload) -> Digest

  predicate Earlier(a: Record, b: Record) {
    a.createdAt < b.createdAt || (a.createdAt == b.createdAt && a.id < b.id)
  }

  // ---------------------------------------------------------------- the two views of order

  /** order_by("-created_at", "-id").first(). */
  function Latest(log: seq<Record>): (last: Option<Record>)
    ensures last.None? <==> log == []
    ensures last.Some? ==> last.value in log
  {
    if |log| == 0 then None
    else
      var rest := Latest(log[..|log| - 1]);
      if rest.Some? && Earlier(log[|log| - 1], rest.value) then rest else Some(log[|log| - 1])
  }

  /** Puts a record where it belongs among records in ascending order. */
  function Insert(chain: seq<Record>, r: Record): seq<Record> {
    if |chain| == 0 || Earlier(chain[|chain| - 1], r) then chain + [r]
    else Insert(chain[..|chain| - 1], r) + [chain[|chain| - 1]]
  }

  /** order_by("created_at", "id"). */
  function TimeOrdered(log: seq<Record>): seq<Record> {
    if |log| == 0 then [] else Insert(TimeOrdered(log[..|log| - 1]), log[|log| - 1])
  }

  // ---------------------------------------------------------------- appending and verifying

  function HeadHash(log: seq<Record>): Digest {
    var last := Latest(log);
    if last.Some? then last.value.recordHash else GENESIS_HASH
  }

  function Linked(hash: Hash, log: seq<Record>, draft: Record): Record {
    var r := draft.(previousHash := HeadHash(log));
    r.(recordHash := hash(r.previousHash, CanonicalPayload(r)))
  }

  predicate Fits(hash: Hash, r: Record, expected: Digest) {
    r.previousHash == expected && hash(r.previousHash, CanonicalPayload(r)) == r.recordHash
  }

  /** The first record of the walk that does not fit, if any. */
  function FirstBroken(hash: Hash, chain: seq<Record>, expected: Digest): (broken: Option<nat>)
    ensures broken.Some? ==> broken.value < |chain|
  {
    if |chain| == 0 then None
    else if !Fits(hash, chain[0], expected) then Some(0)
    else
      match FirstBroken(hash, chain[1..], chain[0].recordHash)
      case None => None
      case Some(i) => Some(i + 1)
  }

  /** verify_chain: the record it returns as broken, if any. */
  function Verdict(hash: Hash, log: seq<Record>): Option<Record> {
    var chain := TimeOrdered(log);
    match FirstBroken(hash, chain, GENESIS_HASH)
    case None => None
    case Some(i) => Some(chain[i])
  }

  /** The records that a call is about: those of the queryset, unless there is none or it is empty. */
  function Scope(log: seq<Record>, queryset: Option<Record -> bool>): seq<Record> {
    if queryset.Some? && Filter(log, queryset.value) != [] then Filter(log, queryset.value) else log
  }

  predicate Verifies(hash: Hash, log: seq<Record>) {
    Verdict(hash, log).None?
  }

  /** Serial appends and nothing else: each record was linked to the log as it then was. */
  predicate Appended(hash: Hash, log: seq<Record>) {
    forall k :: 0 <= k < |log| ==> LinkedAt(hash, log, k)
  }

  predicate LinkedAt(hash: Hash, log: seq<Record>, k: nat)
    requires k < |log|
  {
    Fits(hash, log[k], HeadHash(log[..k]))
  }

  predicate DistinctRecords(log: seq<Record>) {
    forall j, k :: 0 <= j < k < |log| ==> log[j].id != log[k].id && log[j].recordHash != log[k].recordHash
  }

  predicate NoGenesis(log: seq<Record>) {
    forall k :: 0 <= k < |log| ==> log[k].recordHash != GENESIS_HASH
  }

  /** Time order is append order. */
  predicate InAppendOrder(log: seq<Record>) {
    forall j, k :: 0 <= j < k < |log| ==>
      log[j].createdAt < log[k].createdAt || (log[j].createdAt == log[k].createdAt && log[j].id < log[k].id)
  }

  class AuditLog {
    const hash: Hash
    var records: seq<Record>

    predicate Valid()
      reads this
    {
      Appended(hash, records) && DistinctRecords(records)
    }

    constructor (hash: Hash)
      ensures this.hash == hash && records == [] && Valid()
    {
      this.hash := hash;
      records := [];
    }

    /** Records cannot be saved again, and the unique columns refuse a repeated id or hash. */
    method Save(draft: Record, adding: bool, names: nat -> string) returns (saved: Option<Record>)
      requires Valid()
      modifies this
      ensures Valid()
      ensures if saved.None? then records == old(records) else records == old(records) + [saved.value]
      ensures var labelled := if draft.actor.Some? && draft.actorLabel == ""
                              then draft.(actorLabel := names(draft.actor.value)) else draft;
              var row := Linked(hash, old(records), labelled);
              if adding && forall k :: 0 <= k < |old(records)| ==>
                                         old(records)[k].id != row.id && old(records)[k].recordHash != row.recordHash
              then saved == Some(row) else saved == None
    {
      if !adding {
        return None;
      }
      var row := draft;
      if row.actor.Some? && row.actorLabel == "" {
        row := row.(actorLabel := names(row.actor.value));
      }
      var last := Latest(records);
      row := row.(previousHash := if last.Some? then last.value.recordHash else GENESIS_HASH);
      row := row.(recordHash := hash(row.previousHash, CanonicalPayload(row)));
      if exists k :: 0 <= k < |records| && (records[k].id == row.id || records[k].recordHash == row.recordHash) {
        return None;
      }
      AppendKeepsLinks(hash, records, row);
      records := records + [row];
      return Some(row);
    }

    method VerifyChain(queryset: Option<Record -> bool>) returns (intact: bool, broken: Option<Record>)
      ensures broken == Verdict(hash, Scope(records, queryset))
      ensures intact <==> Verifies(hash, Scope(records, queryset))
    {
      var rows := records;
      if queryset.Some? {
        var chosen := Filter(records, queryset.value);
        if |chosen| > 0 {
          rows := chosen;
        }
      }
      var chain := TimeOrdered(rows);
      var expectedPrevious := GENESIS_HASH;
      for i := 0 to |chain|
        invariant match FirstBroken(hash, chain, GENESIS_HASH)
                  case None => FirstBroken(hash, chain[i..], expectedPrevious).None?
                  case Some(k) => FirstBroken(hash, chain[i..], expectedPrevious) == Some(k - i) && k >= i
      {
        var record := chain[i];
        assert chain[i..][0] == record && chain[i..][1..] == chain[i + 1..];
        if record.previousHash != expectedPrevious {
          return false, Some(record);
        }
        var recomputed := hash(record.previousHash, CanonicalPayload(record));
        if recomputed != record.recordHash {
          return false, Some(record);
        }
        expectedPrevious := record.recordHash;
      }
      return true, None;
    }
  }

  lemma AppendKeepsLinks(hash: Hash, log: seq<Record>, r: Record)
    requires Appended(hash, log) && Fits(hash, r, HeadHash(log))
    ensures Appended(hash, log + [r])
  {
    forall k | 0 <= k < |log + [r]| ensures LinkedAt(hash, log + [r], k) {
      if k < |log| {
        assert LinkedAt(hash, log, k);
        assert (log + [r])[..k] == log[..k];
      } else {
        assert (log + [r])[..k] == log;
      }
    }
  }

  // ---------------------------------------------------------------- sorting

  predicate Ascending(chain: seq<Record>) {
    forall j, k :: 0 <= j < k < |chain| ==> Earlier(chain[j], chain[k])
  }

  predicate DistinctIds(log: seq<Record>) {
    forall j, k :: 0 <= j < k < |log| ==> log[j].id != log[k].id
  }

  predicate SameRecords(a: seq<Record>, b: seq<Record>) {
    (forall k :: 0 <= k < |a| ==> a[k] in b) && (forall k :: 0 <= k < |b| ==> b[k] in a)
  }

  lemma {:induction false} InsertMember(chain: seq<Record>, r: Record, x: Record)
    ensures x in Insert(chain, r) <==> x in chain || x == r
  {
    if |chain| > 0 && !Earlier(chain[|chain| - 1], r) {
      var last := |chain| - 1;
      InsertMember(chain[..last], r, x);
      assert chain == chain[..last] + [chain[last]];
    }
  }

  lemma {:induction false} InsertSorts(chain: seq<Record>, r: Record)
    requires Ascending(chain) && forall k :: 0 <= k < |chain| ==> chain[k].id != r.id
    ensures Ascending(Insert(chain, r)) && |Insert(chain, r)| == |chain| + 1
  {
    if |chain| > 0 && !Earlier(chain[|chain| - 1], r) {
      var last := |chain| - 1;
      InsertSorts(chain[..last], r);
      var inserted := Insert(chain[..last], r);
      forall j | 0 <= j < |inserted| ensures Earlier(inserted[j], chain[last]) {
        InsertMember(chain[..last], r, inserted[j]);
      }
    }
  }

  lemma {:induction false} TimeOrderMember(log: seq<Record>, x: Record)
    ensures x in TimeOrdered(log) <==> x in log
  {
    if |log| > 0 {
      var last := |log| - 1;
      TimeOrderMember(log[..last], x);
      InsertMember(TimeOrdered(log[..last]), log[last], x);
      assert log == log[..last] + [log[last]];
    }
  }

  lemma {:induction false} TimeOrderSorts(log: seq<Record>)
    requires DistinctIds(log)
    ensures Ascending(TimeOrdered(log)) && |TimeOrdered(log)| == |log|
  {
    if |log| > 0 {
      var last := |log| - 1;
      TimeOrderSorts(log[..last]);
      var earlier := TimeOrdered(log[..last]);
      forall k | 0 <= k < |earlier| ensures earlier[k].id != log[last].id {
        TimeOrderMember(log[..last], earlier[k]);
      }
      InsertSorts(earlier, log[last]);
    }
  }

  lemma TimeOrderSame(log: seq<Record>)
    ensures SameRecords(TimeOrdered(log), log)
  {
    forall k | 0 <= k < |TimeOrdered(log)| ensures TimeOrdered(log)[k] in log {
      TimeOrderMember(log, TimeOrdered(log)[k]);
    }
    forall k | 0 <= k < |log| ensures log[k] in TimeOrdered(log) {
      TimeOrderMember(log, log[k]);
    }
  }

  lemma SameLast(a: seq<Record>, b: seq<Record>)
    requires Ascending(a) && Ascending(b) && SameRecords(a, b) && |a| > 0 && |b| > 0
    ensures a[|a| - 1] == b[|b| - 1]
    ensures SameRecords(a[..|a| - 1], b[..|b| - 1])
  {
    var x, y := a[|a| - 1], b[|b| - 1];
    var j :| 0 <= j < |b| && b[j] == x;
    var k :| 0 <= k < |a| && a[k] == y;
    assert j < |b| - 1 && k < |a| - 1 ==> Earlier(x, y) && Earlier(y, x);
  }

  lemma EmptyTogether(a: seq<Record>, b: seq<Record>)
    requires SameRecords(a, b)
    ensures |a| == 0 <==> |b| == 0
  {
    if |a| > 0 {
      assert a[0] in b;
    }
    if |b| > 0 {
      assert b[0] in a;
    }
  }

  /** Records in ascending order are determined by which records they are. */
  lemma {:induction false} AscendingIsUnique(a: seq<Record>, b: seq<Record>)
    requires Ascending(a) && Ascending(b) && SameRecords(a, b)
    ensures a == b
  {
    EmptyTogether(a, b);
    if |a| > 0 {
      SameLast(a, b);
      AscendingIsUnique(a[..|a| - 1], b[..|b| - 1]);
      assert a == a[..|a| - 1] + [a[|a| - 1]];
    }
  }

  lemma SortedLogIsItsChain(log: seq<Record>, chain: seq<Record>)
    requires DistinctIds(log) && Ascending(chain) && SameRecords(chain, log)
    ensures TimeOrdered(log) == chain
  {
    TimeOrderSorts(log);
    TimeOrderSame(log);
    AscendingIsUnique(TimeOrdered(log), chain);
  }

  // ---------------------------------------------------------------- exactly when the chain verifies

  /** What the walk expects at place `i`. */
  function ExpectedAt(chain: seq<Record>, expected: Digest, i: nat): Digest
    requires i <= |chain|
  {
    if i == 0 then expected else chain[i - 1].recordHash
  }

  predicate FitsAt(hash: Hash, chain: seq<Record>, expected: Digest, i: nat)
    requires i < |chain|
  {
    Fits(hash, chain[i], ExpectedAt(chain, expected, i))
  }

  predicate Unbroken(hash: Hash, chain: seq<Record>) {
    forall i :: 0 <= i < |chain| ==> FitsAt(hash, chain, GENESIS_HASH, i)
  }

  lemma {:induction false} WalkFindsFirst(hash: Hash, chain: seq<Record>, expected: Digest)
    ensures var broken := FirstBroken(hash, chain, expected);
            var n := if broken.Some? then broken.value else |chain|;
            && (forall i :: 0 <= i < n ==> FitsAt(hash, chain, expected, i))
            && (broken.Some? ==> !FitsAt(hash, chain, expected, n))
  {
    if |chain| > 0 && Fits(hash, chain[0], expected) {
      var rest, next := chain[1..], chain[0].recordHash;
      WalkFindsFirst(hash, rest, next);
      var broken := FirstBroken(hash, rest, next);
      var n := if broken.Some? then broken.value else |rest|;
      forall i | 0 <= i <= n && i < |rest| ensures ExpectedAt(chain, expected, i + 1) == ExpectedAt(rest, next, i) {
      }
      forall i | 0 <= i < n + 1 ensures FitsAt(hash, chain, expected, i) {
        if i > 0 {
          assert FitsAt(hash, rest, next, i - 1);
        }
      }
    }
  }

  /** The walk breaks exactly at `n` if every record before fits and that one does not. */
  lemma WalkBreaksAt(hash: Hash, chain: seq<Record>, expected: Digest, n: nat)
    requires n <= |chain|
    requires forall i :: 0 <= i < n ==> FitsAt(hash, chain, expected, i)
    requires n < |chain| ==> !FitsAt(hash, chain, expected, n)
    ensures FirstBroken(hash, chain, expected) == if n < |chain| then Some(n) else None
  {
    WalkFindsFirst(hash, chain, expected);
  }

  lemma {:induction false} LatestIsGreatest(log: seq<Record>, k: nat)
    requires DistinctIds(log) && k < |log|
    ensures Latest(log).Some? && (log[k] == Latest(log).value || Earlier(log[k], Latest(log).value))
  {
    var last := |log| - 1;
    if last > 0 {
      LatestIsGreatest(log[..last], if k < last then k else 0);
      assert k < last ==> log[..last][k] == log[k];
      var rest := Latest(log[..last]).value;
      var at :| 0 <= at < last && log[..last][at] == rest;
      assert log[at].id != log[last].id;
    }
  }

  lemma SameHashSameRecord(log: seq<Record>, a: Record, b: Record)
    requires DistinctRecords(log) && a in log && b in log && a.recordHash == b.recordHash
    ensures a == b
  {
    var j :| 0 <= j < |log| && log[j] == a;
    var k :| 0 <= k < |log| && log[k] == b;
    assert j == k;
  }

  /** In a walk with nothing broken, a record that was linked to another comes right after it. */
  lemma LinkedToPredecessor(hash: Hash, log: seq<Record>, chain: seq<Record>, r: Record, linked: Record)
    requires DistinctRecords(log) && SameRecords(chain, log)
    requires Unbroken(hash, chain)
    requires r in log && linked in log && r.previousHash == linked.recordHash != GENESIS_HASH
    ensures exists i :: 0 < i < |chain| && chain[i] == r && chain[i - 1] == linked
  {
    var i :| 0 <= i < |chain| && chain[i] == r;
    assert FitsAt(hash, chain, GENESIS_HASH, i);
    SameHashSameRecord(log, chain[i - 1], linked);
  }

  lemma VerifiedIsInAppendOrder(hash: Hash, log: seq<Record>, j: nat, k: nat)
    requires Appended(hash, log) && DistinctRecords(log) && NoGenesis(log) && Verifies(hash, log)
    requires j < k < |log|
    ensures Earlier(log[j], log[k])
  {
    hide TimeOrdered, FirstBroken, SameRecords, Ascending;
    var linked := Latest(log[..k]).value;
    LatestIsGreatest(log[..k], j);
    assert LinkedAt(hash, log, k);
    TimeOrderSorts(log);
    TimeOrderSame(log);
    WalkFindsFirst(hash, TimeOrdered(log), GENESIS_HASH);
    LinkedAfter(hash, log, TimeOrdered(log), log[k], linked);
  }

  lemma LinkedAfter(hash: Hash, log: seq<Record>, chain: seq<Record>, r: Record, linked: Record)
    requires DistinctRecords(log) && SameRecords(chain, log) && Ascending(chain)
    requires Unbroken(hash, chain)
    requires r in log && linked in log && r.previousHash == linked.recordHash != GENESIS_HASH
    ensures Earlier(linked, r)
  {
    LinkedToPredecessor(hash, log, chain, r, linked);
  }

  lemma LatestIsLast(log: seq<Record>)
    requires Ascending(log) && |log| > 0
    ensures Latest(log) == Some(log[|log| - 1])
  {
    var rest := Latest(log[..|log| - 1]);
    if rest.Some? {
      var k :| 0 <= k < |log| - 1 && log[..|log| - 1][k] == rest.value;
      assert Earlier(log[k], log[|log| - 1]);
    }
  }

  lemma LinkedInOrder(hash: Hash, log: seq<Record>, i: nat)
    requires Appended(hash, log) && Ascending(log) && i < |log|
    ensures FitsAt(hash, log, GENESIS_HASH, i)
  {
    assert LinkedAt(hash, log, i);
    if i > 0 {
      assert Ascending(log[..i]);
      LatestIsLast(log[..i]);
    }
    hide Latest, Appended, Ascending, Fits;
  }

  lemma InAppendOrderVerifies(hash: Hash, log: seq<Record>)
    requires Appended(hash, log) && DistinctRecords(log) && InAppendOrder(log)
    ensures Verifies(hash, log)
  {
    assert Ascending(log) && DistinctIds(log);
    hide Appended, Ascending, DistinctIds, FitsAt, TimeOrdered;
    SortedLogIsItsChain(log, log);
    forall i | 0 <= i < |log| ensures FitsAt(hash, log, GENESIS_HASH, i) {
      LinkedInOrder(hash, log, i);
    }
    WalkBreaksAt(hash, log, GENESIS_HASH, |log|);
  }

  /** The chain verifies exactly when every append came later, by (created_at, id), than all the ones before it. */
  lemma VerifiesIffInAppendOrder(hash: Hash, log: seq<Record>)
    requires Appended(hash, log) && DistinctRecords(log) && NoGenesis(log)
    ensures Verifies(hash, log) <==> InAppendOrder(log)
  {
    hide Appended, DistinctRecords, NoGenesis, Verifies;
    if Verifies(hash, log) {
      forall j, k | 0 <= j < k < |log| ensures Earlier(log[j], log[k]) {
        VerifiedIsInAppendOrder(hash, log, j, k);
      }
    }
    if InAppendOrder(log) {
      InAppendOrderVerifies(hash, log);
    }
  }

  /** No append can repair a chain that an append out of time order has broken. */
  lemma NoAppendRepairs(hash: Hash, log: seq<Record>, more: seq<Record>)
    requires Appended(hash, log + more) && DistinctRecords(log + more) && NoGenesis(log + more)
    ensures Verifies(hash, log + more) ==> Verifies(hash, log)
  {
    var all := log + more;
    forall k | 0 <= k < |log| ensures LinkedAt(hash, log, k) && log[k].recordHash != GENESIS_HASH {
      assert LinkedAt(hash, all, k);
      assert all[..k] == log[..k] && all[k] == log[k];
    }
    forall j, k | 0 <= j < k < |log| ensures log[j].id != log[k].id && log[j].recordHash != log[k].recordHash {
      assert all[j] == log[j] && all[k] == log[k];
    }
    VerifiesIffInAppendOrder(hash, all);
    VerifiesIffInAppendOrder(hash, log);
    if Verifies(hash, all) {
      forall j, k | 0 <= j < k < |log| ensures Earlier(log[j], log[k]) {
        assert all[j] == log[j] && all[k] == log[k];
      }
    }
  }

  // ---------------------------------------------------------------- binding

  ghost predicate Injective(hash: Hash) {
    forall d, p, e, q {:trigger hash(d, p), hash(e, q)} :: hash(d, p) == hash(e, q) ==> d == e && p == q
  }

  ghost predicate NeverGenesis(hash: Hash) {
    forall d, p :: hash(d, p) != GENESIS_HASH
  }

  /** The same record up to who acted, from where and with what client. */
  predicate SameButActor(a: Record, b: Record) {
    b == a.(actor := b.actor, ipAddress := b.ipAddress, userAgent := b.userAgent)
  }

  /** The same records, in the same order, up to ids and who acted, from where and with what client. */
  predicate SameHistory(a: seq<Record>, b: seq<Record>) {
    |a| == |b| && forall i :: 0 <= i < |a| ==> SameButActor(a[i].(id := b[i].id), b[i])
  }

  lemma VerifiesIffUnbroken(hash: Hash, log: seq<Record>)
    ensures Verifies(hash, log) <==> Unbroken(hash, TimeOrdered(log))
  {
    WalkFindsFirst(hash, TimeOrdered(log), GENESIS_HASH);
  }

  lemma HashBinds(hash: Hash, a: Record, b: Record, expectedA: Digest, expectedB: Digest)
    requires Injective(hash) && Fits(hash, a, expectedA) && Fits(hash, b, expectedB) && a.recordHash == b.recordHash
    ensures expectedA == expectedB && SameButActor(a.(id := b.id), b)
  {
    assert hash(a.previousHash, CanonicalPayload(a)) == hash(b.previousHash, CanonicalPayload(b));
  }

  lemma {:induction false} UnbrokenBinds(hash: Hash, a: seq<Record>, b: seq<Record>)
    requires Injective(hash) && NeverGenesis(hash) && Unbroken(hash, a) && Unbroken(hash, b)
    requires ExpectedAt(a, GENESIS_HASH, |a|) == ExpectedAt(b, GENESIS_HASH, |b|)
    ensures SameHistory(a, b)
  {
    hide Injective, NeverGenesis, Unbroken, Fits, CanonicalPayload, SameButActor;
    LastIsHashed(hash, a);
    LastIsHashed(hash, b);
    if |a| > 0 && |b| > 0 {
      var m, n := |a| - 1, |b| - 1;
      HashBinds(hash, a[m], b[n], ExpectedAt(a, GENESIS_HASH, m), ExpectedAt(b, GENESIS_HASH, n));
      PrefixUnbroken(hash, a);
      PrefixUnbroken(hash, b);
      UnbrokenBinds(hash, a[..m], b[..n]);
    }
  }

  lemma LastIsHashed(hash: Hash, chain: seq<Record>)
    requires NeverGenesis(hash) && Unbroken(hash, chain)
    ensures ExpectedAt(chain, GENESIS_HASH, |chain|) == GENESIS_HASH <==> |chain| == 0
    ensures |chain| > 0 ==> FitsAt(hash, chain, GENESIS_HASH, |chain| - 1)
  {
    if |chain| > 0 {
      var last := chain[|chain| - 1];
      assert FitsAt(hash, chain, GENESIS_HASH, |chain| - 1);
      assert hash(last.previousHash, CanonicalPayload(last)) != GENESIS_HASH;
    }
  }

  lemma PrefixUnbroken(hash: Hash, chain: seq<Record>)
    requires Unbroken(hash, chain) && |chain| > 0
    ensures Unbroken(hash, chain[..|chain| - 1])
    ensures ExpectedAt(chain[..|chain| - 1], GENESIS_HASH, |chain| - 1) == ExpectedAt(chain, GENESIS_HASH, |chain| - 1)
  {
    var m := |chain| - 1;
    forall i | 0 <= i < m ensures FitsAt(hash, chain[..m], GENESIS_HASH, i) {
      assert FitsAt(hash, chain, GENESIS_HASH, i);
    }
  }

  /**
    The last record's hash binds the whole history: two verifying logs that share it hold the
    same records in time order, but for ids and who acted, from where and with what client.
  */
  lemma LastHashBindsHistory(hash: Hash, a: seq<Record>, b: seq<Record>)
    requires Injective(hash) && NeverGenesis(hash) && Verifies(hash, a) && Verifies(hash, b)
    requires ExpectedAt(TimeOrdered(a), GENESIS_HASH, |TimeOrdered(a)|) ==
             ExpectedAt(TimeOrdered(b), GENESIS_HASH, |TimeOrdered(b)|)
    ensures SameHistory(TimeOrdered(a), TimeOrdered(b))
  {
    VerifiesIffUnbroken(hash, a);
    VerifiesIffUnbroken(hash, b);
    UnbrokenBinds(hash, TimeOrdered(a), TimeOrdered(b));
  }

  // ---------------------------------------------------------------- tampering is found where it happened

  lemma ReplaceInTimeOrder(log: seq<Record>, k: nat, r: Record, i: nat)
    requires DistinctIds(log) && k < |log| && r.id == log[k].id && r.createdAt == log[k].createdAt
    requires i < |TimeOrdered(log)| && TimeOrdered(log)[i] == log[k]
    ensures TimeOrdered(log[k := r]) == TimeOrdered(log)[i := r]
  {
    var chain := TimeOrdered(log);
    TimeOrderSorts(log);
    TimeOrderSame(log);
    hide TimeOrdered;
    var changed := chain[i := r];
    forall j | 0 <= j < |changed| ensures changed[j] in log[k := r] {
      if j == i {
        assert log[k := r][k] == r;
      } else {
        assert chain[j] in log;
        var at :| 0 <= at < |log| && log[at] == chain[j];
        assert at != k;
        assert log[k := r][at] == chain[j];
      }
    }
    var altered := log[k := r];
    forall j | 0 <= j < |altered| ensures altered[j] in changed {
      if j == k {
        assert changed[i] == r;
      } else {
        assert log[j] in chain;
        var at :| 0 <= at < |chain| && chain[at] == log[j];
        assert at != i;
        assert changed[at] == log[j];
      }
    }
    SortedLogIsItsChain(log[k := r], changed);
  }

  /**
    Altering a record without moving it in time order, its hashes kept, makes the walk stop at that very
    record, unless the alteration is only of who acted, from where or with what client.
  */
  lemma AlteredRecordIsFound(hash: Hash, log: seq<Record>, k: nat, r: Record)
    requires Injective(hash) && DistinctIds(log) && Verifies(hash, log) && k < |log|
    requires r.id == log[k].id && r.createdAt == log[k].createdAt
    requires r.previousHash == log[k].previousHash && r.recordHash == log[k].recordHash
    ensures Verdict(hash, log[k := r]) == if SameButActor(log[k], r) then None else Some(r)
  {
    var chain := TimeOrdered(log);
    TimeOrderSame(log);
    assert log[k] in chain;
    var i :| 0 <= i < |chain| && chain[i] == log[k];
    ReplaceInTimeOrder(log, k, r, i);
    VerifiesIffUnbroken(hash, log);
    hide TimeOrdered, SameRecords, DistinctIds, Injective, Unbroken, FirstBroken, SameButActor;
    AlteredInChain(hash, chain, i, r);
  }

  lemma AlteredInChain(hash: Hash, chain: seq<Record>, i: nat, r: Record)
    requires Injective(hash) && Unbroken(hash, chain) && i < |chain|
    requires r.id == chain[i].id && r.previousHash == chain[i].previousHash && r.recordHash == chain[i].recordHash
    ensures FirstBroken(hash, chain[i := r], GENESIS_HASH) == if SameButActor(chain[i], r) then None else Some(i)
  {
    var changed := chain[i := r];
    hide Injective, FirstBroken;
    forall j | 0 <= j < i ensures FitsAt(hash, changed, GENESIS_HASH, j) {
      assert FitsAt(hash, chain, GENESIS_HASH, j);
    }
    assert FitsAt(hash, chain, GENESIS_HASH, i);
    if SameButActor(chain[i], r) {
      WalkIgnoresActors(hash, chain, changed, GENESIS_HASH);
      WalkBreaksAt(hash, chain, GENESIS_HASH, |chain|);
    } else {
      if FitsAt(hash, changed, GENESIS_HASH, i) {
        OnlyActorsFit(hash, chain[i], r, ExpectedAt(chain, GENESIS_HASH, i));
      }
      WalkBreaksAt(hash, changed, GENESIS_HASH, i);
    }
  }

  lemma OnlyActorsFit(hash: Hash, a: Record, b: Record, expected: Digest)
    requires Injective(hash) && Fits(hash, a, expected) && Fits(hash, b, expected)
    requires a.id == b.id && a.recordHash == b.recordHash
    ensures SameButActor(a, b)
  {
    HashBinds(hash, a, b, expected, expected);
  }

  predicate NoRepeats(s: seq<Record>) {
    forall j, k :: 0 <= j < k < |s| ==> s[j] != s[k]
  }

  function Without(s: seq<Record>, i: nat): seq<Record>
    requires i < |s|
  {
    s[..i] + s[i + 1..]
  }

  lemma WithoutMember(s: seq<Record>, i: nat, x: Record)
    requires NoRepeats(s) && i < |s|
    ensures x in Without(s, i) <==> x in s && x != s[i]
  {
    assert s == s[..i] + [s[i]] + s[i + 1..];
    if x in Without(s, i) {
      var j :| 0 <= j < |s| - 1 && Without(s, i)[j] == x;
      assert x == s[if j < i then j else j + 1];
    }
  }

  lemma WithoutSame(a: seq<Record>, b: seq<Record>, i: nat, k: nat)
    requires NoRepeats(a) && NoRepeats(b) && SameRecords(a, b) && i < |a| && k < |b| && a[i] == b[k]
    ensures SameRecords(Without(a, i), Without(b, k))
  {
    forall x ensures x in Without(a, i) <==> x in Without(b, k) {
      WithoutMember(a, i, x);
      WithoutMember(b, k, x);
    }
  }

  lemma AscendingNeverRepeats(chain: seq<Record>)
    requires Ascending(chain)
    ensures NoRepeats(chain)
  {
    forall j, k | 0 <= j < k < |chain| ensures chain[j] != chain[k] {
      assert Earlier(chain[j], chain[k]);
    }
  }

  lemma AscendingWithout(chain: seq<Record>, i: nat)
    requires Ascending(chain) && i < |chain|
    ensures Ascending(Without(chain, i))
  {
  }

  lemma RemoveInTimeOrder(log: seq<Record>, k: nat, i: nat)
    requires DistinctIds(log) && k < |log|
    requires i < |TimeOrdered(log)| && TimeOrdered(log)[i] == log[k]
    ensures TimeOrdered(Without(log, k)) == Without(TimeOrdered(log), i)
  {
    TimeOrderSorts(log);
    TimeOrderSame(log);
    hide TimeOrdered, SameRecords;
    AscendingNeverRepeats(TimeOrdered(log));
    WithoutSame(TimeOrdered(log), log, i, k);
    AscendingWithout(TimeOrdered(log), i);
    SortedLogIsItsChain(Without(log, k), Without(TimeOrdered(log), i));
  }

  /** Deleting a record makes the walk stop at its successor; deleting the last one goes unnoticed. */
  lemma RemovedRecordIsMissed(hash: Hash, log: seq<Record>, k: nat, i: nat)
    requires DistinctRecords(log) && NoGenesis(log) && Verifies(hash, log) && k < |log|
    requires i < |TimeOrdered(log)| && TimeOrdered(log)[i] == log[k]
    ensures Verdict(hash, Without(log, k)) ==
            if i + 1 < |TimeOrdered(log)| then Some(TimeOrdered(log)[i + 1]) else None
  {
    var chain := TimeOrdered(log);
    TimeOrderSame(log);
    RemoveInTimeOrder(log, k, i);
    VerifiesIffUnbroken(hash, log);
    hide TimeOrdered;
    var left := Without(chain, i);
    forall j | 0 <= j < i ensures FitsAt(hash, left, GENESIS_HASH, j) {
      assert FitsAt(hash, chain, GENESIS_HASH, j);
    }
    if i < |left| {
      assert left[i] == chain[i + 1];
      assert FitsAt(hash, chain, GENESIS_HASH, i + 1);
      ExpectsAnother(log, chain, i);
      assert ExpectedAt(left, GENESIS_HASH, i) == ExpectedAt(chain, GENESIS_HASH, i);
    }
    WalkBreaksAt(hash, left, GENESIS_HASH, i);
  }

  lemma ExpectsAnother(log: seq<Record>, chain: seq<Record>, i: nat)
    requires DistinctRecords(log) && NoGenesis(log) && SameRecords(chain, log) && i < |chain|
    requires chain == TimeOrdered(log)
    ensures ExpectedAt(chain, GENESIS_HASH, i) != chain[i].recordHash
  {
    assert chain[i] in log;
    if i > 0 {
      assert chain[i - 1] in log;
      TimeOrderSorts(log);
      assert Earlier(chain[i - 1], chain[i]);
      if chain[i - 1].recordHash == chain[i].recordHash {
        SameHashSameRecord(log, chain[i - 1], chain[i]);
      }
    }
  }

  // ---------------------------------------------------------------- what is not hashed does not matter

  predicate AllSameButActor(a: seq<Record>, b: seq<Record>) {
    |a| == |b| && forall i :: 0 <= i < |a| ==> SameButActor(a[i], b[i])
  }

  lemma {:induction false} InsertSameButActor(a: seq<Record>, b: seq<Record>, r: Record, q: Record)
    requires AllSameButActor(a, b) && SameButActor(r, q)
    ensures AllSameButActor(Insert(a, r), Insert(b, q))
  {
    if |a| > 0 && !Earlier(a[|a| - 1], r) {
      InsertSameButActor(a[..|a| - 1], b[..|b| - 1], r, q);
    }
  }

  lemma {:induction false} TimeOrderSameButActor(a: seq<Record>, b: seq<Record>)
    requires AllSameButActor(a, b)
    ensures AllSameButActor(TimeOrdered(a), TimeOrdered(b))
  {
    if |a| > 0 {
      TimeOrderSameButActor(a[..|a| - 1], b[..|b| - 1]);
      InsertSameButActor(TimeOrdered(a[..|a| - 1]), TimeOrdered(b[..|b| - 1]), a[|a| - 1], b[|b| - 1]);
    }
  }

  lemma {:induction false} WalkIgnoresActors(hash: Hash, a: seq<Record>, b: seq<Record>, expected: Digest)
    requires AllSameButActor(a, b)
    ensures FirstBroken(hash, a, expected) == FirstBroken(hash, b, expected)
  {
    if |a| > 0 {
      WalkIgnoresActors(hash, a[1..], b[1..], a[0].recordHash);
    }
  }

  /** Forgetting actors, addresses and user agents, in any records, changes no verdict. */
  lemma ActorsNeverMatter(hash: Hash, a: seq<Record>, b: seq<Record>)
    requires AllSameButActor(a, b)
    ensures Verifies(hash, a) <==> Verifies(hash, b)
    ensures !Verifies(hash, a) ==> SameButActor(Verdict(hash, a).value, Verdict(hash, b).value)
  {
    TimeOrderSameButActor(a, b);
    WalkIgnoresActors(hash, TimeOrdered(a), TimeOrdered(b), GENESIS_HASH);
  }
}
