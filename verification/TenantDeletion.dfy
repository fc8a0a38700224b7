/**
 Deleting a tenant: its tables are emptied in catalogue order, a delete blocked by a
 foreign key is rolled back to its savepoint and retried in the next pass, and the passes
 stop when all succeeded, when one makes no progress, or after ten. Only complete removal
 is committed.
 */
module TenantDeletion {

  type Table = string

  /** (c, p) is a reference when rows of table c point at rows of table p. */
  type References = set<(Table, Table)>

  const MAX_PASSES: nat := 10

  /** `rows` are the tables that still hold rows of the tenant. */
  predicate Blocked(refs: References, rows: set<Table>, t: Table) {
    t in rows && exists c :: c in rows && c != t && (c, t) in refs
  }

  datatype Pass = Pass(rows: set<Table>, failed: seq<Table>)

  function RunPass(refs: References, rows: set<Table>, tables: seq<Table>): Pass {
    if tables == [] then Pass(rows, [])
    else
      var before := RunPass(refs, rows, tables[..|tables| - 1]);
      var t := tables[|tables| - 1];
      if Blocked(refs, before.rows, t) then Pass(before.rows, before.failed + [t])
      else Pass(before.rows - {t}, before.failed)
  }

  datatype Sweep = Sweep(rows: set<Table>, remaining: seq<Table>, stalled: bool)

  function RunPasses(refs: References, rows: set<Table>, tables: seq<Table>, n: nat): Sweep
    decreases n
  {
    if n == 0 || tables == [] then Sweep(rows, tables, false)
    else
      var p := RunPass(refs, rows, tables);
      if |p.failed| == |tables| then Sweep(p.rows, tables, true)
      else RunPasses(refs, p.rows, p.failed, n - 1)
  }

  datatype Outcome = Deleted | StillBlocked(remaining: seq<Table>) | HotelRowBlocked

  /** The retry passes of the transaction. */
  method Sweeps(refs: References, rows: set<Table>, tables: seq<Table>) returns (left: set<Table>,
      remaining: seq<Table>)
    ensures var s := RunPasses(refs, rows, tables, MAX_PASSES); left == s.rows && remaining == s.remaining
  {
    left := rows;
    remaining := tables;
    var pass := 0;
    var stalled := false;
    while pass < MAX_PASSES && |remaining| > 0 && !stalled
      invariant 0 <= pass <= MAX_PASSES
      invariant var s := RunPasses(refs, rows, tables, MAX_PASSES);
                if stalled then s == Sweep(left, remaining, true)
                else s == RunPasses(refs, left, remaining, MAX_PASSES - pass)
      decreases MAX_PASSES - pass, !stalled
    {
      var failed: seq<Table> := [];
      ghost var atStart := left;
      var i := 0;
      while i < |remaining|
        invariant 0 <= i <= |remaining|
        invariant RunPass(refs, atStart, remaining[..i]) == Pass(left, failed)
      {
        assert remaining[..i + 1][..i] == remaining[..i];
        var t := remaining[i];
        if Blocked(refs, left, t) {
          failed := failed + [t];
        } else {
          left := left - {t};
        }
        i := i + 1;
      }
      assert remaining[..i] == remaining;
      if |failed| == |remaining| {
        stalled := true;
      } else {
        remaining := failed;
        pass := pass + 1;
      }
    }
  }

  /** The committed rows are the old ones unless every table and the hotel row went. */
  method DeleteTenant(refs: References, rows: set<Table>, tables: seq<Table>, hotelRowBlocked: bool)
    returns (outcome: Outcome, committed: set<Table>)
    ensures var s := RunPasses(refs, rows, tables, 10);
            && (s.remaining != [] ==> outcome == StillBlocked(s.remaining))
            && (s.remaining == [] ==> outcome == if hotelRowBlocked then HotelRowBlocked else Deleted)
            && committed == if outcome == Deleted then s.rows else rows
    ensures Covers(rows, tables) && outcome == Deleted ==> committed == {}
    ensures Covers(rows, tables) && Distinct(tables) ==>
              (outcome.StillBlocked? <==> !BacksBelow(refs, rows, tables, 10))
    ensures Covers(rows, tables) && ChainsAtMost(refs, rows, 10) ==> !outcome.StillBlocked?
  {
    if Covers(rows, tables) {
      EarlyStopMeansBlocked(refs, rows, tables, MAX_PASSES);
      TenPasses(refs, rows, tables);
    }
    var left, remaining := Sweeps(refs, rows, tables);
    if |remaining| > 0 {
      return StillBlocked(remaining), rows;
    }
    if hotelRowBlocked {
      return HotelRowBlocked, rows;
    }
    return Deleted, left;
  }

  // ---------- one pass ----------

  predicate Covers(rows: set<Table>, tables: seq<Table>) {
    forall t :: t in rows ==> t in tables
  }

  predicate Distinct(tables: seq<Table>) {
    forall i, j :: 0 <= i < j < |tables| ==> tables[i] != tables[j]
  }

  /** A pass only removes rows, and only of the tables it is given. */
  lemma {:induction false} PassRows(refs: References, rows: set<Table>, tables: seq<Table>)
    ensures var p := RunPass(refs, rows, tables);
            p.rows <= rows && forall t :: t in rows && t !in tables ==> t in p.rows
  {
    if tables != [] {
      PassRows(refs, rows, tables[..|tables| - 1]);
    }
  }

  /** A failed table was blocked by rows there at the start, and whatever is left failed. */
  lemma {:induction false} PassFailed(refs: References, rows: set<Table>, tables: seq<Table>, t: Table)
    ensures var p := RunPass(refs, rows, tables);
            && (t in p.failed ==> t in tables && Blocked(refs, rows, t))
            && (t in p.rows && t in tables ==> t in p.failed)
  {
    if tables != [] {
      var rest := tables[..|tables| - 1];
      PassFailed(refs, rows, rest, t);
      PassRows(refs, rows, rest);
    }
  }

  lemma PassCovers(refs: References, rows: set<Table>, tables: seq<Table>)
    requires Covers(rows, tables)
    ensures Covers(RunPass(refs, rows, tables).rows, RunPass(refs, rows, tables).failed)
  {
    PassRows(refs, rows, tables);
    forall t | t in RunPass(refs, rows, tables).rows
      ensures t in RunPass(refs, rows, tables).failed
    {
      PassFailed(refs, rows, tables, t);
    }
  }

  /** A pass in which everything failed changed nothing. */
  lemma {:induction false} NoProgress(refs: References, rows: set<Table>, tables: seq<Table>)
    ensures var p := RunPass(refs, rows, tables);
            |p.failed| <= |tables| && (|p.failed| == |tables| ==> p == Pass(rows, tables))
  {
    if tables != [] {
      var rest := tables[..|tables| - 1];
      NoProgress(refs, rows, rest);
      assert rest + [tables[|tables| - 1]] == tables;
    }
  }

  // ---------- stopping early ----------

  /** All n passes, with no early stop. */
  function RunAll(refs: References, rows: set<Table>, tables: seq<Table>, n: nat): Pass
    decreases n
  {
    if n == 0 then Pass(rows, tables)
    else
      var p := RunPass(refs, rows, tables);
      RunAll(refs, p.rows, p.failed, n - 1)
  }

  /** Stopping at a pass without progress gives the same result as running every pass. */
  lemma {:induction false} EarlyStopLosesNothing(refs: References, rows: set<Table>, tables: seq<Table>, n: nat)
    ensures var s := RunPasses(refs, rows, tables, n);
            Pass(s.rows, s.remaining) == RunAll(refs, rows, tables, n)
    decreases n
  {
    if n > 0 {
      NoProgress(refs, rows, tables);
      var p := RunPass(refs, rows, tables);
      EarlyStopLosesNothing(refs, p.rows, p.failed, n - 1);
      if |p.failed| == |tables| {
        Fixpoint(refs, rows, tables, n - 1);
      }
    }
  }

  lemma {:induction false} Fixpoint(refs: References, rows: set<Table>, tables: seq<Table>, n: nat)
    requires RunPass(refs, rows, tables) == Pass(rows, tables)
    ensures RunAll(refs, rows, tables, n) == Pass(rows, tables)
  {
    if n > 0 {
      Fixpoint(refs, rows, tables, n - 1);
    }
  }

  /**
   For any graph: the passes stop before their number is up only when every remaining table
   is still blocked, and nothing remaining means nothing left.
   */
  lemma {:induction false} EarlyStopMeansBlocked(refs: References, rows: set<Table>, tables: seq<Table>, n: nat)
    requires Covers(rows, tables)
    ensures var s := RunPasses(refs, rows, tables, n);
            && (s.stalled ==> s.remaining != [] && forall t :: t in s.remaining ==> Blocked(refs, s.rows, t))
            && Covers(s.rows, s.remaining) && s.rows <= rows
    decreases n
  {
    if n > 0 && tables != [] {
      var p := RunPass(refs, rows, tables);
      PassCovers(refs, rows, tables);
      PassRows(refs, rows, tables);
      NoProgress(refs, rows, tables);
      if |p.failed| == |tables| {
        forall t | t in tables
          ensures Blocked(refs, rows, t)
        {
          PassFailed(refs, rows, tables, t);
        }
      } else {
        EarlyStopMeansBlocked(refs, p.rows, p.failed, n - 1);
      }
    }
  }

  // ---------- chains of references ----------

  /** Each table of the chain holds rows that reference the next. */
  ghost predicate IsChain(refs: References, rows: set<Table>, chain: seq<Table>) {
    && chain != []
    && (forall i :: 0 <= i < |chain| ==> chain[i] in rows)
    && (forall i :: 0 <= i < |chain| - 1 ==> chain[i] != chain[i + 1] && (chain[i], chain[i + 1]) in refs)
  }

  ghost predicate ChainsAtMost(refs: References, rows: set<Table>, n: nat) {
    forall chain: seq<Table> :: IsChain(refs, rows, chain) ==> |chain| <= n
  }

  /** Where the catalogue lists a table. */
  function Position(tables: seq<Table>, t: Table): (k: nat)
    ensures k <= |tables| && (k < |tables| ==> tables[k] == t) && (t in tables ==> k < |tables|)
  {
    if tables == [] then 0 else if tables[0] == t then 0 else 1 + Position(tables[1..], t)
  }

  lemma PositionIs(tables: seq<Table>, k: nat)
    requires Distinct(tables) && k < |tables|
    ensures Position(tables, tables[k]) == k
  {
    var p := Position(tables, tables[k]);
    assert tables[p] == tables[k];
  }

  /** The steps of a chain at which the parent is listed before the child. */
  function Backs(chain: seq<Table>, catalogue: seq<Table>): nat {
    if |chain| <= 1 then 0
    else (if Position(catalogue, chain[1]) < Position(catalogue, chain[0]) then 1 else 0) + Backs(chain[1..], catalogue)
  }

  lemma {:induction false} BacksOne(chain: seq<Table>, catalogue: seq<Table>, t: Table)
    requires chain != []
    ensures Backs(chain + [t], catalogue) == Backs(chain, catalogue) + BackStep(catalogue, chain[|chain| - 1], t)
  {
    var longer := chain + [t];
    assert longer[1..] == chain[1..] + [t];
    if |chain| > 1 {
      BacksOne(chain[1..], catalogue, t);
    } else {
      assert |longer[1..]| == 1;
    }
  }

  /** A chain with at least k such steps ends at t. */
  ghost predicate EndsBack(refs: References, rows: set<Table>, catalogue: seq<Table>, k: nat, t: Table) {
    exists chain: seq<Table> ::
      IsChain(refs, rows, chain) && chain[|chain| - 1] == t && Backs(chain, catalogue) >= k
  }

  lemma SingleChain(refs: References, rows: set<Table>, catalogue: seq<Table>, t: Table)
    requires t in rows
    ensures EndsBack(refs, rows, catalogue, 0, t)
  {
    assert IsChain(refs, rows, [t]) && [t][0] == t;
  }

  function BackStep(catalogue: seq<Table>, c: Table, t: Table): nat {
    if Position(catalogue, t) < Position(catalogue, c) then 1 else 0
  }

  lemma ExtendChain(refs: References, rows: set<Table>, catalogue: seq<Table>, k: nat, c: Table, t: Table)
    requires EndsBack(refs, rows, catalogue, k, c) && t in rows && c != t && (c, t) in refs
    ensures EndsBack(refs, rows, catalogue, k + BackStep(catalogue, c, t), t)
  {
    var chain: seq<Table> :| IsChain(refs, rows, chain) && chain[|chain| - 1] == c && Backs(chain, catalogue) >= k;
    LongerChain(refs, rows, chain, t);
    BacksOne(chain, catalogue, t);
    var longer := chain + [t];
    assert IsChain(refs, rows, longer) && longer[|longer| - 1] == t;
  }

  lemma LongerChain(refs: References, rows: set<Table>, chain: seq<Table>, t: Table)
    requires IsChain(refs, rows, chain) && t in rows && chain[|chain| - 1] != t && (chain[|chain| - 1], t) in refs
    ensures IsChain(refs, rows, chain + [t])
  {
  }

  lemma FewerBacks(refs: References, rows: set<Table>, catalogue: seq<Table>, k: nat, m: nat, t: Table)
    requires EndsBack(refs, rows, catalogue, k, t) && m <= k
    ensures EndsBack(refs, rows, catalogue, m, t)
  {
  }

  /** The tables are listed in the catalogue's order. */
  ghost predicate InOrder(catalogue: seq<Table>, tables: seq<Table>) {
    forall i, j :: 0 <= i < j < |tables| ==> Position(catalogue, tables[i]) < Position(catalogue, tables[j])
  }

  lemma CatalogueInOrder(catalogue: seq<Table>)
    requires Distinct(catalogue)
    ensures InOrder(catalogue, catalogue)
  {
    forall i, j | 0 <= i < j < |catalogue|
      ensures Position(catalogue, catalogue[i]) < Position(catalogue, catalogue[j])
    {
      PositionIs(catalogue, i);
      PositionIs(catalogue, j);
    }
  }

  lemma {:induction false} FailedInOrder(refs: References, catalogue: seq<Table>, rows: set<Table>, tables: seq<Table>)
    requires InOrder(catalogue, tables)
    ensures InOrder(catalogue, RunPass(refs, rows, tables).failed)
  {
    if tables != [] {
      var rest := tables[..|tables| - 1];
      FailedInOrder(refs, catalogue, rows, rest);
      var before, after := RunPass(refs, rows, rest).failed, RunPass(refs, rows, tables).failed;
      forall i, j | 0 <= i < j < |after|
        ensures Position(catalogue, after[i]) < Position(catalogue, after[j])
      {
        if j == |before| {
          PassFailed(refs, rows, rest, after[i]);
          var k :| 0 <= k < |rest| && rest[k] == after[i];
          assert tables[k] == after[i];
        }
      }
    }
  }

  /**
   What blocks a table when its turn comes has either failed in the same pass, or is listed
   later: then the step from it is one more at which the parent comes first.
   */
  lemma {:induction false} FailedEndsBack(
    refs: References, all: set<Table>, catalogue: seq<Table>, rows: set<Table>, tables: seq<Table>, m: nat, k: nat,
        t: Table)
    requires m <= |tables| && rows <= all && Covers(rows, tables) && InOrder(catalogue, tables)
    requires forall r :: r in rows ==> EndsBack(refs, all, catalogue, k, r)
    requires t in RunPass(refs, rows, tables[..m]).failed
    ensures EndsBack(refs, all, catalogue, k + 1, t)
  {
    var before := RunPass(refs, rows, tables[..m - 1]);
    assert tables[..m][..m - 1] == tables[..m - 1];
    if t in before.failed {
      FailedEndsBack(refs, all, catalogue, rows, tables, m - 1, k, t);
    } else {
      assert t == tables[m - 1];
      PassRows(refs, rows, tables[..m - 1]);
      var c :| c in before.rows && c != t && (c, t) in refs;
      if c in tables[..m - 1] {
        PassFailed(refs, rows, tables[..m - 1], c);
        FailedEndsBack(refs, all, catalogue, rows, tables, m - 1, k, c);
        ExtendChain(refs, all, catalogue, k + 1, c, t);
        FewerBacks(refs, all, catalogue, k + 1 + BackStep(catalogue, c, t), k + 1, t);
      } else {
        var j :| 0 <= j < |tables| && tables[j] == c;
        assert j >= m - 1 && tables[j] != tables[m - 1];
        ExtendChain(refs, all, catalogue, k, c, t);
      }
    }
  }

  lemma PassEndsBack(
    refs: References, all: set<Table>, catalogue: seq<Table>, rows: set<Table>, tables: seq<Table>, k: nat)
    requires rows <= all && Covers(rows, tables) && InOrder(catalogue, tables)
    requires forall r :: r in rows ==> EndsBack(refs, all, catalogue, k, r)
    ensures var p := RunPass(refs, rows, tables);
            forall r :: r in p.rows || r in p.failed ==> EndsBack(refs, all, catalogue, k + 1, r)
  {
    var p := RunPass(refs, rows, tables);
    PassCovers(refs, rows, tables);
    assert tables[..|tables|] == tables;
    forall r | r in p.rows || r in p.failed
      ensures EndsBack(refs, all, catalogue, k + 1, r)
    {
      FailedEndsBack(refs, all, catalogue, rows, tables, |tables|, k, r);
    }
  }

  /** Whatever the order, a table still there after n passes ends a chain with at least n such steps. */
  lemma {:induction false} SurvivorsEndChains(
    refs: References, all: set<Table>, catalogue: seq<Table>, rows: set<Table>, tables: seq<Table>, n: nat, k: nat,
        t: Table)
    requires rows <= all && Covers(rows, tables) && InOrder(catalogue, tables)
    requires forall r :: r in rows ==> EndsBack(refs, all, catalogue, k, r)
    requires var p := RunAll(refs, rows, tables, n);
             t in p.rows || (n > 0 && t in p.failed)
    ensures EndsBack(refs, all, catalogue, k + n, t)
    decreases n
  {
    if n > 0 {
      var p := RunPass(refs, rows, tables);
      PassRows(refs, rows, tables);
      PassCovers(refs, rows, tables);
      PassEndsBack(refs, all, catalogue, rows, tables, k);
      FailedInOrder(refs, catalogue, rows, tables);
      if n > 1 || t in RunAll(refs, rows, tables, n).rows {
        SurvivorsEndChains(refs, all, catalogue, p.rows, p.failed, n - 1, k + 1, t);
      }
    }
  }

  // ---------- chains that survive ----------

  /** Blocked at its turn, a table is still there after the pass. */
  lemma {:induction false} BlockedSurvives(refs: References, rows: set<Table>, tables: seq<Table>, c: Table, t: Table)
    requires c in rows && t in rows && c != t && (c, t) in refs
    requires c in RunPass(refs, rows, tables).rows || (forall i, j :: 0 <= i < j < |tables| && tables[j] == t ==>
               tables[i] != c)
    ensures t in RunPass(refs, rows, tables).rows
  {
    if tables != [] {
      var rest, last := tables[..|tables| - 1], tables[|tables| - 1];
      BlockedSurvives(refs, rows, rest, c, t);
      PassRows(refs, rows, rest);
      if last == t {
        assert c in RunPass(refs, rows, rest).rows;
      }
    }
  }

  /** Listed before the child that references it, a table survives the pass. */
  lemma ParentFirstSurvives(refs: References, catalogue: seq<Table>, rows: set<Table>, tables: seq<Table>, c: Table,
      t: Table)
    requires c in rows && t in rows && c != t && (c, t) in refs
    requires InOrder(catalogue, tables) && Position(catalogue, t) < Position(catalogue, c)
    ensures t in RunPass(refs, rows, tables).rows
  {
    forall i, j | 0 <= i < j < |tables| && tables[j] == t
      ensures tables[i] != c
    {
      assert Position(catalogue, tables[i]) < Position(catalogue, tables[j]);
    }
    BlockedSurvives(refs, rows, tables, c, t);
  }

  /** Behind a survivor, the whole rest of the chain survives. */
  lemma {:induction false} RestSurvives(refs: References, rows: set<Table>, tables: seq<Table>, chain: seq<Table>)
    requires IsChain(refs, rows, chain) && chain[0] in RunPass(refs, rows, tables).rows
    ensures IsChain(refs, RunPass(refs, rows, tables).rows, chain)
  {
    if |chain| > 1 {
      BlockedSurvives(refs, rows, tables, chain[0], chain[1]);
      ChainTail(refs, rows, chain);
      RestSurvives(refs, rows, tables, chain[1..]);
      var p := RunPass(refs, rows, tables);
      forall i | 0 <= i < |chain|
        ensures chain[i] in p.rows
      {
        assert i > 0 ==> chain[i] == chain[1..][i - 1];
      }
    }
  }

  lemma ChainTail(refs: References, rows: set<Table>, chain: seq<Table>)
    requires IsChain(refs, rows, chain) && |chain| > 1
    ensures IsChain(refs, rows, chain[1..])
  {
    var tail := chain[1..];
    forall i | 0 <= i < |tail| - 1
      ensures tail[i] != tail[i + 1] && (tail[i], tail[i + 1]) in refs
    {
      assert tail[i] == chain[i + 1] && tail[i + 1] == chain[i + 2];
    }
  }

  /** A pass takes at most one such step off a chain. */
  lemma {:induction false} PassLeavesRest(
    refs: References, catalogue: seq<Table>, rows: set<Table>, tables: seq<Table>,
        chain: seq<Table>) returns (rest: seq<Table>)
    requires InOrder(catalogue, tables) && IsChain(refs, rows, chain) && Backs(chain, catalogue) > 0
    ensures IsChain(refs, RunPass(refs, rows, tables).rows, rest)
    ensures Backs(rest, catalogue) == Backs(chain, catalogue) - 1
    decreases |chain|
  {
    ChainTail(refs, rows, chain);
    if Position(catalogue, chain[1]) < Position(catalogue, chain[0]) {
      rest := chain[1..];
      ParentFirstSurvives(refs, catalogue, rows, tables, chain[0], chain[1]);
      RestSurvives(refs, rows, tables, rest);
    } else {
      rest := PassLeavesRest(refs, catalogue, rows, tables, chain[1..]);
    }
  }

  lemma {:induction false} ChainSurvives(
    refs: References, catalogue: seq<Table>, rows: set<Table>, tables: seq<Table>, n: nat, chain: seq<Table>)
    requires Covers(rows, tables) && InOrder(catalogue, tables) && IsChain(refs, rows, chain)
    requires Backs(chain, catalogue) >= n
    ensures RunAll(refs, rows, tables, n).failed != []
    decreases n
  {
    if n == 0 {
      assert chain[0] in tables;
    } else {
      var p := RunPass(refs, rows, tables);
      var rest := PassLeavesRest(refs, catalogue, rows, tables, chain);
      PassCovers(refs, rows, tables);
      FailedInOrder(refs, catalogue, rows, tables);
      ChainSurvives(refs, catalogue, p.rows, p.failed, n - 1, rest);
    }
  }

  // ---------- how many passes it takes ----------

  ghost predicate BacksBelow(refs: References, rows: set<Table>, catalogue: seq<Table>, n: nat) {
    forall chain: seq<Table> :: IsChain(refs, rows, chain) ==> Backs(chain, catalogue) < n
  }

  lemma NothingSurvives(refs: References, rows: set<Table>, tables: seq<Table>, n: nat)
    requires Covers(rows, tables) && Distinct(tables) && n > 0 && BacksBelow(refs, rows, tables, n)
    ensures RunAll(refs, rows, tables, n) == Pass({}, [])
  {
    CatalogueInOrder(tables);
    forall t | t in rows
      ensures EndsBack(refs, rows, tables, 0, t)
    {
      SingleChain(refs, rows, tables, t);
    }
    var p := RunAll(refs, rows, tables, n);
    if p.failed != [] {
      NoLongerChain(refs, rows, tables, n, p.failed[0]);
      SurvivorsEndChains(refs, rows, tables, rows, tables, n, 0, p.failed[0]);
    }
    if p.rows != {} {
      var t :| t in p.rows;
      NoLongerChain(refs, rows, tables, n, t);
      SurvivorsEndChains(refs, rows, tables, rows, tables, n, 0, t);
    }
  }

  lemma NoLongerChain(refs: References, rows: set<Table>, catalogue: seq<Table>, n: nat, t: Table)
    requires BacksBelow(refs, rows, catalogue, n)
    ensures !EndsBack(refs, rows, catalogue, n, t)
  {
  }

  /**
   For every graph and every catalogue order, n passes empty every table if and only if no
   chain of references has n or more steps at which the parent is listed before the child.
   */
  lemma PassesAreExact(refs: References, rows: set<Table>, tables: seq<Table>, n: nat)
    requires Covers(rows, tables) && Distinct(tables) && n > 0
    ensures RunPasses(refs, rows, tables, n).remaining == [] <==> BacksBelow(refs, rows, tables, n)
    ensures BacksBelow(refs, rows, tables, n) ==> RunPasses(refs, rows, tables, n).rows == {}
  {
    EarlyStopLosesNothing(refs, rows, tables, n);
    if BacksBelow(refs, rows, tables, n) {
      NothingSurvives(refs, rows, tables, n);
    } else {
      var chain: seq<Table> :| IsChain(refs, rows, chain) && Backs(chain, tables) >= n;
      CatalogueInOrder(tables);
      ChainSurvives(refs, tables, rows, tables, n, chain);
    }
  }

  // ---------- short chains, in any list ----------

  ghost predicate EndsChain(refs: References, rows: set<Table>, n: nat, t: Table) {
    exists chain: seq<Table> :: |chain| == n && IsChain(refs, rows, chain) && chain[n - 1] == t
  }

  /** A table blocked by tables that end chains of length n ends a chain of length n + 1. */
  lemma BlockedExtends(refs: References, all: set<Table>, rows: set<Table>, n: nat, t: Table)
    requires n > 0 && rows <= all && Blocked(refs, rows, t)
    requires forall c :: c in rows ==> EndsChain(refs, all, n, c)
    ensures EndsChain(refs, all, n + 1, t)
  {
    var c :| c in rows && c != t && (c, t) in refs;
    var chain: seq<Table> :| |chain| == n && IsChain(refs, all, chain) && chain[n - 1] == c;
    LongerChain(refs, all, chain, t);
    assert (chain + [t])[n] == t;
  }

  /** A table still there after n passes ends a chain of more than n tables. */
  lemma {:induction false} SurvivorsAreDeep(
    refs: References, all: set<Table>, rows: set<Table>, tables: seq<Table>, n: nat, k: nat, t: Table)
    requires rows <= all && Covers(rows, tables)
    requires forall r :: r in rows ==> EndsChain(refs, all, k + 1, r)
    requires var p := RunAll(refs, rows, tables, n);
             t in p.rows || (n > 0 && t in p.failed)
    ensures EndsChain(refs, all, k + n + 1, t)
    decreases n
  {
    if n > 0 {
      var p := RunPass(refs, rows, tables);
      PassRows(refs, rows, tables);
      PassCovers(refs, rows, tables);
      forall r | r in p.rows || r in p.failed
        ensures EndsChain(refs, all, k + 2, r)
      {
        PassFailed(refs, rows, tables, r);
        BlockedExtends(refs, all, rows, k + 1, r);
      }
      if n > 1 || t in RunAll(refs, rows, tables, n).rows {
        SurvivorsAreDeep(refs, all, p.rows, p.failed, n - 1, k + 1, t);
      }
    }
  }

  /** Whatever the list, chains of at most n tables are emptied in n passes. Cycles are excluded by the bound. */
  lemma ShortChainsAreDeleted(refs: References, rows: set<Table>, tables: seq<Table>, n: nat)
    requires Covers(rows, tables) && ChainsAtMost(refs, rows, n) && n > 0
    ensures RunPasses(refs, rows, tables, n).remaining == [] && RunPasses(refs, rows, tables, n).rows == {}
  {
    EarlyStopLosesNothing(refs, rows, tables, n);
    forall t | t in rows
      ensures EndsChain(refs, rows, 1, t)
    {
      assert IsChain(refs, rows, [t]) && [t][0] == t;
    }
    var p := RunAll(refs, rows, tables, n);
    if p.failed != [] {
      NoDeeperTable(refs, rows, n, p.failed[0]);
      SurvivorsAreDeep(refs, rows, rows, tables, n, 0, p.failed[0]);
    }
    if p.rows != {} {
      var t :| t in p.rows;
      NoDeeperTable(refs, rows, n, t);
      SurvivorsAreDeep(refs, rows, rows, tables, n, 0, t);
    }
  }

  lemma NoDeeperTable(refs: References, rows: set<Table>, n: nat, t: Table)
    requires ChainsAtMost(refs, rows, n)
    ensures !EndsChain(refs, rows, n + 1, t)
  {
  }

  lemma TenPasses(refs: References, rows: set<Table>, tables: seq<Table>)
    requires Covers(rows, tables)
    ensures Distinct(tables) ==>
              (RunPasses(refs, rows, tables, MAX_PASSES).remaining == [] <==> BacksBelow(refs, rows, tables, 10))
    ensures ChainsAtMost(refs, rows, 10) ==> RunPasses(refs, rows, tables, MAX_PASSES).remaining == []
  {
    if Distinct(tables) {
      PassesAreExact(refs, rows, tables, MAX_PASSES);
    }
    if ChainsAtMost(refs, rows, MAX_PASSES) {
      ShortChainsAreDeleted(refs, rows, tables, MAX_PASSES);
    }
  }

  // ---------- parents first ----------

  /** No table is listed before one that its rows reference. */
  ghost predicate ParentsFirst(refs: References, tables: seq<Table>) {
    forall i, j :: 0 <= i < j < |tables| ==> (tables[i], tables[j]) !in refs
  }

  lemma {:induction false} EveryStepIsBack(refs: References, rows: set<Table>, tables: seq<Table>, chain: seq<Table>)
    requires Covers(rows, tables) && Distinct(tables) && ParentsFirst(refs, tables) && IsChain(refs, rows, chain)
    ensures Backs(chain, tables) == |chain| - 1
  {
    if |chain| > 1 {
      ChainTail(refs, rows, chain);
      EveryStepIsBack(refs, rows, tables, chain[1..]);
      assert chain[0] in tables && chain[1] in tables;
    }
  }

  /** In a catalogue that lists parents first, ten passes suffice exactly for chains of at most ten tables. */
  lemma TenPassesAreExact(refs: References, rows: set<Table>, tables: seq<Table>)
    requires Covers(rows, tables) && Distinct(tables) && ParentsFirst(refs, tables)
    ensures RunPasses(refs, rows, tables, MAX_PASSES).remaining == [] <==> ChainsAtMost(refs, rows, 10)
  {
    PassesAreExact(refs, rows, tables, MAX_PASSES);
    forall chain: seq<Table> | IsChain(refs, rows, chain)
      ensures Backs(chain, tables) == |chain| - 1
    {
      EveryStepIsBack(refs, rows, tables, chain);
    }
  }
}
