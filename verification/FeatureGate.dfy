/**
 The feature gate's cache of denials: per hotel, filled on a miss by a load that reads the
 database, trusted for thirty seconds, and dropped when the matrix is edited. Requests,
 loads, edits, invalidations and the clock interleave freely; a load is several steps.
 Times are milliseconds.
 */
module FeatureGate {
  import opened Versions

  type Hotel = string
  datatype Denial = Denial(role: string, feature: string)

  const TTL: nat := 30000

  // ---------- what is cached ----------

  datatype FeatureConf = FeatureConf(deny: map<string, set<string>>, exp: nat)

  predicate Denied(deny: map<string, set<string>>, role: string, feature: string) {
    role in deny && feature in deny[role]
  }

  function Features(denials: set<Denial>, role: string): set<string> {
    set d | d in denials && d.role == role :: d.feature
  }

  function RowSet(rows: seq<Denial>): set<Denial> {
    set d | d in rows
  }

  function DenyMap(denials: set<Denial>): map<string, set<string>> {
    map d | d in denials :: d.role := Features(denials, d.role)
  }

  /** The map denies exactly what the rows deny. */
  lemma DenyMapDenies(denials: set<Denial>, role: string, feature: string)
    ensures Denied(DenyMap(denials), role, feature) <==> Denial(role, feature) in denials
  {
    if Denial(role, feature) in denials {
      assert Denial(role, feature).role in DenyMap(denials);
      assert Denial(role, feature).feature in Features(denials, role);
    }
  }

  /** One more row in the map. */
  function Denying(deny: map<string, set<string>>, d: Denial): map<string, set<string>> {
    deny[d.role := (if d.role in deny then deny[d.role] else {}) + {d.feature}]
  }

  lemma DenyMapOne(denials: set<Denial>, d: Denial)
    ensures DenyMap(denials + {d}) == Denying(DenyMap(denials), d)
  {
    var before, after := DenyMap(denials), DenyMap(denials + {d});
    forall role | role in after
      ensures role == d.role || (role in before && after[role] == before[role])
    {
      FeaturesOne(denials, d, role);
    }
    FeaturesOne(denials, d, d.role);
    NoFeatures(denials, d.role);
    assert d in denials + {d};
    assert d.role in after;
    forall role | role in before
      ensures role in after
    {
      var e :| e in denials && e.role == role;
      assert e in denials + {d};
    }
  }

  lemma RowSetOne(rows: seq<Denial>, i: nat)
    requires i < |rows|
    ensures RowSet(rows[..i + 1]) == RowSet(rows[..i]) + {rows[i]}
  {
    assert rows[..i + 1] == rows[..i] + [rows[i]];
  }

  lemma FeaturesOne(denials: set<Denial>, d: Denial, role: string)
    ensures Features(denials + {d}, role) == Features(denials, role) + if d.role == role then {d.feature} else {}
  {
  }

  lemma NoFeatures(denials: set<Denial>, role: string)
    ensures role !in DenyMap(denials) ==> Features(denials, role) == {}
  {
    if role !in DenyMap(denials) {
      forall d | d in denials
        ensures d.role != role
      {
        assert d.role in DenyMap(denials);
      }
    }
  }

  // ---------- interleavings ----------

  type Matrix = set<Denial>

  datatype Cached = Cached(snapshot: Snapshot, conf: FeatureConf)

  datatype Loading = Started | Read(snapshot: Snapshot, rows: set<Denial>) | Stamped(cached: Cached)
  datatype Load = Load(hotel: Hotel, since: nat, stage: Loading)

  /** `log` holds every version of each hotel's matrix, the newest last; `loads` those in flight. */
  datatype State = State(now: nat, log: map<Hotel, seq<Version<Matrix>>>, cache: map<Hotel, Cached>, loads: map<nat,
      Load>)

  datatype Step =
    | Tick(elapsed: nat)
    | Edit(hotel: Hotel, denials: set<Denial>)
    | Invalidate(hotel: Hotel)
    | UseCache(hotel: Hotel)
    | StartLoad(id: nat, hotel: Hotel)
    | ReadRows(id: nat)
    | Stamp(id: nat)
    | Store(id: nat)
    | FailLoad(id: nat)

  /** A load takes at most `longest` from start to end. */
  ghost predicate Enabled(st: State, step: Step, longest: nat) {
    match step
    case Tick(ms) => forall id :: id in st.loads ==> st.now + ms <= st.loads[id].since + longest
    case Edit(h, _) => h in st.log
    case Invalidate(_) => true
    case UseCache(h) => h in st.cache && st.now < st.cache[h].conf.exp
    case StartLoad(id, h) => id !in st.loads && h in st.log && !(h in st.cache && st.now < st.cache[h].conf.exp)
    case ReadRows(id) =>
      id in st.loads && st.loads[id].stage.Started? && st.loads[id].hotel in st.log && st.log[st.loads[id].hotel] != []
    case Stamp(id) => id in st.loads && st.loads[id].stage.Read?
    case Store(id) => id in st.loads && st.loads[id].stage.Stamped?
    case FailLoad(id) => id in st.loads
  }

  ghost function Next(st: State, step: Step, longest: nat): State
    requires Enabled(st, step, longest)
  {
    match step
    case Tick(ms) => st.(now := st.now + ms)
    case Edit(h, denials) => st.(log := st.log[h := Stored(st.log[h], st.now, denials)])
    case Invalidate(h) => st.(cache := st.cache - {h})
    case UseCache(_) => st
    case StartLoad(id, h) => st.(loads := st.loads[id := Load(h, st.now, Started)])
    case ReadRows(id) =>
      var l := st.loads[id];
      var v := |st.log[l.hotel]| - 1;
      st.(loads := st.loads[id := l.(stage := Read(Snapshot(v, st.now), st.log[l.hotel][v].content))])
    case Stamp(id) =>
      var l := st.loads[id];
      var conf := FeatureConf(DenyMap(l.stage.rows), st.now + TTL);
      st.(loads := st.loads[id := l.(stage := Stamped(Cached(l.stage.snapshot, conf)))])
    case Store(id) =>
      var l := st.loads[id];
      st.(cache := st.cache[l.hotel := l.stage.cached], loads := st.loads - {id})
    case FailLoad(id) => st.(loads := st.loads - {id})
  }

  /** The step decides a request for hotel h with what is cached, or has just been loaded. */
  ghost predicate Decides(st: State, step: Step, h: Hotel, used: Cached) {
    match step
    case UseCache(g) => g == h && h in st.cache && st.cache[h] == used
    case Store(id) => id in st.loads && st.loads[id].hotel == h && st.loads[id].stage == Stamped(used)
    case _ => false
  }

  ghost predicate IsRun(states: seq<State>, steps: seq<Step>, longest: nat) {
    && |states| == |steps| + 1
    && forall i :: 0 <= i < |steps| ==>
         Enabled(states[i], steps[i], longest) && states[i + 1] == Next(states[i], steps[i], longest)
  }

  /** Before the first request: every hotel has a first version, nothing is cached or loading. */
  ghost predicate Initial(st: State) {
    && st.cache == map[] && st.loads == map[]
    && forall h :: h in st.log ==> |st.log[h]| == 1 && st.log[h][0].at <= st.now
  }

  // ---------- the gate's own state ----------

  function Confs(cache: map<Hotel, Cached>): map<Hotel, FeatureConf> {
    map h | h in cache :: cache[h].conf
  }

  datatype Lookup = Hit(conf: FeatureConf) | Miss

  /** The gate holds what the state says is cached, and each critical section is one step of it. */
  class Gate {
    var conf: map<Hotel, FeatureConf>

    ghost predicate Mirrors(st: State)
      reads this
    {
      conf == Confs(st.cache)
    }

    constructor ()
      ensures conf == map[]
      ensures forall st :: Initial(st) ==> Mirrors(st)
    {
      conf := map[];
    }

    /** A hit exactly when the state lets a request use the cache, and then with what it holds. */
    method Find(h: Hotel, now: nat, ghost st: State) returns (r: Lookup)
      requires Mirrors(st) && now == st.now
      ensures r.Hit? <==> Enabled(st, UseCache(h), 0)
      ensures r.Hit? ==> Decides(st, UseCache(h), h, st.cache[h]) && r.conf == st.cache[h].conf
    {
      if h in conf && now < conf[h].exp {
        return Hit(conf[h]);
      }
      r := Miss;
    }

    /** Builds the denials from the rows read; nothing is stored yet. */
    method Build(rows: seq<Denial>, now: nat, ghost st: State, ghost id: nat,
        ghost longest: nat) returns (c: FeatureConf)
      requires Enabled(st, Stamp(id), longest) && now == st.now && st.loads[id].stage.rows == RowSet(rows)
      ensures c == FeatureConf(DenyMap(RowSet(rows)), now + 30000)
      ensures c == Next(st, Stamp(id), longest).loads[id].stage.cached.conf
    {
      var deny: map<string, set<string>> := map[];
      var i := 0;
      while i < |rows|
        invariant 0 <= i <= |rows|
        invariant deny == DenyMap(RowSet(rows[..i]))
      {
        RowSetOne(rows, i);
        DenyMapOne(RowSet(rows[..i]), rows[i]);
        deny := Deny(deny, rows[i]);
        i := i + 1;
      }
      assert rows[..i] == rows;
      c := FeatureConf(deny, now + TTL);
    }

    method Deny(deny: map<string, set<string>>, d: Denial) returns (r: map<string, set<string>>)
      ensures r == Denying(deny, d)
    {
      r := deny;
      if d.role !in r {
        r := r[d.role := {}];
      }
      r := r[d.role := r[d.role] + {d.feature}];
    }

    method Store(h: Hotel, c: FeatureConf, ghost st: State, ghost id: nat, ghost longest: nat)
      requires Mirrors(st) && Enabled(st, Step.Store(id), longest)
      requires st.loads[id].hotel == h && st.loads[id].stage.cached.conf == c
      modifies this
      ensures conf == old(conf)[h := c]
      ensures Mirrors(Next(st, Step.Store(id), longest))
    {
      conf := conf[h := c];
    }

    method Invalidate(h: Hotel, ghost st: State, ghost longest: nat)
      requires Mirrors(st)
      modifies this
      ensures conf == old(conf) - {h}
      ensures Mirrors(Next(st, Step.Invalidate(h), longest))
    {
      conf := conf - {h};
    }
  }

  /** No other step touches what the gate holds. */
  lemma OtherStepsKeepTheCache(st: State, step: Step, longest: nat)
    requires Enabled(st, step, longest) && !step.Store? && !step.Invalidate?
    ensures Next(st, step, longest).cache == st.cache
  {
  }

  // ---------- how stale a decision can be ----------

  ghost predicate CachedWell(log: map<Hotel, seq<Version<Matrix>>>, h: Hotel, c: Cached, now: nat, longest: nat) {
    && h in log && InForce(log[h], c.snapshot, now)
    && c.conf.exp <= c.snapshot.at + longest + TTL
    && c.conf.deny == DenyMap(log[h][c.snapshot.version].content)
  }

  ghost predicate LoadWell(log: map<Hotel, seq<Version<Matrix>>>, l: Load, now: nat, longest: nat) {
    && l.hotel in log && l.since <= now <= l.since + longest
    && match l.stage
       case Started => true
       case Read(s, rows) =>
         InForce(log[l.hotel], s, now) && l.since <= s.at && rows == log[l.hotel][s.version].content
       case Stamped(c) => CachedWell(log, l.hotel, c, now, longest) && l.since <= c.snapshot.at
  }

  ghost predicate Sound(st: State, longest: nat) {
    && (forall h :: h in st.log ==> Ordered(st.log[h], st.now))
    && (forall h :: h in st.cache ==> CachedWell(st.log, h, st.cache[h], st.now, longest))
    && (forall id :: id in st.loads ==> LoadWell(st.log, st.loads[id], st.now, longest))
  }

  function Edited(st: State, h: Hotel, denials: set<Denial>): map<Hotel, seq<Version<Matrix>>>
    requires h in st.log
  {
    st.log[h := Stored(st.log[h], st.now, denials)]
  }

  lemma EditKeeps(st: State, h: Hotel, denials: set<Denial>, g: Hotel, s: Snapshot)
    requires h in st.log && g in st.log && InForce(st.log[g], s, st.now)
    ensures var log := Edited(st, h, denials);
            InForce(log[g], s, st.now) && log[g][s.version] == st.log[g][s.version]
  {
    StoringKeeps(st.log[g], s, st.now, denials);
  }

  lemma EditIsSound(st: State, h: Hotel, denials: set<Denial>, longest: nat)
    requires Sound(st, longest) && h in st.log
    ensures Sound(st.(log := Edited(st, h, denials)), longest)
  {
    var st' := st.(log := Edited(st, h, denials));
    forall g | g in st'.cache
      ensures CachedWell(st'.log, g, st'.cache[g], st'.now, longest)
    {
      EditKeeps(st, h, denials, g, st.cache[g].snapshot);
    }
    forall id | id in st'.loads
      ensures LoadWell(st'.log, st'.loads[id], st'.now, longest)
    {
      var l := st.loads[id];
      if l.stage.Read? {
        EditKeeps(st, h, denials, l.hotel, l.stage.snapshot);
      } else if l.stage.Stamped? {
        EditKeeps(st, h, denials, l.hotel, l.stage.cached.snapshot);
      }
    }
  }

  lemma StepIsSound(st: State, step: Step, longest: nat)
    requires Sound(st, longest) && Enabled(st, step, longest)
    ensures Sound(Next(st, step, longest), longest)
  {
    if step.Edit? {
      EditIsSound(st, step.hotel, step.denials, longest);
    } else if step.ReadRows? || step.Stamp? || step.Store? || step.FailLoad? {
      assert LoadWell(st.log, st.loads[step.id], st.now, longest);
    }
  }

  lemma {:induction false} RunIsSound(states: seq<State>, steps: seq<Step>, longest: nat, k: nat)
    requires IsRun(states, steps, longest) && Sound(states[0], longest) && k < |states|
    ensures Sound(states[k], longest)
  {
    if k > 0 {
      RunIsSound(states, steps, longest, k - 1);
      StepIsSound(states[k - 1], steps[k - 1], longest);
    }
  }

  /**
   In every interleaving, a decision at time t denies a role a feature exactly when the matrix
   did at some instant no earlier than t minus thirty seconds and the longest load.
   */
  lemma DecisionsAreRecent(states: seq<State>, steps: seq<Step>, longest: nat, k: nat, h: Hotel, used: Cached)
    requires IsRun(states, steps, longest) && Initial(states[0]) && k < |steps|
    requires Decides(states[k], steps[k], h, used)
    ensures var st, s := states[k], used.snapshot;
            && h in st.log && InForce(st.log[h], s, st.now) && st.now <= s.at + 30000 + longest
            && forall role, feature ::
                 Denied(used.conf.deny, role, feature) <==> Denial(role, feature) in st.log[h][s.version].content
  {
    RunIsSound(states, steps, longest, k);
    var st := states[k];
    if steps[k].Store? {
      assert LoadWell(st.log, st.loads[steps[k].id], st.now, longest);
    }
    assert CachedWell(st.log, h, used, st.now, longest);
    forall role, feature
      ensures Denied(used.conf.deny, role, feature) <==>
                Denial(role, feature) in st.log[h][used.snapshot.version].content
    {
      DenyMapDenies(st.log[h][used.snapshot.version].content, role, feature);
    }
  }

  /** What a load stamped is used for thirty seconds from then, as long as it is what is cached. */
  lemma TrustedForThirtySeconds(st: State, id: nat, longest: nat, later: State, h: Hotel)
    requires Enabled(st, Stamp(id), longest) && h in later.cache
    requires later.cache[h] == Next(st, Stamp(id), longest).loads[id].stage.cached
    ensures Enabled(later, UseCache(h), longest) <==> later.now < st.now + 30000
    ensures Enabled(later, StartLoad(id, h), longest) ==> later.now >= st.now + 30000
  {
    assert Next(st, Stamp(id), longest).loads[id].stage.cached.conf.exp == st.now + 30000;
  }

  // ---------- invalidation ----------

  /** The load has read version v or a later one, or nothing yet. */
  predicate Fresh(l: Load, v: nat) {
    match l.stage
    case Started => true
    case Read(s, _) => s.version >= v
    case Stamped(c) => c.snapshot.version >= v
  }

  /** No load of the hotel has already read an older version than the newest. */
  ghost predicate NoStaleLoads(st: State, h: Hotel)
    requires h in st.log && st.log[h] != []
  {
    forall id :: id in st.loads && st.loads[id].hotel == h ==> Fresh(st.loads[id], |st.log[h]| - 1)
  }

  /** Whatever is cached or being loaded for h is at least version v. */
  ghost predicate AtLeast(st: State, h: Hotel, v: nat) {
    && h in st.log && v < |st.log[h]|
    && (h in st.cache ==> st.cache[h].snapshot.version >= v)
    && forall id :: id in st.loads && st.loads[id].hotel == h ==> Fresh(st.loads[id], v)
  }

  lemma AtLeastStep(st: State, step: Step, longest: nat, h: Hotel, v: nat)
    requires Enabled(st, step, longest) && AtLeast(st, h, v)
    ensures AtLeast(Next(st, step, longest), h, v)
  {
  }

  lemma {:induction false} AtLeastStays(states: seq<State>, steps: seq<Step>, longest: nat, i: nat, k: nat, h: Hotel,
      v: nat)
    requires IsRun(states, steps, longest) && i <= k < |states| && AtLeast(states[i], h, v)
    ensures AtLeast(states[k], h, v)
  {
    if i < k {
      AtLeastStays(states, steps, longest, i, k - 1, h, v);
      AtLeastStep(states[k - 1], steps[k - 1], longest, h, v);
    }
  }

  /**
   If no load in flight has read an older version when the hotel is invalidated, every later
   decision already sees the newest version of that moment, or a later one.
   */
  lemma InvalidationTakesEffect(states: seq<State>, steps: seq<Step>, longest: nat, i: nat, k: nat, h: Hotel,
      used: Cached)
    requires IsRun(states, steps, longest) && i < k < |steps|
    requires steps[i] == Invalidate(h) && h in states[i].log && states[i].log[h] != [] && NoStaleLoads(states[i], h)
    requires Decides(states[k], steps[k], h, used)
    ensures used.snapshot.version >= |states[i].log[h]| - 1
  {
    assert states[i + 1] == Next(states[i], steps[i], longest);
    AtLeastStays(states, steps, longest, i + 1, k, h, |states[i].log[h]| - 1);
  }

  /** Invalidated in this state, the hotel's every later decision sees the newest version or a later one. */
  ghost predicate TakesEffect(st: State, h: Hotel, longest: nat)
    requires h in st.log
  {
    forall states: seq<State>, steps: seq<Step>, k: nat, used: Cached ::
      IsRun(states, steps, longest) && states[0] == st && 0 < k < |steps| && steps[0] == Invalidate(h)
      && Decides(states[k], steps[k], h, used) ==>
        used.snapshot.version >= |st.log[h]| - 1
  }

  /** A load that has read goes on to stamp and store, and its own request is decided with what it read. */
  lemma StaleLoadDecides(st: State, h: Hotel, id: nat, longest: nat)
    returns (states: seq<State>, steps: seq<Step>, k: nat, used: Cached)
    requires h in st.log && st.log[h] != [] && id in st.loads && st.loads[id].hotel == h
    requires !Fresh(st.loads[id], |st.log[h]| - 1)
    ensures IsRun(states, steps, longest) && states[0] == st && 0 < k < |steps| && steps[0] == Invalidate(h)
    ensures Decides(states[k], steps[k], h, used) && used.snapshot.version < |st.log[h]| - 1
  {
    var s1 := Next(st, Invalidate(h), longest);
    if st.loads[id].stage.Stamped? {
      steps, k, used := [Invalidate(h), Store(id)], 1, st.loads[id].stage.cached;
      states := [st, s1, Next(s1, Store(id), longest)];
    } else {
      var s2 := Next(s1, Stamp(id), longest);
      steps, k, used := [Invalidate(h), Stamp(id), Store(id)], 2, s2.loads[id].stage.cached;
      states := [st, s1, s2, Next(s2, Store(id), longest)];
    }
  }

  /** An invalidation takes effect exactly when no load in flight has already read an older version. */
  lemma InvalidationIsExact(st: State, h: Hotel, longest: nat)
    requires h in st.log && st.log[h] != []
    ensures TakesEffect(st, h, longest) <==> NoStaleLoads(st, h)
  {
    if NoStaleLoads(st, h) {
      forall states: seq<State>, steps: seq<Step>, k: nat, used: Cached |
        IsRun(states, steps, longest) && states[0] == st && 0 < k < |steps| && steps[0] == Invalidate(h)
        && Decides(states[k], steps[k], h, used)
        ensures used.snapshot.version >= |st.log[h]| - 1
      {
        InvalidationTakesEffect(states, steps, longest, 0, k, h, used);
      }
    } else {
      var id :| id in st.loads && st.loads[id].hotel == h && !Fresh(st.loads[id], |st.log[h]| - 1);
      var states, steps, k, used := StaleLoadDecides(st, h, id, longest);
    }
  }

  /** A load has read the hotel's matrix as it is now. */
  ghost predicate HasRead(st: State, h: Hotel, id: nat) {
    && h in st.log && st.log[h] != [] && id in st.loads && st.loads[id].hotel == h
    && st.loads[id].stage.Read? && st.loads[id].stage.snapshot.version < |st.log[h]|
  }

  /** Once a load in flight has read, no edit's invalidation takes effect: the load outlives it. */
  lemma LoadInFlightOutlivesInvalidation(st: State, h: Hotel, id: nat, denials: set<Denial>, longest: nat)
    requires HasRead(st, h, id)
    ensures !TakesEffect(Next(st, Edit(h, denials), longest), h, longest)
  {
    var st' := Next(st, Edit(h, denials), longest);
    assert !Fresh(st'.loads[id], |st'.log[h]| - 1);
    InvalidationIsExact(st', h, longest);
  }

  /** Such loads do arise. */
  lemma LoadsDoRead(h: Hotel) returns (states: seq<State>, steps: seq<Step>)
    ensures IsRun(states, steps, 0) && Initial(states[0]) && |steps| == 2 && HasRead(states[2], h, 1)
  {
    var s0 := State(0, map[h := [Version(0, {})]], map[], map[]);
    steps := [StartLoad(1, h), ReadRows(1)];
    var s1 := Next(s0, steps[0], 0);
    states := [s0, s1, Next(s1, steps[1], 0)];
  }
}
