/**
 The plan gate's cache: per hotel, its plan and module mask, and the overrides of that plan,
 read from two tables at two instants and trusted for thirty seconds. Nothing invalidates it.
 Requests, loads, edits and the clock interleave freely. Times are milliseconds.
 */
module PlanCache {
  import opened Options
  import opened AccessGates
  import opened Versions

  type Hotel = string
  type Overrides = map<Module, bool>

  const TTL: nat := 30000

  datatype HotelRow = HotelRow(tier: Tier, mask: map<Module, bool>)

  /** `plan` is when the overrides were read; they count as none when the query failed. */
  datatype Cached = Cached(hotel: Snapshot, plan: Option<Snapshot>, conf: PlanConf, exp: nat)

  datatype Loading =
    | Started
    | ReadHotel(hotel: Snapshot, row: HotelRow)
    | ReadPlan(hotel: Snapshot, row: HotelRow, plan: Option<Snapshot>, overrides: Overrides)
    | Stamped(cached: Cached)

  datatype Load = Load(hotel: Hotel, since: nat, stage: Loading)

  type Hotels = map<Hotel, seq<Version<HotelRow>>>
  type Plans = map<Tier, seq<Version<Overrides>>>

  datatype State = State(now: nat, hotels: Hotels, plans: Plans, cache: map<Hotel, Cached>, loads: map<nat, Load>)

  datatype Step =
    | Tick(elapsed: nat)
    | EditHotel(hotel: Hotel, row: HotelRow)
    | EditPlan(tier: Tier, overrides: Overrides)
    | UseCache(hotel: Hotel)
    | StartLoad(id: nat, hotel: Hotel)
    | QueryHotel(id: nat)
    | QueryPlan(id: nat)
    | PlanQueryFails(id: nat)
    | Stamp(id: nat)
    | Store(id: nat)
    | FailLoad(id: nat)

  predicate At(st: State, id: nat) {
    id in st.loads && st.loads[id].hotel in st.hotels && st.hotels[st.loads[id].hotel] != []
  }

  predicate HasOverrides(plans: Plans, tier: Tier) {
    tier in plans && plans[tier] != []
  }

  /** A load takes at most `longest` from start to end. */
  ghost predicate Enabled(st: State, step: Step, longest: nat) {
    match step
    case Tick(ms) => forall id :: id in st.loads ==> st.now + ms <= st.loads[id].since + longest
    case EditHotel(h, _) => h in st.hotels
    case EditPlan(tier, _) => tier in st.plans
    case UseCache(h) => h in st.cache && st.now < st.cache[h].exp
    case StartLoad(id, h) => id !in st.loads && h in st.hotels && !(h in st.cache && st.now < st.cache[h].exp)
    case QueryHotel(id) => At(st, id) && st.loads[id].stage.Started?
    case QueryPlan(id) =>
      At(st, id) && st.loads[id].stage.ReadHotel? && HasOverrides(st.plans, st.loads[id].stage.row.tier)
    case PlanQueryFails(id) => At(st, id) && st.loads[id].stage.ReadHotel?
    case Stamp(id) => At(st, id) && st.loads[id].stage.ReadPlan?
    case Store(id) => At(st, id) && st.loads[id].stage.Stamped?
    case FailLoad(id) => id in st.loads
  }

  function AtStage(st: State, id: nat, stage: Loading): State
    requires id in st.loads
  {
    st.(loads := st.loads[id := st.loads[id].(stage := stage)])
  }

  ghost function Next(st: State, step: Step, longest: nat): State
    requires Enabled(st, step, longest)
  {
    match step
    case Tick(ms) => st.(now := st.now + ms)
    case EditHotel(h, row) => st.(hotels := st.hotels[h := Stored(st.hotels[h], st.now, row)])
    case EditPlan(tier, overrides) => st.(plans := st.plans[tier := Stored(st.plans[tier], st.now, overrides)])
    case UseCache(_) => st
    case StartLoad(id, h) => st.(loads := st.loads[id := Load(h, st.now, Started)])
    case QueryHotel(id) =>
      var log := st.hotels[st.loads[id].hotel];
      AtStage(st, id, ReadHotel(Snapshot(|log| - 1, st.now), log[|log| - 1].content))
    case QueryPlan(id) =>
      var s := st.loads[id].stage;
      var log := st.plans[s.row.tier];
      AtStage(st, id, ReadPlan(s.hotel, s.row, Some(Snapshot(|log| - 1, st.now)), log[|log| - 1].content))
    case PlanQueryFails(id) =>
      var s := st.loads[id].stage;
      AtStage(st, id, ReadPlan(s.hotel, s.row, None, map[]))
    case Stamp(id) =>
      var s := st.loads[id].stage;
      AtStage(st, id, Stamped(Cached(s.hotel, s.plan, ConfOf(s.row.tier, s.row.mask, s.overrides), st.now + TTL)))
    case Store(id) =>
      var l := st.loads[id];
      st.(cache := st.cache[l.hotel := l.stage.cached], loads := st.loads - {id})
    case FailLoad(id) => st.(loads := st.loads - {id})
  }

  /** The step decides a request for hotel h with what is cached, or has just been loaded. */
  ghost predicate Decides(st: State, step: Step, h: Hotel, used: Cached) {
    match step
    case UseCache(g) => g == h && h in st.cache && st.cache[h] == used
    case Store(id) => id in st.loads && st.loads[id].hotel == h && st.loads[id].stage == Stamped(used)
    case _ => false
  }

  ghost predicate IsRun(states: seq<State>, steps: seq<Step>, longest: nat) {
    && |states| == |steps| + 1
    && forall i :: 0 <= i < |steps| ==>
         Enabled(states[i], steps[i], longest) && states[i + 1] == Next(states[i], steps[i], longest)
  }

  ghost predicate Initial(st: State) {
    && st.cache == map[] && st.loads == map[]
    && (forall h :: h in st.hotels ==> Ordered(st.hotels[h], st.now))
    && (forall tier :: tier in st.plans ==> Ordered(st.plans[tier], st.now))
  }

  // ---------- the gate's own state ----------

  datatype PlanEntry = PlanEntry(conf: PlanConf, exp: nat)

  function Entries(cache: map<Hotel, Cached>): map<Hotel, PlanEntry> {
    map h | h in cache :: PlanEntry(cache[h].conf, cache[h].exp)
  }

  /** The gate holds what the state says is cached, and each critical section is one step of it. */
  class PlanGateState {
    var conf: map<Hotel, PlanEntry>

    ghost predicate Mirrors(st: State)
      reads this
    {
      conf == Entries(st.cache)
    }

    constructor ()
      ensures forall st :: Initial(st) ==> Mirrors(st)
    {
      conf := map[];
    }

    /** A hit exactly when the state lets a request use the cache, and then with what it holds. */
    method Find(h: Hotel, now: nat, ghost st: State) returns (r: Option<PlanConf>)
      requires Mirrors(st) && now == st.now
      ensures r.Some? <==> Enabled(st, UseCache(h), 0)
      ensures r.Some? ==> Decides(st, UseCache(h), h, st.cache[h]) && r.value == st.cache[h].conf
    {
      if h in conf && now < conf[h].exp {
        return Some(conf[h].conf);
      }
      r := None;
    }

    method Store(h: Hotel, c: PlanConf, exp: nat, ghost st: State, ghost id: nat, ghost longest: nat)
      requires Mirrors(st) && Enabled(st, Step.Store(id), longest) && st.loads[id].hotel == h
      requires st.loads[id].stage.cached.conf == c && st.loads[id].stage.cached.exp == exp
      modifies this
      ensures Mirrors(Next(st, Step.Store(id), longest))
    {
      conf := conf[h := PlanEntry(c, exp)];
    }
  }

  // ---------- how stale a decision can be ----------

  /** The hotel's row was in force at one instant and the plan's overrides at a later one. */
  ghost predicate ReadWell(hotels: Hotels, h: Hotel, s: Snapshot, row: HotelRow, now: nat) {
    h in hotels && InForce(hotels[h], s, now) && row == hotels[h][s.version].content
  }

  ghost predicate PlanWell(plans: Plans, tier: Tier, since: nat, plan: Option<Snapshot>, overrides: Overrides,
      now: nat) {
    match plan
    case None => overrides == map[]
    case Some(s) =>
      tier in plans && InForce(plans[tier], s, now) && since <= s.at && overrides == plans[tier][s.version].content
  }

  ghost predicate CachedWell(hotels: Hotels, plans: Plans, h: Hotel, c: Cached, now: nat, longest: nat) {
    && c.exp <= c.hotel.at + longest + TTL
    && exists row, overrides ::
         && ReadWell(hotels, h, c.hotel, row, now)
         && PlanWell(plans, row.tier, c.hotel.at, c.plan, overrides, now)
         && c.conf == ConfOf(row.tier, row.mask, overrides)
  }

  ghost predicate LoadWell(hotels: Hotels, plans: Plans, l: Load, now: nat, longest: nat) {
    && l.hotel in hotels && l.since <= now <= l.since + longest
    && match l.stage
       case Started => true
       case ReadHotel(s, row) => l.since <= s.at && ReadWell(hotels, l.hotel, s, row, now)
       case ReadPlan(s, row, plan, overrides) =>
         l.since <= s.at && ReadWell(hotels, l.hotel, s, row, now) &&
             PlanWell(plans, row.tier, s.at, plan, overrides, now)
       case Stamped(c) => l.since <= c.hotel.at && CachedWell(hotels, plans, l.hotel, c, now, longest)
  }

  ghost predicate LogsOrdered(st: State) {
    && (forall h :: h in st.hotels ==> Ordered(st.hotels[h], st.now))
    && (forall tier :: tier in st.plans ==> Ordered(st.plans[tier], st.now))
  }

  ghost predicate Sound(st: State, longest: nat) {
    && LogsOrdered(st)
    && (forall h :: h in st.cache ==> CachedWell(st.hotels, st.plans, h, st.cache[h], st.now, longest))
    && (forall id :: id in st.loads ==> LoadWell(st.hotels, st.plans, st.loads[id], st.now, longest))
  }

  /** The tables only grow, and time goes on: what was read well stays so. */
  ghost predicate Grows(a: State, b: State) {
    && a.now <= b.now
    && (forall h, s :: h in a.hotels && InForce(a.hotels[h], s, a.now) ==>
          h in b.hotels && InForce(b.hotels[h], s, b.now) && b.hotels[h][s.version] == a.hotels[h][s.version])
    && (forall tier, s :: tier in a.plans && InForce(a.plans[tier], s, a.now) ==>
          tier in b.plans && InForce(b.plans[tier], s, b.now) && b.plans[tier][s.version] == a.plans[tier][s.version])
    && (forall h :: h in a.hotels ==> h in b.hotels)
  }

  lemma CachedStaysWell(a: State, b: State, h: Hotel, c: Cached, longest: nat)
    requires Grows(a, b) && CachedWell(a.hotels, a.plans, h, c, a.now, longest)
    ensures CachedWell(b.hotels, b.plans, h, c, b.now, longest)
  {
    var row, overrides :| ReadWell(a.hotels, h, c.hotel, row, a.now)
      && PlanWell(a.plans, row.tier, c.hotel.at, c.plan, overrides, a.now) && c.conf ==
          ConfOf(row.tier, row.mask, overrides);
    assert ReadWell(b.hotels, h, c.hotel, row, b.now);
    assert PlanWell(b.plans, row.tier, c.hotel.at, c.plan, overrides, b.now);
  }

  lemma LoadStaysWell(a: State, b: State, l: Load, longest: nat)
    requires Grows(a, b) && LoadWell(a.hotels, a.plans, l, a.now, longest) && b.now <= l.since + longest
    ensures LoadWell(b.hotels, b.plans, l, b.now, longest)
  {
    if l.stage.Stamped? {
      CachedStaysWell(a, b, l.hotel, l.stage.cached, longest);
    }
  }

  lemma GrowsIsSound(a: State, b: State, longest: nat)
    requires Sound(a, longest) && Grows(a, b) && LogsOrdered(b) && b.cache == a.cache && b.loads == a.loads
    requires forall id :: id in b.loads ==> b.now <= b.loads[id].since + longest
    ensures Sound(b, longest)
  {
    forall h | h in b.cache
      ensures CachedWell(b.hotels, b.plans, h, b.cache[h], b.now, longest)
    {
      CachedStaysWell(a, b, h, b.cache[h], longest);
    }
    forall id | id in b.loads
      ensures LoadWell(b.hotels, b.plans, b.loads[id], b.now, longest)
    {
      LoadStaysWell(a, b, b.loads[id], longest);
    }
  }

  lemma EditHotelGrows(st: State, h: Hotel, row: HotelRow)
    requires h in st.hotels && LogsOrdered(st)
    ensures var st' := st.(hotels := st.hotels[h := Stored(st.hotels[h], st.now, row)]);
            Grows(st, st') && LogsOrdered(st')
  {
    StoringOrdered(st.hotels[h], st.now, row);
    forall s | InForce(st.hotels[h], s, st.now)
      ensures InForce(Stored(st.hotels[h], st.now, row), s, st.now)
    {
      StoringKeeps(st.hotels[h], s, st.now, row);
    }
  }

  lemma EditPlanGrows(st: State, tier: Tier, overrides: Overrides)
    requires tier in st.plans && LogsOrdered(st)
    ensures var st' := st.(plans := st.plans[tier := Stored(st.plans[tier], st.now, overrides)]);
            Grows(st, st') && LogsOrdered(st')
  {
    StoringOrdered(st.plans[tier], st.now, overrides);
    forall s | InForce(st.plans[tier], s, st.now)
      ensures InForce(Stored(st.plans[tier], st.now, overrides), s, st.now)
    {
      StoringKeeps(st.plans[tier], s, st.now, overrides);
    }
  }

  lemma TickGrows(st: State, ms: nat)
    requires LogsOrdered(st)
    ensures var st' := st.(now := st.now + ms); Grows(st, st') && LogsOrdered(st')
  {
    forall h, s | h in st.hotels && InForce(st.hotels[h], s, st.now)
      ensures InForce(st.hotels[h], s, st.now + ms)
    {
      TimeKeeps(st.hotels[h], s, st.now, st.now + ms);
    }
    forall tier, s | tier in st.plans && InForce(st.plans[tier], s, st.now)
      ensures InForce(st.plans[tier], s, st.now + ms)
    {
      TimeKeeps(st.plans[tier], s, st.now, st.now + ms);
    }
  }

  lemma TableStepIsSound(st: State, step: Step, longest: nat)
    requires Sound(st, longest) && Enabled(st, step, longest) && (step.Tick? || step.EditHotel? || step.EditPlan?)
    ensures Sound(Next(st, step, longest), longest)
  {
    forall id | id in st.loads
      ensures st.now <= st.loads[id].since + longest
    {
      assert LoadWell(st.hotels, st.plans, st.loads[id], st.now, longest);
    }
    match step
    case EditHotel(h, row) =>
      EditHotelGrows(st, h, row);
      GrowsIsSound(st, Next(st, step, longest), longest);
    case EditPlan(tier, overrides) =>
      EditPlanGrows(st, tier, overrides);
      GrowsIsSound(st, Next(st, step, longest), longest);
    case Tick(ms) =>
      TickGrows(st, ms);
      GrowsIsSound(st, Next(st, step, longest), longest);
  }

  /** A load moves on to a stage that is well; the others stay as they are. */
  lemma StageIsSound(st: State, id: nat, stage: Loading, longest: nat)
    requires Sound(st, longest) && id in st.loads
    requires LoadWell(st.hotels, st.plans, st.loads[id].(stage := stage), st.now, longest)
    ensures Sound(AtStage(st, id, stage), longest)
  {
  }

  lemma QueryIsSound(st: State, step: Step, longest: nat)
    requires Sound(st, longest) && Enabled(st, step, longest)
    requires (step.QueryHotel? || step.QueryPlan? || step.PlanQueryFails?)
    ensures Sound(Next(st, step, longest), longest)
  {
    var l := st.loads[step.id];
    assert LoadWell(st.hotels, st.plans, l, st.now, longest);
    if step.QueryHotel? {
      ReadingIsInForce(st.hotels[l.hotel], st.now);
    } else if step.QueryPlan? {
      ReadingIsInForce(st.plans[l.stage.row.tier], st.now);
    }
    StageIsSound(st, step.id, Next(st, step, longest).loads[step.id].stage, longest);
  }

  lemma StampIsSound(st: State, id: nat, longest: nat)
    requires Sound(st, longest) && Enabled(st, Stamp(id), longest)
    ensures Sound(Next(st, Stamp(id), longest), longest)
  {
    var s := st.loads[id].stage;
    assert LoadWell(st.hotels, st.plans, st.loads[id], st.now, longest);
    var c := Cached(s.hotel, s.plan, ConfOf(s.row.tier, s.row.mask, s.overrides), st.now + TTL);
    assert ReadWell(st.hotels, st.loads[id].hotel, s.hotel, s.row, st.now);
    assert CachedWell(st.hotels, st.plans, st.loads[id].hotel, c, st.now, longest);
    StageIsSound(st, id, Stamped(c), longest);
  }

  lemma StoreIsSound(st: State, id: nat, longest: nat)
    requires Sound(st, longest) && Enabled(st, Store(id), longest)
    ensures Sound(Next(st, Store(id), longest), longest)
  {
    assert LoadWell(st.hotels, st.plans, st.loads[id], st.now, longest);
  }

  lemma StepIsSound(st: State, step: Step, longest: nat)
    requires Sound(st, longest) && Enabled(st, step, longest)
    ensures Sound(Next(st, step, longest), longest)
  {
    if step.Tick? || step.EditHotel? || step.EditPlan? {
      TableStepIsSound(st, step, longest);
    } else if step.QueryHotel? || step.QueryPlan? || step.PlanQueryFails? {
      QueryIsSound(st, step, longest);
    } else if step.Stamp? {
      StampIsSound(st, step.id, longest);
    } else if step.Store? {
      StoreIsSound(st, step.id, longest);
    }
  }

  lemma {:induction false} RunIsSound(states: seq<State>, steps: seq<Step>, longest: nat, k: nat)
    requires IsRun(states, steps, longest) && Initial(states[0]) && k < |states|
    ensures Sound(states[k], longest)
  {
    if k > 0 {
      RunIsSound(states, steps, longest, k - 1);
      StepIsSound(states[k - 1], steps[k - 1], longest);
    }
  }

  /**
   In every interleaving, a plan-gate decision uses the plan and mask the hotel had at one
   instant and the overrides its plan had at a later one, or none if they could not be read;
   both no earlier than thirty seconds and the longest load ago.
   */
  lemma PlanDecisionsAreRecent(states: seq<State>, steps: seq<Step>, longest: nat, k: nat, h: Hotel, used: Cached)
    returns (row: HotelRow, overrides: Overrides)
    requires IsRun(states, steps, longest) && Initial(states[0]) && k < |steps|
    requires Decides(states[k], steps[k], h, used)
    ensures var st := states[k];
            && st.now <= used.hotel.at + 30000 + longest
            && ReadWell(st.hotels, h, used.hotel, row, st.now)
            && PlanWell(st.plans, row.tier, used.hotel.at, used.plan, overrides, st.now)
            && used.conf == ConfOf(row.tier, row.mask, overrides)
  {
    RunIsSound(states, steps, longest, k);
    var st := states[k];
    if steps[k].Store? {
      assert LoadWell(st.hotels, st.plans, st.loads[steps[k].id], st.now, longest);
    }
    assert CachedWell(st.hotels, st.plans, h, used, st.now, longest);
    row, overrides :| ReadWell(st.hotels, h, used.hotel, row, st.now)
      && PlanWell(st.plans, row.tier, used.hotel.at, used.plan, overrides, st.now)
      && used.conf == ConfOf(row.tier, row.mask, overrides);
  }

  /** What a load stamped is used for thirty seconds from then, as long as it is what is cached. */
  lemma PlanTrustedForThirtySeconds(st: State, id: nat, longest: nat, later: State, h: Hotel)
    requires Enabled(st, Stamp(id), longest) && h in later.cache
    requires later.cache[h] == Next(st, Stamp(id), longest).loads[id].stage.cached
    ensures Enabled(later, UseCache(h), longest) <==> later.now < st.now + 30000
    ensures Enabled(later, StartLoad(id, h), longest) ==> later.now >= st.now + 30000
  {
    assert Next(st, Stamp(id), longest).loads[id].stage.cached.exp == st.now + 30000;
  }
}
