/**
 Who may use which module: the plan gate and the feature gate in front of the API routes,
 the write check of the compatibility tables, and the navigation map. They are separate
 copies of one decision.
 */
module AccessGates {
  import opened Options

  datatype Module =
    | Dashboard | FrontDesk | Reservations | Guests | Housekeeping | Crm | Pos | Restaurant | MenuManagement
    | Billing | Revenue | Reports | Inventory | Procurement | Maintenance | ChannelManager | BookingEngine
    | Properties | Users | NightAudit | Admin | Accounting
    | Unregistered(key: string)

  const REGISTRY: seq<Module> := [
    Dashboard, FrontDesk, Reservations, Guests, Housekeeping, Crm, Pos, Restaurant, MenuManagement,
    Billing, Revenue, Reports, Inventory, Procurement, Maintenance, ChannelManager, BookingEngine,
    Properties, Users, NightAudit, Admin, Accounting
  ]

  datatype Tier = Basic | Pro | Premium

  function Rank(tier: Tier): nat {
    match tier
    case Basic => 0
    case Pro => 1
    case Premium => 2
  }

  /** The rank that unlocks a module in the navigation and by default in the gates. */
  function ModuleMinRank(m: Module): nat {
    if m == Revenue || m == ChannelManager || m == Procurement || m == NightAudit then 1 else 0
  }

  datatype Rule = Rule(moduleKey: Option<Module>, minRank: nat)

  datatype Route = Route(prefix: string, rule: Rule)

  const ROUTES: seq<Route> := [
    Route("/revenue", Rule(Some(Revenue), 1)),
    Route("/channel", Rule(Some(ChannelManager), 1)),
    Route("/procurement", Rule(Some(Procurement), 1)),
    Route("/night-audit", Rule(Some(NightAudit), 1)),
    Route("/pos", Rule(Some(Pos), 0)),
    Route("/email", Rule(None, 2)),
    Route("/sms", Rule(None, 2)),
    Route("/accounting", Rule(Some(Accounting), 2)),
    Route("/dashboard", Rule(Some(Dashboard), 0)),
    Route("/rooms", Rule(Some(FrontDesk), 0)),
    Route("/reservations", Rule(Some(Reservations), 0)),
    Route("/housekeeping", Rule(Some(Housekeeping), 0)),
    Route("/crm", Rule(Some(Crm), 0)),
    Route("/billing", Rule(Some(Billing), 0)),
    Route("/booking", Rule(Some(BookingEngine), 0)),
    Route("/maintenance", Rule(Some(Maintenance), 0))
  ]

  // ---------- what is promised of every copy ----------

  /**
   A module named in the plan's overrides is admitted as they say; any other on every plan, but
   for four that a basic plan lacks; and none that is masked.
   */
  predicate AsThePlanSays(tier: Tier, overrides: map<Module, bool>, masked: bool, m: Module, admitted: bool) {
    && (masked ==> !admitted)
    && (!masked && m in overrides ==> admitted == overrides[m])
    && (!masked && m !in overrides && tier == Basic ==>
          (admitted <==> m !in {Revenue, ChannelManager, Procurement, NightAudit}))
    && (!masked && m !in overrides && tier in {Pro, Premium} ==> admitted)
  }

  /** The caller is no administrator, as far as the token tells. */
  predicate Ordinary(c: Claims) {
    c.Readable? ==> !c.platformAdmin && "platform_admin" !in c.roles && "super_admin" !in c.roles
  }

  /** The caller holds some role, and none that is not denied the module. */
  ghost predicate EveryRoleDenied(roles: seq<string>, deny: Denials, m: Module) {
    (exists r :: r in roles && r != "") && forall r :: r in roles && r != "" ==> (r, m) in deny
  }

  /** The navigation: every registered module, as the plan says. */
  ghost predicate ShowsAsPromised(
    registry: seq<Module>, stored: map<Module, bool>, tier: Tier, overrides: map<Module, bool>, eff: map<Module, bool>)
  {
    && (forall m :: m in eff <==> m in registry)
    && forall m :: m in registry ==> AsThePlanSays(tier, overrides, m in stored && !stored[m], m, eff[m])
  }

  /** A write to the tables of module m: as the roles and the plan say. */
  ghost predicate WritesAsPromised(
    m: Module, claims: Claims, conf: Option<PlanConf>, deny: Option<Denials>, allowed: bool)
  {
    if claims.Unreadable? || !Ordinary(claims) then allowed
    else if deny.Some? && EveryRoleDenied(claims.roles, deny.value, m) then !allowed
    else if conf.None? then allowed
    else var c := conf.value; AsThePlanSays(c.tier, c.planFeat, m in c.modules && !c.modules[m], m, allowed)
  }

  // ---------- the rule of a path ----------

  function TrimPrefix(s: string, prefix: string): string {
    if prefix <= s then s[|prefix|..] else s
  }

  predicate Matches(path: string, prefix: string) {
    path == prefix || prefix + "/" <= path
  }

  lemma LongestMatchIsUnique(path: string, a: string, b: string)
    requires Matches(path, a) && Matches(path, b) && |a| == |b|
    ensures a == b
  {
    assert a == path[..|a|] && b == path[..|b|];
  }

  /** A rule governs its own path and what lies below it, and no other path that merely begins alike. */
  lemma GovernedPaths(path: string, prefix: string)
    ensures Matches(TrimPrefix("/api" + path, "/api"), prefix) <==>
              || path == prefix
              || (|path| > |prefix| && path[..|prefix|] == prefix && path[|prefix|] == '/')
  {
    assert ("/api" + path)[4..] == path;
    if |path| > |prefix| && path[..|prefix|] == prefix && path[|prefix|] == '/' {
      assert path[..|prefix| + 1] == prefix + "/";
    }
    if prefix + "/" <= path {
      assert (prefix + "/")[|prefix|] == '/';
    }
  }

  ghost predicate IsLongestMatch(rules: map<string, Rule>, path: string, best: string) {
    && best in rules && Matches(path, best)
    && forall q :: q in rules && Matches(path, q) && q != best ==> |q| < |best|
  }

  /** Whatever order the table is walked in, the result is the rule of the one longest matching prefix. */
  method RuleForPath(rules: map<string, Rule>, path: string) returns (r: Option<Rule>)
    ensures var p := TrimPrefix(path, "/api");
            && (r.None? <==> forall q :: q in rules && Matches(p, q) ==> q == "")
            && (r.Some? ==> exists best :: IsLongestMatch(rules, p, best) && r.value == rules[best])
  {
    var p := TrimPrefix(path, "/api");
    var best := "";
    var left := rules.Keys;
    while left != {}
      invariant left <= rules.Keys
      invariant best != "" ==> best in rules && Matches(p, best)
      invariant forall q :: q in rules.Keys - left && Matches(p, q) ==> |q| <= |best|
      decreases left
    {
      var prefix := PickFrom(left);
      left := left - {prefix};
      if (p == prefix || prefix + "/" <= p) && |prefix| > |best| {
        best := prefix;
      }
    }
    if best == "" {
      return None;
    }
    r := Some(rules[best]);
    forall q | q in rules && Matches(p, q) && q != best
      ensures |q| < |best|
    {
      if |q| == |best| {
        LongestMatchIsUnique(p, q, best);
      }
    }
    assert IsLongestMatch(rules, p, best);
  }

  /** Some element; nothing is promised about which. */
  method PickFrom(s: set<string>) returns (x: string)
    requires s != {}
    ensures x in s
  {
    x :| x in s;
  }

  // ---------- the tenant's configuration ----------

  function OrTrue(m: map<Module, bool>, k: Module): bool {
    if k in m then m[k] else true
  }

  /** Every registered module is on unless stored as off. */
  method EffectiveModules(registry: seq<Module>, stored: map<Module, bool>) returns (out: map<Module, bool>)
    ensures out == Effective(registry, stored)
    ensures forall m :: m in out <==> m in registry
    ensures forall m :: m in registry ==> (out[m] <==> !(m in stored && !stored[m]))
  {
    out := map[];
    var i := 0;
    while i < |registry|
      invariant 0 <= i <= |registry|
      invariant forall m :: m in out <==> m in registry[..i]
      invariant forall m :: m in out ==> out[m] == OrTrue(stored, m)
    {
      var enabled := true;
      if registry[i] in stored {
        enabled := stored[registry[i]];
      }
      assert registry[..i + 1] == registry[..i] + [registry[i]];
      out := out[registry[i] := enabled];
      i := i + 1;
    }
    assert registry[..i] == registry;
  }

  function Effective(registry: seq<Module>, stored: map<Module, bool>): map<Module, bool> {
    map m | m in registry :: OrTrue(stored, m)
  }

  predicate Included(tier: Tier, overrides: map<Module, bool>, m: Module) {
    if m in overrides then overrides[m] else Rank(tier) >= ModuleMinRank(m)
  }

  function Navigation(registry: seq<Module>, stored: map<Module, bool>, tier: Tier, overrides: map<Module,
      bool>): map<Module, bool> {
    map m | m in registry :: OrTrue(stored, m) && Included(tier, overrides, m)
  }

  lemma NavigationExactly(registry: seq<Module>, stored: map<Module, bool>, tier: Tier, overrides: map<Module, bool>)
    ensures ShowsAsPromised(registry, stored, tier, overrides, Navigation(registry, stored, tier, overrides))
  {
  }

  lemma FirstOnes(registry: seq<Module>, i: nat)
    requires i < |registry|
    ensures forall m :: m in registry[..i + 1] <==> m in registry[..i] || m == registry[i]
  {
    assert registry[..i + 1] == registry[..i] + [registry[i]];
  }

  /** Switches one module off when the plan does not include it. */
  method Narrowed(before: map<Module, bool>, tier: Tier, overrides: map<Module, bool>, m: Module)
    returns (eff: map<Module, bool>)
    ensures eff == if Included(tier, overrides, m) then before else before[m := false]
  {
    eff := before;
    var included := Rank(tier) >= ModuleMinRank(m);
    if m in overrides {
      included := overrides[m];
    }
    if !included {
      eff := eff[m := false];
    }
  }

  /** The navigation map: the mask, less what the plan does not include. */
  method PlanAwareModules(registry: seq<Module>, stored: map<Module, bool>, tier: Tier, overrides: map<Module, bool>)
    returns (eff: map<Module, bool>)
    ensures eff == Navigation(registry, stored, tier, overrides)
    ensures ShowsAsPromised(registry, stored, tier, overrides, eff)
  {
    eff := EffectiveModules(registry, stored);
    var i := 0;
    while i < |registry|
      invariant 0 <= i <= |registry|
      invariant eff.Keys == set m | m in registry
      invariant forall m :: m in registry ==>
        eff[m] == (OrTrue(stored, m) && (m in registry[..i] ==> Included(tier, overrides, m)))
    {
      FirstOnes(registry, i);
      eff := Narrowed(eff, tier, overrides, registry[i]);
      i := i + 1;
    }
    assert registry[..i] == registry;
    assert eff == Navigation(registry, stored, tier, overrides);
    NavigationExactly(registry, stored, tier, overrides);
  }

  datatype PlanConf = PlanConf(rank: nat, tier: Tier, modules: map<Module, bool>, planFeat: map<Module, bool>)

  function ConfOf(tier: Tier, stored: map<Module, bool>, overrides: map<Module, bool>): PlanConf {
    PlanConf(Rank(tier), tier, Effective(REGISTRY, stored), overrides)
  }

  // ---------- the decisions ----------

  datatype Claims = Unreadable | Readable(platformAdmin: bool, roles: seq<string>)

  predicate AdminRole(role: string) {
    role == "platform_admin" || role == "super_admin"
  }

  predicate IsAdmin(c: Claims) {
    c.Readable? && (c.platformAdmin || exists i :: 0 <= i < |c.roles| && AdminRole(c.roles[i]))
  }

  /** Plan inclusion and the tenant's mask for a module. */
  predicate PlanAllows(conf: PlanConf, m: Module) {
    Included(conf.tier, conf.planFeat, m) && OrTrue(conf.modules, m)
  }

  /** No configuration means the lookup failed, which lets the request through. */
  predicate PlanGate(rule: Rule, claims: Claims, conf: Option<PlanConf>) {
    || IsAdmin(claims)
    || conf.None?
    || if rule.moduleKey.None? then conf.value.rank >= rule.minRank else PlanAllows(conf.value, rule.moduleKey.value)
  }

  type Denials = set<(string, Module)>

  predicate Permitted(deny: Denials, role: string, m: Module) {
    (role, m) !in deny
  }

  /** Denied only when the caller holds a role and every one of them is denied. */
  predicate RolesAllow(roles: seq<string>, deny: Denials, m: Module) {
    || (forall i :: 0 <= i < |roles| ==> roles[i] == "")
    || (exists i :: 0 <= i < |roles| && roles[i] != "" && Permitted(deny, roles[i], m))
  }

  predicate FeatureGate(rule: Rule, claims: Claims, deny: Option<Denials>) {
    || rule.moduleKey.None? || claims.Unreadable? || IsAdmin(claims) || deny.None?
    || RolesAllow(claims.roles, deny.value, rule.moduleKey.value)
  }

  predicate CompatWrite(m: Module, claims: Claims, conf: Option<PlanConf>, deny: Option<Denials>) {
    || claims.Unreadable? || IsAdmin(claims)
    || (&& (conf.None? || PlanAllows(conf.value, m))
        && (deny.None? || RolesAllow(claims.roles, deny.value, m)))
  }

  /** Walks the token's roles once, stopping at an administrator. */
  method CallerRoles(all: seq<string>) returns (admin: bool, roles: seq<string>)
    ensures admin <==> exists i :: 0 <= i < |all| && AdminRole(all[i])
    ensures !admin ==> forall r :: r in roles <==> r in all && r != ""
  {
    roles := [];
    var i := 0;
    while i < |all|
      invariant 0 <= i <= |all|
      invariant forall j :: 0 <= j < i ==> !AdminRole(all[j])
      invariant forall r :: r in roles <==> r in all[..i] && r != ""
    {
      if AdminRole(all[i]) {
        return true, [];
      }
      assert all[..i + 1] == all[..i] + [all[i]];
      if all[i] != "" {
        roles := roles + [all[i]];
      }
      i := i + 1;
    }
    assert all[..i] == all;
    admin := false;
  }

  method AnyRolePermitted(roles: seq<string>, deny: Denials, m: Module) returns (allowed: bool)
    ensures allowed <==> exists i :: 0 <= i < |roles| && Permitted(deny, roles[i], m)
  {
    allowed := false;
    for i := 0 to |roles|
      invariant forall j :: 0 <= j < i ==> !Permitted(deny, roles[j], m)
    {
      if (roles[i], m) !in deny {
        return true;
      }
    }
  }

  method PlanGateHandler(rule: Option<Rule>, claims: Claims, conf: Option<PlanConf>) returns (allowed: bool)
    ensures allowed <==> rule.None? || PlanGate(rule.value, claims, conf)
    ensures rule.None? || conf.None? || !Ordinary(claims) ==> allowed
    ensures rule.Some? && conf.Some? && Ordinary(claims) ==>
              var c := conf.value;
              match rule.value.moduleKey
              case None => allowed <==> c.rank >= rule.value.minRank
              case Some(m) => AsThePlanSays(c.tier, c.planFeat, m in c.modules && !c.modules[m], m, allowed)
  {
    OrdinaryIsNoAdmin(claims);
    if rule.Some? && conf.Some? && rule.value.moduleKey.Some? {
      PlanAllowsExactly(conf.value, rule.value.moduleKey.value);
    }
    if rule.None? {
      return true;
    }
    if claims.Readable? {
      if claims.platformAdmin {
        return true;
      }
      for i := 0 to |claims.roles|
        invariant forall j :: 0 <= j < i ==> !AdminRole(claims.roles[j])
      {
        if AdminRole(claims.roles[i]) {
          return true;
        }
      }
    }
    if conf.None? {
      return true;
    }
    var c := conf.value;
    if rule.value.moduleKey.None? {
      return !(c.rank < rule.value.minRank);
    }
    var m := rule.value.moduleKey.value;
    var included := Rank(c.tier) >= ModuleMinRank(m);
    if m in c.planFeat {
      included := c.planFeat[m];
    }
    if !included {
      return false;
    }
    allowed := !(m in c.modules && !c.modules[m]);
  }

  method FeatureGateHandler(rule: Option<Rule>, claims: Claims, deny: Option<Denials>) returns (allowed: bool)
    ensures allowed <==> rule.None? || FeatureGate(rule.value, claims, deny)
    ensures !allowed <==>
              && rule.Some? && rule.value.moduleKey.Some? && claims.Readable? && Ordinary(claims)
              && deny.Some? && EveryRoleDenied(claims.roles, deny.value, rule.value.moduleKey.value)
  {
    OrdinaryIsNoAdmin(claims);
    if rule.Some? && rule.value.moduleKey.Some? && claims.Readable? && deny.Some? {
      DeniedExactly(claims.roles, deny.value, rule.value.moduleKey.value);
    }
    if rule.None? || rule.value.moduleKey.None? {
      return true;
    }
    if claims.Unreadable? {
      return true;
    }
    if claims.platformAdmin {
      return true;
    }
    var admin, roles := CallerRoles(claims.roles);
    if admin {
      return true;
    }
    if |roles| == 0 {
      NoRoles(claims.roles, roles);
      return true;
    }
    if deny.None? {
      return true;
    }
    RolesAgree(claims.roles, roles, deny.value, rule.value.moduleKey.value);
    allowed := AnyRolePermitted(roles, deny.value, rule.value.moduleKey.value);
  }

  method CompatPlanCheck(c: PlanConf, m: Module) returns (allowed: bool)
    ensures allowed <==> PlanAllows(c, m)
  {
    var included := Rank(c.tier) >= ModuleMinRank(m);
    if m in c.planFeat {
      included := c.planFeat[m];
    }
    if !included {
      return false;
    }
    allowed := !(m in c.modules && !c.modules[m]);
  }

  method EnforceCompatWrite(m: Module, claims: Claims, conf: Option<PlanConf>, deny: Option<Denials>)
    returns (allowed: bool)
    ensures allowed <==> CompatWrite(m, claims, conf, deny)
    ensures WritesAsPromised(m, claims, conf, deny, allowed)
  {
    CompatWriteExactly(m, claims, conf, deny);
    if claims.Unreadable? {
      return true;
    }
    if claims.platformAdmin {
      return true;
    }
    var admin, roles := CallerRoles(claims.roles);
    if admin {
      return true;
    }
    if conf.Some? {
      var planned := CompatPlanCheck(conf.value, m);
      if !planned {
        return false;
      }
    }
    allowed := true;
    if |roles| == 0 {
      NoRoles(claims.roles, roles);
    } else if deny.Some? {
      RolesAgree(claims.roles, roles, deny.value, m);
      allowed := AnyRolePermitted(roles, deny.value, m);
    }
  }

  lemma OrdinaryIsNoAdmin(c: Claims)
    ensures Ordinary(c) <==> !IsAdmin(c)
  {
  }

  lemma PlanAllowsExactly(c: PlanConf, m: Module)
    ensures AsThePlanSays(c.tier, c.planFeat, m in c.modules && !c.modules[m], m, PlanAllows(c, m))
  {
  }

  lemma CompatWriteExactly(m: Module, claims: Claims, conf: Option<PlanConf>, deny: Option<Denials>)
    ensures WritesAsPromised(m, claims, conf, deny, CompatWrite(m, claims, conf, deny))
  {
    OrdinaryIsNoAdmin(claims);
    if claims.Readable? && deny.Some? {
      DeniedExactly(claims.roles, deny.value, m);
    }
    if conf.Some? {
      PlanAllowsExactly(conf.value, m);
    }
  }

  lemma DeniedExactly(roles: seq<string>, deny: Denials, m: Module)
    ensures EveryRoleDenied(roles, deny, m) <==> !RolesAllow(roles, deny, m)
  {
    assert forall i :: 0 <= i < |roles| ==> roles[i] in roles;
    if !RolesAllow(roles, deny, m) {
      forall r | r in roles && r != ""
        ensures (r, m) in deny
      {
        var i :| 0 <= i < |roles| && roles[i] == r;
        assert !Permitted(deny, roles[i], m);
      }
    } else if EveryRoleDenied(roles, deny, m) {
      var i :| 0 <= i < |roles| && roles[i] != "" && Permitted(deny, roles[i], m);
    }
  }

  lemma RolesAgree(all: seq<string>, roles: seq<string>, deny: Denials, m: Module)
    requires roles != [] && forall r :: r in roles <==> r in all && r != ""
    ensures RolesAllow(all, deny, m) <==> exists i :: 0 <= i < |roles| && Permitted(deny, roles[i], m)
  {
    assert roles[0] in roles;
    if i :| 0 <= i < |all| && all[i] != "" && Permitted(deny, all[i], m) {
      assert all[i] in roles;
      var j :| 0 <= j < |roles| && roles[j] == all[i];
    }
    if j :| 0 <= j < |roles| && Permitted(deny, roles[j], m) {
      assert roles[j] in all;
      var i :| 0 <= i < |all| && all[i] == roles[j];
    }
  }

  lemma NoRoles(all: seq<string>, roles: seq<string>)
    requires roles == [] && forall r :: r in roles <==> r in all && r != ""
    ensures forall i :: 0 <= i < |all| ==> all[i] == ""
  {
    forall i | 0 <= i < |all|
      ensures all[i] == ""
    {
      assert all[i] in all;
    }
  }

  // ---------- the copies agree ----------

  /**
   A write is allowed exactly when the two gates together allow the module's routes, for every
   plan, override, mask, denial and role list; the one exception is a token that cannot be
   re-read, which the write check lets through and the plan gate still checks.
   */
  lemma CompatMirrorsTheGates(m: Module, minRank: nat, claims: Claims, conf: Option<PlanConf>, deny: Option<Denials>)
    ensures var rule := Rule(Some(m), minRank);
            (CompatWrite(m, claims, conf, deny) <==> PlanGate(rule, claims, conf) && FeatureGate(rule, claims, deny))
            <==> (claims.Readable? || conf.None? || PlanAllows(conf.value, m))
  {
  }

  /** The navigation shows a registered module exactly when the plan gate admits a non-administrator to it. */
  lemma NavigationMatchesPlanGate(
    stored: map<Module, bool>, tier: Tier, overrides: map<Module, bool>, claims: Claims, m: Module, minRank: nat)
    requires !IsAdmin(claims) && m in REGISTRY
    ensures Navigation(REGISTRY, stored, tier, overrides)[m]
            <==> PlanGate(Rule(Some(m), minRank), claims, Some(ConfOf(tier, stored, overrides)))
  {
    assert OrTrue(Effective(REGISTRY, stored), m) == OrTrue(stored, m);
  }

  /** A module-backed route is gated by the module's rank; the route table's own rank says the same, except for one. */
  lemma RouteRanksAgreeExceptAccounting(i: nat)
    requires i < |ROUTES| && ROUTES[i].rule.moduleKey.Some?
    ensures ROUTES[i].rule.minRank == ModuleMinRank(ROUTES[i].rule.moduleKey.value)
            <==> ROUTES[i].rule.moduleKey.value != Accounting
  {
  }

  /** So accounting, listed as premium, is open to a basic plan without overrides. */
  lemma AccountingIsOpenToBasic(claims: Claims, stored: map<Module, bool>)
    requires Accounting !in stored
    ensures PlanGate(Rule(Some(Accounting), 2), claims, Some(ConfOf(Basic, stored, map[])))
  {
    assert Accounting == REGISTRY[21];
  }

  /** Mail and text messages belong to no module: only a premium plan has them. */
  lemma MessagesArePremium(claims: Claims, tier: Tier, stored: map<Module, bool>, overrides: map<Module, bool>)
    requires Ordinary(claims)
    ensures PlanGate(Rule(None, 2), claims, Some(ConfOf(tier, stored, overrides))) <==> tier == Premium
  {
    OrdinaryIsNoAdmin(claims);
  }
}
