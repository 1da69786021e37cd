/** Agent modules and agent instances of one tenant
    (backend/app/services/agent_module_service.py, agent_instance_reconcile_service.py,
    agent_runtime_service.py, license_service.py). */
module Lifecycle {
  import opened Basics

  // ---- Data ------------------------------------------------------------------------------

  datatype LicenseStatus = LicenseActive | LicenseExpired | LicenseInactive

  datatype License = License(status: LicenseStatus, allowedModules: set<string>, allowedFeatures: set<string>)

  /** A catalogue entry: an active or withdrawn module, and its manifest. */
  datatype Module = Module(active: bool, dependencies: seq<string>, requiredFeatures: seq<string>)

  type Catalog = map<string, Module>

  datatype ModuleState = NotInstalled | Installed | Enabled | Disabled

  datatype TenantModule = TenantModule(
    state: ModuleState, installedAt: Option<Micros>, enabledAt: Option<Micros>, disabledAt: Option<Micros>)

  const NEW_ROW := TenantModule(NotInstalled, None, None, None)

  datatype InstanceStatus = Draft | Active | Stopped

  datatype StopReason = LicenseActivation | ModuleDisabled | Written(text: string)

  /** `stoppedBy` is the runtime-disable note in the metadata, which callers can write too. */
  datatype Instance = Instance(moduleKey: string, status: InstanceStatus, stoppedBy: Option<StopReason>)

  datatype State = State(license: License, modules: map<string, TenantModule>, instances: seq<Instance>)

  datatype Refusal =
    | ModuleNotFound
    | ExpiredLicense
    | NoActiveLicense
    | ModuleNotLicensed
    | FeaturesMissing(features: seq<string>)
    | DependenciesMissing(dependencies: seq<string>)
    | CatalogNotInitialized
    | NotInstalledYet
    | NotEnabledYet
    | InstanceNotFound
    | OtherCheckFailed

  // ---- Checks -----------------------------------------------------------------------------

  predicate InCatalog(cat: Catalog, key: string) { key in cat && cat[key].active }

  function Missing(wanted: seq<string>, have: set<string>): seq<string> {
    if wanted == [] then []
    else
      var front, x := Missing(wanted[..|wanted| - 1], have), wanted[|wanted| - 1];
      if x in have then front else front + [x]
  }

  /** `_ensure_license_allows_module`. */
  function LicenseRefuses(license: License, key: string, required: seq<string>): Option<Refusal> {
    if license.status.LicenseExpired? then Some(ExpiredLicense)
    else if !license.status.LicenseActive? then Some(NoActiveLicense)
    else if key !in license.allowedModules then Some(ModuleNotLicensed)
    else if Missing(required, license.allowedFeatures) != []
        then Some(FeaturesMissing(Missing(required, license.allowedFeatures)))
    else None
  }

  function StateOf(s: State, key: string): ModuleState {
    if key in s.modules then s.modules[key].state else NotInstalled
  }

  function Satisfying(cat: Catalog, s: State, requireEnabled: bool): set<string> {
    set key | key in s.modules && InCatalog(cat, key) &&
              (s.modules[key].state.Enabled? || (!requireEnabled && !s.modules[key].state.NotInstalled?))
  }

  /** What installing, enabling or disabling a module runs into before it changes anything. */
  function ManageRefuses(cat: Catalog, s: State, key: string): Option<Refusal> {
    if !InCatalog(cat, key) then Some(ModuleNotFound) else LicenseRefuses(s.license, key, cat[key].requiredFeatures)
  }

  function DependencyRefuses(cat: Catalog, s: State, key: string, requireEnabled: bool): Option<Refusal>
    requires InCatalog(cat, key)
  {
    var missing := Missing(cat[key].dependencies, Satisfying(cat, s, requireEnabled));
    if missing != [] then Some(DependenciesMissing(missing)) else None
  }

  /** `_authorize_agent_run`, with the storage available. */
  function RunRefuses(cat: Catalog, s: State, key: string): Option<Refusal> {
    if !s.license.status.LicenseActive? then Some(NoActiveLicense)
    else if key !in s.license.allowedModules then Some(ModuleNotLicensed)
    else if !InCatalog(cat, key) then Some(CatalogNotInitialized)
    else if key !in s.modules then Some(NotInstalledYet)
    else if !s.modules[key].state.Enabled? then Some(NotEnabledYet)
    else None
  }

  /** `_runnable_module_keys`. */
  predicate Runnable(cat: Catalog, s: State, key: string) {
    && s.license.status.LicenseActive? && key in s.license.allowedModules
    && InCatalog(cat, key) && key in s.modules && s.modules[key].state.Enabled?
  }

  // ---- Reconciling -------------------------------------------------------------------------

  /** The scope of a reconciliation: all modules, or one. */
  predicate InScope(only: Option<string>, key: string) { only.None? || only.value == key }

  predicate MustStop(cat: Catalog, s: State, only: Option<string>, i: Instance) {
    i.status.Active? && InScope(only, i.moduleKey) && !Runnable(cat, s, i.moduleKey)
  }

  function Reconciled(cat: Catalog, s: State, only: Option<string>, reason: StopReason,
          instances: seq<Instance>): seq<Instance>
  {
    if instances == [] then []
    else
      var i := instances[|instances| - 1];
      Reconciled(cat, s, only, reason, instances[..|instances| - 1]) +
      [if MustStop(cat, s, only, i) then i.(status := Stopped, stoppedBy := Some(reason)) else i]
  }

  function IsActive(): Instance -> bool { (i: Instance) => i.status.Active? }

  // ---- Operations ---------------------------------------------------------------------------

  datatype Op =
    | Install(key: string, now: Micros)
    | Enable(key: string, now: Micros)
    | Disable(key: string, now: Micros)
    | Create(key: string, note: Option<StopReason>, otherChecks: bool)
    | Update(index: nat, status: Option<InstanceStatus>, metadata: Option<Option<StopReason>>, otherChecks: bool)
    | ChangeLicense(license: License)

  function Row(s: State, key: string): TenantModule { if key in s.modules then s.modules[key] else NEW_ROW }

  function InstalledRow(row: TenantModule, now: Micros): TenantModule {
    if row.state.NotInstalled? then row.(state := Installed, installedAt := Some(now)) else row
  }

  function Stamped(row: TenantModule, now: Micros): TenantModule {
    if row.installedAt.None? then row.(installedAt := Some(now)) else row
  }

  function EnabledRow(row: TenantModule, now: Micros): TenantModule {
    Stamped(row, now).(state := Enabled, enabledAt := Some(now), disabledAt := None)
  }

  function DisabledRow(row: TenantModule, now: Micros): TenantModule {
    Stamped(row, now).(state := Disabled, disabledAt := Some(now))
  }

  function NextStatus(i: Instance, status: Option<InstanceStatus>): InstanceStatus {
    if status.Some? then status.value else i.status
  }

  /** Metadata given to an update takes the place of what was there, notes included. */
  function Updated(i: Instance, status: Option<InstanceStatus>, metadata: Option<Option<StopReason>>): Instance {
    i.(status := NextStatus(i, status), stoppedBy := if metadata.Some? then metadata.value else i.stoppedBy)
  }

  /** The refusal an operation meets, if any; it then changes nothing. */
  function Refuses(cat: Catalog, s: State, op: Op): Option<Refusal> {
    match op
    case Install(key, _) =>
      if ManageRefuses(cat, s, key).Some? then ManageRefuses(cat, s, key) else DependencyRefuses(cat, s, key, false)
    case Enable(key, _) =>
      if ManageRefuses(cat, s, key).Some? then ManageRefuses(cat, s, key) else DependencyRefuses(cat, s, key, true)
    case Disable(key, _) => ManageRefuses(cat, s, key)
    case Create(key, _, otherChecks) =>
      if RunRefuses(cat, s, key).Some? then RunRefuses(cat, s, key)
      else if otherChecks then None else Some(OtherCheckFailed)
    case Update(index, status, _, otherChecks) =>
      if index >= |s.instances| then Some(InstanceNotFound)
      else
        var i := s.instances[index];
        if NextStatus(i, status).Active? && RunRefuses(cat, s, i.moduleKey).Some? then RunRefuses(cat, s, i.moduleKey)
        else if otherChecks then None else Some(OtherCheckFailed)
    case ChangeLicense(_) => None
  }

  function Step(cat: Catalog, s: State, op: Op): State {
    if Refuses(cat, s, op).Some? then s
    else
      match op
      case Install(key, now) => s.(modules := s.modules[key := InstalledRow(Row(s, key), now)])
      case Enable(key, now) => s.(modules := s.modules[key := EnabledRow(Row(s, key), now)])
      case Disable(key, now) =>
        var t := s.(modules := s.modules[key := DisabledRow(Row(s, key), now)]);
        t.(instances := Reconciled(cat, t, Some(key), ModuleDisabled, t.instances))
      case Create(key, note, _) => s.(instances := s.instances + [Instance(key, Active, note)])
      case Update(index, status, metadata, _) =>
        var i := s.instances[index];
        s.(instances := s.instances[index := Updated(i, status, metadata)])
      case ChangeLicense(license) =>
        var t := s.(license := license);
        t.(instances := Reconciled(cat, t, None, LicenseActivation, t.instances))
  }

  function Run(cat: Catalog, start: State, run: seq<Op>): State {
    if run == [] then start else Step(cat, Run(cat, start, run[..|run| - 1]), run[|run| - 1])
  }

  // ---- Reconciliation does exactly its job ----------------------------------------------------

  lemma {:induction false} ReconciledAt(cat: Catalog, s: State, only: Option<string>, reason: StopReason,
          instances: seq<Instance>)
    ensures var r := Reconciled(cat, s, only, reason, instances);
            && |r| == |instances|
            && forall k :: 0 <= k < |r| ==>
                 r[k] == if MustStop(cat, s, only, instances[k])
                         then instances[k].(status := Stopped, stoppedBy := Some(reason)) else instances[k]
  {
    hide MustStop;
    if instances != [] { ReconciledAt(cat, s, only, reason, instances[..|instances| - 1]); }
  }

  function Stops(cat: Catalog, s: State, only: Option<string>): Instance -> bool {
    (i: Instance) => MustStop(cat, s, only, i)
  }

  /** It stops the active instances in its scope that are not runnable and touches no
      other, so it activates nothing; the number it stops is what the count of
      active instances falls by; doing it again stops nothing. */
  lemma {:induction false} ReconcileIsExact(cat: Catalog, s: State, only: Option<string>, reason: StopReason,
          instances: seq<Instance>)
    ensures var r := Reconciled(cat, s, only, reason, instances);
            && |r| == |instances|
            && (forall k :: 0 <= k < |r| ==>
                  && (r[k].status.Active? <==> instances[k].status.Active? && !MustStop(cat, s, only, instances[k]))
                  && (r[k] != instances[k] <==> MustStop(cat, s, only, instances[k])))
            && Count(r, IsActive()) == Count(instances, IsActive()) - Count(instances, Stops(cat, s, only))
            && Count(r, Stops(cat, s, only)) == 0
            && Reconciled(cat, s, only, reason, r) == r
  {
    var r := Reconciled(cat, s, only, reason, instances);
    ReconciledAt(cat, s, only, reason, instances);
    ReconciledAt(cat, s, only, reason, r);
    CountsAfter(cat, s, only, reason, instances);
    assert Reconciled(cat, s, only, reason, r) == r;
  }

  lemma {:induction false} CountsAfter(cat: Catalog, s: State, only: Option<string>, reason: StopReason,
          instances: seq<Instance>)
    ensures var r := Reconciled(cat, s, only, reason, instances);
            && Count(r, IsActive()) == Count(instances, IsActive()) - Count(instances, Stops(cat, s, only))
            && Count(r, Stops(cat, s, only)) == 0
  {
    hide Runnable, InScope;
    if instances != [] {
      var front := instances[..|instances| - 1];
      CountsAfter(cat, s, only, reason, front);
      var r := Reconciled(cat, s, only, reason, instances);
      assert r[..|r| - 1] == Reconciled(cat, s, only, reason, front);
    }
  }

  // ---- Safety over every run --------------------------------------------------------------------

  /** Every active instance runs a module that is licensed, in the catalogue and enabled. */
  ghost predicate Safe(cat: Catalog, s: State) {
    forall k :: 0 <= k < |s.instances| && s.instances[k].status.Active? ==> Runnable(cat, s, s.instances[k].moduleKey)
  }

  lemma AuthorizedIsRunnable(cat: Catalog, s: State, key: string)
    ensures RunRefuses(cat, s, key).None? <==> Runnable(cat, s, key)
  {}

  lemma {:induction false} StepStaysSafe(cat: Catalog, s: State, op: Op)
    requires Safe(cat, s)
    ensures Safe(cat, Step(cat, s, op))
  {
    hide Reconciled, Missing, Satisfying;
    match op
    case Install(key, now) =>
    case Enable(key, now) =>
    case Disable(key, now) =>
      var t := s.(modules := s.modules[key := DisabledRow(Row(s, key), now)]);
      ReconciledAt(cat, t, Some(key), ModuleDisabled, t.instances);
    case Create(key, _, _) => AuthorizedIsRunnable(cat, s, key);
    case Update(index, status, _, _) =>
      if index < |s.instances| { AuthorizedIsRunnable(cat, s, s.instances[index].moduleKey); }
    case ChangeLicense(license) =>
      var t := s.(license := license);
      ReconciledAt(cat, t, None, LicenseActivation, t.instances);
  }

  lemma {:induction false} RunsStaySafe(cat: Catalog, start: State, run: seq<Op>)
    requires Safe(cat, start)
    ensures Safe(cat, Run(cat, start, run))
  {
    hide Safe, Step;
    if run != [] {
      RunsStaySafe(cat, start, run[..|run| - 1]);
      StepStaysSafe(cat, Run(cat, start, run[..|run| - 1]), run[|run| - 1]);
    }
  }

  /** A full reconciliation makes any state safe, whatever happened before it. */
  lemma ReconcileMakesSafe(cat: Catalog, s: State, reason: StopReason)
    ensures Safe(cat, s.(instances := Reconciled(cat, s, None, reason, s.instances)))
  {
    hide Reconciled;
    ReconciledAt(cat, s, None, reason, s.instances);
  }

  /** A licence that changes, or runs out, without a reconciliation keeps a safe
      tenant safe exactly when it still covers every active instance. */
  lemma LicenseChangeNeedsReconcile(cat: Catalog, s: State, license: License)
    requires Safe(cat, s)
    ensures Safe(cat, s.(license := license)) <==>
            forall k :: 0 <= k < |s.instances| && s.instances[k].status.Active? ==>
              license.status.LicenseActive? && s.instances[k].moduleKey in license.allowedModules
  {}

  /** An instance becomes active only by being created or updated, and only while
      its module is runnable; no reconciliation brings one back. */
  lemma {:induction false} ActivationIsAuthorized(cat: Catalog, s: State, op: Op, k: nat)
    requires k < |Step(cat, s, op).instances| && Step(cat, s, op).instances[k].status.Active?
    requires k >= |s.instances| || !s.instances[k].status.Active?
    ensures Runnable(cat, s, Step(cat, s, op).instances[k].moduleKey)
    ensures op.Create? || (op.Update? && op.index == k && op.status == Some(Active))
  {
    hide Reconciled, Missing, Satisfying;
    match op
    case Install(key, now) =>
    case Enable(key, now) =>
    case Disable(key, now) =>
      var t := s.(modules := s.modules[key := DisabledRow(Row(s, key), now)]);
      ReconciledAt(cat, t, Some(key), ModuleDisabled, t.instances);
    case Create(key, _, _) => AuthorizedIsRunnable(cat, s, key);
    case Update(index, status, _, _) =>
      if index < |s.instances| { AuthorizedIsRunnable(cat, s, s.instances[index].moduleKey); }
    case ChangeLicense(license) =>
      var t := s.(license := license);
      ReconciledAt(cat, t, None, LicenseActivation, t.instances);
  }

  /** Disabling a module stops its instances and, from a safe state, no others:
      reconciling the one module is then as good as reconciling all. */
  lemma {:induction false} DisableStopsItsOwn(cat: Catalog, s: State, key: string, now: Micros)
    requires Safe(cat, s) && Refuses(cat, s, Disable(key, now)).None?
    ensures var t := Step(cat, s, Disable(key, now));
            && |t.instances| == |s.instances|
            && (forall k :: 0 <= k < |s.instances| ==>
                  if s.instances[k].moduleKey == key && s.instances[k].status.Active?
                  then t.instances[k].status.Stopped? else t.instances[k] == s.instances[k])
            && t.instances == Reconciled(cat, t, None, ModuleDisabled, s.instances)
  {
    hide Reconciled, Missing;
    var t := s.(modules := s.modules[key := DisabledRow(Row(s, key), now)]);
    var after := Step(cat, s, Disable(key, now));
    ReconciledAt(cat, t, Some(key), ModuleDisabled, s.instances);
    ReconciledAt(cat, after, None, ModuleDisabled, s.instances);
    forall k | 0 <= k < |s.instances|
      ensures MustStop(cat, t, Some(key), s.instances[k]) == MustStop(cat, after, None, s.instances[k])
    {
      assert s.instances[k].status.Active? ==> Runnable(cat, s, s.instances[k].moduleKey);
    }
  }

  // ---- Dependencies --------------------------------------------------------------------------------

  /** Every enabled module has all the modules it depends on enabled. */
  ghost predicate DependenciesEnabled(cat: Catalog, s: State) {
    forall key, d :: InCatalog(cat, key) && StateOf(s, key).Enabled? && d in cat[key].dependencies ==>
      InCatalog(cat, d) && StateOf(s, d).Enabled?
  }

  lemma {:induction false} MissingMembers(wanted: seq<string>, have: set<string>)
    ensures Missing(wanted, have) == [] <==> forall x :: x in wanted ==> x in have
  {
    if wanted != [] {
      MissingMembers(wanted[..|wanted| - 1], have);
      assert wanted == wanted[..|wanted| - 1] + [wanted[|wanted| - 1]];
    }
  }

  /** Every operation but `disable` keeps it ... */
  lemma {:induction false} OthersKeepDependencies(cat: Catalog, s: State, op: Op)
    requires DependenciesEnabled(cat, s) && !op.Disable?
    ensures DependenciesEnabled(cat, Step(cat, s, op))
  {
    hide Reconciled, Missing;
    if op.Enable? && InCatalog(cat, op.key) { MissingMembers(cat[op.key].dependencies, Satisfying(cat, s, true)); }
    var t := Step(cat, s, op);
    forall key | StateOf(t, key).Enabled? ensures StateOf(s, key).Enabled? || (op.Enable? && key == op.key) {}
    forall key | StateOf(s, key).Enabled? ensures StateOf(t, key).Enabled? {}
  }

  /** ... and `disable`, which looks at no dependents, keeps it exactly when no other
      enabled module depends on the one disabled. */
  lemma {:induction false} DisableKeepsDependenciesIff(cat: Catalog, s: State, key: string, now: Micros)
    requires DependenciesEnabled(cat, s) && Refuses(cat, s, Disable(key, now)).None?
    ensures DependenciesEnabled(cat, Step(cat, s, Disable(key, now))) <==>
            forall other :: other != key && InCatalog(cat, other) && StateOf(s, other).Enabled? ==>
                key !in cat[other].dependencies
  {
    hide Reconciled, Missing;
    var t := Step(cat, s, Disable(key, now));
    assert !StateOf(t, key).Enabled?;
    assert forall other :: other != key ==> StateOf(t, other) == StateOf(s, other);
  }

  // ---- Features ---------------------------------------------------------------------------------------

  /** The licence covers every active instance's module, its features left aside. */
  ghost predicate Covers(license: License, s: State) {
    forall k :: 0 <= k < |s.instances| && s.instances[k].status.Active? ==>
      license.status.LicenseActive? && s.instances[k].moduleKey in license.allowedModules
  }

  /** Reconciliation does not look at features: a new licence stops nothing in a safe
      tenant exactly when it covers the active modules, whatever features it takes
      away; but a module that goes on running can then be managed only if the
      licence has every feature it requires. */
  lemma {:induction false} FeaturesNotReconciled(cat: Catalog, s: State, license: License)
    requires Safe(cat, s)
    ensures var t := Step(cat, s, ChangeLicense(license));
            && (t.instances == s.instances <==> Covers(license, s))
            && forall k :: 0 <= k < |t.instances| && t.instances[k].status.Active? ==>
                 var key := t.instances[k].moduleKey;
                 && InCatalog(cat, key)
                 && (ManageRefuses(cat, t, key).None? <==>
                       forall f :: f in cat[key].requiredFeatures ==> f in license.allowedFeatures)
  {
    hide Missing, Reconciled;
    var mid := s.(license := license);
    var t := Step(cat, s, ChangeLicense(license));
    ReconciledAt(cat, mid, None, LicenseActivation, s.instances);
    StepStaysSafe(cat, s, ChangeLicense(license));
    forall k | 0 <= k < |t.instances| && t.instances[k].status.Active?
      ensures var key := t.instances[k].moduleKey;
              && InCatalog(cat, key)
              && (ManageRefuses(cat, t, key).None? <==>
                    forall f :: f in cat[key].requiredFeatures ==> f in license.allowedFeatures)
    {
      assert Runnable(cat, t, t.instances[k].moduleKey);
      MissingMembers(cat[t.instances[k].moduleKey].requiredFeatures, license.allowedFeatures);
    }
    if !Covers(license, s) {
      var k :| 0 <= k < |s.instances| && s.instances[k].status.Active? &&
               !(license.status.LicenseActive? && s.instances[k].moduleKey in license.allowedModules);
      assert !t.instances[k].status.Active?;
    }
  }

  // ---- What each operation does, and when -----------------------------------------------------------------

  /** The licence is active, lists the module and has all its features, and the module
      is in the catalogue. */
  ghost predicate Licensed(cat: Catalog, s: State, key: string) {
    && key in cat && cat[key].active
    && s.license.status == LicenseActive && key in s.license.allowedModules
    && forall f :: f in cat[key].requiredFeatures ==> f in s.license.allowedFeatures
  }

  /** Each dependency is in the catalogue and enabled, or at least installed. */
  ghost predicate DependenciesMet(cat: Catalog, s: State, key: string, enabled: bool)
    requires key in cat
  {
    forall d :: d in cat[key].dependencies ==>
      && d in cat && cat[d].active && d in s.modules && s.modules[d].state != NotInstalled
      && (enabled ==> s.modules[d].state == Enabled)
  }

  /** Nobody has installed the module. */
  predicate Absent(s: State, key: string) { key !in s.modules || s.modules[key].state == NotInstalled }

  /** When the module was first installed, or now. */
  function FirstInstalled(s: State, key: string, now: Micros): Micros {
    if key in s.modules && s.modules[key].installedAt.Some? then s.modules[key].installedAt.value else now
  }

  /** Only the row of the module differs. */
  ghost predicate OnlyRow(s: State, t: State, key: string) {
    && t.license == s.license && key in t.modules
    && forall k :: k != key ==>
         (k in t.modules <==> k in s.modules) && (k in s.modules ==> t.modules[k] == s.modules[k])
  }

  lemma ManagedWhenLicensed(cat: Catalog, s: State, key: string)
    ensures ManageRefuses(cat, s, key).None? <==> Licensed(cat, s, key)
  {
    hide Missing;
    if key in cat { MissingMembers(cat[key].requiredFeatures, s.license.allowedFeatures); }
  }

  lemma DependedWhenMet(cat: Catalog, s: State, key: string, enabled: bool)
    requires InCatalog(cat, key)
    ensures DependencyRefuses(cat, s, key, enabled).None? <==> DependenciesMet(cat, s, key, enabled)
  {
    hide Missing;
    MissingMembers(cat[key].dependencies, Satisfying(cat, s, enabled));
  }

  /** Installing needs a licence and dependencies that are installed; it makes an
      absent module installed at that moment and leaves any other as it is. */
  lemma InstallDoes(cat: Catalog, s: State, key: string, now: Micros)
    ensures var t := Step(cat, s, Install(key, now));
            if Licensed(cat, s, key) && DependenciesMet(cat, s, key, false) then
              && OnlyRow(s, t, key) && t.instances == s.instances
              && (if Absent(s, key) then
                    && t.modules[key].state == Installed && t.modules[key].installedAt == Some(now)
                    && t.modules[key].enabledAt == (if key in s.modules then s.modules[key].enabledAt else None)
                    && t.modules[key].disabledAt == (if key in s.modules then s.modules[key].disabledAt else None)
                  else t.modules[key] == s.modules[key])
            else t == s
  {
    hide ManageRefuses, DependencyRefuses, Licensed, DependenciesMet;
    ManagedWhenLicensed(cat, s, key);
    if Licensed(cat, s, key) { LicensedInCatalog(cat, s, key); DependedWhenMet(cat, s, key, false); }
  }

  lemma LicensedInCatalog(cat: Catalog, s: State, key: string)
    requires Licensed(cat, s, key)
    ensures InCatalog(cat, key)
  {}

  /** Enabling needs a licence and dependencies that are enabled; it makes the module
      enabled from that moment, whatever it was. */
  lemma EnableDoes(cat: Catalog, s: State, key: string, now: Micros)
    ensures var t := Step(cat, s, Enable(key, now));
            if Licensed(cat, s, key) && DependenciesMet(cat, s, key, true) then
              && OnlyRow(s, t, key) && t.instances == s.instances
              && t.modules[key].state == Enabled && t.modules[key].enabledAt == Some(now)
              && t.modules[key].disabledAt == None && t.modules[key].installedAt == Some(FirstInstalled(s, key, now))
            else t == s
  {
    hide ManageRefuses, DependencyRefuses, Licensed, DependenciesMet;
    ManagedWhenLicensed(cat, s, key);
    if Licensed(cat, s, key) { LicensedInCatalog(cat, s, key); DependedWhenMet(cat, s, key, true); }
  }

  /** Disabling needs a licence and nothing else; it makes the module disabled from
      that moment and stops its active instances, with a note that says why. */
  lemma {:induction false} DisableDoes(cat: Catalog, s: State, key: string, now: Micros)
    ensures var t := Step(cat, s, Disable(key, now));
            if Licensed(cat, s, key) then
              && OnlyRow(s, t, key)
              && t.modules[key].state == Disabled && t.modules[key].disabledAt == Some(now)
              && t.modules[key].installedAt == Some(FirstInstalled(s, key, now))
              && t.modules[key].enabledAt == (if key in s.modules then s.modules[key].enabledAt else None)
              && |t.instances| == |s.instances|
              && forall k :: 0 <= k < |s.instances| ==>
                   t.instances[k] ==
                   if s.instances[k].moduleKey == key && s.instances[k].status == Active
                   then Instance(key, Stopped, Some(ModuleDisabled)) else s.instances[k]
            else t == s
  {
    hide ManageRefuses, Licensed, Reconciled;
    ManagedWhenLicensed(cat, s, key);
    var t := s.(modules := s.modules[key := DisabledRow(Row(s, key), now)]);
    ReconciledAt(cat, t, Some(key), ModuleDisabled, t.instances);
  }

  /** The module may run: the licence is active and lists it, the catalogue has it and
      it is enabled. */
  predicate MayRun(cat: Catalog, s: State, key: string) {
    && s.license.status == LicenseActive && key in s.license.allowedModules
    && key in cat && cat[key].active && key in s.modules && s.modules[key].state == Enabled
  }

  /** Creating adds one active instance of a module that may run, and updating changes
      the one instance, which may end active only if its module may run; both only if
      the other checks pass. */
  lemma CreateAndUpdateDo(cat: Catalog, s: State, key: string, note: Option<StopReason>, index: nat,
          status: Option<InstanceStatus>, metadata: Option<Option<StopReason>>, checks: bool)
    ensures Step(cat, s, Create(key, note, checks)) ==
            if checks && MayRun(cat, s, key) then s.(instances := s.instances + [Instance(key, Active, note)]) else s
    ensures var t := Step(cat, s, Update(index, status, metadata, checks));
            if index >= |s.instances| then t == s
            else
              var i := s.instances[index];
              var next := if status.Some? then status.value else i.status;
              var kept := if metadata.Some? then metadata.value else i.stoppedBy;
              if checks && (next == Active ==> MayRun(cat, s, i.moduleKey))
              then t == s.(instances := s.instances[index := Instance(i.moduleKey, next, kept)]) else t == s
  {
    AuthorizedIsRunnable(cat, s, key);
    if index < |s.instances| { AuthorizedIsRunnable(cat, s, s.instances[index].moduleKey); }
  }

  /** A new licence stops the active instances of the modules that may not run under it. */
  lemma {:induction false} LicenseDoes(cat: Catalog, s: State, license: License)
    ensures var t := Step(cat, s, ChangeLicense(license));
            && t.license == license && t.modules == s.modules && |t.instances| == |s.instances|
            && forall k :: 0 <= k < |s.instances| ==>
                 t.instances[k] ==
                 if s.instances[k].status == Active && !MayRun(cat, s.(license := license), s.instances[k].moduleKey)
                 then Instance(s.instances[k].moduleKey, Stopped, Some(LicenseActivation)) else s.instances[k]
  {
    hide Reconciled;
    ReconciledAt(cat, s.(license := license), None, LicenseActivation, s.instances);
  }

  /** A list of what is wanted and not there. */
  ghost predicate Lacking(lacking: seq<string>, wanted: seq<string>, have: set<string>) {
    lacking != [] && forall x :: x in lacking <==> x in wanted && x !in have
  }

  lemma {:induction false} MissingIsLacking(wanted: seq<string>, have: set<string>)
    ensures forall x :: x in Missing(wanted, have) <==> x in wanted && x !in have
  {
    if wanted != [] {
      MissingIsLacking(wanted[..|wanted| - 1], have);
      assert wanted == wanted[..|wanted| - 1] + [wanted[|wanted| - 1]];
    }
  }

  /** The module an operation is about. */
  function KeyOf(s: State, op: Op): string {
    match op
    case Install(key, _) => key
    case Enable(key, _) => key
    case Disable(key, _) => key
    case Create(key, _, _) => key
    case Update(index, _, _, _) => if index < |s.instances| then s.instances[index].moduleKey else ""
    case ChangeLicense(_) => ""
  }

  /** A refusal says what is the case. */
  lemma {:induction false} RefusalsAreTrue(cat: Catalog, s: State, op: Op)
    requires Refuses(cat, s, op).Some?
    ensures var key := KeyOf(s, op);
            match Refuses(cat, s, op).value
            case ModuleNotFound => key !in cat || !cat[key].active
            case ExpiredLicense => s.license.status == LicenseExpired
            case NoActiveLicense => s.license.status != LicenseActive
            case ModuleNotLicensed => s.license.status == LicenseActive && key !in s.license.allowedModules
            case FeaturesMissing(features) =>
              key in cat && Lacking(features, cat[key].requiredFeatures, s.license.allowedFeatures)
            case DependenciesMissing(dependencies) =>
              key in cat && dependencies != [] && forall d :: d in dependencies ==>
                && d in cat[key].dependencies
                && !(d in s.modules && d in cat && cat[d].active && s.modules[d].state == Enabled)
            case CatalogNotInitialized => key !in cat || !cat[key].active
            case NotInstalledYet => key !in s.modules
            case NotEnabledYet => key in s.modules && s.modules[key].state != Enabled
            case InstanceNotFound => op.Update? && op.index >= |s.instances|
            case OtherCheckFailed => true
  {
    hide Missing;
    var key := KeyOf(s, op);
    if key in cat {
      MissingIsLacking(cat[key].requiredFeatures, s.license.allowedFeatures);
      MissingIsLacking(cat[key].dependencies, Satisfying(cat, s, false));
      MissingIsLacking(cat[key].dependencies, Satisfying(cat, s, true));
    }
  }

  // ---- Rows ---------------------------------------------------------------------------------------------

  /** The timestamps of a tenant's module rows agree with their states. */
  predicate RowFits(row: TenantModule) {
    && (row.state.NotInstalled? <==> row.installedAt.None?)
    && (row.state.Enabled? ==> row.enabledAt.Some? && row.disabledAt.None?)
    && (row.state.Disabled? ==> row.disabledAt.Some?)
    && (row.state.Installed? || row.state.NotInstalled? ==> row.enabledAt.None? && row.disabledAt.None?)
  }

  ghost predicate RowsFit(s: State) { forall key :: key in s.modules ==> RowFits(s.modules[key]) }

  lemma {:induction false} RunsKeepRows(cat: Catalog, start: State, run: seq<Op>)
    requires RowsFit(start)
    ensures RowsFit(Run(cat, start, run))
  {
    hide Reconciled, Refuses;
    if run != [] { RunsKeepRows(cat, start, run[..|run| - 1]); }
  }

  // ---- The service ------------------------------------------------------------------------------------------

  class Tenant {
    const catalog: Catalog
    var license: License
    var modules: map<string, TenantModule>
    var instances: seq<Instance>

    constructor (catalog: Catalog, license: License)
      ensures this.catalog == catalog && Value() == State(license, map[], [])
    {
      this.catalog, this.license, modules, instances := catalog, license, map[], [];
    }

    function Value(): State reads this { State(license, modules, instances) }

    /** Returns how many instances were stopped. */
    method Reconcile(only: Option<string>, reason: StopReason) returns (disabledCount: nat)
      modifies this`instances
      ensures instances == Reconciled(catalog, old(Value()), only, reason, old(instances))
      ensures disabledCount == Count(old(instances), Stops(catalog, old(Value()), only))
    {
      hide InScope;
      ghost var s := Value();
      var before := instances;
      disabledCount := 0;
      var k := 0;
      while k < |before|
        invariant 0 <= k <= |before| && |instances| == |before|
        invariant instances[..k] == Reconciled(catalog, s, only, reason, before[..k])
        invariant forall j :: k <= j < |before| ==> instances[j] == before[j]
        invariant disabledCount == Count(before[..k], Stops(catalog, s, only))
      {
        assert before[..k + 1][..k] == before[..k];
        var i := instances[k];
        if i.status.Active? && InScope(only, i.moduleKey) && !IsRunnable(i.moduleKey) {
          instances := instances[k := i.(status := Stopped, stoppedBy := Some(reason))];
          disabledCount := disabledCount + 1;
        }
        assert instances[..k + 1] == instances[..k] + [instances[k]];
        k := k + 1;
      }
      assert instances[..k] == instances && before[..k] == before;
    }

    predicate IsRunnable(key: string)
      reads this
      ensures IsRunnable(key) == Runnable(catalog, Value(), key)
    {
      && license.status.LicenseActive? && key in license.allowedModules
      && key in catalog && catalog[key].active && key in modules && modules[key].state.Enabled?
    }

    method InstallModule(key: string, now: Micros) returns (refusal: Option<Refusal>)
      modifies this`modules
      ensures refusal == Refuses(catalog, old(Value()), Install(key, now))
      ensures Value() == Step(catalog, old(Value()), Install(key, now))
    {
      refusal := ManageRefuses(catalog, Value(), key);
      if refusal.Some? { return; }
      refusal := DependencyRefuses(catalog, Value(), key, false);
      if refusal.Some? { return; }
      var row := if key in modules then modules[key] else NEW_ROW;
      if row.state.NotInstalled? { row := row.(state := Installed, installedAt := Some(now)); }
      modules := modules[key := row];
    }

    method EnableModule(key: string, now: Micros) returns (refusal: Option<Refusal>)
      modifies this`modules
      ensures refusal == Refuses(catalog, old(Value()), Enable(key, now))
      ensures Value() == Step(catalog, old(Value()), Enable(key, now))
    {
      refusal := ManageRefuses(catalog, Value(), key);
      if refusal.Some? { return; }
      refusal := DependencyRefuses(catalog, Value(), key, true);
      if refusal.Some? { return; }
      var row := if key in modules then modules[key] else NEW_ROW;
      if row.installedAt.None? { row := row.(installedAt := Some(now)); }
      modules := modules[key := row.(state := Enabled, enabledAt := Some(now), disabledAt := None)];
    }

    method DisableModule(key: string, now: Micros) returns (refusal: Option<Refusal>, disabledCount: nat)
      modifies this`modules, this`instances
      ensures refusal == Refuses(catalog, old(Value()), Disable(key, now))
      ensures Value() == Step(catalog, old(Value()), Disable(key, now))
      ensures disabledCount + Count(instances, IsActive()) == Count(old(instances), IsActive())
    {
      hide Reconciled;
      disabledCount := 0;
      refusal := ManageRefuses(catalog, Value(), key);
      if refusal.Some? { return; }
      var row := if key in modules then modules[key] else NEW_ROW;
      if row.installedAt.None? { row := row.(installedAt := Some(now)); }
      modules := modules[key := row.(state := Disabled, disabledAt := Some(now))];
      ReconcileIsExact(catalog, Value(), Some(key), ModuleDisabled, instances);
      disabledCount := Reconcile(Some(key), ModuleDisabled);
    }

    method ActivateLicense(newLicense: License) returns (disabledCount: nat)
      modifies this`license, this`instances
      ensures Value() == Step(catalog, old(Value()), ChangeLicense(newLicense))
      ensures disabledCount + Count(instances, IsActive()) == Count(old(instances), IsActive())
    {
      hide Reconciled;
      license := newLicense;
      ReconcileIsExact(catalog, Value(), None, LicenseActivation, instances);
      disabledCount := Reconcile(None, LicenseActivation);
    }

    /** `_authorize_agent_run`. */
    method AuthorizeAgentRun(key: string) returns (refusal: Option<Refusal>)
      ensures refusal == RunRefuses(catalog, Value(), key)
    {
      if !license.status.LicenseActive? { return Some(NoActiveLicense); }
      if key !in license.allowedModules { return Some(ModuleNotLicensed); }
      if !(key in catalog && catalog[key].active) { return Some(CatalogNotInitialized); }
      if key !in modules { return Some(NotInstalledYet); }
      if modules[key].state != Enabled { return Some(NotEnabledYet); }
      refusal := None;
    }

    method CreateInstance(key: string, note: Option<StopReason>, otherChecks: bool) returns (refusal: Option<Refusal>)
      modifies this`instances
      ensures refusal == Refuses(catalog, old(Value()), Create(key, note, otherChecks))
      ensures Value() == Step(catalog, old(Value()), Create(key, note, otherChecks))
    {
      refusal := AuthorizeAgentRun(key);
      if refusal.Some? { return; }
      if !otherChecks { return Some(OtherCheckFailed); }
      instances := instances + [Instance(key, Active, note)];
    }

    method UpdateInstance(index: nat, status: Option<InstanceStatus>, metadata: Option<Option<StopReason>>,
            otherChecks: bool)
      returns (refusal: Option<Refusal>)
      modifies this`instances
      ensures refusal == Refuses(catalog, old(Value()), Update(index, status, metadata, otherChecks))
      ensures Value() == Step(catalog, old(Value()), Update(index, status, metadata, otherChecks))
    {
      if index >= |instances| { return Some(InstanceNotFound); }
      var i := instances[index];
      var next := if status.Some? then status.value else i.status;
      if next.Active? {
        refusal := AuthorizeAgentRun(i.moduleKey);
        if refusal.Some? { return; }
      }
      if !otherChecks { return Some(OtherCheckFailed); }
      if status.Some? { i := i.(status := status.value); }
      if metadata.Some? { i := i.(stoppedBy := metadata.value); }
      instances := instances[index := i];
      refusal := None;
    }
  }
}
