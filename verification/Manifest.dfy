/**
 The consent-bound part of the package manifest: what the Builder checks in a handoff and
 writes (artifacts/app-builder/app_builder.py), and what the Verifier checks and compares
 with the receipt (artifacts/app-builder/verifier.py).

 Each vocabulary has a constructor for every other string. The sections of the manifest that
 do not depend on the handoff are left out; what the identifier pattern accepts is a parameter.
 */
module Manifest {
  import opened Outcomes

  datatype World = UiOnly | ServiceOnly | HybridWorld | WebPreview | OtherWorld(name: string)
  datatype AppKind = UiApp | ServiceApp | HybridApp | OtherApp(name: string)
  datatype Kind = LauncherUi | Service | Settings | OtherKind(name: string)
  datatype Trigger = OnEnable | OnSchedule | Manual | OtherTrigger(name: string)
  datatype Profile = Desktop | Headless | OtherProfile(name: string)
  datatype Interface =
    | Clock | Scheduler | Notification | Kv | Log | HostInfo | SettingsApi | SystemMetrics | Http
    | OtherInterface(name: string)
  datatype Mode = Full | Degraded | OtherMode(name: string)
  datatype Background = Daemon | Process | NotApplicable | OtherBackground(name: string)
  datatype Necessity = Required | Degradable | OtherNecessity(name: string)
  datatype Grant = Automatic | User | OtherGrant(name: string)
  datatype Availability = Native | Brokered | Mock | Denied | Unavailable | OtherAvailability(name: string)

  /** One entrypoint of a handoff; `triggers` may be missing. */
  datatype Row = Row(id: string, kind: Kind, caption: string, route: Option<string>, triggers: Option<seq<Trigger>>)

  datatype Target = Target(
    contract: string, wasi: string, rustTarget: string, world: World, kind: AppKind, profiles: seq<Profile>,
    imports: seq<Interface>, required: seq<Interface>)

  datatype Handoff = Handoff(rows: seq<Row>, target: Target)

  datatype ProfileRow = ProfileRow(
    profile: Profile, mode: Mode, background: Background, canonical: bool, degradation: string)

  datatype Entrypoint =
    | LauncherEntry(id: string, caption: string, profiles: seq<Profile>,
        initial: string, allowed: seq<string>, routeOnly: bool)
    | ServiceEntry(id: string, caption: string, profiles: seq<Profile>, triggers: seq<Trigger>, healthInterval: int)
    | SettingsEntry(id: string, caption: string, profiles: seq<Profile>, schemaExport: bool)

  datatype CapabilityProfile = CapabilityProfile(profile: Profile, availability: Availability, behavior: string)

  datatype Scope =
    | NoScope | Storage(bytes: nat) | Schedules(count: nat) | Metrics(names: seq<string>) | OtherScope | NotAnObject

  datatype Capability = Capability(
    interface: Interface, necessity: Necessity, grant: Grant, reason: string, scope: Scope,
    profiles: seq<CapabilityProfile>)

  datatype Platform = Platform(os: string, arch: string, profiles: seq<Profile>)

  datatype Manifest = Manifest(
    contract: string, wasi: string, world: World, kind: AppKind, imports: seq<Interface>,
    profiles: seq<ProfileRow>, platforms: seq<Platform>,
    entrypoints: seq<Entrypoint>, capabilities: seq<Capability>)

  /** The uniform shape both sides compare. */
  datatype Bound = Bound(id: string, kind: Kind, caption: string, route: Option<string>, triggers: seq<Trigger>)

  datatype Receipt = Receipt(required: seq<Interface>, entrypoints: seq<Bound>)

  datatype Env = Env(idOk: string -> bool)

  // ---------------------------------------------------------------- tables

  const CONTRACT := "vibapp:experimental-v0@0.0.1"
  const WASI := "0.2"
  const RUST_TARGET := "wasm32-wasip2"
  const MAX_LABEL_BYTES: nat := 80
  const MAX_DEGRADATION_BYTES: nat := 500

  const TRIGGER_ORDER: seq<Trigger> := [OnEnable, OnSchedule, Manual]

  function BuilderImports(w: World): Option<seq<Interface>> {
    match w
    case UiOnly => Some([Clock, Kv, Log, HostInfo, SettingsApi])
    case ServiceOnly => Some([Clock, Scheduler, Kv, Log, HostInfo, SettingsApi, SystemMetrics, Http])
    case HybridWorld => Some([Clock, Scheduler, Notification, Kv, Log, HostInfo, SettingsApi])
    case WebPreview => Some([Clock, Scheduler, Kv, Log, HostInfo, SettingsApi, SystemMetrics, Http])
    case OtherWorld(_) => None
  }

  function VerifierImports(w: World): Option<seq<Interface>> {
    match w
    case UiOnly => Some([Clock, Kv, Log, HostInfo, SettingsApi])
    case ServiceOnly => Some([Clock, Scheduler, Kv, Log, HostInfo, SettingsApi, SystemMetrics, Http])
    case HybridWorld => Some([Clock, Scheduler, Notification, Kv, Log, HostInfo, SettingsApi])
    case _ => None
  }

  function WorldKind(w: World): Option<AppKind> {
    match w
    case UiOnly => Some(UiApp)
    case ServiceOnly => Some(ServiceApp)
    case HybridWorld => Some(HybridApp)
    case _ => None
  }

  function GrantPolicy(i: Interface): Option<Grant> {
    match i
    case OtherInterface(_) => None
    case Scheduler => Some(User)
    case Notification => Some(User)
    case SystemMetrics => Some(User)
    case Http => Some(User)
    case _ => Some(Automatic)
  }

  function HostAvailability(i: Interface): Option<Availability> {
    match i
    case OtherInterface(_) => None
    case Scheduler => Some(Unavailable)
    case Notification => Some(Unavailable)
    case SystemMetrics => Some(Unavailable)
    case Http => Some(Unavailable)
    case _ => Some(Brokered)
  }

  // ---------------------------------------------------------------- shared checks

  function LocalPlatform(profiles: seq<Profile>): seq<Platform> {
    [Platform("macos", "aarch64", profiles)]
  }

  function Select(order: seq<Trigger>, chosen: seq<Trigger>): seq<Trigger> {
    if order == [] then []
    else (if order[0] in chosen then [order[0]] else []) + Select(order[1..], chosen)
  }

  /** A non-empty subset of the known triggers, in their order. */
  predicate CanonicalTriggers(ts: seq<Trigger>) {
    ts != [] && ts == Select(TRIGGER_ORDER, ts)
  }

  /** The bytes of a character in UTF-8. */
  function CharSize(c: char): (n: nat)
    ensures 1 <= n <= 4
  {
    if c < '\U{80}' then 1 else if c < '\U{800}' then 2 else if c < '\U{10000}' then 3 else 4
  }

  function Sum(ns: seq<nat>): nat {
    if ns == [] then 0 else ns[0] + Sum(ns[1..])
  }

  function Utf8Size(s: string): nat {
    Sum(seq(|s|, n requires 0 <= n < |s| => CharSize(s[n])))
  }

  predicate LabelOk(s: string) {
    s != "" && Utf8Size(s) <= MAX_LABEL_BYTES
  }

  predicate Distinct<T(==)>(s: seq<T>) {
    forall i, j | 0 <= i < j < |s| :: s[i] != s[j]
  }

  predicate KnownKind(k: Kind) { k.LauncherUi? || k.Service? || k.Settings? }

  /** The entrypoint kinds suit the app kind. */
  predicate KindsFit(app: AppKind, kinds: set<Kind>) {
    && (app.UiApp? ==> LauncherUi in kinds && Service !in kinds)
    && (app.ServiceApp? ==> Service in kinds && LauncherUi !in kinds)
    && (app.HybridApp? ==> {LauncherUi, Service} <= kinds)
  }

  // ---------------------------------------------------------------- the Builder

  predicate RowValid(env: Env, r: Row) {
    && env.idOk(r.id) && KnownKind(r.kind) && LabelOk(r.caption)
    && (r.kind.LauncherUi? <==> r.route.Some?)
    && (if r.kind.Service? then CanonicalTriggers(TriggersOf(r)) else r.triggers.None?)
  }

  /** A legacy service, without triggers, is manual. */
  function TriggersOf(r: Row): seq<Trigger> {
    if !r.kind.Service? then [] else if r.triggers.Some? then r.triggers.value else [Manual]
  }

  ghost predicate RowsValid(env: Env, rows: seq<Row>) {
    && (forall r <- rows :: RowValid(env, r))
    && forall i, j | 0 <= i < j < |rows| :: rows[i].id != rows[j].id
  }

  function KindsOf(rows: seq<Row>): set<Kind> { set r <- rows :: r.kind }

  predicate TargetValid(t: Target) {
    && t.contract == CONTRACT && t.wasi == WASI && t.rustTarget == RUST_TARGET
    && WorldKind(t.world) == Some(t.kind) && BuilderImports(t.world) == Some(t.imports)
    && Distinct(t.required) && (forall i <- t.required :: i in t.imports)
    && t.profiles != [] && Distinct(t.profiles) && KnownProfiles(t.profiles)
  }

  ghost predicate HandoffValid(env: Env, h: Handoff) {
    1 <= |h.rows| <= 16 && RowsValid(env, h.rows) && TargetValid(h.target) && KindsFit(h.target.kind, KindsOf(h.rows))
  }

  /** The loop over entrypoints with its growing sets. */
  method CheckRows(env: Env, rows: seq<Row>) returns (ok: bool, kinds: set<Kind>)
    ensures ok <==> RowsValid(env, rows)
    ensures ok ==> kinds == KindsOf(rows)
  {
    var seen: set<string> := {};
    kinds := {};
    for n := 0 to |rows|
      invariant RowsValid(env, rows[..n])
      invariant seen == set r <- rows[..n] :: r.id
      invariant kinds == KindsOf(rows[..n])
    {
      var row := rows[n];
      if !RowValid(env, row) || row.id in seen {
        assert row in rows;
        return false, kinds;
      }
      assert rows[..n + 1] == rows[..n] + [row];
      seen, kinds := seen + {row.id}, kinds + {row.kind};
    }
    assert rows[..|rows|] == rows;
    return true, kinds;
  }

  method ValidateHandoff(env: Env, h: Handoff) returns (ok: bool)
    ensures ok <==> HandoffValid(env, h)
  {
    if !(1 <= |h.rows| <= 16) {
      return false;
    }
    var rowsOk, kinds := CheckRows(env, h.rows);
    return rowsOk && TargetValid(h.target) && KindsFit(h.target.kind, kinds);
  }

  const FULL_TEXT := "Local product candidate; verification and daemon admission remain separate."
  const HEADLESS_TEXT := "Headless management is available; launcher UI rendering is unsupported."

  function BuildProfile(kind: AppKind, p: Profile): ProfileRow {
    if p.Desktop? then ProfileRow(p, Full, if kind.UiApp? then NotApplicable else Daemon, true, FULL_TEXT)
    else ProfileRow(p, Degraded, if kind.UiApp? then NotApplicable else Process, true, HEADLESS_TEXT)
  }

  function ShortName(i: Interface): string {
    match i
    case Clock => "clock"
    case Scheduler => "scheduler"
    case Notification => "notification"
    case Kv => "kv"
    case Log => "log"
    case HostInfo => "host-info"
    case SettingsApi => "settings"
    case SystemMetrics => "system-metrics"
    case Http => "http"
    case OtherInterface(name) => name
  }

  function ScopeOf(i: Interface): Scope {
    match i
    case Kv => Storage(1_048_576)
    case Scheduler => Schedules(16)
    case SystemMetrics => Metrics(["cpu-temperature-celsius"])
    case _ => NoScope
  }

  const REASON_TAIL := " capability; necessity comes from the "
  const REASON_END := "consent-bound app requirement while the import comes from the selected WIT world."

  function Reason(necessity: string, i: Interface): (r: string)
    ensures r != ""
  {
    necessity + " " + (ShortName(i) + (REASON_TAIL + REASON_END))
  }

  const UNAVAILABLE_TEXT :=
    "Typed capability-unavailable stub; the current local host provides no live authority for this interface."
  const DENIED_TEXT :=
    "Structural import only; the app did not request this capability, so the host links a typed permission-denied stub."
  const BROKER_TEXT := "Bounded daemon broker; linking the interface does not bypass per-call authority checks."

  function Behavior(a: Availability): (r: string)
    ensures r != ""
  {
    match a
    case Unavailable => UNAVAILABLE_TEXT
    case Denied => DENIED_TEXT
    case _ => BROKER_TEXT
  }

  function CapabilityRows(profiles: seq<Profile>, a: Availability): seq<CapabilityProfile> {
    seq(|profiles|, n requires 0 <= n < |profiles| => CapabilityProfile(profiles[n], a, Behavior(a)))
  }

  function BuildCapability(i: Interface, profiles: seq<Profile>, required: set<Interface>): Option<Capability> {
    match (HostAvailability(i), GrantPolicy(i))
    case (Some(host), Some(grant)) =>
      var necessity := if i in required then Required else Degradable;
      var word := if necessity.Required? then "Required" else "Degradable";
      var availability := if necessity.Required? then host else Denied;
      Some(Capability(i, necessity, grant, Reason(word, i), ScopeOf(i), CapabilityRows(profiles, availability)))
    case _ => None
  }

  function BuildEntrypoint(r: Row, profiles: seq<Profile>): Entrypoint {
    if r.kind.LauncherUi? && r.route.Some? then
      LauncherEntry(r.id, r.caption, profiles, r.route.value, [r.route.value], true)
    else if r.kind.Service? then ServiceEntry(r.id, r.caption, profiles, TriggersOf(r), 60)
    else SettingsEntry(r.id, r.caption, profiles, true)
  }

  /** The manifest of a handoff; an interface without a policy is an error. */
  function BuildManifest(h: Handoff): Option<Manifest> {
    var t := h.target;
    var required := set i <- t.required;
    if exists i <- t.imports :: BuildCapability(i, t.profiles, required).None? then None
    else
      Some(Manifest(
             t.contract, t.wasi, t.world, t.kind, t.imports,
             seq(|t.profiles|, n requires 0 <= n < |t.profiles| => BuildProfile(t.kind, t.profiles[n])),
             LocalPlatform(t.profiles),
             seq(|h.rows|, n requires 0 <= n < |h.rows| => BuildEntrypoint(h.rows[n], t.profiles)),
             seq(|t.imports|, n requires 0 <= n < |t.imports| && t.imports[n] in t.imports =>
               BuildCapability(t.imports[n], t.profiles, required).value)))
  }

  function BindRow(r: Row): Bound {
    Bound(r.id, r.kind, r.caption, r.route, TriggersOf(r))
  }

  /** What the Builder's receipt records of the handoff. */
  function ReceiptOf(h: Handoff): Receipt {
    Receipt(h.target.required, seq(|h.rows|, n requires 0 <= n < |h.rows| => BindRow(h.rows[n])))
  }

  // ---------------------------------------------------------------- the Verifier

  function Names(rows: seq<ProfileRow>): seq<Profile> {
    seq(|rows|, n requires 0 <= n < |rows| => rows[n].profile)
  }

  predicate ProfileValid(r: ProfileRow) {
    && (r.profile.Desktop? || r.profile.Headless?) && r.canonical
    && !r.mode.OtherMode? && !r.background.OtherBackground? && Utf8Size(r.degradation) <= MAX_DEGRADATION_BYTES
  }

  ghost predicate ProfilesValid(rows: seq<ProfileRow>) {
    (forall r <- rows :: ProfileValid(r)) && forall i, j | 0 <= i < j < |rows| :: rows[i].profile != rows[j].profile
  }

  function KindOf(e: Entrypoint): Kind {
    if e.LauncherEntry? then LauncherUi else if e.ServiceEntry? then Service else Settings
  }

  predicate EntrypointValid(e: Entrypoint, names: seq<Profile>) {
    && e.profiles == names
    && match e
       case LauncherEntry(_, _, _, initial, allowed, routeOnly) => allowed == [initial] && routeOnly
       case ServiceEntry(_, _, _, triggers, interval) => CanonicalTriggers(triggers) && 10 <= interval <= 86400
       case SettingsEntry(_, _, _, schemaExport) => schemaExport
  }

  ghost predicate EntrypointsValid(es: seq<Entrypoint>, names: seq<Profile>) {
    (forall e <- es :: EntrypointValid(e, names)) && forall i, j | 0 <= i < j < |es| :: es[i].id != es[j].id
  }

  function EntryKinds(es: seq<Entrypoint>): set<Kind> { set e <- es :: KindOf(e) }

  predicate CapabilityValid(c: Capability, names: seq<Profile>) {
    && HostAvailability(c.interface).Some? && GrantPolicy(c.interface) == Some(c.grant)
    && !c.necessity.OtherNecessity? && !c.scope.NotAnObject? && c.reason != ""
    && |c.profiles| == |names|
    && forall n | 0 <= n < |names| ::
         && c.profiles[n].profile == names[n] && c.profiles[n].behavior != ""
         && c.profiles[n].availability == if c.necessity.Required? then HostAvailability(c.interface).value else Denied
  }

  ghost predicate CapabilitiesValid(cs: seq<Capability>, imports: seq<Interface>, names: seq<Profile>) {
    && |cs| == |imports|
    && (forall c <- cs :: c.interface in imports && CapabilityValid(c, names))
    && (forall i, j | 0 <= i < j < |cs| :: cs[i].interface != cs[j].interface)
    && (set c <- cs :: c.interface) == (set i <- imports :: i)
  }

  ghost predicate ManifestValid(m: Manifest) {
    var names := Names(m.profiles);
    && m.contract == CONTRACT && m.wasi == WASI
    && WorldKind(m.world) == Some(m.kind) && VerifierImports(m.world) == Some(m.imports)
    && 1 <= |m.profiles| <= 2 && ProfilesValid(m.profiles) && m.platforms == LocalPlatform(names)
    && 1 <= |m.entrypoints| <= 16 && EntrypointsValid(m.entrypoints, names)
    && KindsFit(m.kind, EntryKinds(m.entrypoints))
    && CapabilitiesValid(m.capabilities, m.imports, names)
  }

  function BindEntry(e: Entrypoint): Bound {
    Bound(e.id, KindOf(e), e.caption, if e.LauncherEntry? then Some(e.initial) else None,
          if e.ServiceEntry? then e.triggers else [])
  }

  /** What the Verifier reads back from the manifest. */
  function BindEntries(es: seq<Entrypoint>): seq<Bound> {
    seq(|es|, n requires 0 <= n < |es| => BindEntry(es[n]))
  }

  function RequiredOf(m: Manifest): set<Interface> {
    set c <- m.capabilities | c.necessity.Required? :: c.interface
  }

  predicate BoundValid(env: Env, b: Bound) {
    && env.idOk(b.id) && KnownKind(b.kind) && LabelOk(b.caption)
    && (b.kind.LauncherUi? <==> b.route.Some?)
    && (if b.kind.Service? then CanonicalTriggers(b.triggers) else b.triggers == [])
  }

  ghost predicate BoundsValid(env: Env, bs: seq<Bound>) {
    1 <= |bs| <= 16 && (forall b <- bs :: BoundValid(env, b)) && forall i, j | 0 <= i < j < |bs| :: bs[i].id != bs[j].id
  }

  /** The native checks pass, and capabilities and entrypoints are those of the receipt. */
  ghost predicate Accepts(env: Env, m: Manifest, r: Receipt) {
    && ManifestValid(m)
    && RequiredOf(m) == (set i <- r.required :: i)
    && BoundsValid(env, BindEntries(m.entrypoints)) && BindEntries(m.entrypoints) == r.entrypoints
  }

  method CheckProfiles(rows: seq<ProfileRow>) returns (names: Option<seq<Profile>>)
    ensures names == if ProfilesValid(rows) then Some(Names(rows)) else None
  {
    var seen: seq<Profile> := [];
    for n := 0 to |rows|
      invariant |seen| == n && forall i | 0 <= i < n :: seen[i] == rows[i].profile && ProfileValid(rows[i])
      invariant Distinct(seen)
    {
      var row := rows[n];
      if !ProfileValid(row) || row.profile in seen {
        assert row in rows;
        return None;
      }
      seen := seen + [row.profile];
    }
    assert forall i, j | 0 <= i < j < |rows| :: seen[i] != seen[j];
    assert seen == Names(rows);
    return Some(seen);
  }

  method CheckEntrypoints(es: seq<Entrypoint>, names: seq<Profile>) returns (ok: bool, kinds: set<Kind>)
    ensures ok <==> EntrypointsValid(es, names)
    ensures ok ==> kinds == EntryKinds(es)
  {
    var seen: set<string> := {};
    kinds := {};
    for n := 0 to |es|
      invariant EntrypointsValid(es[..n], names)
      invariant seen == (set e <- es[..n] :: e.id) && kinds == EntryKinds(es[..n])
    {
      var e := es[n];
      if !EntrypointValid(e, names) || e.id in seen {
        assert e in es;
        return false, kinds;
      }
      assert es[..n + 1] == es[..n] + [e];
      seen, kinds := seen + {e.id}, kinds + {KindOf(e)};
    }
    assert es[..|es|] == es;
    return true, kinds;
  }

  method CheckCapabilities(cs: seq<Capability>, imports: seq<Interface>, names: seq<Profile>) returns (ok: bool)
    ensures ok <==> CapabilitiesValid(cs, imports, names)
  {
    if |cs| != |imports| {
      return false;
    }
    var seen: set<Interface> := {};
    for n := 0 to |cs|
      invariant forall c <- cs[..n] :: c.interface in imports && CapabilityValid(c, names)
      invariant forall i, j | 0 <= i < j < n :: cs[i].interface != cs[j].interface
      invariant seen == set c <- cs[..n] :: c.interface
    {
      var c := cs[n];
      if c.interface !in imports || c.interface in seen || !CapabilityValid(c, names) {
        assert c in cs;
        return false;
      }
      assert cs[..n + 1] == cs[..n] + [c];
      seen := seen + {c.interface};
    }
    assert cs[..|cs|] == cs;
    return seen == set i <- imports :: i;
  }

  method CheckManifest(m: Manifest) returns (ok: bool)
    ensures ok <==> ManifestValid(m)
  {
    if m.contract != CONTRACT || m.wasi != WASI {
      return false;
    }
    if WorldKind(m.world) != Some(m.kind) || VerifierImports(m.world) != Some(m.imports) || !(1 <= |m.profiles| <= 2) {
      return false;
    }
    var names := CheckProfiles(m.profiles);
    if names.None? || m.platforms != LocalPlatform(names.value) || !(1 <= |m.entrypoints| <= 16) {
      return false;
    }
    var entriesOk, kinds := CheckEntrypoints(m.entrypoints, names.value);
    if !entriesOk || !KindsFit(m.kind, kinds) {
      return false;
    }
    ok := CheckCapabilities(m.capabilities, m.imports, names.value);
  }

  method CheckBounds(env: Env, bs: seq<Bound>) returns (ok: bool)
    ensures ok <==> BoundsValid(env, bs)
  {
    if !(1 <= |bs| <= 16) {
      return false;
    }
    var seen: set<string> := {};
    for n := 0 to |bs|
      invariant forall b <- bs[..n] :: BoundValid(env, b)
      invariant forall i, j | 0 <= i < j < n :: bs[i].id != bs[j].id
      invariant seen == set b <- bs[..n] :: b.id
    {
      var b := bs[n];
      if !BoundValid(env, b) || b.id in seen {
        assert b in bs;
        return false;
      }
      assert bs[..n + 1] == bs[..n] + [b];
      seen := seen + {b.id};
    }
    assert bs[..|bs|] == bs;
    return true;
  }

  /** The comparison with the receipt in `_validate_package_tree`. */
  method VerifyManifest(env: Env, m: Manifest, r: Receipt) returns (accepted: bool)
    ensures accepted <==> Accepts(env, m, r)
  {
    var ok := CheckManifest(m);
    if !ok || RequiredOf(m) != (set i <- r.required :: i) {
      return false;
    }
    var projected: seq<Bound> := [];
    for n := 0 to |m.entrypoints|
      invariant projected == BindEntries(m.entrypoints[..n])
    {
      assert m.entrypoints[..n + 1] == m.entrypoints[..n] + [m.entrypoints[n]];
      projected := projected + [BindEntry(m.entrypoints[n])];
    }
    assert m.entrypoints[..|m.entrypoints|] == m.entrypoints;
    ok := CheckBounds(env, projected);
    return ok && projected == r.entrypoints;
  }

  // ---------------------------------------------------------------- the round trip

  /** Every import of a buildable world has a policy, and no world imports an interface twice. */
  lemma ImportsHavePolicies(w: World, n: nat, k: nat)
    requires WorldKind(w).Some? && n < k < |BuilderImports(w).value|
    ensures var imports := BuilderImports(w).value;
      && VerifierImports(w) == Some(imports) && imports[n] != imports[k]
  {
  }

  lemma ImportPolicy(w: World, i: Interface)
    requires WorldKind(w).Some? && i in BuilderImports(w).value
    ensures HostAvailability(i).Some? && GrantPolicy(i).Some?
  {
  }

  /** The Builder's rows bind to the same thing before and after they become manifest entries. */
  lemma EntryRoundTrip(env: Env, r: Row, profiles: seq<Profile>)
    requires RowValid(env, r)
    ensures var e := BuildEntrypoint(r, profiles);
      BindEntry(e) == BindRow(r) && EntrypointValid(e, profiles) && BoundValid(env, BindRow(r))
      && KindOf(e) == r.kind && e.id == r.id
  {
  }

  lemma BuildSucceeds(env: Env, h: Handoff)
    requires HandoffValid(env, h)
    ensures BuildManifest(h).Some?
  {
    forall i <- h.target.imports ensures BuildCapability(i, h.target.profiles, set i <- h.target.required).Some? {
      ImportPolicy(h.target.world, i);
    }
  }

  lemma EntriesRoundTrip(env: Env, h: Handoff, m: Manifest)
    requires HandoffValid(env, h) && BuildManifest(h) == Some(m)
    ensures BindEntries(m.entrypoints) == ReceiptOf(h).entrypoints
    ensures EntrypointsValid(m.entrypoints, h.target.profiles) && EntryKinds(m.entrypoints) == KindsOf(h.rows)
    ensures BoundsValid(env, BindEntries(m.entrypoints))
  {
    forall n | 0 <= n < |h.rows|
      ensures var e := m.entrypoints[n];
        && BindEntry(e) == BindRow(h.rows[n]) && EntrypointValid(e, h.target.profiles) && BoundValid(env, BindEntry(e))
        && KindOf(e) == h.rows[n].kind && e.id == h.rows[n].id
    {
      EntryRoundTrip(env, h.rows[n], h.target.profiles);
    }
    forall r <- h.rows ensures r.kind in EntryKinds(m.entrypoints) {
      var n :| 0 <= n < |h.rows| && h.rows[n] == r;
      assert m.entrypoints[n] in m.entrypoints;
    }
  }

  lemma {:induction false} SumBound(ns: seq<nat>, most: nat)
    requires forall n | 0 <= n < |ns| :: ns[n] <= most
    ensures Sum(ns) <= most * |ns|
  {
    if ns != [] {
      SumBound(ns[1..], most);
    }
  }

  lemma ShortText(s: string)
    requires |s| <= MAX_DEGRADATION_BYTES / 4
    ensures Utf8Size(s) <= MAX_DEGRADATION_BYTES
  {
    SumBound(seq(|s|, n requires 0 <= n < |s| => CharSize(s[n])), 4);
  }

  lemma ProfileRoundTrip(kind: AppKind, p: Profile)
    requires p.Desktop? || p.Headless?
    ensures ProfileValid(BuildProfile(kind, p)) && BuildProfile(kind, p).profile == p
  {
    ShortText(BuildProfile(kind, p).degradation);
  }

  lemma RowsRoundTrip(profiles: seq<Profile>, a: Availability)
    ensures var rows := CapabilityRows(profiles, a);
      |rows| == |profiles|
      && forall n | 0 <= n < |profiles| ::
           rows[n].profile == profiles[n] && rows[n].behavior != "" && rows[n].availability == a
  {
    var text := Behavior(a);
    assert text != "";
    assert forall n | 0 <= n < |profiles| :: CapabilityRows(profiles, a)[n].behavior == text;
  }

  lemma CapabilityRoundTrip(i: Interface, profiles: seq<Profile>, required: set<Interface>)
    requires BuildCapability(i, profiles, required).Some?
    ensures var c := BuildCapability(i, profiles, required).value;
      c.interface == i && CapabilityValid(c, profiles) && (c.necessity.Required? <==> i in required)
  {
    var a := if i in required then HostAvailability(i).value else Denied;
    assert BuildCapability(i, profiles, required).value.profiles == CapabilityRows(profiles, a);
    RowsRoundTrip(profiles, a);
  }

  lemma CapabilitiesRoundTrip(env: Env, h: Handoff, m: Manifest)
    requires HandoffValid(env, h) && BuildManifest(h) == Some(m)
    ensures CapabilitiesValid(m.capabilities, m.imports, h.target.profiles)
    ensures RequiredOf(m) == set i <- h.target.required :: i
  {
    var t := h.target;
    var required := set i <- t.required;
    forall n | 0 <= n < |t.imports|
      ensures var c := m.capabilities[n];
        c.interface == t.imports[n] && CapabilityValid(c, t.profiles)
        && (c.necessity.Required? <==> t.imports[n] in required)
    {
      assert t.imports[n] in t.imports;
      CapabilityRoundTrip(t.imports[n], t.profiles, required);
    }
    forall n, k | 0 <= n < k < |t.imports| ensures t.imports[n] != t.imports[k] {
      ImportsHavePolicies(t.world, n, k);
    }
    forall i <- t.imports ensures exists c <- m.capabilities :: c.interface == i {
      var n :| 0 <= n < |t.imports| && t.imports[n] == i;
      assert m.capabilities[n] in m.capabilities;
    }
  }

  predicate KnownProfiles(ps: seq<Profile>) {
    forall p <- ps :: p.Desktop? || p.Headless?
  }

  lemma OneTwice(ps: seq<Profile>, i: nat, j: nat, k: nat)
    requires i < j < k < |ps| && KnownProfiles(ps)
    ensures ps[i] == ps[j] || ps[i] == ps[k] || ps[j] == ps[k]
  {
    assert ps[i] in ps && ps[j] in ps && ps[k] in ps;
  }

  lemma AtMostTwo(ps: seq<Profile>)
    requires KnownProfiles(ps) && Distinct(ps)
    ensures |ps| <= 2
  {
    if |ps| > 2 {
      OneTwice(ps, 0, 1, 2);
      assert false;
    }
  }

  lemma ProfilesRoundTrip(h: Handoff, m: Manifest)
    requires TargetValid(h.target) && BuildManifest(h) == Some(m)
    ensures ProfilesValid(m.profiles) && 1 <= |m.profiles| <= 2
    ensures Names(m.profiles) == h.target.profiles && m.platforms == LocalPlatform(h.target.profiles)
  {
    var ps := h.target.profiles;
    assert forall n | 0 <= n < |ps| :: ps[n] in ps;
    AtMostTwo(ps);
    forall n | 0 <= n < |ps| ensures ProfileValid(m.profiles[n]) && m.profiles[n].profile == ps[n] {
      ProfileRoundTrip(h.target.kind, ps[n]);
    }
  }

  /** Every handoff that validates becomes a manifest that the Verifier accepts with the Builder's receipt. */
  lemma BuiltIsAccepted(env: Env, h: Handoff)
    requires HandoffValid(env, h)
    ensures BuildManifest(h).Some? && Accepts(env, BuildManifest(h).value, ReceiptOf(h))
  {
    BuildSucceeds(env, h);
    var m := BuildManifest(h).value;
    ProfilesRoundTrip(h, m);
    EntriesRoundTrip(env, h, m);
    CapabilitiesRoundTrip(env, h, m);
    if |h.target.imports| > 1 {
      ImportsHavePolicies(h.target.world, 0, 1);
    }
  }

  /** An accepted entry is the Builder's, except for the health interval of a service. */
  predicate SameEntry(e: Entrypoint, built: Entrypoint) {
    e == if e.ServiceEntry? && built.ServiceEntry? then built.(healthInterval := e.healthInterval) else built
  }

  lemma EntryDetermined(env: Env, e: Entrypoint, r: Row, profiles: seq<Profile>)
    requires RowValid(env, r) && EntrypointValid(e, profiles) && BindEntry(e) == BindRow(r)
    ensures SameEntry(e, BuildEntrypoint(r, profiles))
  {
  }

  /** What a capability grants, without its texts and scope. */
  function Authority(c: Capability): (Interface, Necessity, Grant, seq<(Profile, Availability)>) {
    (c.interface, c.necessity, c.grant,
     seq(|c.profiles|, n requires 0 <= n < |c.profiles| => (c.profiles[n].profile, c.profiles[n].availability)))
  }

  /** Capabilities for the same requirements and profiles agree interface by interface. */
  lemma CapabilityDetermined(c: Capability, built: Capability, profiles: seq<Profile>)
    requires CapabilityValid(c, profiles) && CapabilityValid(built, profiles)
    requires c.interface == built.interface && (c.necessity.Required? <==> built.necessity.Required?)
    ensures Authority(c) == Authority(built)
  {
    assert Authority(c).3 == Authority(built).3;
  }

  /** The manifest has a capability with the same authority. */
  ghost predicate Offers(m: Manifest, c: Capability) {
    exists d <- m.capabilities :: Authority(d) == Authority(c)
  }

  lemma RequiredMembers(m: Manifest, c: Capability)
    requires c in m.capabilities
      && forall i, j | 0 <= i < j < |m.capabilities| :: m.capabilities[i].interface != m.capabilities[j].interface
    ensures c.necessity.Required? <==> c.interface in RequiredOf(m)
  {
  }

  /** Nothing the user consented to can be changed on the way: what the Verifier accepts is what the Builder wrote. */
  lemma AcceptedIsBuilt(env: Env, h: Handoff, m: Manifest)
    requires HandoffValid(env, h) && BuildManifest(h).Some?
    requires Accepts(env, m, ReceiptOf(h)) && m.world == h.target.world && Names(m.profiles) == h.target.profiles
    ensures var built := BuildManifest(h).value;
      && m.contract == built.contract && m.wasi == built.wasi && m.platforms == built.platforms
      && m.kind == built.kind && m.imports == built.imports
      && |m.entrypoints| == |built.entrypoints|
      && (forall n | 0 <= n < |m.entrypoints| :: SameEntry(m.entrypoints[n], built.entrypoints[n]))
      && (forall c <- m.capabilities :: Offers(built, c))
      && (forall c <- built.capabilities :: Offers(m, c))
  {
    var built, profiles := BuildManifest(h).value, h.target.profiles;
    CapabilitiesRoundTrip(env, h, built);
    assert |BindEntries(m.entrypoints)| == |h.rows|;
    forall n | 0 <= n < |m.entrypoints| ensures SameEntry(m.entrypoints[n], built.entrypoints[n]) {
      assert BindEntries(m.entrypoints)[n] == ReceiptOf(h).entrypoints[n];
      EntryDetermined(env, m.entrypoints[n], h.rows[n], profiles);
    }
    SameCapabilities(m, built, profiles);
    SameCapabilities(built, m, profiles);
  }

  lemma SameCapabilities(a: Manifest, b: Manifest, names: seq<Profile>)
    requires CapabilitiesValid(a.capabilities, a.imports, names) && CapabilitiesValid(b.capabilities, b.imports, names)
    requires a.imports == b.imports && RequiredOf(a) == RequiredOf(b)
    ensures forall c <- a.capabilities :: Offers(b, c)
  {
    forall c <- a.capabilities ensures Offers(b, c) {
      assert c.interface in (set i <- b.imports :: i);
      var offered := set d <- b.capabilities :: d.interface;
      assert c.interface in offered;
      var d :| d in b.capabilities && d.interface == c.interface;
      RequiredMembers(a, c);
      RequiredMembers(b, d);
      CapabilityDetermined(c, d, names);
    }
  }
}
