/** The on-read migrations of `wallet-store.ts`.  The build's defaults, the retired keys, the test for
    allowed Hub addresses and the derivation of an Arch address from a public key
    are the parameter `Config`. */
module MigratedState {
  import opened Options

  /** A property that may be missing or null. */
  datatype Slot<+T> = Missing | Null | Value(v: T)

  /** A property whose type the code tests. */
  datatype Loose = Absent | Nil | Boolean(b: bool) | Number(n: real) | NotANumber | Text(s: string)
    | List(items: seq<string>)

  const CURRENT_SCHEMA_VERSION := 5.0
  const DEFAULT_SITE_PERMISSIONS := "prompt for everything"

  datatype AddressRecord = AddressRecord(
    address: Slot<string>,
    network: Slot<string>,
    purposes: Option<seq<string>>,
    addressType: Slot<string>,
    chainVerified: Slot<bool>)

  /** What `addresses` holds: an array of records, or something else. */
  datatype Addresses = Records(records: seq<AddressRecord>) | NoArray

  datatype Account = Account(
    id: string,
    externalProvider: Slot<string>,
    kind: Slot<string>,
    authMethod: Slot<string>,
    isCustodial: Slot<bool>,
    recoveryEmail: Slot<string>,
    archAddress: Slot<string>,
    legacyArchAddress: Slot<string>,
    publicKeyHex: Slot<string>,
    addresses: Slot<Addresses>)

  datatype Site = Site(origin: string, permissions: Slot<string>)

  /** The Hub and indexer settings; the first two are the retired single-API ones. */
  datatype ApiConfig = ApiConfig(
    apiBaseUrl: Slot<string>,
    apiKey: Slot<string>,
    hubBaseUrl: Slot<string>,
    hubApiKey: Slot<string>,
    indexerBaseUrl: Slot<string>,
    indexerApiKey: Slot<string>)

  datatype Preferences = Preferences(
    openAs: Loose,
    recentRecipients: Loose,
    contacts: Loose,
    autoLockMinutes: Loose,
    sentryOptIn: Loose,
    debugMode: Loose,
    schemaVersion: Loose)

  /** Properties that get a default and are never looked at again. */
  datatype Status = Status(initialized: Slot<bool>, locked: Slot<bool>, network: Slot<string>)

  datatype AppState = AppState(
    accounts: Option<seq<Account>>,
    activeAccountId: Slot<string>,
    connectedSites: Slot<seq<Site>>,
    api: ApiConfig,
    preferences: Preferences,
    status: Status)

  datatype Config = Config(
    defaultHubBaseUrl: string,
    defaultHubApiKey: string,
    indexerBaseUrl: string,
    defaultIndexerApiKey: string,
    legacyEc2HubBaseUrl: string,
    legacyHubApiKey: string,
    rotatedLeakedHubApiKey: string,
    leakedIndexerApiKey: string,
    isAllowedHubBaseUrl: string -> bool,
    deriveArchAccountAddress: string -> string)

  /** A non-empty string is truthy. */
  predicate Given(s: Slot<string>) {
    s.Value? && s.v != ""
  }

  // ----- The defaults

  function OrDefault<T>(s: Slot<T>, default: Slot<T>): Slot<T> {
    if s.Missing? then default else s
  }

  function OrElse(l: Loose, default: Loose): Loose {
    if l.Absent? then default else l
  }

  function MergedApi(c: Config, a: ApiConfig): ApiConfig {
    a.(hubBaseUrl := OrDefault(a.hubBaseUrl, Value(c.defaultHubBaseUrl)),
       hubApiKey := OrDefault(a.hubApiKey, Value(c.defaultHubApiKey)),
       indexerBaseUrl := OrDefault(a.indexerBaseUrl, Value("")),
       indexerApiKey := OrDefault(a.indexerApiKey, Value("")))
  }

  function MergedPreferences(p: Preferences): Preferences {
    Preferences(OrElse(p.openAs, Text("popup")), OrElse(p.recentRecipients, List([])), OrElse(p.contacts, List([])),
      OrElse(p.autoLockMinutes, Number(60.0)), OrElse(p.sentryOptIn, Boolean(false)),
      OrElse(p.debugMode, Boolean(false)), OrElse(p.schemaVersion, Number(CURRENT_SCHEMA_VERSION)))
  }

  function MergedStatus(s: Status): Status {
    Status(OrDefault(s.initialized, Value(false)), OrDefault(s.locked, Value(true)),
      OrDefault(s.network, Value("testnet4")))
  }

  function AccountsOf(s: AppState): seq<Account> {
    if s.accounts.Some? then s.accounts.value else []
  }

  /** The input spread over the default state. */
  function Merged(c: Config, s: AppState): AppState {
    AppState(Some(AccountsOf(s)), OrDefault(s.activeAccountId, Null), OrDefault(s.connectedSites, Value([])),
      MergedApi(c, s.api), MergedPreferences(s.preferences), MergedStatus(s.status))
  }

  predicate IsAccountAddressRecord(r: AddressRecord) {
    && Given(r.address)
    && (r.network == Value("mainnet") || r.network == Value("testnet4"))
    && r.purposes.Some? && r.purposes.value != []
    && (forall i :: 0 <= i < |r.purposes.value| ==>
      r.purposes.value[i] == "payment" || r.purposes.value[i] == "ordinals")
    && r.addressType.Value?
    && r.chainVerified.Value?
  }

  function Kept(records: seq<AddressRecord>): (r: seq<AddressRecord>)
    ensures |r| <= |records|
    ensures |r| == |records| ==> r == records
    ensures forall i :: 0 <= i < |r| ==> IsAccountAddressRecord(r[i])
  {
    if records == [] then []
    else if IsAccountAddressRecord(records[0]) then [records[0]] + Kept(records[1..])
    else Kept(records[1..])
  }

  lemma {:induction false} KeptAll(records: seq<AddressRecord>)
    requires forall i :: 0 <= i < |records| ==> IsAccountAddressRecord(records[i])
    ensures Kept(records) == records
  {
    if records != [] {
      KeptAll(records[1..]);
    }
  }

  // ----- One account, migration by migration

  function WithKind(a: Account): Account {
    if Given(a.kind) then a else a.(kind := Value("turnkey"))
  }

  function WithAuthMethod(a: Account): Account {
    if Given(a.authMethod) then a
    else a.(authMethod := Value(if a.isCustodial == Value(true) && Given(a.recoveryEmail) then "email" else "passkey"))
  }

  function WithoutCustodial(a: Account): Account {
    a.(isCustodial := Missing)
  }

  function WithExternalAuth(a: Account): Account {
    if a.kind == Value("external") && a.authMethod != Value("external") then a.(authMethod := Value("external")) else a
  }

  /** A public key long enough to derive from. */
  predicate Derivable(a: Account) {
    a.publicKeyHex.Value? && |a.publicKeyHex.v| >= 64
  }

  function WithArchAddress(c: Config, a: Account): Account {
    if !Given(a.archAddress) && Derivable(a)
    then a.(archAddress := Value(c.deriveArchAccountAddress(a.publicKeyHex.v))) else a
  }

  function WithCanonicalAddress(c: Config, a: Account): Account {
    if a.kind == Value("external") && Derivable(a) && Given(a.archAddress)
       && a.archAddress.v != c.deriveArchAccountAddress(a.publicKeyHex.v)
    then a.(legacyArchAddress := if Given(a.legacyArchAddress) then a.legacyArchAddress else a.archAddress,
            archAddress := Value(c.deriveArchAccountAddress(a.publicKeyHex.v)))
    else a
  }

  function KeptOf(a: Account): seq<AddressRecord> {
    if a.kind == Value("external") && a.addresses.Value? && a.addresses.v.Records? then Kept(a.addresses.v.records)
    else []
  }

  function WithAddresses(a: Account): Account {
    if a.addresses.Missing? then a
    else if KeptOf(a) == [] then a.(addresses := Missing)
    else a.(addresses := Value(Records(KeptOf(a))))
  }

  /** How the account logs in. */
  function WithLogin(a: Account): Account {
    WithExternalAuth(WithoutCustodial(WithAuthMethod(WithKind(a))))
  }

  /** Its Arch identity. */
  function WithIdentity(c: Config, a: Account): Account {
    WithCanonicalAddress(c, WithArchAddress(c, a))
  }

  function MigratedAccount(c: Config, a: Account): Account {
    WithAddresses(WithIdentity(c, WithLogin(a)))
  }

  /** The identity steps report a change.  Deriving an empty address is reported
      although it may leave the address as it was. */
  predicate IdentityReported(c: Config, a: Account) {
    (!Given(a.archAddress) && Derivable(a)) || WithIdentity(c, a) != a
  }

  predicate AccountReported(c: Config, a: Account) {
    WithLogin(a) != a || IdentityReported(c, WithLogin(a)) || MigratedAccount(c, a) != WithIdentity(c, WithLogin(a))
  }

  method MigrateLogin(account: Account) returns (acct: Account, migrated: bool)
    ensures acct == WithLogin(account)
    ensures migrated <==> acct != account
  {
    acct, migrated := account, false;
    if !Given(acct.kind) {
      acct := acct.(kind := Value("turnkey"));
      migrated := true;
    }
    assert acct == WithKind(account) && (migrated <==> acct != account);
    if !Given(acct.authMethod) {
      if acct.isCustodial == Value(true) && Given(acct.recoveryEmail) {
        acct := acct.(authMethod := Value("email"));
      } else {
        acct := acct.(authMethod := Value("passkey"));
      }
      migrated := true;
    }
    assert acct == WithAuthMethod(WithKind(account));
    if !acct.isCustodial.Missing? {
      acct := acct.(isCustodial := Missing);
      migrated := true;
    }
    if acct.kind == Value("external") && acct.authMethod != Value("external") {
      acct := acct.(authMethod := Value("external"));
      migrated := true;
    }
  }

  method MigrateIdentity(c: Config, account: Account) returns (acct: Account, migrated: bool)
    ensures acct == WithIdentity(c, account)
    ensures migrated <==> IdentityReported(c, account)
  {
    acct, migrated := account, false;
    if !Given(acct.archAddress) && Given(acct.publicKeyHex) && |acct.publicKeyHex.v| >= 64 {
      acct := acct.(archAddress := Value(c.deriveArchAccountAddress(acct.publicKeyHex.v)));
      migrated := true;
    }
    if acct.kind == Value("external") && Given(acct.publicKeyHex) && |acct.publicKeyHex.v| >= 64 {
      var canonical := c.deriveArchAccountAddress(acct.publicKeyHex.v);
      if Given(acct.archAddress) && acct.archAddress.v != canonical {
        if !Given(acct.legacyArchAddress) {
          acct := acct.(legacyArchAddress := acct.archAddress);
        }
        acct := acct.(archAddress := Value(canonical));
        migrated := true;
      }
    }
  }

  method MigrateAddresses(account: Account) returns (acct: Account, migrated: bool)
    ensures acct == WithAddresses(account)
    ensures migrated <==> acct != account
  {
    acct, migrated := account, false;
    if !acct.addresses.Missing? {
      var kept := KeptOf(acct);
      if |kept| == 0 {
        acct := acct.(addresses := Missing);
        migrated := true;
      } else if |kept| != |acct.addresses.v.records| {
        acct := acct.(addresses := Value(Records(kept)));
        migrated := true;
      }
    }
  }

  method MigrateAccount(c: Config, account: Account) returns (acct: Account, migrated: bool)
    ensures acct == MigratedAccount(c, account)
    ensures migrated <==> AccountReported(c, account)
  {
    hide WithLogin, WithIdentity, WithAddresses, IdentityReported;
    var changed: bool;
    acct, migrated := MigrateLogin(account);
    acct, changed := MigrateIdentity(c, acct);
    migrated := migrated || changed;
    acct, changed := MigrateAddresses(acct);
    migrated := migrated || changed;
  }

  // ----- Configuration

  /** The single API was the Hub: its address and key move over unless the Hub has its
      own.  (`LegacyAddressSurvives` says when that happens after the defaults are in.) */
  function UrlFromLegacy(c: Config, a: ApiConfig): ApiConfig {
    if a.apiBaseUrl.Missing? && a.apiKey.Missing? then a
    else a.(hubBaseUrl := if Given(a.hubBaseUrl) then a.hubBaseUrl
                          else if Given(a.apiBaseUrl) then a.apiBaseUrl else Value(c.defaultHubBaseUrl),
            hubApiKey := if Given(a.hubApiKey) then a.hubApiKey
                         else if Given(a.apiKey) then a.apiKey else Value(c.defaultHubApiKey),
            apiBaseUrl := Missing, apiKey := Missing)
  }

  predicate HubUrlStays(c: Config, url: Slot<string>) {
    Given(url) && url.v != c.legacyEc2HubBaseUrl && c.isAllowedHubBaseUrl(url.v)
  }

  predicate HubKeyStays(c: Config, key: Slot<string>) {
    Given(key) && key.v != c.legacyHubApiKey && key.v != c.rotatedLeakedHubApiKey
  }

  predicate IndexerKeyStays(c: Config, key: Slot<string>) {
    Given(key) && key.v != c.leakedIndexerApiKey
  }

  function WithHub(c: Config, a: ApiConfig): ApiConfig {
    a.(hubBaseUrl := if HubUrlStays(c, a.hubBaseUrl) then a.hubBaseUrl else Value(c.defaultHubBaseUrl),
       hubApiKey := if HubKeyStays(c, a.hubApiKey) then a.hubApiKey else Value(c.defaultHubApiKey))
  }

  function WithIndexer(c: Config, a: ApiConfig): ApiConfig {
    a.(indexerBaseUrl := if Given(a.indexerBaseUrl) then a.indexerBaseUrl else Value(c.indexerBaseUrl),
       indexerApiKey := if IndexerKeyStays(c, a.indexerApiKey) then a.indexerApiKey else Value(c.defaultIndexerApiKey))
  }

  function ConfigMigrated(c: Config, a: ApiConfig): ApiConfig {
    WithIndexer(c, WithHub(c, UrlFromLegacy(c, a)))
  }

  predicate LegacyReported(a: ApiConfig) {
    !a.apiBaseUrl.Missing? || !a.apiKey.Missing?
  }

  predicate HubReported(c: Config, a: ApiConfig) {
    !HubUrlStays(c, a.hubBaseUrl) || !HubKeyStays(c, a.hubApiKey)
  }

  predicate IndexerReported(c: Config, a: ApiConfig) {
    !Given(a.indexerBaseUrl) || !IndexerKeyStays(c, a.indexerApiKey)
  }

  predicate ConfigReported(c: Config, a: ApiConfig) {
    LegacyReported(a) || HubReported(c, UrlFromLegacy(c, a)) || IndexerReported(c, a)
  }

  method MoveLegacyConfig(c: Config, input: ApiConfig) returns (state: ApiConfig, migrated: bool)
    ensures state == UrlFromLegacy(c, input)
    ensures migrated <==> LegacyReported(input)
  {
    state, migrated := input, false;
    if !state.apiBaseUrl.Missing? || !state.apiKey.Missing? {
      if !Given(state.hubBaseUrl) {
        state := state.(hubBaseUrl := if Given(state.apiBaseUrl) then state.apiBaseUrl else Value(c.defaultHubBaseUrl));
      }
      if !Given(state.hubApiKey) {
        state := state.(hubApiKey := if Given(state.apiKey) then state.apiKey else Value(c.defaultHubApiKey));
      }
      state := state.(apiBaseUrl := Missing, apiKey := Missing);
      migrated := true;
    }
  }

  method MigrateHub(c: Config, input: ApiConfig) returns (state: ApiConfig, migrated: bool)
    ensures state == WithHub(c, input)
    ensures migrated <==> HubReported(c, input)
  {
    state, migrated := input, false;
    if !Given(state.hubBaseUrl) {
      state := state.(hubBaseUrl := Value(c.defaultHubBaseUrl));
      migrated := true;
    } else if state.hubBaseUrl.v == c.legacyEc2HubBaseUrl {
      state := state.(hubBaseUrl := Value(c.defaultHubBaseUrl));
      migrated := true;
    } else if !c.isAllowedHubBaseUrl(state.hubBaseUrl.v) {
      state := state.(hubBaseUrl := Value(c.defaultHubBaseUrl));
      migrated := true;
    }
    if !Given(state.hubApiKey) {
      state := state.(hubApiKey := Value(c.defaultHubApiKey));
      migrated := true;
    } else if state.hubApiKey.v == c.legacyHubApiKey || state.hubApiKey.v == c.rotatedLeakedHubApiKey {
      state := state.(hubApiKey := Value(c.defaultHubApiKey));
      migrated := true;
    }
  }

  method MigrateIndexer(c: Config, input: ApiConfig) returns (state: ApiConfig, migrated: bool)
    ensures state == WithIndexer(c, input)
    ensures migrated <==> IndexerReported(c, input)
  {
    state, migrated := input, false;
    if !Given(state.indexerBaseUrl) {
      state := state.(indexerBaseUrl := Value(c.indexerBaseUrl));
      migrated := true;
    }
    if !Given(state.indexerApiKey) {
      state := state.(indexerApiKey := Value(c.defaultIndexerApiKey));
      migrated := true;
    } else if state.indexerApiKey.v == c.leakedIndexerApiKey {
      state := state.(indexerApiKey := Value(c.defaultIndexerApiKey));
      migrated := true;
    }
  }

  method MigrateApiConfig(c: Config, input: ApiConfig) returns (state: ApiConfig, migrated: bool)
    ensures state == ConfigMigrated(c, input)
    ensures migrated <==> ConfigReported(c, input)
  {
    var changed: bool;
    state, migrated := MoveLegacyConfig(c, input);
    state, changed := MigrateHub(c, state);
    migrated := migrated || changed;
    assert IndexerReported(c, state) == IndexerReported(c, input);
    state, changed := MigrateIndexer(c, state);
    migrated := migrated || changed;
  }

  // ----- Preferences

  predicate KnownView(l: Loose) {
    l == Text("popup") || l == Text("sidepanel")
  }

  /** NaN is a number and is not below the limit. */
  predicate MinutesStay(l: Loose) {
    l.NotANumber? || (l.Number? && !(l.n <= 0.0))
  }

  predicate VersionStays(l: Loose) {
    l.NotANumber? || (l.Number? && !(l.n < CURRENT_SCHEMA_VERSION))
  }

  function PreferencesMigrated(p: Preferences): Preferences {
    Preferences(
      if KnownView(p.openAs) then p.openAs else Text("popup"),
      if p.recentRecipients.List? then p.recentRecipients else List([]),
      if p.contacts.List? then p.contacts else List([]),
      if MinutesStay(p.autoLockMinutes) then p.autoLockMinutes else Number(60.0),
      if p.sentryOptIn.Boolean? then p.sentryOptIn else Boolean(false),
      if p.debugMode.Boolean? then p.debugMode else Boolean(false),
      if VersionStays(p.schemaVersion) then p.schemaVersion else Number(CURRENT_SCHEMA_VERSION))
  }

  method MigratePreferences(input: Preferences) returns (p: Preferences, migrated: bool)
    ensures p == PreferencesMigrated(input)
    ensures migrated <==> p != input
  {
    p, migrated := input, false;
    if p.openAs != Text("popup") && p.openAs != Text("sidepanel") {
      p := p.(openAs := Text("popup"));
      migrated := true;
    }
    if !p.recentRecipients.List? {
      p := p.(recentRecipients := List([]));
      migrated := true;
    }
    if !p.contacts.List? {
      p := p.(contacts := List([]));
      migrated := true;
    }
    if !(p.autoLockMinutes.Number? || p.autoLockMinutes.NotANumber?)
       || (p.autoLockMinutes.Number? && p.autoLockMinutes.n <= 0.0) {
      p := p.(autoLockMinutes := Number(60.0));
      migrated := true;
    }
    if !p.sentryOptIn.Boolean? {
      p := p.(sentryOptIn := Boolean(false));
      migrated := true;
    }
    if !p.debugMode.Boolean? {
      p := p.(debugMode := Boolean(false));
      migrated := true;
    }
    if !(p.schemaVersion.Number? || p.schemaVersion.NotANumber?)
       || (p.schemaVersion.Number? && p.schemaVersion.n < CURRENT_SCHEMA_VERSION) {
      p := p.(schemaVersion := Number(CURRENT_SCHEMA_VERSION));
      migrated := true;
    }
  }

  // ----- Lists of accounts and sites

  predicate Discontinued(a: Account) {
    a.externalProvider == Value("magiceden")
  }

  /** The accounts that can still sign, in their order. */
  function Supported(accounts: seq<Account>): (r: seq<Account>)
    ensures |r| <= |accounts|
    ensures |r| == |accounts| ==> r == accounts
    ensures forall i :: 0 <= i < |r| ==> !Discontinued(r[i])
  {
    if accounts == [] then []
    else (if Discontinued(accounts[0]) then [] else [accounts[0]]) + Supported(accounts[1..])
  }

  predicate HasId(accounts: seq<Account>, id: string) {
    exists i :: 0 <= i < |accounts| && accounts[i].id == id
  }

  /** A removed active account is replaced by the first one left. */
  function Rebound(before: seq<Account>, kept: seq<Account>, active: Slot<string>): Slot<string> {
    if |kept| != |before| && Given(active) && !HasId(kept, active.v)
    then (if kept == [] then Null else Value(kept[0].id)) else active
  }

  function MigratedAccounts(c: Config, accounts: seq<Account>): (r: seq<Account>)
    ensures |r| == |accounts|
    ensures forall i :: 0 <= i < |r| ==> r[i] == MigratedAccount(c, accounts[i])
  {
    seq(|accounts|, i requires 0 <= i < |accounts| => MigratedAccount(c, accounts[i]))
  }

  predicate AccountsReported(c: Config, accounts: seq<Account>) {
    exists i :: 0 <= i < |accounts| && AccountReported(c, accounts[i])
  }

  function MigratedSite(s: Site): Site {
    if Given(s.permissions) then s else s.(permissions := Value(DEFAULT_SITE_PERMISSIONS))
  }

  function MigratedSites(sites: seq<Site>): (r: seq<Site>)
    ensures |r| == |sites|
    ensures forall i :: 0 <= i < |r| ==> r[i] == MigratedSite(sites[i])
  {
    seq(|sites|, i requires 0 <= i < |sites| => MigratedSite(sites[i]))
  }

  function SitesMigrated(s: Slot<seq<Site>>): Slot<seq<Site>> {
    if s.Value? then Value(MigratedSites(s.v)) else s
  }

  method MigrateAccounts(c: Config, input: seq<Account>) returns (accounts: seq<Account>, migrated: bool)
    ensures accounts == MigratedAccounts(c, input)
    ensures migrated <==> AccountsReported(c, input)
  {
    hide MigratedAccount, AccountReported;
    accounts, migrated := input, false;
    var i := 0;
    while i < |accounts|
      invariant 0 <= i <= |accounts| == |input|
      invariant forall k :: 0 <= k < i ==> accounts[k] == MigratedAccount(c, input[k])
      invariant forall k :: i <= k < |input| ==> accounts[k] == input[k]
      invariant migrated <==> exists k :: 0 <= k < i && AccountReported(c, input[k])
    {
      var acct, changed := MigrateAccount(c, accounts[i]);
      accounts := accounts[i := acct];
      if changed {
        migrated := true;
      }
      i := i + 1;
    }
  }

  method MigrateSites(input: seq<Site>) returns (sites: seq<Site>, migrated: bool)
    ensures sites == MigratedSites(input)
    ensures migrated <==> sites != input
  {
    sites, migrated := input, false;
    var i := 0;
    while i < |sites|
      invariant 0 <= i <= |sites| == |input|
      invariant forall k :: 0 <= k < i ==> sites[k] == MigratedSite(input[k])
      invariant forall k :: i <= k < |input| ==> sites[k] == input[k]
      invariant migrated <==> exists k :: 0 <= k < i && sites[k] != input[k]
    {
      if !Given(sites[i].permissions) {
        sites := sites[i := sites[i].(permissions := Value(DEFAULT_SITE_PERMISSIONS))];
        migrated := true;
        assert sites[i] != input[i];
      }
      i := i + 1;
    }
  }

  // ----- The whole migration

  /** The state the migration leaves behind. */
  function Migrated(c: Config, input: AppState): AppState {
    var s := Merged(c, input);
    var kept := Supported(AccountsOf(s));
    AppState(Some(MigratedAccounts(c, kept)), Rebound(AccountsOf(s), kept, s.activeAccountId),
      SitesMigrated(s.connectedSites), ConfigMigrated(c, s.api), PreferencesMigrated(s.preferences), s.status)
  }

  /** The flag the migration returns. */
  predicate Reported(c: Config, input: AppState) {
    var s := Merged(c, input);
    var kept := Supported(AccountsOf(s));
    || |kept| != |AccountsOf(s)|
    || AccountsReported(c, kept)
    || SitesMigrated(s.connectedSites) != s.connectedSites
    || ConfigReported(c, s.api)
    || PreferencesMigrated(s.preferences) != s.preferences
  }

  method MigrateState(c: Config, input: AppState) returns (state: AppState, migrated: bool)
    ensures state == Migrated(c, input)
    ensures migrated <==> Reported(c, input)
  {
    hide MigratedAccount, AccountReported, ConfigMigrated, ConfigReported, PreferencesMigrated;
    hide MergedApi, MergedPreferences, MergedStatus;
    state, migrated := Merged(c, input), false;
    var accounts := state.accounts.value;
    var kept := Supported(accounts);
    var active := state.activeAccountId;
    if |kept| != |accounts| {
      migrated := true;
      if Given(active) && !HasId(kept, active.v) {
        active := if |kept| > 0 then Value(kept[0].id) else Null;
      }
    }
    var changed: bool;
    accounts, changed := MigrateAccounts(c, kept);
    migrated := migrated || changed;
    var api, preferences;
    api, changed := MigrateApiConfig(c, state.api);
    migrated := migrated || changed;
    preferences, changed := MigratePreferences(state.preferences);
    migrated := migrated || changed;
    var sites := state.connectedSites;
    if sites.Value? {
      var list;
      list, changed := MigrateSites(sites.v);
      sites := Value(list);
      migrated := migrated || changed;
    }
    state := AppState(Some(accounts), active, sites, api, preferences, state.status);
  }

  // ----- What a migrated account is

  /** Deriving from the key gives an empty address, and the migration does derive. */
  predicate DerivesNothing(c: Config, a: Account) {
    && Derivable(a) && c.deriveArchAccountAddress(a.publicKeyHex.v) == ""
    && (!Given(a.archAddress) || a.kind == Value("external"))
  }

  lemma LoginSettles(a: Account)
    ensures WithLogin(WithLogin(a)) == WithLogin(a)
  {
  }

  lemma IdentitySettles(c: Config, a: Account)
    ensures WithIdentity(c, WithIdentity(c, a)) == WithIdentity(c, a)
    ensures IdentityReported(c, WithIdentity(c, a)) <==> DerivesNothing(c, a)
  {
  }

  lemma AddressesSettle(a: Account)
    ensures WithAddresses(WithAddresses(a)) == WithAddresses(a)
  {
    KeptAll(KeptOf(a));
  }

  lemma LoginIgnoresIdentity(c: Config, a: Account)
    ensures WithLogin(WithIdentity(c, a)) == WithIdentity(c, a) <==> WithLogin(a) == a
  {
  }

  lemma LoginIgnoresAddresses(a: Account)
    requires WithLogin(a) == a
    ensures WithLogin(WithAddresses(a)) == WithAddresses(a)
  {
    hide KeptOf;
  }

  lemma IdentityIgnoresAddresses(c: Config, a: Account)
    ensures WithIdentity(c, WithAddresses(a)) == WithAddresses(WithIdentity(c, a))
    ensures IdentityReported(c, WithAddresses(a)) <==> IdentityReported(c, a)
  {
    hide Kept;
    assert KeptOf(WithIdentity(c, a)) == KeptOf(a);
  }

  /** Migrating an account again changes nothing, and says so unless deriving its
      address gives the empty text. */
  lemma AccountSettles(c: Config, a: Account)
    ensures MigratedAccount(c, MigratedAccount(c, a)) == MigratedAccount(c, a)
    ensures AccountReported(c, MigratedAccount(c, a)) <==> DerivesNothing(c, WithLogin(a))
  {
    var b := WithLogin(a);
    var d := WithIdentity(c, b);
    var e := WithAddresses(d);
    LoginSettles(a);
    LoginIgnoresIdentity(c, b);
    LoginIgnoresAddresses(d);
    IdentityIgnoresAddresses(c, d);
    IdentitySettles(c, b);
    AddressesSettle(d);
    hide WithLogin, WithIdentity, WithAddresses, IdentityReported, DerivesNothing;
    assert e == MigratedAccount(c, a);
    assert WithLogin(e) == e;
    assert WithIdentity(c, e) == e;
    assert WithAddresses(e) == e;
  }

  lemma AccountQuiet(c: Config, a: Account)
    requires !AccountReported(c, a)
    ensures MigratedAccount(c, a) == a
  {
    hide WithLogin, WithIdentity, WithAddresses;
  }

  /** Whatever was stored, a migrated account says how it logs in, an external one
      only by its wallet; the retired flag is gone; linked addresses are left on
      external accounts alone, well-formed and in their order. */
  lemma MigratedAccountShape(c: Config, a: Account)
    ensures var r := MigratedAccount(c, a);
      && Given(r.kind) && Given(r.authMethod) && r.isCustodial.Missing?
      && (r.kind == Value("external") ==> r.authMethod == Value("external"))
      && (Given(a.kind) ==> r.kind == a.kind)
      && (r.addresses.Missing? || (r.kind == Value("external") && r.addresses.Value? && r.addresses.v.Records?
            && r.addresses.v.records != []
            && forall i :: 0 <= i < |r.addresses.v.records| ==> IsAccountAddressRecord(r.addresses.v.records[i])))
  {
    assert |KeptOf(WithIdentity(c, WithLogin(a)))| >= 0;
  }

  /** An external account with a usable key ends with the address derived from it; an
      address that was replaced is kept as the legacy one unless there was one already;
      an account that is not external never loses an address. */
  lemma MigratedIdentity(c: Config, a: Account)
    ensures var r := MigratedAccount(c, a);
      && (r.kind == Value("external") && Derivable(a) ==>
            r.archAddress == Value(c.deriveArchAccountAddress(a.publicKeyHex.v)))
      && (r.kind != Value("external") && Given(a.archAddress) ==> r.archAddress == a.archAddress)
      && (Given(a.archAddress) && r.archAddress != a.archAddress ==>
            r.legacyArchAddress == if Given(a.legacyArchAddress) then a.legacyArchAddress else a.archAddress)
      && (Given(a.archAddress) && r.archAddress == a.archAddress ==> r.legacyArchAddress == a.legacyArchAddress)
  {
    hide Kept;
  }

  // ----- Configuration settles

  /** What the migration leaves in the configuration passes its own tests: a stored
      value that passes, or a default that does. */
  predicate ConfigHeals(c: Config, a: ApiConfig) {
    var m := UrlFromLegacy(c, a);
    && (HubUrlStays(c, m.hubBaseUrl) || HubUrlStays(c, Value(c.defaultHubBaseUrl)))
    && (HubKeyStays(c, m.hubApiKey) || HubKeyStays(c, Value(c.defaultHubApiKey)))
    && (Given(m.indexerBaseUrl) || c.indexerBaseUrl != "")
    && (IndexerKeyStays(c, m.indexerApiKey) || IndexerKeyStays(c, Value(c.defaultIndexerApiKey)))
  }

  lemma ConfigSettles(c: Config, a: ApiConfig)
    ensures ConfigMigrated(c, ConfigMigrated(c, a)) == ConfigMigrated(c, a)
    ensures ConfigReported(c, ConfigMigrated(c, a)) <==> !ConfigHeals(c, a)
  {
    var m := UrlFromLegacy(c, a);
    var r := ConfigMigrated(c, a);
    assert !LegacyReported(m) && UrlFromLegacy(c, r) == r;
  }

  lemma ConfigQuiet(c: Config, a: ApiConfig)
    requires !ConfigReported(c, a)
    ensures ConfigMigrated(c, a) == a
  {
  }

  // ----- The retired single-API settings

  /** The defaults are merged in before the retired address is looked at: it becomes the
      Hub's exactly when it passes the tests and the stored Hub address is null or empty
      -- not when there is none, unless the build has no default either. */
  lemma LegacyAddressSurvives(c: Config, s: AppState)
    requires Given(s.api.apiBaseUrl)
    requires s.api.apiBaseUrl != s.api.hubBaseUrl && s.api.apiBaseUrl.v != c.defaultHubBaseUrl
    ensures Migrated(c, s).api.hubBaseUrl == s.api.apiBaseUrl <==>
            HubUrlStays(c, s.api.apiBaseUrl) && !Given(OrDefault(s.api.hubBaseUrl, Value(c.defaultHubBaseUrl)))
    ensures s.api.hubBaseUrl.Missing? && c.defaultHubBaseUrl != "" ==>
              Migrated(c, s).api.hubBaseUrl == Value(c.defaultHubBaseUrl)
  {
    hide MigratedAccounts, PreferencesMigrated, SitesMigrated, Supported, MergedPreferences, MergedStatus;
  }

  /** The same for the retired key. */
  lemma LegacyKeySurvives(c: Config, s: AppState)
    requires Given(s.api.apiKey)
    requires s.api.apiKey != s.api.hubApiKey && s.api.apiKey.v != c.defaultHubApiKey
    ensures Migrated(c, s).api.hubApiKey == s.api.apiKey <==>
            HubKeyStays(c, s.api.apiKey) && !Given(OrDefault(s.api.hubApiKey, Value(c.defaultHubApiKey)))
    ensures s.api.hubApiKey.Missing? && c.defaultHubApiKey != "" ==>
              Migrated(c, s).api.hubApiKey == Value(c.defaultHubApiKey)
  {
    hide MigratedAccounts, PreferencesMigrated, SitesMigrated, Supported, MergedPreferences, MergedStatus;
  }

  // ----- The whole state

  lemma {:induction false} SupportedAll(accounts: seq<Account>)
    requires forall i :: 0 <= i < |accounts| ==> !Discontinued(accounts[i])
    ensures Supported(accounts) == accounts
  {
    if accounts != [] {
      SupportedAll(accounts[1..]);
    }
  }

  /** Exactly the accounts of the discontinued wallet go. */
  lemma {:induction false} SupportedHolds(accounts: seq<Account>)
    ensures forall a :: a in Supported(accounts) <==> a in accounts && !Discontinued(a)
  {
    if accounts != [] {
      SupportedHolds(accounts[1..]);
    }
  }

  lemma AccountsSettle(c: Config, accounts: seq<Account>)
    requires forall i :: 0 <= i < |accounts| ==> !Discontinued(accounts[i])
    ensures Supported(MigratedAccounts(c, accounts)) == MigratedAccounts(c, accounts)
    ensures MigratedAccounts(c, MigratedAccounts(c, accounts)) == MigratedAccounts(c, accounts)
    ensures AccountsReported(c, MigratedAccounts(c, accounts))
       <==> exists i :: 0 <= i < |accounts| && DerivesNothing(c, WithLogin(accounts[i]))
  {
    var r := MigratedAccounts(c, accounts);
    forall i | 0 <= i < |accounts|
      ensures !Discontinued(r[i]) && MigratedAccount(c, r[i]) == r[i]
      ensures AccountReported(c, r[i]) <==> DerivesNothing(c, WithLogin(accounts[i]))
    {
      ProviderStays(c, accounts[i]);
      AccountSettles(c, accounts[i]);
    }
    hide MigratedAccount, AccountReported, DerivesNothing, WithLogin, Discontinued;
    SupportedAll(r);
  }

  lemma ProviderStays(c: Config, a: Account)
    ensures MigratedAccount(c, a).externalProvider == a.externalProvider && MigratedAccount(c, a).id == a.id
  {
    hide Kept;
  }

  lemma SitesSettle(s: Slot<seq<Site>>)
    ensures SitesMigrated(SitesMigrated(s)) == SitesMigrated(s)
  {
    if s.Value? {
      assert MigratedSites(MigratedSites(s.v)) == MigratedSites(s.v);
    }
  }

  lemma MergedStays(c: Config, s: AppState)
    ensures Merged(c, Merged(c, s)) == Merged(c, s)
  {
  }

  lemma MergedApiKeeps(c: Config, a: ApiConfig)
    ensures MergedApi(c, ConfigMigrated(c, MergedApi(c, a))) == ConfigMigrated(c, MergedApi(c, a))
  {
  }

  lemma MergedPreferencesKeeps(p: Preferences)
    ensures MergedPreferences(PreferencesMigrated(MergedPreferences(p))) == PreferencesMigrated(MergedPreferences(p))
    ensures PreferencesMigrated(PreferencesMigrated(p)) == PreferencesMigrated(p)
  {
  }

  /** A migrated state has no default left to add. */
  lemma MergedKeepsMigrated(c: Config, s: AppState)
    ensures Merged(c, Migrated(c, s)) == Migrated(c, s)
  {
    MergedApiKeeps(c, s.api);
    MergedPreferencesKeeps(s.preferences);
    hide MergedApi, MergedPreferences, ConfigMigrated, PreferencesMigrated, Supported, MigratedAccounts, MigratedSites;
  }

  /** The second run on `s` finds nothing to do. */
  predicate Settles(c: Config, s: AppState) {
    var m := Merged(c, s);
    var kept := Supported(AccountsOf(m));
    && ConfigHeals(c, m.api)
    && forall i :: 0 <= i < |kept| ==> !DerivesNothing(c, WithLogin(kept[i]))
  }

  /** Migrating twice is migrating once, for every stored state and every build. */
  lemma MigrationIsIdempotent(c: Config, s: AppState)
    ensures Migrated(c, Migrated(c, s)) == Migrated(c, s)
    ensures Reported(c, Migrated(c, s)) <==> !Settles(c, s)
  {
    var m := Merged(c, s);
    var kept := Supported(AccountsOf(m));
    var r := Migrated(c, s);
    MergedKeepsMigrated(c, s);
    AccountsSettle(c, kept);
    SitesSettle(m.connectedSites);
    ConfigSettles(c, m.api);
    MergedPreferencesKeeps(m.preferences);
    hide Merged, Supported, MigratedAccounts, SitesMigrated, ConfigMigrated, PreferencesMigrated, ConfigReported,
      ConfigHeals, AccountsReported, DerivesNothing, WithLogin;
    assert Merged(c, r) == r && AccountsOf(r) == MigratedAccounts(c, kept);
  }

  /** With no change reported the state is the stored one with the defaults added. */
  lemma QuietMeansUnchanged(c: Config, s: AppState)
    requires !Reported(c, s)
    ensures Migrated(c, s) == Merged(c, s)
  {
    var m := Merged(c, s);
    var accounts := AccountsOf(m);
    ConfigQuiet(c, m.api);
    forall i | 0 <= i < |accounts| && !AccountReported(c, accounts[i])
      ensures MigratedAccount(c, accounts[i]) == accounts[i]
    {
      AccountQuiet(c, accounts[i]);
    }
    hide AccountReported, MigratedAccount, ConfigMigrated, PreferencesMigrated, SitesMigrated, ConfigReported;
    hide MergedApi, MergedPreferences, MergedStatus;
    assert Supported(accounts) == accounts;
    assert MigratedAccounts(c, accounts) == accounts;
  }

  /** On a state that settles, the flag is exactly "something changed". */
  lemma FlagIsChange(c: Config, s: AppState)
    requires Settles(c, s)
    ensures Reported(c, s) <==> Migrated(c, s) != Merged(c, s)
  {
    MigrationIsIdempotent(c, s);
    MergedStays(c, s);
    if !Reported(c, s) {
      QuietMeansUnchanged(c, s);
    }
    hide Merged, Migrated, Settles;
    assert Reported(c, Merged(c, s)) <==> Reported(c, s);
  }

  /** The build's own values pass the tests the migration applies to stored ones. */
  ghost predicate GoodBuild(c: Config) {
    && HubUrlStays(c, Value(c.defaultHubBaseUrl))
    && HubKeyStays(c, Value(c.defaultHubApiKey))
    && c.indexerBaseUrl != ""
    && IndexerKeyStays(c, Value(c.defaultIndexerApiKey))
    && forall key: string :: |key| >= 64 ==> c.deriveArchAccountAddress(key) != ""
  }

  function Fresh(accounts: seq<Account>): AppState {
    AppState(Some(accounts), Missing, Missing, ApiConfig(Missing, Missing, Missing, Missing, Missing, Missing),
      Preferences(Absent, Absent, Absent, Absent, Absent, Absent, Absent), Status(Missing, Missing, Missing))
  }

  function Keyed(key: string): Account {
    Account("a", Missing, Missing, Missing, Missing, Missing, Missing, Missing, Value(key), Missing)
  }

  lemma FreshSettles(c: Config, accounts: seq<Account>)
    requires Settles(c, Fresh(accounts))
    ensures HubUrlStays(c, Value(c.defaultHubBaseUrl)) && HubKeyStays(c, Value(c.defaultHubApiKey))
    ensures c.indexerBaseUrl != "" && IndexerKeyStays(c, Value(c.defaultIndexerApiKey))
    ensures |accounts| == 1 && !Discontinued(accounts[0]) ==> !DerivesNothing(c, WithLogin(accounts[0]))
  {
    hide DerivesNothing, WithLogin;
    if |accounts| == 1 && !Discontinued(accounts[0]) {
      assert accounts == [accounts[0]];
      assert Supported(accounts)[0] == accounts[0];
    }
  }

  lemma GoodBuildSettles(c: Config, s: AppState)
    requires GoodBuild(c)
    ensures Settles(c, s)
  {
    hide Merged, Supported, WithLogin;
  }

  lemma OnlyGoodBuildsSettle(c: Config)
    requires forall s :: Settles(c, s)
    ensures GoodBuild(c)
  {
    FreshSettles(c, []);
    forall key: string | |key| >= 64
      ensures c.deriveArchAccountAddress(key) != ""
    {
      FreshSettles(c, [Keyed(key)]);
    }
    hide Settles;
  }

  /** The second run is silent on every stored state exactly for a good build. */
  lemma SecondRunIsSilent(c: Config)
    ensures (forall s :: !Reported(c, Migrated(c, s))) <==> GoodBuild(c)
  {
    hide *;
    forall s
      ensures Reported(c, Migrated(c, s)) <==> !Settles(c, s)
      ensures GoodBuild(c) ==> Settles(c, s)
    {
      MigrationIsIdempotent(c, s);
      if GoodBuild(c) {
        GoodBuildSettles(c, s);
      }
    }
    if forall s :: Settles(c, s) {
      OnlyGoodBuildsSettle(c);
    }
  }

  /** A build without an indexer key reports a change on every read of every new state. */
  lemma KeylessBuildReports(c: Config, accounts: seq<Account>)
    requires c.defaultIndexerApiKey == ""
    ensures Reported(c, Migrated(c, Fresh(accounts)))
  {
    hide Reported, Migrated, Settles;
    MigrationIsIdempotent(c, Fresh(accounts));
    assert !IndexerKeyStays(c, Value(c.defaultIndexerApiKey));
    if Settles(c, Fresh(accounts)) {
      FreshSettles(c, accounts);
    }
  }

  /** A stored active account that exists is still an existing account afterwards, and
      only the removal of accounts ever moves it. */
  lemma ActiveAccountExists(c: Config, s: AppState)
    ensures var r := Migrated(c, s);
      && (r.activeAccountId != Merged(c, s).activeAccountId ==>
            exists i :: 0 <= i < |AccountsOf(s)| && Discontinued(AccountsOf(s)[i]))
      && (Given(s.activeAccountId) && HasId(AccountsOf(s), s.activeAccountId.v) && Given(r.activeAccountId) ==>
            HasId(AccountsOf(r), r.activeAccountId.v))
  {
    var before := AccountsOf(s);
    var kept := Supported(before);
    var r := Migrated(c, s);
    if forall i :: 0 <= i < |before| ==> !Discontinued(before[i]) {
      SupportedAll(before);
    }
    forall i | 0 <= i < |kept|
      ensures AccountsOf(r)[i].id == kept[i].id
    {
      ProviderStays(c, kept[i]);
    }
    hide MigratedAccount, ConfigMigrated, PreferencesMigrated, SitesMigrated, Supported, MergedApi, MergedPreferences;
    hide Discontinued;
    if Given(r.activeAccountId) && HasId(kept, r.activeAccountId.v) {
      var i :| 0 <= i < |kept| && kept[i].id == r.activeAccountId.v;
      assert AccountsOf(r)[i].id == r.activeAccountId.v;
    }
  }
}
