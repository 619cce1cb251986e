/** What the migration makes of each stored value, said from the stored values alone. */
module MigratedValues {
  import opened Options
  import opened MigratedState

  // ----- Accounts

  /** How a migrated account logs in. */
  lemma AccountLogin(c: Config, a: Account)
    ensures var r := MigratedAccount(c, a);
      && r.kind == (if a.kind.Value? && a.kind.v != "" then a.kind else Value("turnkey"))
      && (a.kind == Value("external") ==> r.authMethod == Value("external"))
      && (a.kind != Value("external") && a.authMethod.Value? && a.authMethod.v != "" ==> r.authMethod == a.authMethod)
      && (a.kind != Value("external") && (!a.authMethod.Value? || a.authMethod.v == "") ==>
            && (r.authMethod == Value("email") <==>
                a.isCustodial == Value(true) && a.recoveryEmail.Value? && a.recoveryEmail.v != "")
            && (r.authMethod != Value("email") ==> r.authMethod == Value("passkey")))
      && r.isCustodial.Missing?
  {
    hide Kept;
  }

  /** Its identity; the rest of it is left alone. */
  lemma AccountIdentity(c: Config, a: Account)
    ensures var r := MigratedAccount(c, a);
      var usable := a.publicKeyHex.Value? && |a.publicKeyHex.v| >= 64;
      var stored := a.archAddress.Value? && a.archAddress.v != "";
      && (!usable ==> r.archAddress == a.archAddress)
      && (usable && stored && a.kind != Value("external") ==> r.archAddress == a.archAddress)
      && (usable && !(stored && a.kind != Value("external")) ==>
            r.archAddress == Value(c.deriveArchAccountAddress(a.publicKeyHex.v)))
      && r.id == a.id && r.externalProvider == a.externalProvider && r.recoveryEmail == a.recoveryEmail
      && r.publicKeyHex == a.publicKeyHex
  {
    hide Kept;
  }

  /** A record that is kept has an address, one of two networks, and purposes among two. */
  lemma RecordIsKept(r: AddressRecord)
    ensures Kept([r]) == if
        && r.address.Value? && r.address.v != ""
        && r.network in {Value("mainnet"), Value("testnet4")}
        && r.purposes.Some? && |r.purposes.value| > 0
        && (forall p :: p in r.purposes.value ==> p in {"payment", "ordinals"})
        && r.addressType.Value? && r.chainVerified.Value?
      then [r] else []
  {
    assert [r][1..] == [];
    if r.purposes.Some? {
      var ps := r.purposes.value;
      assert (forall p :: p in ps ==> p in {"payment", "ordinals"}) <==>
             (forall i :: 0 <= i < |ps| ==> ps[i] == "payment" || ps[i] == "ordinals") by {
        assert forall i :: 0 <= i < |ps| ==> ps[i] in ps;
      }
    }
  }

  /** Records are kept one by one, in their order. */
  lemma {:induction false} RecordsAreKept(a: seq<AddressRecord>, b: seq<AddressRecord>)
    ensures Kept(a + b) == Kept(a) + Kept(b)
  {
    hide IsAccountAddressRecord;
    if a == [] {
      assert a + b == b;
    } else {
      assert (a + b)[1..] == a[1..] + b;
      RecordsAreKept(a[1..], b);
    }
  }

  /** An external account keeps those records; no other account keeps any. */
  lemma AccountAddresses(c: Config, a: Account)
    ensures MigratedAccount(c, a).addresses ==
            if a.kind == Value("external") && a.addresses.Value? && a.addresses.v.Records?
               && Kept(a.addresses.v.records) != []
            then Value(Records(Kept(a.addresses.v.records))) else Missing
  {
    hide Kept;
  }

  lemma {:induction false} AccountsGo(a: seq<Account>, b: seq<Account>)
    ensures Supported(a + b) == Supported(a) + Supported(b)
  {
    hide Discontinued;
    if a == [] {
      assert a + b == b;
    } else {
      assert (a + b)[1..] == a[1..] + b;
      AccountsGo(a[1..], b);
    }
  }

  lemma AccountGoes(a: Account)
    ensures Supported([a]) == if a.externalProvider == Value("magiceden") then [] else [a]
  {
    assert [a][1..] == [];
  }

  /** Each account that is left, in its place, is the migrated one. */
  lemma AccountsMigrated(c: Config, s: AppState)
    ensures var kept := Supported(if s.accounts.Some? then s.accounts.value else []);
      var r := Migrated(c, s).accounts;
      && r.Some? && |r.value| == |kept| && forall i :: 0 <= i < |kept| ==> r.value[i] == MigratedAccount(c, kept[i])
  {
    hide MigratedAccount, MergedApi, MergedPreferences, MergedStatus, ConfigMigrated, PreferencesMigrated;
  }

  /** The active account is moved to the first one left, exactly when accounts went and
      none that is left has its id. */
  lemma ActiveAccountMoves(c: Config, s: AppState)
    ensures var before := if s.accounts.Some? then s.accounts.value else [];
      var r := Migrated(c, s);
      var left := if r.accounts.Some? then r.accounts.value else [];
      var given := s.activeAccountId.Value? && s.activeAccountId.v != "";
      r.activeAccountId ==
        if && (exists i :: 0 <= i < |before| && before[i].externalProvider == Value("magiceden"))
           && given && (forall i :: 0 <= i < |left| ==> left[i].id != s.activeAccountId.v)
        then (if left == [] then Null else Value(left[0].id))
        else if s.activeAccountId.Missing? then Null else s.activeAccountId
  {
    var before := if s.accounts.Some? then s.accounts.value else [];
    var kept := Supported(before);
    SomeGone(before);
    forall i | 0 <= i < |kept|
      ensures MigratedAccounts(c, kept)[i].id == kept[i].id
    {
      ProviderStays(c, kept[i]);
    }
    hide MigratedAccount, MergedApi, MergedPreferences, MergedStatus, ConfigMigrated, PreferencesMigrated, Supported;
  }

  lemma {:induction false} SomeGone(accounts: seq<Account>)
    ensures |Supported(accounts)| != |accounts| <==>
            exists i :: 0 <= i < |accounts| && accounts[i].externalProvider == Value("magiceden")
  {
    if accounts != [] {
      SomeGone(accounts[1..]);
      assert forall i :: 0 <= i < |accounts[1..]| ==> accounts[1..][i] == accounts[i + 1];
      assert forall i :: 0 < i < |accounts| ==> accounts[i] == accounts[1..][i - 1];
    }
  }

  // ----- Settings

  /** The state that a missing property is taken from. */
  lemma DefaultState(c: Config, accounts: seq<Account>)
    ensures Merged(c, Fresh(accounts)) ==
      AppState(Some(accounts), Null, Value([]),
        ApiConfig(Missing, Missing, Value(c.defaultHubBaseUrl), Value(c.defaultHubApiKey), Value(""), Value("")),
        Preferences(Text("popup"), List([]), List([]), Number(60.0), Boolean(false), Boolean(false), Number(5.0)),
        Status(Value(false), Value(true), Value("testnet4")))
  {}

  /** The loose settings: values of the right type stay, all others, missing ones
      included, become the default. */
  lemma SettingsMigrated(c: Config, s: AppState)
    ensures var p, r := s.preferences, Migrated(c, s).preferences;
      && r.openAs == (if p.openAs == Text("sidepanel") then Text("sidepanel") else Text("popup"))
      && r.recentRecipients == (if p.recentRecipients.List? then p.recentRecipients else List([]))
      && r.contacts == (if p.contacts.List? then p.contacts else List([]))
      && r.sentryOptIn == (if p.sentryOptIn == Boolean(true) then Boolean(true) else Boolean(false))
      && r.debugMode == (if p.debugMode == Boolean(true) then Boolean(true) else Boolean(false))
      && r.autoLockMinutes ==
           (if (p.autoLockMinutes.Number? && p.autoLockMinutes.n > 0.0) || p.autoLockMinutes.NotANumber?
            then p.autoLockMinutes else Number(60.0))
      && r.schemaVersion == (if (p.schemaVersion.Number? && p.schemaVersion.n >= 5.0) || p.schemaVersion.NotANumber?
                             then p.schemaVersion else Number(5.0))
  {
    hide MigratedAccounts, MergedApi, MergedStatus, ConfigMigrated, Supported, SitesMigrated;
  }

  /** Settings that only get a default. */
  lemma StatusMigrated(c: Config, s: AppState)
    ensures var r := Migrated(c, s).status;
      && r.initialized == (if s.status.initialized.Missing? then Value(false) else s.status.initialized)
      && r.locked == (if s.status.locked.Missing? then Value(true) else s.status.locked)
      && r.network == (if s.status.network.Missing? then Value("testnet4") else s.status.network)
  {
    hide MigratedAccounts, MergedApi, MergedPreferences, ConfigMigrated, PreferencesMigrated, Supported, SitesMigrated;
  }

  /** Connected sites: those without permissions get the default ones, and nothing else
      of any site changes. */
  lemma SitesGetPermissions(c: Config, s: AppState)
    ensures var r := Migrated(c, s).connectedSites;
      && (s.connectedSites.Missing? ==> r == Value([]))
      && (s.connectedSites.Null? ==> r == Null)
      && (s.connectedSites.Value? ==>
            r.Value? && |r.v| == |s.connectedSites.v| && forall i :: 0 <= i < |r.v| ==>
              var was := s.connectedSites.v[i];
              r.v[i] == Site(was.origin, if was.permissions.Value? && was.permissions.v != "" then was.permissions
                                         else Value(DEFAULT_SITE_PERMISSIONS)))
  {
    hide MigratedAccounts, MergedApi, MergedPreferences, MergedStatus, ConfigMigrated, PreferencesMigrated, Supported;
  }

  /** The Hub and the indexer, where no retired setting is stored: a stored value stays
      when it is given and passes, and the retired settings end missing in any case. */
  lemma ServicesMigrated(c: Config, s: AppState)
    ensures var a, r := s.api, Migrated(c, s).api;
      && r.apiBaseUrl.Missing? && r.apiKey.Missing?
      && (a.apiBaseUrl.Missing? && a.apiKey.Missing? ==>
            && r.hubBaseUrl == (if a.hubBaseUrl.Value? && a.hubBaseUrl.v != ""
                                   && a.hubBaseUrl.v != c.legacyEc2HubBaseUrl && c.isAllowedHubBaseUrl(a.hubBaseUrl.v)
                                then a.hubBaseUrl else Value(c.defaultHubBaseUrl))
            && r.hubApiKey == (if a.hubApiKey.Value? && a.hubApiKey.v != "" && a.hubApiKey.v != c.legacyHubApiKey
                                  && a.hubApiKey.v != c.rotatedLeakedHubApiKey
                               then a.hubApiKey else Value(c.defaultHubApiKey)))
      && r.indexerBaseUrl == (if a.indexerBaseUrl.Value? && a.indexerBaseUrl.v != "" then a.indexerBaseUrl
                              else Value(c.indexerBaseUrl))
      && r.indexerApiKey == (if a.indexerApiKey.Value? && a.indexerApiKey.v != ""
                                && a.indexerApiKey.v != c.leakedIndexerApiKey
                             then a.indexerApiKey else Value(c.defaultIndexerApiKey))
  {
    hide MigratedAccounts, MergedPreferences, MergedStatus, PreferencesMigrated, Supported, SitesMigrated;
  }
}
