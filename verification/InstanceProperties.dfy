/** Credentials, config Secret and Deployment stay consistent over runs that may stop at any step. */
module InstanceProperties {
  import opened Prelude
  import opened ServerConfig
  import opened InstanceModel
  import opened StatusPatch
  import MergePatch
  import Remote

  /** The config file embeds the public key and key id of the stored credentials. */
  predicate Embeds(config: Config, pair: KeyPair) {
    config.publicKey == pair.publicKey && config.keyId == pair.keyId
  }

  predicate Consistent(c: Cluster) {
    c.config.Some? ==> c.credentials.Some? && Embeds(c.config.value, c.credentials.value)
  }

  /** The pass goes on only with the stored pair: a generated pair that lost the race to be stored, or whose
      creation was not confirmed, is dropped. */
  lemma CredentialsAreStored(current: Option<KeyPair>, generated: KeyPair, wire: Wire)
    ensures var (stored, pair) := Credentials(current, generated, wire);
            && (stored.ok ==> stored.current == Some(pair))
            && (stored.current == current || (current.None? && stored.current == Some(generated)))
  {
  }

  lemma RollOutcome(c: Cluster, wanted: Deployment, s: Surroundings, wire: Wire)
    ensures var p := Roll(c, wanted, s, wire);
            && p.cluster == c.(service := p.cluster.service, deployment := p.cluster.deployment)
            && (p.cluster.deployment == c.deployment || p.cluster.deployment == Some(wanted))
            && (p.deployed ==> p.cluster.deployment == Some(wanted) && p.cluster.service)
  {
  }

  lemma DeployOutcome(c: Cluster, spec: InstanceSpec, s: Surroundings, config: Config, wire: Wire)
    ensures var p := Deploy(c, spec, s, config, wire);
            && p.cluster.credentials == c.credentials
            && (p.cluster.config == c.config || p.cluster.config == Some(config))
            && (c.claim.Some? ==> p.cluster.claim == c.claim)
            && (p.cluster.claim != c.claim ==> spec.keyStoreMode == DIRECTORY_MODE && p.cluster.claim == Some(WantedClaim(spec)))
            && (p.cluster.deployment == c.deployment
                || p.cluster.deployment == Some(WantedDeployment(spec, s.name, s.hash(config))))
            && (p.deployed ==>
                  && p.cluster.config == Some(config)
                  && p.cluster.deployment == Some(WantedDeployment(spec, s.name, s.hash(config)))
                  && p.cluster.service
                  && (spec.keyStoreMode == DIRECTORY_MODE ==> p.cluster.claim.Some?))
  {
    var written := CreateOrUpdate(c.config, config, false, ConfigWrite, wire);
    var c1 := c.(config := written.current);
    var claimed := if spec.keyStoreMode == DIRECTORY_MODE then EnsureExists(c1.claim, WantedClaim(spec), ClaimWrite, written.wire)
                   else Stored(c1.claim, true, written.wire);
    RollOutcome(c1.(claim := claimed.current), WantedDeployment(spec, s.name, s.hash(config)), s, claimed.wire);
  }

  /** One pass, from any cluster whatever others made of it, with any failures and stale reads: stored
      credentials never change; a config it writes embeds the stored key pair; and a pass that completes the
      Deployment step leaves such a config, with the database user, password and token of the named Secrets,
      and the Deployment annotated with its hash, the key directory mounted from the claim exactly in
      directory mode. */
  lemma PassKeepsConsistent(c: Cluster, spec: InstanceSpec, s: Surroundings, wire: Wire)
    ensures var p := InstancePass(c, spec, s, wire);
            && (p.cluster.config != c.config || p.deployed ==> p.cluster.config.Some? && Consistent(p.cluster))
            && (Consistent(c) ==> Consistent(p.cluster))
            && (c.credentials.Some? ==> p.cluster.credentials == c.credentials)
            && (c.claim.Some? ==> p.cluster.claim == c.claim)
            && (p.cluster.credentials != c.credentials ==> p.cluster.credentials == Some(s.generated))
            && (p.cluster.claim != c.claim ==> spec.keyStoreMode == DIRECTORY_MODE && p.cluster.claim == Some(WantedClaim(spec)))
            && (p.cluster.claim != c.claim ==> ClaimServes(p.cluster.claim.value, spec))
            && (p.deployed ==>
                  && p.cluster.config.Some? && p.cluster.deployment.Some? && p.cluster.service
                  && TakesSecrets(p.cluster.config.value, spec, s)
                  && ServesSpec(p.cluster.config.value, spec)
                  && var d := p.cluster.deployment.value;
                     && d.configHash == s.hash(p.cluster.config.value)
                     && d.image == spec.image && d.resources == spec.resources
                     && (spec.keyStoreMode == DIRECTORY_MODE ==>
                           && p.cluster.claim.Some?
                           && d.keysClaim == Some(s.name + "-keys")
                           && p.cluster.config.value.keyStore.InDirectory?
                           && d.keysMount == Some(p.cluster.config.value.keyStore.path))
                     && (spec.keyStoreMode != DIRECTORY_MODE ==>
                           d.keysClaim.None? && d.keysMount.None? && !p.cluster.config.value.keyStore.InDirectory?))
  {
    var (stored, pair) := Credentials(c.credentials, s.generated, wire);
    CredentialsAreStored(c.credentials, s.generated, wire);
    var c1 := c.(credentials := stored.current);
    var plan := Planned(c1, pair, spec, s, stored.wire);
    if stored.ok && plan.Some? {
      var (config, rest) := plan.value;
      DeployOutcome(c1, spec, s, config, rest);
      PlannedIsBuilt(c, spec, s, wire);
    } else {
      NotPlanned(c, spec, s, wire);
    }
  }

  /** The file logs in with the user name and password of the database Secret, and with the token of the Vault
      Secret. */
  predicate TakesSecrets(config: Config, spec: InstanceSpec, s: Surroundings) {
    && (spec.databaseMode == POSTGRES_MODE ==>
          && config.database.PostgresAt? && spec.postgres.Some?
          && var secret := spec.postgres.value.secret;
             && secret in s.secrets && "username" in s.secrets[secret] && "password" in s.secrets[secret]
             && config.database.username == s.secrets[secret]["username"]
             && config.database.password == s.secrets[secret]["password"])
    && (spec.keyStoreMode == VAULT_MODE ==>
          && config.keyStore.InVault? && spec.vault.Some?
          && var secret := spec.vault.value.secret;
             && secret in s.secrets && "token" in s.secrets[secret]
             && config.keyStore.token == s.secrets[secret]["token"])
  }

  /** The file in terms of the spec alone, its defaults written out. */
  predicate ServesSpec(config: Config, spec: InstanceSpec) {
    && config.port == 8080 && config.serviceUser == "keyline-operator"
    && config.externalUrl == spec.externalUrl && config.frontendUrl == spec.frontendUrl
    && config.allowedOrigins == [spec.externalUrl, spec.frontendUrl]
    && config.virtualServer == (if spec.virtualServer == "" then "keyline" else spec.virtualServer)
    && (config.database.Memory? <==> spec.databaseMode == "memory")
    && (config.database.PostgresAt? ==>
          && spec.postgres.Some?
          && var pg, db := spec.postgres.value, config.database;
             && db.host == pg.host && db.port == (if pg.port == 0 then 5432 else pg.port)
             && db.database == (if pg.database == "" then "keyline" else pg.database)
             && db.sslMode == (if pg.sslMode == "" then "enable" else pg.sslMode))
    && (config.keyStore.InDirectory? <==> spec.keyStoreMode == "directory")
    && (config.keyStore.InDirectory? ==> config.keyStore.path == "/keys")
    && (config.keyStore.InVault? <==> spec.keyStoreMode == "vault")
    && (config.keyStore.InVault? ==>
          && spec.vault.Some?
          && config.keyStore.address == spec.vault.value.address && config.keyStore.mount == spec.vault.value.mount
          && config.keyStore.prefix == spec.vault.value.prefix)
  }

  /** A claim asks for the storage of the spec, or for one gibibyte of the default class. */
  predicate ClaimServes(claim: Claim, spec: InstanceSpec) {
    && (spec.directory.Some? && spec.directory.value.storageSize.Some? ==> Some(claim.size) == spec.directory.value.storageSize)
    && (spec.directory.None? || spec.directory.value.storageSize.None? ==> claim.size == "1Gi")
    && claim.class_ == (if spec.directory.Some? then spec.directory.value.storageClass else None)
  }

  lemma ValuesNext(data: map<string, string>, keys: seq<string>, key: string)
    ensures var init := Values(data, keys);
            Values(data, keys + [key]) == if init.Some? && key in data then Some(init.value + [data[key]]) else None
  {
    assert (keys + [key])[..|keys|] == keys;
  }

  lemma ValuesInOrder(data: map<string, string>)
    ensures Values(data, ["username", "password"]) ==
            if "username" in data && "password" in data then Some([data["username"], data["password"]]) else None
    ensures Values(data, ["token"]) == if "token" in data then Some([data["token"]]) else None
  {
    ValuesNext(data, [], "username");
    ValuesNext(data, ["username"], "password");
    ValuesNext(data, [], "token");
    assert [] + ["username"] == ["username"] && [] + ["token"] == ["token"];
    assert ["username"] + ["password"] == ["username", "password"];
    var none: seq<string> := [];
    assert Values(data, none) == Some(none);
    assert forall v: string :: none + [v] == [v];
    assert forall v: string, u: string :: [v] + [u] == [v, u];
  }

  /** The config a pass sets out to deploy, and the calls still ahead of it. */
  function Planned(c: Cluster, pair: KeyPair, spec: InstanceSpec, s: Surroundings, wire: Wire): Option<(Config, Wire)> {
    if spec.databaseMode == POSTGRES_MODE && spec.postgres.None? then None
    else
      var db := if spec.databaseMode == POSTGRES_MODE
                then Resolve(s.secrets, spec.postgres.value.secret, ["username", "password"], Next(wire)) else Some(["", ""]);
      var afterDb := if spec.databaseMode == POSTGRES_MODE then Rest(wire) else wire;
      if db.None? || (spec.keyStoreMode == VAULT_MODE && spec.vault.None?) then None
      else
        var vault := if spec.keyStoreMode == VAULT_MODE
                     then Resolve(s.secrets, spec.vault.value.secret, ["token"], Next(afterDb)) else Some([""]);
        var afterVault := if spec.keyStoreMode == VAULT_MODE then Rest(afterDb) else afterDb;
        if vault.None? then None
        else
          ValuesLength(s.secrets, spec);
          var config := Build(spec, pair.publicKey, pair.keyId, db.value[0], db.value[1], vault.value[0]);
          if config.None? then None else Some((config.value, afterVault))
  }

  lemma PlannedIsBuilt(c: Cluster, spec: InstanceSpec, s: Surroundings, wire: Wire)
    requires var (stored, pair) := Credentials(c.credentials, s.generated, wire);
             stored.ok && Planned(c.(credentials := stored.current), pair, spec, s, stored.wire).Some?
    ensures var (stored, pair) := Credentials(c.credentials, s.generated, wire);
            var c1 := c.(credentials := stored.current);
            var (config, rest) := Planned(c1, pair, spec, s, stored.wire).value;
            && InstancePass(c, spec, s, wire) == Deploy(c1, spec, s, config, rest)
            && Embeds(config, pair)
            && (spec.keyStoreMode == DIRECTORY_MODE <==> config.keyStore.InDirectory?)
            && (config.keyStore.InDirectory? ==> config.keyStore.path == KEY_DIR_PATH)
            && TakesSecrets(config, spec, s) && ServesSpec(config, spec)
  {
    ValuesLength(s.secrets, spec);
    forall name | name in s.secrets { ValuesInOrder(s.secrets[name]); }
  }

  lemma NotPlanned(c: Cluster, spec: InstanceSpec, s: Surroundings, wire: Wire)
    requires var (stored, pair) := Credentials(c.credentials, s.generated, wire);
             !stored.ok || Planned(c.(credentials := stored.current), pair, spec, s, stored.wire).None?
    ensures var (stored, pair) := Credentials(c.credentials, s.generated, wire);
            var p := InstancePass(c, spec, s, wire);
            p.cluster == c.(credentials := stored.current) && !p.deployed && p.outcome != Done
  {
    ValuesLength(s.secrets, spec);
  }

  // ---------------------------------------------------------------- what the verdict says

  /** Between two points of a pass no call was refused, except possibly the last if the pass failed there. */
  ghost predicate Led(wire: Wire, after: Wire, failed: bool) {
    var n := |wire.script| - |after.script|;
    && n >= 0 && after.script == wire.script[n..]
    && wire.sent <= after.sent
    && forall i | 0 <= i < (if failed then n - 1 else n) :: !Refused(wire.script[i])
  }

  lemma LedTwo(wire: Wire, middle: Wire, after: Wire, failed: bool)
    requires Led(wire, middle, false) && Led(middle, after, failed)
    ensures Led(wire, after, failed)
  {
    var n, n1 := |wire.script| - |after.script|, |wire.script| - |middle.script|;
    forall i | 0 <= i < (if failed then n - 1 else n) ensures !Refused(wire.script[i]) {
      if i >= n1 {
        assert middle.script[i - n1] == wire.script[i];
      }
    }
  }

  lemma LedRead(wire: Wire, failed: bool)
    requires Refused(Next(wire)) ==> failed
    ensures Led(wire, Rest(wire), failed)
  {
  }

  lemma LedNone(wire: Wire)
    ensures Led(wire, wire, false) && Led(wire, wire, true)
  {
  }

  lemma CreateLed<T>(current: Option<T>, desired: T, what: Write, wire: Wire)
    ensures var r := Create(current, desired, what, wire); Led(wire, r.wire, !r.ok)
  {
  }

  lemma UpdateStores<T>(current: Option<T>, desired: T, defaulted: bool, what: Write, wire: Wire)
    ensures var r := CreateOrUpdate(current, desired, defaulted, what, wire); r.ok ==> r.current == Some(desired)
  {
  }

  lemma UpdateLed<T>(current: Option<T>, desired: T, defaulted: bool, what: Write, wire: Wire)
    ensures var r := CreateOrUpdate(current, desired, defaulted, what, wire);
            Led(wire, r.wire, !r.ok) && (r.ok ==> r.current == Some(desired))
  {
    hide Led;
    UpdateStores(current, desired, defaulted, what, wire);
    var seen := Seen(current, Next(wire));
    LedRead(wire, seen.None?);
    if seen.Some? {
      var r := CreateOrUpdate(current, desired, defaulted, what, wire);
      if seen.value != Some(desired) || defaulted {
        WriteLed(Rest(wire), what, !r.ok);
        LedTwo(wire, Rest(wire), r.wire, !r.ok);
      }
    }
  }

  lemma WriteLed(wire: Wire, what: Write, failed: bool)
    requires Refused(Next(wire)) ==> failed
    ensures Led(wire, Sent(wire, what), failed)
  {
  }

  lemma EnsureLed<T>(current: Option<T>, desired: T, what: Write, wire: Wire)
    ensures var r := EnsureExists(current, desired, what, wire); Led(wire, r.wire, !r.ok) && (r.ok ==> r.current.Some?)
  {
    var seen := Seen(current, Next(wire));
    LedRead(wire, seen.None?);
    if seen.Some? && seen.value.None? {
      CreateLed(current, desired, what, Rest(wire));
      var r := EnsureExists(current, desired, what, wire);
      LedTwo(wire, Rest(wire), r.wire, !r.ok);
    }
  }

  /** The last two steps: with the Deployment step complete, the pass ends Ready exactly if the Deployment can be
      read, is available, and the token exchange succeeds; and else it says which of these it was. */
  ghost predicate Concludes(before: Wire, available: bool, after: Wire, outcome: Outcome) {
    var read, token := Next(before), Next(Rest(before));
    && (outcome == Done <==> read == Clean && available && token == Clean)
    && (read != Clean ==> outcome == Failing("DeploymentError") && after == Rest(before))
    && (read == Clean && !available ==> outcome == Failing("DeploymentNotAvailable") && after == Rest(before))
    && (read == Clean && available ==> after == Rest(Rest(before)))
    && (read == Clean && available && token != Clean ==> outcome == Failing("TokenExchangeFailed"))
  }

  const BEFORE_THE_FILE := {"CredentialsError", "InvalidSpec", "DBCredentialsError", "VaultTokenError"}
  const FROM_THE_FILE_ON := {"ConfigSecretError", "PVCError", "ServiceError", "DeploymentError", "DeploymentNotAvailable",
                             "TokenExchangeFailed"}

  /** The reason tells how far the pass got. */
  ghost predicate GotAsFarAs(c: Cluster, spec: InstanceSpec, p: Pass) {
    && (p.outcome == Failing("ConfigSecretError") ==>
          p.cluster == c.(credentials := p.cluster.credentials, config := p.cluster.config))
    && (p.outcome == Failing("PVCError") ==>
          && spec.keyStoreMode == "directory" && p.cluster.config.Some? && ServesSpec(p.cluster.config.value, spec)
          && p.cluster.service == c.service && p.cluster.deployment == c.deployment)
    && (p.outcome == Failing("ServiceError") ==>
          && p.cluster.config.Some? && ServesSpec(p.cluster.config.value, spec)
          && (spec.keyStoreMode == "directory" ==> p.cluster.claim.Some?)
          && p.cluster.deployment == c.deployment)
    && (p.outcome == Failing("DeploymentError") || p.deployed ==>
          && p.cluster.config.Some? && ServesSpec(p.cluster.config.value, spec)
          && (spec.keyStoreMode == "directory" ==> p.cluster.claim.Some?)
          && p.cluster.service)
    && (p.outcome.Failing? && p.outcome.reason in BEFORE_THE_FILE ==> p.cluster == c.(credentials := p.cluster.credentials))
    && (p.outcome.Failing? ==> p.outcome.reason in BEFORE_THE_FILE + FROM_THE_FILE_ON)
  }

  lemma RollLed(c: Cluster, wanted: Deployment, s: Surroundings, wire: Wire) returns (before: Wire)
    ensures var p := Roll(c, wanted, s, wire);
            && Led(wire, p.wire, p.outcome != Done)
            && (p.deployed ==> Led(wire, before, false) && Concludes(before, s.available, p.wire, p.outcome))
            && (p.outcome == Done ==> p.deployed)
  {
    hide Led, Concludes, CreateOrUpdate, Availability;
    var service := if c.service then Some(()) else None;
    var served := CreateOrUpdate(service, (), s.defaulting, ServiceWrite, wire);
    UpdateLed(service, (), s.defaulting, ServiceWrite, wire);
    before := served.wire;
    if served.ok {
      var rolled := CreateOrUpdate(c.deployment, wanted, s.defaulting, DeploymentWrite, served.wire);
      UpdateLed(c.deployment, wanted, s.defaulting, DeploymentWrite, served.wire);
      LedTwo(wire, served.wire, rolled.wire, !rolled.ok);
      before := rolled.wire;
      if rolled.ok { EndLed(wire, before, s.available); }
    }
  }

  lemma RollReason(c: Cluster, wanted: Deployment, s: Surroundings, wire: Wire)
    ensures var p := Roll(c, wanted, s, wire);
            && !p.outcome.Panicking?
            && (!p.deployed ==> p.outcome == Failing("ServiceError") || p.outcome == Failing("DeploymentError"))
            && (p.outcome == Failing("ServiceError") ==> p.cluster.deployment == c.deployment)
            && (p.outcome != Failing("ServiceError") ==> p.cluster.service)
            && (p.outcome.Failing? ==>
                  p.outcome.reason in {"ServiceError", "DeploymentError", "DeploymentNotAvailable", "TokenExchangeFailed"})
  {
    hide CreateOrUpdate;
    var service := if c.service then Some(()) else None;
    UpdateLed(service, (), s.defaulting, ServiceWrite, wire);
  }

  lemma EndLed(wire: Wire, before: Wire, available: bool)
    requires Led(wire, before, false)
    ensures var (after, outcome) := Availability(available, before);
            Led(wire, after, outcome != Done) && Concludes(before, available, after, outcome)
  {
    var (after, outcome) := Availability(available, before);
    if Next(before) != Clean || !available {
      LedRead(before, true);
      LedTwo(wire, before, after, true);
    } else {
      LedRead(before, false);
      LedRead(Rest(before), outcome != Done);
      LedTwo(before, Rest(before), after, outcome != Done);
      LedTwo(wire, before, after, outcome != Done);
    }
  }

  lemma DeployLed(c: Cluster, spec: InstanceSpec, s: Surroundings, config: Config, wire: Wire) returns (before: Wire)
    ensures var p := Deploy(c, spec, s, config, wire);
            && Led(wire, p.wire, p.outcome != Done)
            && (p.deployed ==> Led(wire, before, false) && Concludes(before, s.available, p.wire, p.outcome))
            && (p.outcome == Done ==> p.deployed)
  {
    hide Led, Concludes, CreateOrUpdate, EnsureExists, Roll;
    var written := CreateOrUpdate(c.config, config, false, ConfigWrite, wire);
    UpdateLed(c.config, config, false, ConfigWrite, wire);
    before := written.wire;
    if written.ok {
      var c1 := c.(config := written.current);
      var claimed := if spec.keyStoreMode == DIRECTORY_MODE then EnsureExists(c1.claim, WantedClaim(spec), ClaimWrite, written.wire)
                     else Stored(c1.claim, true, written.wire);
      EnsureLed(c1.claim, WantedClaim(spec), ClaimWrite, written.wire);
      LedNone(written.wire);
      LedTwo(wire, written.wire, claimed.wire, !claimed.ok);
      if claimed.ok {
        var c2, wanted := c1.(claim := claimed.current), WantedDeployment(spec, s.name, s.hash(config));
        before := RollLed(c2, wanted, s, claimed.wire);
        var p := Roll(c2, wanted, s, claimed.wire);
        LedTwo(wire, claimed.wire, p.wire, p.outcome != Done);
        if p.deployed { LedTwo(wire, claimed.wire, before, false); }
      }
    }
  }

  lemma DeployReason(c: Cluster, spec: InstanceSpec, s: Surroundings, config: Config, wire: Wire)
    requires ServesSpec(config, spec)
    ensures GotAsFarAs(c, spec, Deploy(c, spec, s, config, wire))
    ensures !Deploy(c, spec, s, config, wire).outcome.Panicking?
  {
    hide CreateOrUpdate, EnsureExists, Roll, ServesSpec;
    var written := CreateOrUpdate(c.config, config, false, ConfigWrite, wire);
    UpdateLed(c.config, config, false, ConfigWrite, wire);
    if written.ok {
      var c1 := c.(config := written.current);
      var claimed := if spec.keyStoreMode == DIRECTORY_MODE then EnsureExists(c1.claim, WantedClaim(spec), ClaimWrite, written.wire)
                     else Stored(c1.claim, true, written.wire);
      EnsureLed(c1.claim, WantedClaim(spec), ClaimWrite, written.wire);
      if claimed.ok {
        var c2, wanted := c1.(claim := claimed.current), WantedDeployment(spec, s.name, s.hash(config));
        RollOutcome(c2, wanted, s, claimed.wire);
        RollReason(c2, wanted, s, claimed.wire);
      }
    }
  }

  lemma DecodeLed(secrets: Secrets, name: string, keys: seq<string>, wire: Wire)
    ensures Led(wire, Rest(wire), Resolve(secrets, name, keys, Next(wire)).None?)
  {
    LedRead(wire, Resolve(secrets, name, keys, Next(wire)).None?);
  }

  /** The calls a pass makes between the credentials and the plan. */
  lemma PlanLed(c: Cluster, pair: KeyPair, spec: InstanceSpec, s: Surroundings, wire: Wire)
    ensures var plan := Planned(c, pair, spec, s, wire); plan.Some? ==> Led(wire, plan.value.1, false)
  {
    hide Led;
    LedNone(wire);
    if spec.databaseMode == POSTGRES_MODE && spec.postgres.Some? {
      DecodeLed(s.secrets, spec.postgres.value.secret, ["username", "password"], wire);
    }
    var afterDb := if spec.databaseMode == POSTGRES_MODE then Rest(wire) else wire;
    LedNone(afterDb);
    if spec.keyStoreMode == VAULT_MODE && spec.vault.Some? {
      DecodeLed(s.secrets, spec.vault.value.secret, ["token"], afterDb);
    }
    var plan := Planned(c, pair, spec, s, wire);
    if plan.Some? {
      LedTwo(wire, afterDb, plan.value.1, false);
    }
  }

  /** When an instance is Ready, in any world: the Deployment step was completed after calls none of which was
      refused, and then the Deployment was read, is available, and the token exchange succeeded; otherwise the
      reason tells what it was or how far the pass got. A pass that ends Ready met no refused call at all. */
  lemma DoneIff(c: Cluster, spec: InstanceSpec, s: Surroundings, wire: Wire) returns (before: Wire)
    ensures var p := InstancePass(c, spec, s, wire);
            && (p.deployed ==> Led(wire, before, false) && Concludes(before, s.available, p.wire, p.outcome))
            && (p.outcome == Done ==> p.deployed && Led(wire, p.wire, false))
            && GotAsFarAs(c, spec, p)
  {
    hide Led, ServesSpec, Concludes;
    var (stored, pair) := Credentials(c.credentials, s.generated, wire);
    EnsureLed(c.credentials, s.generated, CredentialsWrite, wire);
    var c1 := c.(credentials := stored.current);
    var plan := Planned(c1, pair, spec, s, stored.wire);
    before := stored.wire;
    if stored.ok && plan.Some? {
      var (config, rest) := plan.value;
      PlannedIsBuilt(c, spec, s, wire);
      PlanLed(c1, pair, spec, s, stored.wire);
      LedTwo(wire, stored.wire, rest, false);
      before := DeployLed(c1, spec, s, config, rest);
      DeployReason(c1, spec, s, config, rest);
      var p := Deploy(c1, spec, s, config, rest);
      LedTwo(wire, rest, p.wire, p.outcome != Done);
      if p.deployed { LedTwo(wire, rest, before, false); }
    } else {
      NotPlanned(c, spec, s, wire);
      EarlyReason(c, spec, s, wire);
    }
  }

  lemma EarlyReason(c: Cluster, spec: InstanceSpec, s: Surroundings, wire: Wire)
    requires var (stored, pair) := Credentials(c.credentials, s.generated, wire);
             !stored.ok || Planned(c.(credentials := stored.current), pair, spec, s, stored.wire).None?
    ensures var p := InstancePass(c, spec, s, wire);
            p.outcome.Panicking? ||
            (p.outcome.Failing? && p.outcome.reason in BEFORE_THE_FILE)
  {
    ValuesLength(s.secrets, spec);
  }

  /** A Secret of that name with all these keys. */
  predicate Offers(secrets: Secrets, name: string, keys: set<string>) {
    name in secrets && keys <= secrets[name].Keys
  }

  /** With every call clean, the outcome in terms of the inputs alone. */
  lemma CleanOutcome(c: Cluster, spec: InstanceSpec, s: Surroundings)
    ensures InstancePass(c, spec, s, CLEAR).outcome ==
            if spec.databaseMode == "postgres" && spec.postgres.None? then Failing("InvalidSpec")
            else if spec.databaseMode == "postgres" && !Offers(s.secrets, spec.postgres.value.secret, {"username", "password"})
              then Failing("DBCredentialsError")
            else if spec.keyStoreMode == "vault" && spec.vault.None? then Failing("InvalidSpec")
            else if spec.keyStoreMode == "vault" && !Offers(s.secrets, spec.vault.value.secret, {"token"}) then Failing("VaultTokenError")
            else if spec.databaseMode != "memory" && spec.postgres.None? then Panicking
            else if s.available then Done
            else Failing("DeploymentNotAvailable")
  {
    ValuesLength(s.secrets, spec);
    forall name | name in s.secrets { ValuesInOrder(s.secrets[name]); }
    var (stored, pair) := Credentials(c.credentials, s.generated, CLEAR);
    assert stored.ok && stored.wire.script == [];
    var c1 := c.(credentials := stored.current);
    var plan := Planned(c1, pair, spec, s, stored.wire);
    if plan.Some? {
      PlannedIsBuilt(c, spec, s, CLEAR);
      assert plan.value.1 == stored.wire;
      CleanDeploy(c1, spec, s, plan.value.0, stored.wire.sent);
    } else {
      CleanEarly(c, spec, s);
    }
  }

  lemma CleanEarly(c: Cluster, spec: InstanceSpec, s: Surroundings)
    requires var (stored, pair) := Credentials(c.credentials, s.generated, CLEAR);
             Planned(c.(credentials := stored.current), pair, spec, s, stored.wire).None?
    ensures InstancePass(c, spec, s, CLEAR).outcome ==
            if spec.databaseMode == "postgres" && spec.postgres.None? then Failing("InvalidSpec")
            else if spec.databaseMode == "postgres" && !Offers(s.secrets, spec.postgres.value.secret, {"username", "password"})
              then Failing("DBCredentialsError")
            else if spec.keyStoreMode == "vault" && spec.vault.None? then Failing("InvalidSpec")
            else if spec.keyStoreMode == "vault" && !Offers(s.secrets, spec.vault.value.secret, {"token"}) then Failing("VaultTokenError")
            else Panicking
  {
    ValuesLength(s.secrets, spec);
    forall name | name in s.secrets { ValuesInOrder(s.secrets[name]); }
  }

  /** The status of an instance after a pass: its URL is set once the Deployment step is done, the condition says
      how the pass ended, and a nil dereference leaves everything as it was. */
  lemma StatusFollows(c: Cluster, spec: InstanceSpec, s: Surroundings, wire: Wire, was: Status, url: string, detail: string, now: int)
    ensures var p := InstancePass(c, spec, s, wire);
            var next := NextStatus(p, was, url, detail, now);
            && next.id == (if p.deployed then Remote.Plain(url) else was.id)
            && (p.outcome.Panicking? ==> next == was)
            && (!p.outcome.Panicking? ==> ReadyAt(next).Some?)
            && (p.outcome == Done ==>
                  ReadyAt(next).value.status == Yes && ReadyAt(next).value.reason == "Ready"
                  && ReadyAt(next).value.message == "Keyline is deployed and token exchange succeeded")
            && (p.outcome.Failing? ==>
                  ReadyAt(next).value.status == No && ReadyAt(next).value.reason == p.outcome.reason
                  && ReadyAt(next).value.message == detail)
  {
    hide InstancePass, Conclude, ReadyAt;
    var p := InstancePass(c, spec, s, wire);
    var t := if p.deployed then was.(id := Remote.Plain(url)) else was;
    ConcludeSets(t, true, "Ready", "Keyline is deployed and token exchange succeeded", now);
    if p.outcome.Failing? { ConcludeSets(t, false, p.outcome.reason, detail, now); }
    if p.outcome.Panicking? { PanicIsEarly(c, spec, s, wire); }
  }

  lemma PanicIsEarly(c: Cluster, spec: InstanceSpec, s: Surroundings, wire: Wire)
    requires InstancePass(c, spec, s, wire).outcome.Panicking?
    ensures !InstancePass(c, spec, s, wire).deployed
  {
    var (stored, pair) := Credentials(c.credentials, s.generated, wire);
    var c1 := c.(credentials := stored.current);
    var plan := Planned(c1, pair, spec, s, stored.wire);
    if stored.ok && plan.Some? {
      PlannedIsBuilt(c, spec, s, wire);
      DeployReason(c1, spec, s, plan.value.0, plan.value.1);
    } else {
      NotPlanned(c, spec, s, wire);
    }
  }

  // ---------------------------------------------------------------- runs

  /** Passes, and whatever third parties make of the objects between them. */
  datatype Attempt =
    | For(spec: InstanceSpec, surroundings: Surroundings, script: seq<Fault>)
    | ThirdParty(cluster: Cluster)

  function Tried(c: Cluster, a: Attempt): Cluster {
    match a
    case For(spec, near, script) => InstancePass(c, spec, near, Wire(script, [])).cluster
    case ThirdParty(edited) => edited
  }

  function TriedAll(c: Cluster, many: seq<Attempt>): Cluster
    decreases |many|
  {
    if many == [] then c else TriedAll(Tried(c, many[0]), many[1..])
  }

  /** Third parties edit what they like, but neither delete nor edit stored credentials and claims. */
  ghost predicate Spared(c: Cluster, many: seq<Attempt>)
    decreases |many|
  {
    many == [] ||
    var d := Tried(c, many[0]);
    && (many[0].ThirdParty? ==>
          (c.credentials.Some? ==> d.credentials == c.credentials) && (c.claim.Some? ==> d.claim == c.claim))
    && Spared(d, many[1..])
  }

  /** Somewhere in the run a third party put this config in the place of another or of none. */
  ghost predicate Planted(c: Cluster, many: seq<Attempt>, config: Config)
    decreases |many|
  {
    many != [] &&
    var d := Tried(c, many[0]);
    || (many[0].ThirdParty? && d.config == Some(config) != c.config)
    || Planted(d, many[1..], config)
  }

  /** Some pass of the run generated this key pair, or a third party brought it. */
  ghost predicate Brought(many: seq<Attempt>, pair: KeyPair) {
    exists i :: 0 <= i < |many| &&
      match many[i] case For(_, near, _) => near.generated == pair case ThirdParty(c) => c.credentials == Some(pair)
  }

  /** Some pass of the run in directory mode wanted this claim, or a third party brought it. */
  ghost predicate Claimed(many: seq<Attempt>, claim: Claim) {
    exists i :: 0 <= i < |many| &&
      match many[i]
      case For(spec, _, _) => spec.keyStoreMode == DIRECTORY_MODE && WantedClaim(spec) == claim
      case ThirdParty(c) => c.claim == Some(claim)
  }

  const NOTHING_YET := Cluster(None, None, None, false, None)

  lemma {:induction false} RunsKeepConsistent(c: Cluster, many: seq<Attempt>)
    requires Spared(c, many)
    ensures var after := TriedAll(c, many);
            && (c.credentials.Some? ==> after.credentials == c.credentials)
            && (c.claim.Some? ==> after.claim == c.claim)
            && (after.config.Some? && !Planted(c, many, after.config.value) ==>
                  Consistent(after) || (after.config == c.config && !Consistent(c)))
    decreases |many|
  {
    if many != [] {
      RunsKeepConsistent(Tried(c, many[0]), many[1..]);
      if many[0].For? {
        PassKeepsConsistent(c, many[0].spec, many[0].surroundings, Wire(many[0].script, []));
      }
    }
  }

  /** Where the credentials and the claim at the end of a run come from. */
  lemma {:induction false} WhatSurvives(c: Cluster, many: seq<Attempt>)
    requires Spared(c, many)
    ensures var after := TriedAll(c, many);
            && (after.credentials == c.credentials || (after.credentials.Some? && Brought(many, after.credentials.value)))
            && (after.claim == c.claim || (after.claim.Some? && Claimed(many, after.claim.value)))
    decreases |many|
  {
    if many != [] {
      var d, after := Tried(c, many[0]), TriedAll(c, many);
      WhatSurvives(d, many[1..]);
      RunsKeepConsistent(d, many[1..]);
      if many[0].For? {
        PassKeepsConsistent(c, many[0].spec, many[0].surroundings, Wire(many[0].script, []));
      }
      if after.credentials.Some? { BroughtIn(many, after.credentials.value); }
      if after.claim.Some? { ClaimedIn(many, after.claim.value); }
    }
  }

  lemma BroughtIn(many: seq<Attempt>, pair: KeyPair)
    requires many != []
    ensures Brought(many[1..], pair) ==> Brought(many, pair)
    ensures many[0].For? && many[0].surroundings.generated == pair ==> Brought(many, pair)
    ensures many[0].ThirdParty? && many[0].cluster.credentials == Some(pair) ==> Brought(many, pair)
  {
    assert forall i | 0 <= i < |many[1..]| :: many[1..][i] == many[i + 1];
  }

  lemma ClaimedIn(many: seq<Attempt>, claim: Claim)
    requires many != []
    ensures Claimed(many[1..], claim) ==> Claimed(many, claim)
    ensures many[0].For? && many[0].spec.keyStoreMode == DIRECTORY_MODE && WantedClaim(many[0].spec) == claim ==> Claimed(many, claim)
    ensures many[0].ThirdParty? && many[0].cluster.claim == Some(claim) ==> Claimed(many, claim)
  {
    assert forall i | 0 <= i < |many[1..]| :: many[1..][i] == many[i + 1];
  }

  lemma {:induction false} SparedInTwo(c: Cluster, many: seq<Attempt>, k: nat)
    requires k <= |many| && Spared(c, many)
    ensures TriedAll(c, many) == TriedAll(TriedAll(c, many[..k]), many[k..])
    ensures Spared(c, many[..k]) && Spared(TriedAll(c, many[..k]), many[k..])
    decreases |many|
  {
    if k == 0 {
      assert many[..0] == [] && many[0..] == many;
    } else {
      SparedInTwo(Tried(c, many[0]), many[1..], k - 1);
      assert many[1..][..k - 1] == many[..k][1..];
      assert many[1..][k - 1..] == many[k..];
    }
  }

  /** Over every run from nothing, with spec edits, rotated secrets, failures and stale reads at any step, and
      third parties that edit anything but stored credentials and claims: at every point the stored config
      embeds the stored key pair, unless a third party put that config in the place of another; and once a
      key pair or a claim is stored it is the same at every later point. By PassKeepsConsistent the next
      pass that completes its Deployment step replaces a planted config. */
  lemma CredentialsAndConfigAgreeForEver(many: seq<Attempt>, k: nat)
    requires k <= |many| && Spared(NOTHING_YET, many)
    ensures var at, end := TriedAll(NOTHING_YET, many[..k]), TriedAll(NOTHING_YET, many);
            && (at.config.Some? ==> Consistent(at) || Planted(NOTHING_YET, many[..k], at.config.value))
            && (at.credentials.Some? ==> end.credentials == at.credentials)
            && (at.claim.Some? ==> end.claim == at.claim)
  {
    SparedInTwo(NOTHING_YET, many, k);
    RunsKeepConsistent(NOTHING_YET, many[..k]);
    RunsKeepConsistent(TriedAll(NOTHING_YET, many[..k]), many[k..]);
  }

  // ---------------------------------------------------------------- clean passes

  /** The secrets a pass needs are there, with the keys it needs. */
  predicate InputsPresent(spec: InstanceSpec, s: Surroundings) {
    && EnumsValid(spec) && PassesChecks(spec)
    && (spec.databaseMode == POSTGRES_MODE ==>
          Resolve(s.secrets, spec.postgres.value.secret, ["username", "password"], Clean).Some?)
    && (spec.keyStoreMode == VAULT_MODE ==>
          Resolve(s.secrets, spec.vault.value.secret, ["token"], Clean).Some?)
  }

  /** What a clean pass makes of the cluster: all that survives of the past are the credentials and the claim. */
  function Settled(c: Cluster, spec: InstanceSpec, s: Surroundings): Cluster
    requires InputsPresent(spec, s)
  {
    ValuesLength(s.secrets, spec);
    var pair := if c.credentials.Some? then c.credentials.value else s.generated;
    var db := if spec.databaseMode == POSTGRES_MODE
              then Resolve(s.secrets, spec.postgres.value.secret, ["username", "password"], Clean).value else ["", ""];
    var vault := if spec.keyStoreMode == VAULT_MODE
                 then Resolve(s.secrets, spec.vault.value.secret, ["token"], Clean).value else [""];
    BuildFailsIff(spec, pair.publicKey, pair.keyId, db[0], db[1], vault[0]);
    var config := Build(spec, pair.publicKey, pair.keyId, db[0], db[1], vault[0]).value;
    Cluster(Some(pair), Some(config),
            if spec.keyStoreMode == DIRECTORY_MODE && c.claim.None? then Some(WantedClaim(spec)) else c.claim,
            true, Some(WantedDeployment(spec, s.name, s.hash(config))))
  }

  function If(needed: bool, what: Write): seq<Write> {
    if needed then [what] else []
  }

  /** The writes of a clean pass that finds these objects. */
  function Writes(c: Cluster, settled: Cluster, s: Surroundings): seq<Write> {
    If(c.credentials.None?, CredentialsWrite) + If(c.config != settled.config, ConfigWrite)
    + If(c.claim != settled.claim, ClaimWrite) + If(!c.service || s.defaulting, ServiceWrite)
    + If(c.deployment != settled.deployment || s.defaulting, DeploymentWrite)
  }

  lemma CleanUpdate<T>(current: Option<T>, desired: T, defaulted: bool, what: Write, sent: seq<Write>)
    ensures CreateOrUpdate(current, desired, defaulted, what, Wire([], sent))
            == Stored(Some(desired), true, Wire([], sent + If(current != Some(desired) || defaulted, what)))
  {
  }

  lemma CleanClaim(current: Option<Claim>, desired: Claim, sent: seq<Write>)
    ensures EnsureExists(current, desired, ClaimWrite, Wire([], sent))
            == Stored(if current.Some? then current else Some(desired), true, Wire([], sent + If(current.None?, ClaimWrite)))
  {
  }

  lemma CleanRoll(c: Cluster, wanted: Deployment, s: Surroundings, sent: seq<Write>)
    ensures Roll(c, wanted, s, Wire([], sent))
            == Pass(c.(service := true, deployment := Some(wanted)),
                    Wire([], sent + If(!c.service || s.defaulting, ServiceWrite)
                                  + If(c.deployment != Some(wanted) || s.defaulting, DeploymentWrite)),
                    true, if s.available then Done else Failing("DeploymentNotAvailable"))
  {
    CleanUpdate(if c.service then Some(()) else None, (), s.defaulting, ServiceWrite, sent);
    CleanUpdate(c.deployment, wanted, s.defaulting, DeploymentWrite, sent + If(!c.service || s.defaulting, ServiceWrite));
  }

  lemma CleanDeploy(c: Cluster, spec: InstanceSpec, s: Surroundings, config: Config, sent: seq<Write>)
    ensures var claim := if spec.keyStoreMode == DIRECTORY_MODE && c.claim.None? then Some(WantedClaim(spec)) else c.claim;
            var wanted := WantedDeployment(spec, s.name, s.hash(config));
            Deploy(c, spec, s, config, Wire([], sent))
            == Pass(Cluster(c.credentials, Some(config), claim, true, Some(wanted)),
                    Wire([], sent + If(c.config != Some(config), ConfigWrite) + If(c.claim != claim, ClaimWrite)
                                  + If(!c.service || s.defaulting, ServiceWrite)
                                  + If(c.deployment != Some(wanted) || s.defaulting, DeploymentWrite)),
                    true, if s.available then Done else Failing("DeploymentNotAvailable"))
  {
    var claim := if spec.keyStoreMode == DIRECTORY_MODE && c.claim.None? then Some(WantedClaim(spec)) else c.claim;
    var sent1 := sent + If(c.config != Some(config), ConfigWrite);
    CleanUpdate(c.config, config, false, ConfigWrite, sent);
    CleanClaim(c.claim, WantedClaim(spec), sent1);
    assert c.claim == claim ==> sent1 + If(c.claim != claim, ClaimWrite) == sent1;
    CleanRoll(c.(config := Some(config), claim := claim), WantedDeployment(spec, s.name, s.hash(config)), s,
              sent1 + If(c.claim != claim, ClaimWrite));
  }

  /** A clean pass leaves the settled cluster, and sends exactly the writes that some object needs. */
  lemma CleanPassSettles(c: Cluster, spec: InstanceSpec, s: Surroundings)
    requires InputsPresent(spec, s)
    ensures InstancePass(c, spec, s, CLEAR) ==
            Pass(Settled(c, spec, s), Wire([], Writes(c, Settled(c, spec, s), s)), true,
                 if s.available then Done else Failing("DeploymentNotAvailable"))
  {
    ValuesLength(s.secrets, spec);
    var (stored, pair) := Credentials(c.credentials, s.generated, CLEAR);
    var sent := If(c.credentials.None?, CredentialsWrite);
    assert CLEAR.sent + [CredentialsWrite] == [CredentialsWrite];
    assert stored == Stored(Some(pair), true, Wire([], sent));
    var c1 := c.(credentials := Some(pair));
    var db := if spec.databaseMode == POSTGRES_MODE
              then Resolve(s.secrets, spec.postgres.value.secret, ["username", "password"], Clean).value else ["", ""];
    var vault := if spec.keyStoreMode == VAULT_MODE
                 then Resolve(s.secrets, spec.vault.value.secret, ["token"], Clean).value else [""];
    BuildFailsIff(spec, pair.publicKey, pair.keyId, db[0], db[1], vault[0]);
    var config := Build(spec, pair.publicKey, pair.keyId, db[0], db[1], vault[0]).value;
    assert Planned(c1, pair, spec, s, stored.wire) == Some((config, stored.wire));
    PlannedIsBuilt(c, spec, s, CLEAR);
    CleanDeploy(c1, spec, s, config, sent);
  }

  /** Wherever earlier passes stopped, and whatever third parties edited, a clean pass then leaves exactly the
      cluster of one clean pass that found the same credentials and claim. Those are the ones of the start if
      there were any, and else a key pair some pass generated and the claim some pass in directory mode
      wanted, or what third parties brought: no other trace of the interruptions and the edits is left. */
  lemma InstanceReplay(c: Cluster, many: seq<Attempt>, spec: InstanceSpec, s: Surroundings)
    requires Spared(c, many) && InputsPresent(spec, s)
    ensures var after := TriedAll(c, many);
            var bare := NOTHING_YET.(credentials := after.credentials, claim := after.claim);
            var p := InstancePass(after, spec, s, CLEAR);
            && p.cluster == InstancePass(bare, spec, s, CLEAR).cluster
            && p.deployed && p.outcome == InstancePass(bare, spec, s, CLEAR).outcome
            && (c.credentials.Some? && c.claim.Some? ==> p.cluster == InstancePass(c, spec, s, CLEAR).cluster)
            && (after.credentials == c.credentials
                || (c.credentials.None? && after.credentials.Some? && Brought(many, after.credentials.value)))
            && (after.claim == c.claim || (c.claim.None? && after.claim.Some? && Claimed(many, after.claim.value)))
  {
    WhatSurvives(c, many);
    var after := TriedAll(c, many);
    RunsKeepConsistent(c, many);
    CleanPassSettles(after, spec, s);
    CleanPassSettles(NOTHING_YET.(credentials := after.credentials, claim := after.claim), spec, s);
    CleanPassSettles(c, spec, s);
  }

  /** After a clean pass, another one with the same inputs leaves every object as it is, whatever key pair it
      would have generated and whether or not the Deployment has become available. It sends no write at all
      exactly if the server adds no defaults; otherwise it overwrites Service and Deployment once more. */
  lemma InstanceQuiescence(c: Cluster, spec: InstanceSpec, s: Surroundings, generated: KeyPair, available: bool)
    requires InputsPresent(spec, s)
    ensures var once := InstancePass(c, spec, s, CLEAR).cluster;
            var p := InstancePass(once, spec, s.(generated := generated, available := available), CLEAR);
            && p.cluster == once
            && p.wire.sent == (if s.defaulting then [ServiceWrite, DeploymentWrite] else [])
  {
    CleanPassSettles(c, spec, s);
    var again, once := s.(generated := generated, available := available), Settled(c, spec, s);
    CleanPassSettles(once, spec, again);
    assert Settled(once, spec, again) == once;
    var none: seq<Write> := [];
    assert none + none + none == none && none + [ServiceWrite] + [DeploymentWrite] == [ServiceWrite, DeploymentWrite];
  }

  /** And while the Deployment is as available as before, the status patch of that pass is empty. */
  lemma InstanceStatusQuiescence(c: Cluster, spec: InstanceSpec, s: Surroundings, status: Status, url: string,
                                 detail: string, now: int, later: int, manifest: Doc, idField: string)
    requires InputsPresent(spec, s)
    ensures var p := InstancePass(c, spec, s, CLEAR);
            var s1 := NextStatus(p, status, url, detail, now);
            var s2 := NextStatus(InstancePass(p.cluster, spec, s, CLEAR), s1, url, detail, later);
            && s2 == s1 && IsReady(s1) == s.available && s1.id == Remote.Plain(url)
            && MergePatch.Diff(Document(manifest, s1, idField), Document(manifest, s2, idField)) == MergePatch.Obj(map[])
  {
    CleanPassSettles(c, spec, s);
    CleanPassSettles(Settled(c, spec, s), spec, s);
    var t := status.(id := Remote.Plain(url));
    var message := if s.available then "Keyline is deployed and token exchange succeeded" else detail;
    var reason := if s.available then "Ready" else "DeploymentNotAvailable";
    ConcludeAgain(t, s.available, reason, message, now, later, manifest, idField);
    var s1 := Conclude(t, s.available, reason, message, now);
    assert s1.(id := Remote.Plain(url)) == s1;
  }

  /** With a hash that tells files apart, the pod template changes exactly when the image, the container
      resources, the use of the key directory or the file changes; the use of the key directory shows in the
      file. By ConfigTellsCredentialsApart a rotated password restarts the server. */
  lemma RolloutIff(c: Cluster, spec: InstanceSpec, s: Surroundings, spec': InstanceSpec, s': Surroundings)
    requires InputsPresent(spec, s) && InputsPresent(spec', s')
    requires s'.name == s.name && s'.hash == s.hash && forall a, b :: s.hash(a) == s.hash(b) ==> a == b
    ensures var one := InstancePass(c, spec, s, CLEAR).cluster;
            var two := InstancePass(one, spec', s', CLEAR).cluster;
            two.deployment != one.deployment <==>
              two.config != one.config || spec'.image != spec.image || spec'.resources != spec.resources
  {
    CleanPassSettles(c, spec, s);
    CleanPassSettles(Settled(c, spec, s), spec', s');
  }
}
