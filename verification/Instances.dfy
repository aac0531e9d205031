/** The configuration of a Keyline server (internal/controller/keylineconfig.go). */
module ServerConfig {
  import opened Prelude

  const OPERATOR_USERNAME := "keyline-operator"
  const KEY_DIR_PATH := "/keys"
  const KEYLINE_PORT := 8080
  const DEFAULT_VIRTUAL_SERVER := "keyline"
  const DEFAULT_DATABASE_NAME := "keyline"
  const DEFAULT_PORT := 5432
  const DEFAULT_SSL_MODE := "enable"
  const DIRECTORY_MODE := "directory"
  const VAULT_MODE := "vault"
  const POSTGRES_MODE := "postgres"
  const MEMORY_MODE := "memory"

  datatype Postgres = Postgres(host: string, port: int, database: string, sslMode: string, secret: string)
  datatype Vault = Vault(address: string, mount: string, prefix: string, secret: string)
  datatype Directory = Directory(storageClass: Option<string>, storageSize: Option<string>)

  /** Quantities by resource name, for the Keyline container. */
  datatype Resources = Resources(requests: map<string, string>, limits: map<string, string>)

  datatype InstanceSpec = InstanceSpec(
    image: string, resources: Resources, externalUrl: string, frontendUrl: string, virtualServer: string,
    databaseMode: string, postgres: Option<Postgres>,
    keyStoreMode: string, directory: Option<Directory>, vault: Option<Vault>)

  datatype Database =
    | Memory
    | PostgresAt(host: string, port: int, database: string, username: string, password: string, sslMode: string)

  datatype KeyStore =
    | Unset
    | InDirectory(path: string)
    | InVault(address: string, token: string, mount: string, prefix: string)

  /** What varies in the file; its constant parts are left out. */
  datatype Config = Config(
    port: int, externalUrl: string, allowedOrigins: seq<string>, frontendUrl: string, database: Database,
    virtualServer: string, serviceUser: string, publicKey: string, keyId: string, keyStore: KeyStore)

  function Default(text: string, default: string): string {
    if text == "" then default else text
  }

  /** `None` stands for a nil dereference. */
  function Build(spec: InstanceSpec, publicKey: string, keyId: string, dbUser: string, dbPass: string, token: string): Option<Config> {
    if (spec.databaseMode != MEMORY_MODE && spec.postgres.None?) || (spec.keyStoreMode == VAULT_MODE && spec.vault.None?) then None
    else
      Some(Config(
        KEYLINE_PORT, spec.externalUrl, [spec.externalUrl, spec.frontendUrl], spec.frontendUrl,
        if spec.databaseMode == MEMORY_MODE then Memory
        else
          var pg := spec.postgres.value;
          PostgresAt(pg.host, if pg.port == 0 then DEFAULT_PORT else pg.port, Default(pg.database, DEFAULT_DATABASE_NAME),
                     dbUser, dbPass, Default(pg.sslMode, DEFAULT_SSL_MODE)),
        Default(spec.virtualServer, DEFAULT_VIRTUAL_SERVER), OPERATOR_USERNAME, publicKey, keyId,
        if spec.keyStoreMode == DIRECTORY_MODE then InDirectory(KEY_DIR_PATH)
        else if spec.keyStoreMode == VAULT_MODE then
          InVault(spec.vault.value.address, token, spec.vault.value.mount, spec.vault.value.prefix)
        else Unset))
  }

  /** The spec with its defaults written out. */
  function Explicit(spec: InstanceSpec): InstanceSpec {
    spec.(virtualServer := Default(spec.virtualServer, DEFAULT_VIRTUAL_SERVER),
          postgres := if spec.postgres.None? then None else
            var pg := spec.postgres.value;
            Some(pg.(port := if pg.port == 0 then DEFAULT_PORT else pg.port,
                     database := Default(pg.database, DEFAULT_DATABASE_NAME),
                     sslMode := Default(pg.sslMode, DEFAULT_SSL_MODE))))
  }

  /** What of a spec reaches the file: not the image, the container resources, the storage of the key
      directory and the names of Secrets, nothing of a section whose mode is not selected, and of the modes
      only which of the three database and key store variants they select. */
  function Shown(spec: InstanceSpec): InstanceSpec {
    var full := Explicit(spec);
    var memory, vault := spec.databaseMode == MEMORY_MODE, spec.keyStoreMode == VAULT_MODE;
    full.(image := "", resources := Resources(map[], map[]), directory := None,
          databaseMode := if memory then MEMORY_MODE else POSTGRES_MODE,
          postgres := if memory || full.postgres.None? then None else Some(full.postgres.value.(secret := "")),
          keyStoreMode := if vault || spec.keyStoreMode == DIRECTORY_MODE then spec.keyStoreMode else "",
          vault := if vault && full.vault.Some? then Some(full.vault.value.(secret := "")) else None)
  }

  /** With equal credentials two specs render the same file exactly when they show the same: leaving a
      default out or writing it out makes no difference, and everything else that is shown does. */
  lemma SameFileIff(a: InstanceSpec, b: InstanceSpec, publicKey: string, keyId: string, dbUser: string, dbPass: string, token: string)
    requires Build(a, publicKey, keyId, dbUser, dbPass, token).Some?
    requires Build(b, publicKey, keyId, dbUser, dbPass, token).Some?
    ensures Build(a, publicKey, keyId, dbUser, dbPass, token) == Build(b, publicKey, keyId, dbUser, dbPass, token)
            <==> Shown(a) == Shown(b)
  {
    var c, d := Build(a, publicKey, keyId, dbUser, dbPass, token).value, Build(b, publicKey, keyId, dbUser, dbPass, token).value;
    var s, t := Shown(a), Shown(b);
    assert c.database == d.database <==> s.databaseMode == t.databaseMode && s.postgres == t.postgres;
    assert c.keyStore == d.keyStore <==> s.keyStoreMode == t.keyStoreMode && s.vault == t.vault;
    assert c.virtualServer == d.virtualServer <==> s.virtualServer == t.virtualServer;
    assert c.allowedOrigins == d.allowedOrigins <==> s.externalUrl == t.externalUrl && s.frontendUrl == t.frontendUrl;
  }

  /** Two files from the same spec are equal exactly when their key pairs and the credentials the selected
      modes use are: a rotated password or token always shows, and so does a foreign key pair. */
  lemma ConfigTellsCredentialsApart(spec: InstanceSpec, pub: string, kid: string, user: string, pass: string, token: string,
                                    pub': string, kid': string, user': string, pass': string, token': string)
    requires Build(spec, pub, kid, user, pass, token).Some?
    ensures Build(spec, pub, kid, user, pass, token) == Build(spec, pub', kid', user', pass', token')
            <==> && pub == pub' && kid == kid'
                 && (spec.databaseMode != MEMORY_MODE ==> user == user' && pass == pass')
                 && (spec.keyStoreMode == VAULT_MODE ==> token == token')
  {
  }

  /** What the API server admits. */
  predicate EnumsValid(spec: InstanceSpec) {
    && (spec.databaseMode == POSTGRES_MODE || spec.databaseMode == MEMORY_MODE)
    && (spec.keyStoreMode == DIRECTORY_MODE || spec.keyStoreMode == VAULT_MODE)
  }

  /** The checks a pass makes before it builds the file. */
  predicate PassesChecks(spec: InstanceSpec) {
    && (spec.databaseMode == POSTGRES_MODE ==> spec.postgres.Some?)
    && (spec.keyStoreMode == VAULT_MODE ==> spec.vault.Some?)
  }

  /** Behind those checks the nil dereference is reached exactly with a database mode outside the enum and
      no postgres section; so never with an admitted spec. */
  lemma BuildFailsIff(spec: InstanceSpec, publicKey: string, keyId: string, dbUser: string, dbPass: string, token: string)
    requires PassesChecks(spec)
    ensures Build(spec, publicKey, keyId, dbUser, dbPass, token).None?
            <==> spec.databaseMode != MEMORY_MODE && spec.databaseMode != POSTGRES_MODE && spec.postgres.None?
    ensures EnumsValid(spec) ==> Build(spec, publicKey, keyId, dbUser, dbPass, token).Some?
  {
  }
}

/** The instance reconciler (internal/controller/keylineinstance_controller.go): what one pass makes of the
    cluster objects it owns. */
module InstanceModel {
  import opened Prelude
  import opened ServerConfig
  import Remote
  import opened StatusPatch

  datatype KeyPair = KeyPair(privateKey: string, publicKey: string, keyId: string)
  datatype Claim = Claim(size: string, class_: Option<string>)

  /** The parts of the Deployment that depend on the spec. */
  datatype Deployment = Deployment(image: string, resources: Resources, configHash: string,
                                   keysClaim: Option<string>, keysMount: Option<string>)

  /** The objects owned by one instance. */
  datatype Cluster = Cluster(credentials: Option<KeyPair>, config: Option<Config>, claim: Option<Claim>,
                             service: bool, deployment: Option<Deployment>)

  /** Outcomes of one call to the API server or of the token exchange. `Stale` is a read from a cache that
      does not know the object yet; for a write it means the same as `Clean`. */
  datatype Fault = Clean | NoEffect | LostReply | Stale

  type Secrets = map<string, map<string, string>>

  /** The requests that create or overwrite an object. */
  datatype Write = CredentialsWrite | ConfigWrite | ClaimWrite | ServiceWrite | DeploymentWrite

  /** What will befall the next calls, and the write requests sent so far. */
  datatype Wire = Wire(script: seq<Fault>, sent: seq<Write>)

  /** Every call is clean. */
  const CLEAR := Wire([], [])

  const CLAIM_SUFFIX := "-keys"
  const DEFAULT_STORAGE := "1Gi"

  function Next(wire: Wire): Fault {
    if wire.script == [] then Clean else wire.script[0]
  }

  /** After one more read. */
  function Rest(wire: Wire): Wire {
    wire.(script := if wire.script == [] then [] else wire.script[1..])
  }

  /** After one more write request, whether or not it took effect. */
  function Sent(wire: Wire, what: Write): Wire {
    Rest(wire).(sent := wire.sent + [what])
  }

  predicate Refused(f: Fault) {
    f == NoEffect || f == LostReply
  }

  /** A read: nothing if it failed, else what it saw. */
  function Seen<T>(current: Option<T>, f: Fault): Option<Option<T>> {
    if Refused(f) then None else if f == Stale then Some(None) else Some(current)
  }

  datatype Stored<T> = Stored(current: Option<T>, ok: bool, wire: Wire)

  /** Creation is refused when the object exists. */
  function Create<T>(current: Option<T>, desired: T, what: Write, wire: Wire): Stored<T> {
    var f := Next(wire);
    var landed := f != NoEffect && current.None?;
    Stored(if landed then Some(desired) else current, landed && !Refused(f), Sent(wire, what))
  }

  /** Read, then create what is not there or overwrite what differs. An object to which the server adds
      defaults differs from what was sent, and is overwritten by every pass. */
  function CreateOrUpdate<T(==)>(current: Option<T>, desired: T, defaulted: bool, what: Write, wire: Wire): Stored<T> {
    var seen := Seen(current, Next(wire));
    var wire := Rest(wire);
    if seen.None? then Stored(current, false, wire)
    else if seen.value.None? then Create(current, desired, what, wire)
    else if seen.value.value == desired && !defaulted then Stored(current, true, wire)
    else Stored(if Next(wire) == NoEffect then current else Some(desired), !Refused(Next(wire)), Sent(wire, what))
  }

  /** Read, then create only if it is not there; an existing object is never changed. */
  function EnsureExists<T>(current: Option<T>, desired: T, what: Write, wire: Wire): Stored<T> {
    var seen := Seen(current, Next(wire));
    if seen.None? then Stored(current, false, Rest(wire))
    else if seen.value.Some? then Stored(current, true, Rest(wire))
    else Create(current, desired, what, Rest(wire))
  }

  /** The values of the keys, all or none. */
  function Values(data: map<string, string>, keys: seq<string>): Option<seq<string>> {
    if keys == [] then Some([])
    else
      var init := Values(data, keys[..|keys| - 1]);
      if init.Some? && keys[|keys| - 1] in data then Some(init.value + [data[keys[|keys| - 1]]]) else None
  }

  function Resolve(secrets: Secrets, name: string, keys: seq<string>, f: Fault): Option<seq<string>> {
    if f != Clean || name !in secrets then None else Values(secrets[name], keys)
  }

  /** What a pass knows beside the cluster: the secrets it reads, the key pair it would generate, whether
      Kubernetes reports the Deployment available, how the file is hashed, and whether the API server fills
      in fields that the operator leaves out of the Service and the Deployment it sends. */
  datatype Surroundings = Surroundings(name: string, secrets: Secrets, generated: KeyPair, available: bool,
                                       hash: Config -> string, defaulting: bool)

  /** How a pass ends: Ready, not Ready for a reason, or in a nil dereference that writes no status. */
  datatype Outcome = Done | Failing(reason: string) | Panicking

  /** `deployed` tells that the Deployment step was completed. */
  datatype Pass = Pass(cluster: Cluster, wire: Wire, deployed: bool, outcome: Outcome)

  function WantedClaim(spec: InstanceSpec): Claim {
    var d := spec.directory;
    Claim(if d.Some? && d.value.storageSize.Some? then d.value.storageSize.value else DEFAULT_STORAGE,
          if d.Some? then d.value.storageClass else None)
  }

  function WantedDeployment(spec: InstanceSpec, name: string, configHash: string): Deployment {
    var keys := spec.keyStoreMode == DIRECTORY_MODE;
    Deployment(spec.image, spec.resources, configHash,
               if keys then Some(name + CLAIM_SUFFIX) else None, if keys then Some(KEY_DIR_PATH) else None)
  }

  /** From the config Secret to the Deployment. */
  function Deploy(c: Cluster, spec: InstanceSpec, s: Surroundings, config: Config, wire: Wire): Pass {
    var written := CreateOrUpdate(c.config, config, false, ConfigWrite, wire);
    var c1 := c.(config := written.current);
    if !written.ok then Pass(c1, written.wire, false, Failing("ConfigSecretError"))
    else
      var claimed := if spec.keyStoreMode == DIRECTORY_MODE then EnsureExists(c1.claim, WantedClaim(spec), ClaimWrite, written.wire)
                     else Stored(c1.claim, true, written.wire);
      var c2 := c1.(claim := claimed.current);
      if !claimed.ok then Pass(c2, claimed.wire, false, Failing("PVCError"))
      else Roll(c2, WantedDeployment(spec, s.name, s.hash(config)), s, claimed.wire)
  }

  /** Service and Deployment. */
  function Roll(c: Cluster, wanted: Deployment, s: Surroundings, wire: Wire): Pass {
    var served := CreateOrUpdate(if c.service then Some(()) else None, (), s.defaulting, ServiceWrite, wire);
    var c1 := c.(service := served.current.Some?);
    if !served.ok then Pass(c1, served.wire, false, Failing("ServiceError"))
    else
      var rolled := CreateOrUpdate(c1.deployment, wanted, s.defaulting, DeploymentWrite, served.wire);
      var c2 := c1.(deployment := rolled.current);
      if !rolled.ok then Pass(c2, rolled.wire, false, Failing("DeploymentError"))
      else
        var (wire', outcome) := Availability(s.available, rolled.wire);
        Pass(c2, wire', true, outcome)
  }

  /** The last two steps read only. */
  function Availability(available: bool, wire: Wire): (Wire, Outcome) {
    if Next(wire) != Clean then (Rest(wire), Failing("DeploymentError"))
    else if !available then (Rest(wire), Failing("DeploymentNotAvailable"))
    else if Next(Rest(wire)) != Clean then (Rest(Rest(wire)), Failing("TokenExchangeFailed"))
    else (Rest(Rest(wire)), Done)
  }

  /** The credentials the pass goes on with: those it read, or those it created. */
  function Credentials(current: Option<KeyPair>, generated: KeyPair, wire: Wire): (Stored<KeyPair>, KeyPair) {
    var seen := Seen(current, Next(wire));
    (EnsureExists(current, generated, CredentialsWrite, wire),
     if seen.Some? && seen.value.Some? then seen.value.value else generated)
  }

  function InstancePass(c: Cluster, spec: InstanceSpec, s: Surroundings, wire: Wire): Pass {
    var (stored, pair) := Credentials(c.credentials, s.generated, wire);
    var c1 := c.(credentials := stored.current);
    if !stored.ok then Pass(c1, stored.wire, false, Failing("CredentialsError"))
    else if spec.databaseMode == POSTGRES_MODE && spec.postgres.None? then Pass(c1, stored.wire, false, Failing("InvalidSpec"))
    else
      var db := if spec.databaseMode == POSTGRES_MODE
                then Resolve(s.secrets, spec.postgres.value.secret, ["username", "password"], Next(stored.wire)) else Some(["", ""]);
      var afterDb := if spec.databaseMode == POSTGRES_MODE then Rest(stored.wire) else stored.wire;
      if db.None? then Pass(c1, afterDb, false, Failing("DBCredentialsError"))
      else if spec.keyStoreMode == VAULT_MODE && spec.vault.None? then Pass(c1, afterDb, false, Failing("InvalidSpec"))
      else
        var vault := if spec.keyStoreMode == VAULT_MODE
                     then Resolve(s.secrets, spec.vault.value.secret, ["token"], Next(afterDb)) else Some([""]);
        var afterVault := if spec.keyStoreMode == VAULT_MODE then Rest(afterDb) else afterDb;
        if vault.None? then Pass(c1, afterVault, false, Failing("VaultTokenError"))
        else
          ValuesLength(s.secrets, spec);
          var config := Build(spec, pair.publicKey, pair.keyId, db.value[0], db.value[1], vault.value[0]);
          if config.None? then Pass(c1, afterVault, false, Panicking) else Deploy(c1, spec, s, config.value, afterVault)
  }

  /** The status a pass tries to write: the URL is set once the Deployment step is done. */
  function NextStatus(p: Pass, s: Status, url: string, detail: string, now: int): Status {
    var t := if p.deployed then s.(id := Remote.Plain(url)) else s;
    match p.outcome
    case Done => Conclude(t, true, "Ready", "Keyline is deployed and token exchange succeeded", now)
    case Failing(reason) => Conclude(t, false, reason, detail, now)
    case Panicking => t
  }

  lemma ValuesLength(secrets: Secrets, spec: InstanceSpec)
    ensures forall name, f :: Resolve(secrets, name, ["username", "password"], f).Some? ==>
              |Resolve(secrets, name, ["username", "password"], f).value| == 2
    ensures forall name, f :: Resolve(secrets, name, ["token"], f).Some? ==>
              |Resolve(secrets, name, ["token"], f).value| == 1
  {
    forall data: map<string, string>, keys | Values(data, keys).Some?
      ensures |Values(data, keys).value| == |keys| { ValuesHaveLength(data, keys); }
  }

  lemma {:induction false} ValuesHaveLength(data: map<string, string>, keys: seq<string>)
    requires Values(data, keys).Some?
    ensures |Values(data, keys).value| == |keys|
    decreases |keys|
  {
    if keys != [] { ValuesHaveLength(data, keys[..|keys| - 1]); }
  }
}

/** The same pass as it runs. */
module InstanceController {
  import opened Prelude
  import opened ServerConfig
  import opened StatusPatch
  import Remote
  import M = InstanceModel

  /** The cluster objects of one instance behind the API server. */
  class KubeClient {
    var credentials: Option<M.KeyPair>
    var config: Option<Config>
    var claim: Option<M.Claim>
    var service: bool
    var deployment: Option<M.Deployment>
    var script: seq<M.Fault>
    var sent: seq<M.Write>

    constructor (c: M.Cluster, wire: M.Wire)
      ensures View() == c && Wire() == wire
    {
      credentials, config, claim, service, deployment := c.credentials, c.config, c.claim, c.service, c.deployment;
      script, sent := wire.script, wire.sent;
    }

    function View(): M.Cluster
      reads this
    {
      M.Cluster(credentials, config, claim, service, deployment)
    }

    function Wire(): M.Wire
      reads this
    {
      M.Wire(script, sent)
    }

    method Turn() returns (f: M.Fault)
      modifies this`script
      ensures f == M.Next(old(Wire())) && Wire() == M.Rest(old(Wire()))
    {
      f := M.Clean;
      if script != [] {
        f, script := script[0], script[1..];
      }
    }

    method Create<T>(current: Option<T>, desired: T, what: M.Write) returns (next: Option<T>, ok: bool)
      modifies this`script, this`sent
      ensures M.Stored(next, ok, Wire()) == M.Create(current, desired, what, old(Wire()))
    {
      sent := sent + [what];
      var f := Turn();
      next, ok := current, false;
      if f != M.NoEffect && current.None? {
        next, ok := Some(desired), f != M.LostReply;
      }
    }

    method CreateOrUpdate<T(==)>(current: Option<T>, desired: T, defaulted: bool, what: M.Write) returns (next: Option<T>, ok: bool)
      modifies this`script, this`sent
      ensures M.Stored(next, ok, Wire()) == M.CreateOrUpdate(current, desired, defaulted, what, old(Wire()))
    {
      var f := Turn();
      if M.Refused(f) {
        return current, false;
      }
      if current.None? || f == M.Stale {
        next, ok := Create(current, desired, what);
        return;
      }
      if current.value == desired && !defaulted {
        return current, true;
      }
      sent := sent + [what];
      var g := Turn();
      next := if g == M.NoEffect then current else Some(desired);
      ok := !M.Refused(g);
    }

    /** The key pair the pass goes on with. */
    method EnsureCredentials(generated: M.KeyPair) returns (pair: M.KeyPair, ok: bool)
      modifies this`credentials, this`script, this`sent
      ensures var (stored, p) := M.Credentials(old(credentials), generated, old(Wire()));
              M.Stored(credentials, ok, Wire()) == stored && (ok ==> pair == p)
    {
      pair := generated;
      var f := Turn();
      if M.Refused(f) {
        return pair, false;
      }
      if credentials.Some? && f != M.Stale {
        return credentials.value, true;
      }
      var next;
      next, ok := Create(credentials, generated, M.CredentialsWrite);
      credentials := next;
    }

    method EnsureConfigSecret(data: Config) returns (ok: bool)
      modifies this`config, this`script, this`sent
      ensures M.Stored(config, ok, Wire()) == M.CreateOrUpdate(old(config), data, false, M.ConfigWrite, old(Wire()))
    {
      var next;
      next, ok := CreateOrUpdate(config, data, false, M.ConfigWrite);
      config := next;
    }

    method EnsurePVC(spec: InstanceSpec) returns (ok: bool)
      modifies this`claim, this`script, this`sent
      ensures M.Stored(claim, ok, Wire()) == M.EnsureExists(old(claim), M.WantedClaim(spec), M.ClaimWrite, old(Wire()))
    {
      var f := Turn();
      if M.Refused(f) {
        return false;
      }
      if claim.Some? && f != M.Stale {
        return true;
      }
      var size, class_ := M.DEFAULT_STORAGE, None;
      if spec.directory.Some? && spec.directory.value.storageSize.Some? {
        size := spec.directory.value.storageSize.value;
      }
      if spec.directory.Some? && spec.directory.value.storageClass.Some? {
        class_ := spec.directory.value.storageClass;
      }
      var next;
      next, ok := Create(claim, M.Claim(size, class_), M.ClaimWrite);
      claim := next;
    }

    method EnsureService(defaulting: bool) returns (ok: bool)
      modifies this`service, this`script, this`sent
      ensures var held: Option<()> := if old(service) then Some(()) else None;
              M.Stored(if service then Some(()) else None, ok, Wire())
              == M.CreateOrUpdate(held, (), defaulting, M.ServiceWrite, old(Wire()))
    {
      var next;
      next, ok := CreateOrUpdate(if service then Some(()) else None, (), defaulting, M.ServiceWrite);
      service := next.Some?;
    }

    method EnsureDeployment(spec: InstanceSpec, name: string, configHash: string, defaulting: bool) returns (ok: bool)
      modifies this`deployment, this`script, this`sent
      ensures M.Stored(deployment, ok, Wire())
              == M.CreateOrUpdate(old(deployment), M.WantedDeployment(spec, name, configHash), defaulting, M.DeploymentWrite, old(Wire()))
    {
      var desired := M.Deployment(spec.image, spec.resources, configHash, None, None);
      if spec.keyStoreMode == DIRECTORY_MODE {
        desired := desired.(keysClaim := Some(name + M.CLAIM_SUFFIX), keysMount := Some(KEY_DIR_PATH));
      }
      var next;
      next, ok := CreateOrUpdate(deployment, desired, defaulting, M.DeploymentWrite);
      deployment := next;
    }

    /** Reads one Secret and picks the given keys in order. */
    method ResolveSecret(secrets: M.Secrets, name: string, keys: seq<string>) returns (values: Option<seq<string>>)
      modifies this`script
      ensures Wire() == M.Rest(old(Wire()))
      ensures values == M.Resolve(secrets, name, keys, M.Next(old(Wire())))
      ensures values.Some? ==> |values.value| == |keys|
    {
      var f := Turn();
      if f != M.Clean || name !in secrets {
        return None;
      }
      var data, found: seq<string> := secrets[name], [];
      for i := 0 to |keys|
        invariant M.Values(data, keys[..i]) == Some(found) && |found| == i
      {
        assert keys[..i + 1][..i] == keys[..i];
        if keys[i] !in data {
          MissingKey(data, keys, i);
          return None;
        }
        found := found + [data[keys[i]]];
      }
      assert keys[..|keys|] == keys;
      return Some(found);
    }
  }

  lemma {:induction false} MissingKey(data: map<string, string>, keys: seq<string>, i: nat)
    requires i < |keys| && keys[i] !in data
    ensures M.Values(data, keys).None?
    decreases |keys|
  {
    if i < |keys| - 1 {
      MissingKey(data, keys[..|keys| - 1], i);
    }
  }

  /** From the config Secret to the token exchange. */
  method Deploy(kube: KubeClient, spec: InstanceSpec, s: M.Surroundings, config: Config) returns (deployed: bool, outcome: M.Outcome)
    modifies kube
    ensures M.Pass(kube.View(), kube.Wire(), deployed, outcome) == M.Deploy(old(kube.View()), spec, s, config, old(kube.Wire()))
  {
    var ok := kube.EnsureConfigSecret(config);
    if !ok {
      return false, M.Failing("ConfigSecretError");
    }
    if spec.keyStoreMode == DIRECTORY_MODE {
      ok := kube.EnsurePVC(spec);
      if !ok {
        return false, M.Failing("PVCError");
      }
    }
    ok := kube.EnsureService(s.defaulting);
    if !ok {
      return false, M.Failing("ServiceError");
    }
    ok := kube.EnsureDeployment(spec, s.name, s.hash(config), s.defaulting);
    if !ok {
      return false, M.Failing("DeploymentError");
    }
    deployed := true;
    var read := kube.Turn();
    if read != M.Clean {
      return true, M.Failing("DeploymentError");
    }
    if !s.available {
      return true, M.Failing("DeploymentNotAvailable");
    }
    var token := kube.Turn();
    outcome := if token == M.Clean then M.Done else M.Failing("TokenExchangeFailed");
  }

  /** All of a pass but the status write. */
  method Sync(kube: KubeClient, spec: InstanceSpec, s: M.Surroundings) returns (deployed: bool, outcome: M.Outcome)
    modifies kube
    ensures M.Pass(kube.View(), kube.Wire(), deployed, outcome) == M.InstancePass(old(kube.View()), spec, s, old(kube.Wire()))
  {
    var pair, ok := kube.EnsureCredentials(s.generated);
    if !ok {
      return false, M.Failing("CredentialsError");
    }
    var dbUser, dbPass := "", "";
    if spec.databaseMode == POSTGRES_MODE {
      if spec.postgres.None? {
        return false, M.Failing("InvalidSpec");
      }
      var values := kube.ResolveSecret(s.secrets, spec.postgres.value.secret, ["username", "password"]);
      if values.None? {
        return false, M.Failing("DBCredentialsError");
      }
      dbUser, dbPass := values.value[0], values.value[1];
    }
    var token := "";
    if spec.keyStoreMode == VAULT_MODE {
      if spec.vault.None? {
        return false, M.Failing("InvalidSpec");
      }
      var values := kube.ResolveSecret(s.secrets, spec.vault.value.secret, ["token"]);
      if values.None? {
        return false, M.Failing("VaultTokenError");
      }
      token := values.value[0];
    }
    var config := Build(spec, pair.publicKey, pair.keyId, dbUser, dbPass, token);
    if config.None? {
      return false, M.Panicking;
    }
    deployed, outcome := Deploy(kube, spec, s, config.value);
  }

  /** One pass; a nil dereference leaves the stored status alone. */
  method Reconcile(kube: KubeClient, instance: Resource<InstanceSpec>, sp: StatusPatcher<InstanceSpec>, s: M.Surroundings,
                   url: string, detail: string, now: int, fault: Remote.Fault)
    returns (result: Result)
    requires sp.resource == instance
    modifies kube, instance, sp.server
    ensures var p := M.InstancePass(old(kube.View()), instance.spec, s, old(kube.Wire()));
            && kube.View() == p.cluster && kube.Wire() == p.wire
            && instance.View() == M.NextStatus(p, old(instance.View()), url, detail, now)
            && sp.server.document ==
                 if p.outcome.Panicking? then old(sp.server.document)
                 else Written(old(sp.server.document), instance.manifest, sp.base, instance.View(), instance.idField, fault)
  {
    var deployed, outcome := Sync(kube, instance.spec, s);
    if deployed {
      instance.id := Remote.Plain(url);
    }
    match outcome {
      case Done =>
        result := sp.SetReady("Ready", "Keyline is deployed and token exchange succeeded", now, fault);
      case Failing(reason) =>
        result := sp.SetNotReady(reason, detail, now, fault);
      case Panicking =>
        result := Error;
    }
  }
}
