/** Publishing the webhook's certificates: the secret, the files the server reads, and the webhook configuration. */
module WebhookBootstrapper {
  import opened Common
  import opened Certificates

  datatype Webhook = Webhook(name: string, caBundle: Blob)

  const WEBHOOK_NAME := "webhook.oneagent.dynatrace.com"

  /** Everything the bootstrapper writes. */
  datatype Places = Places(secret: Option<Material>, files: map<string, Blob>, webhooks: Option<seq<Webhook>>)

  /** The API server and the file system. Every access may fail. */
  class Cluster {
    var secret: Option<Material>
    var files: map<string, Blob>
    var webhooks: Option<seq<Webhook>>
    /** How often the secret, a file or the webhook configuration was written. */
    var writes: nat
    /** Without this no access fails. */
    const mayFail: bool

    constructor (places: Places, mayFail: bool)
      ensures Current() == places && writes == 0 && this.mayFail == mayFail
    {
      this.secret, this.files, this.webhooks := places.secret, places.files, places.webhooks;
      this.writes, this.mayFail := 0, mayFail;
    }

    ghost function Current(): Places
      reads this
    {
      Places(secret, files, webhooks)
    }

    ghost function Stored(): Material
      reads this
    {
      if secret.Some? then secret.value else map[]
    }

    method Try() returns (ok: bool)
      ensures !mayFail ==> ok
    {
      ok := *;
      ok := ok || !mayFail;
    }
  }

  predicate Complete(data: Material) {
    "tls.crt" in data && "tls.key" in data && "ca.crt" in data
  }

  /**
   * How far a pass gets with validated data: 1 the secret holds it, 2 and 3 its certificate and its key are in their
   * files, 4 its root certificate is published.
   */
  function Progress(before: Places, data: Material, stage: nat): Places
    requires Complete(data)
  {
    Places(
      if stage >= 1 then Some(data) else before.secret,
      if stage >= 3 then before.files["tls.crt" := data["tls.crt"]]["tls.key" := data["tls.key"]]
      else if stage == 2 then before.files["tls.crt" := data["tls.crt"]] else before.files,
      if stage >= 4 && !Publishes(before.webhooks, data["ca.crt"]) then Some([Webhook(WEBHOOK_NAME, data["ca.crt"])])
      else before.webhooks)
  }

  /** There is exactly one webhook and it carries the given CA bundle. */
  predicate Publishes(webhooks: Option<seq<Webhook>>, rootCert: Blob) {
    webhooks.Some? && |webhooks.value| == 1 && webhooks.value[0].caBundle == rootCert
  }

  /** One write for a file that is missing or differs. */
  function FileWrites(files: map<string, Blob>, data: Material, key: string): nat
    requires key in data
  {
    if key in files && files[key] == data[key] then 0 else 1
  }

  /** The writes of a pass that gets so far. */
  function Writes(before: Places, data: Material, stage: nat): nat
    requires Complete(data)
  {
    (if stage >= 1 && before.secret != Some(data) then 1 else 0)
    + (if stage >= 2 then FileWrites(before.files, data, "tls.crt") else 0)
    + (if stage >= 3 then FileWrites(before.files, data, "tls.key") else 0)
    + if stage >= 4 && !Publishes(before.webhooks, data["ca.crt"]) then 1 else 0
  }

  /** The secret, the two files and the CA bundle agree. */
  predicate Agree(secret: Option<Material>, files: map<string, Blob>, webhooks: Option<seq<Webhook>>) {
    && secret.Some?
    && "tls.crt" in secret.value && "tls.crt" in files && files["tls.crt"] == secret.value["tls.crt"]
    && "tls.key" in secret.value && "tls.key" in files && files["tls.key"] == secret.value["tls.key"]
    && "ca.crt" in secret.value && Publishes(webhooks, secret.value["ca.crt"])
  }

  class ReconcileWebhook {
    const cluster: Cluster
    const domain: string

    constructor (cluster: Cluster, domain: string)
      ensures this.cluster == cluster && this.domain == domain
    {
      this.cluster, this.domain := cluster, domain;
    }

    /** Validate the certificates of the secret and store what changed; None on an error. */
    method ReconcileSecret(now: Time, draw: Draw) returns (data: Option<Material>)
      modifies cluster`secret, cluster`writes
      ensures var (d, ok) := Validated(old(cluster.Stored()), domain, now, draw);
              && (if data.Some? then ok && data == Some(d) && cluster.secret == data
                  else cluster.secret == old(cluster.secret))
              && (!cluster.mayFail && ok ==> data.Some?)
      ensures cluster.writes == old(cluster.writes) + if cluster.secret != old(cluster.secret) then 1 else 0
    {
      var ok := cluster.Try();
      if !ok {
        return None;
      }
      var newSecret := cluster.secret.None?;
      var secretData: DataMap? := null;
      if !newSecret {
        secretData := new DataMap(cluster.secret.value);
      }
      var cs := new Certs(domain, secretData);
      ok := cs.ValidateCerts(now, draw);
      if !ok {
        return None;
      }
      // Data is a map of its own, so the comparison sees every change.
      if newSecret || cs.data.m != secretData.m {
        ok := cluster.Try();
        if !ok {
          return None;
        }
        cluster.secret, cluster.writes := Some(cs.data.m), cluster.writes + 1;
      }
      return Some(cs.data.m);
    }

    /** Bring the certificate files up to date, writing only what differs; done counts the files that are. */
    method WriteFiles(data: Material) returns (ok: bool, ghost done: nat)
      requires Complete(data)
      requires cluster.secret == Some(data)
      modifies cluster`files, cluster`writes
      ensures done <= 2 && (ok <==> done == 2) && (!cluster.mayFail ==> ok)
      ensures cluster.files == Progress(old(cluster.Current()), data, done + 1).files
      ensures cluster.writes == old(cluster.writes) + Writes(old(cluster.Current()), data, done + 1)
    {
      var keys := ["tls.crt", "tls.key"];
      done := 0;
      for i := 0 to 2
        invariant done == i
        invariant cluster.files == Progress(old(cluster.Current()), data, done + 1).files
        invariant cluster.writes == old(cluster.writes) + Writes(old(cluster.Current()), data, done + 1)
      {
        var key := keys[i];
        ok := cluster.Try();
        if !ok {
          return;
        }
        if key !in cluster.files || cluster.files[key] != data[key] {
          ok := cluster.Try();
          if !ok {
            return;
          }
          cluster.files, cluster.writes := cluster.files[key := data[key]], cluster.writes + 1;
        }
        done := done + 1;
      }
      ok := true;
    }

    /** Returns the root certificate, or None on an error; stage is how far it got. */
    method ReconcileCerts(now: Time, draw: Draw) returns (rootCert: Option<Blob>, ghost stage: nat)
      modifies cluster`secret, cluster`files, cluster`writes
      ensures var (d, ok) := Validated(old(cluster.Stored()), domain, now, draw);
              && (stage > 0 ==> ok)
              && stage <= 3 && (rootCert.Some? <==> stage == 3)
              && (if ok then
                    && Complete(d) && cluster.Current() == Progress(old(cluster.Current()), d, stage)
                    && cluster.writes == old(cluster.writes) + Writes(old(cluster.Current()), d, stage)
                  else cluster.Current() == old(cluster.Current()) && cluster.writes == old(cluster.writes))
              && (rootCert.Some? ==> rootCert.value == d["ca.crt"])
              && (!cluster.mayFail && ok ==> rootCert.Some?)
    {
      ghost var src := cluster.Stored();
      if Validated(src, domain, now, draw).1 {
        ValidatedIsComplete(src, domain, now, draw);
      }
      stage := 0;
      var data := ReconcileSecret(now, draw);
      if data.None? {
        return None, 0;
      }
      var ok, done := WriteFiles(data.value);
      stage := done + 1;
      if !ok {
        return None, stage;
      }
      rootCert := Some(data.value["ca.crt"]);
    }

    /** An equal configuration is not written again. */
    method ReconcileWebhookConfig(rootCert: Blob) returns (ok: bool)
      modifies cluster`webhooks, cluster`writes
      ensures !cluster.mayFail ==> ok
      ensures ok ==> Publishes(cluster.webhooks, rootCert)
      ensures Publishes(old(cluster.webhooks), rootCert) || !ok ==>
                cluster.webhooks == old(cluster.webhooks) && cluster.writes == old(cluster.writes)
      ensures !Publishes(old(cluster.webhooks), rootCert) && ok ==>
                && cluster.webhooks == Some([Webhook(WEBHOOK_NAME, rootCert)])
                && cluster.writes == old(cluster.writes) + 1
    {
      ok := cluster.Try();
      if !ok {
        return;
      }
      if Publishes(cluster.webhooks, rootCert) {
        return true;
      }
      ok := cluster.Try();
      if ok {
        cluster.webhooks := Some([Webhook(WEBHOOK_NAME, rootCert)]);
        cluster.writes := cluster.writes + 1;
      }
    }

    /** After a pass without an error the secret, the files and the CA bundle agree. */
    method Reconcile(now: Time, draw: Draw) returns (ok: bool, ghost stage: nat)
      modifies cluster
      ensures cluster.Current() == AfterPass(domain, old(cluster.Current()), Pass(now, draw, stage))
      ensures ok ==> stage == 4 && Agree(cluster.secret, cluster.files, cluster.webhooks)
      ensures !ok ==> stage < 4
      ensures var (d, valid) := Validated(old(cluster.Stored()), domain, now, draw);
              && (ok ==> valid) && (!cluster.mayFail && valid ==> ok)
              && cluster.writes == old(cluster.writes) +
                                   if valid && Complete(d) then Writes(old(cluster.Current()), d, stage) else 0
    {
      var rootCert;
      rootCert, stage := ReconcileCerts(now, draw);
      if rootCert.None? {
        return false, stage;
      }
      ok := cluster.Try();
      if !ok {
        return;
      }
      ok := ReconcileWebhookConfig(rootCert.value);
      if ok {
        stage := 4;
      }
    }
  }

  lemma ValidatedIsComplete(src: Material, domain: string, now: Time, draw: Draw)
    requires Validated(src, domain, now, draw).1
    ensures Complete(Validated(src, domain, now, draw).0)
  {
    FourHoursLeft(src, domain, now, draw);
  }

  /** A pass writes exactly what it changes. */
  lemma WritesWhatChanges(before: Places, data: Material, stage: nat)
    requires Complete(data)
    ensures Writes(before, data, stage) == 0 <==> Progress(before, data, stage) == before
    ensures Writes(before, data, stage) <= 4
  {
    var after := Progress(before, data, stage);
    if stage == 2 && FileWrites(before.files, data, "tls.crt") == 1 {
      assert after.files["tls.crt"] == data["tls.crt"];
    } else if stage >= 3 {
      assert after.files["tls.crt"] == data["tls.crt"] && after.files["tls.key"] == data["tls.key"];
    }
    if stage >= 4 && !Publishes(before.webhooks, data["ca.crt"]) {
      assert Publishes(after.webhooks, data["ca.crt"]);
    }
  }

  /** Once the places agree, a pass with nothing to renew writes nothing, however far it gets. */
  lemma AgreementNeedsNoWrites(domain: string, before: Places, p: Pass)
    requires InAgreement(before)
    requires !RootDue(before.secret.value, p.now) && !ServerDue(before.secret.value, p.now)
    ensures Validated(before.secret.value, domain, p.now, p.draw) == (before.secret.value, true)
    ensures Complete(before.secret.value) && Writes(before, before.secret.value, p.stage) == 0
    ensures AfterPass(domain, before, p) == before
  {
    WritesWhatChanges(before, before.secret.value, p.stage);
  }

  // ---------- what clients see ----------

  /** Clients trusting the published bundle accept the served certificate, and the server can use its key. */
  predicate Accepted(p: Places, t: Time) {
    && p.webhooks.Some? && |p.webhooks.value| == 1 && p.webhooks.value[0].caBundle.CertPem?
    && "tls.crt" in p.files && p.files["tls.crt"].CertPem? && "tls.key" in p.files && p.files["tls.key"].KeyPem?
    && var server, bundle := p.files["tls.crt"].cert, p.webhooks.value[0].caBundle.cert;
    && server.signedBy == bundle.publicKey && server.issuer == bundle.subject
    && server.publicKey == p.files["tls.key"].key
    && bundle.isCA && !server.isCA
    && ValidAt(server, t) && ValidAt(bundle, t)
  }

  predicate InAgreement(p: Places) {
    Agree(p.secret, p.files, p.webhooks)
  }

  /** Clients that trust the published CA bundle accept the server certificate in the file. */
  lemma AgreementServesTrustedCertificate(p: Places, success: Time, t: Time)
    requires InAgreement(p) && Healthy(p.secret.value, success)
    requires success <= t <= success + RENEWAL_THRESHOLD
    ensures Accepted(p, t)
  {
  }

  /** A pass with its time, its randomness, and how far it gets. */
  datatype Pass = Pass(now: Time, draw: Draw, stage: nat)

  function StoredIn(p: Places): Material {
    if p.secret.Some? then p.secret.value else map[]
  }

  function AfterPass(domain: string, before: Places, p: Pass): Places {
    var (d, ok) := Validated(StoredIn(before), domain, p.now, p.draw);
    if ok && Complete(d) then Progress(before, d, p.stage) else before
  }

  function AfterRun(domain: string, before: Places, run: seq<Pass>): Places
    decreases |run|
  {
    if run == [] then before else AfterPass(domain, AfterRun(domain, before, run[..|run| - 1]), run[|run| - 1])
  }

  /** The passes as the certificates of the secret see them. */
  function CertPasses(run: seq<Pass>): seq<CertPass>
    decreases |run|
  {
    if run == [] then []
    else
      var p := run[|run| - 1];
      CertPasses(run[..|run| - 1]) + [CertPass(p.now, p.draw, p.stage > 0)]
  }

  /** What a run stores in the secret is what the run of validations persists. */
  lemma {:induction false} SecretFollowsCertificates(domain: string, before: Places, run: seq<Pass>)
    ensures StoredIn(AfterRun(domain, before, run)) == After(StoredIn(before), domain, CertPasses(run))
    decreases |run|
  {
    if run != [] {
      var rest, p := run[..|run| - 1], run[|run| - 1];
      SecretFollowsCertificates(domain, before, rest);
      var src := StoredIn(AfterRun(domain, before, rest));
      OneMorePass(StoredIn(before), domain, CertPasses(rest), CertPass(p.now, p.draw, p.stage > 0));
      if Validated(src, domain, p.now, p.draw).1 {
        ValidatedIsComplete(src, domain, p.now, p.draw);
      }
    }
  }

  /** The keys drawn are not among those in use. */
  predicate Fresh(data: Material, draw: Draw) {
    && (draw.rootKey.Some? ==> forall k :: k in data ==>
          data[k] != KeyPem(draw.rootKey.value)
          && (data[k].CertPem? ==> data[k].cert.publicKey != draw.rootKey.value))
    && (draw.serverKey.Some? ==> forall k :: k in data ==> data[k] != KeyPem(draw.serverKey.value))
  }

  /** The renewal reached the certificate file but not the key file, or the files but not the bundle of a new root. */
  predicate Torn(src: Material, now: Time, stage: nat) {
    (stage == 2 && (RootDue(src, now) || ServerDue(src, now))) || (stage == 3 && RootDue(src, now))
  }

  /**
   * From agreement, a pass leaves clients unable to connect exactly when it stops between two places that belong
   * together.
   */
  lemma PassRejectedIff(domain: string, before: Places, success: Time, p: Pass, t: Time)
    requires InAgreement(before) && Healthy(before.secret.value, success)
    requires success <= p.now <= t <= success + RENEWAL_THRESHOLD
    requires Validated(before.secret.value, domain, p.now, p.draw).1 && Fresh(before.secret.value, p.draw)
    ensures Accepted(AfterPass(domain, before, p), t) <==> !Torn(before.secret.value, p.now, p.stage)
  {
    FourHoursLeft(before.secret.value, domain, p.now, p.draw);
    ChainAfterValidation(before.secret.value, domain, p.now, p.draw);
  }

  function Furthest(run: seq<Pass>): nat {
    if run == [] then 0
    else
      var rest := Furthest(run[..|run| - 1]);
      if run[|run| - 1].stage > rest then run[|run| - 1].stage else rest
  }

  lemma ProgressTwice(before: Places, data: Material, i: nat, k: nat)
    requires Complete(data)
    ensures Progress(Progress(before, data, i), data, k) == Progress(before, data, if i < k then k else i)
  {
  }

  /** While nothing more is due, later passes continue where the renewal stopped. */
  lemma {:induction false} RunContinues(domain: string, before: Places, run: seq<Pass>)
    requires run != [] && run[0].stage > 0
    requires Validated(StoredIn(before), domain, run[0].now, run[0].draw).1
    requires var d := Validated(StoredIn(before), domain, run[0].now, run[0].draw).0;
             forall i :: 0 < i < |run| ==> !RootDue(d, run[i].now) && !ServerDue(d, run[i].now)
    ensures var d := Validated(StoredIn(before), domain, run[0].now, run[0].draw).0;
            Complete(d) && AfterRun(domain, before, run) == Progress(before, d, Furthest(run)) && Furthest(run) > 0
    decreases |run|
  {
    ValidatedIsComplete(StoredIn(before), domain, run[0].now, run[0].draw);
    var n := |run| - 1;
    if n == 0 {
      assert run[..0] == [];
      assert Furthest(run[..0]) == 0;
    } else {
      var d := Validated(StoredIn(before), domain, run[0].now, run[0].draw).0;
      RunContinues(domain, before, run[..n]);
      ProgressTwice(before, d, Furthest(run[..n]), run[n].stage);
    }
  }

  /** Passes that store nothing: they fail early, or their validation does. */
  predicate Idle(domain: string, before: Places, run: seq<Pass>) {
    forall i :: 0 <= i < |run| ==>
      run[i].stage == 0 || !Validated(StoredIn(before), domain, run[i].now, run[i].draw).1
  }

  lemma {:induction false} IdleRun(domain: string, before: Places, run: seq<Pass>)
    requires Idle(domain, before, run)
    ensures AfterRun(domain, before, run) == before
    decreases |run|
  {
    if run != [] {
      IdleRun(domain, before, run[..|run| - 1]);
    }
  }

  lemma {:induction false} AfterBoth(domain: string, before: Places, a: seq<Pass>, b: seq<Pass>)
    ensures AfterRun(domain, before, a + b) == AfterRun(domain, AfterRun(domain, before, a), b)
    decreases |b|
  {
    if b == [] {
      assert a + b == a;
    } else {
      var n := |b| - 1;
      AfterBoth(domain, before, a, b[..n]);
      assert (a + b)[..|a| + n] == a + b[..n];
    }
  }

  /** The first pass of the run renews and stores, if there is one, and no later one has anything to renew. */
  predicate RenewsOnce(domain: string, before: Places, run: seq<Pass>) {
    run != [] ==>
      && run[0].stage > 0
      && Validated(StoredIn(before), domain, run[0].now, run[0].draw).1 && Fresh(StoredIn(before), run[0].draw)
      && var d := Validated(StoredIn(before), domain, run[0].now, run[0].draw).0;
         forall i :: 0 < i < |run| ==> !RootDue(d, run[i].now) && !ServerDue(d, run[i].now)
  }

  /**
   * Over a run in which any passes store nothing until one stores a renewal, up to when the next renewal is due:
   * clients are rejected exactly as long as the furthest any pass got lies between two places that belong together.
   */
  lemma RunRejectedIff(domain: string, before: Places, success: Time, idle: seq<Pass>, run: seq<Pass>, t: Time)
    requires InAgreement(before) && Healthy(before.secret.value, success)
    requires Idle(domain, before, idle) && RenewsOnce(domain, before, run)
    requires success <= t <= success + RENEWAL_THRESHOLD && (run != [] ==> success <= run[0].now <= t)
    ensures !Accepted(AfterRun(domain, before, idle + run), t) <==>
            run != [] && Torn(before.secret.value, run[0].now, Furthest(run))
  {
    IdleRun(domain, before, idle);
    AfterBoth(domain, before, idle, run);
    if run == [] {
      AgreementServesTrustedCertificate(before, success, t);
    } else {
      RunContinues(domain, before, run);
      PassRejectedIff(domain, before, success, run[0].(stage := Furthest(run)), t);
    }
  }
}
