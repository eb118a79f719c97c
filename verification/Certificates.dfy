/** Creating and renewing the webhook's root and server certificates. */
module Certificates {
  import opened Common

  /** Instants and durations in nanoseconds. */
  type Time = int
  const SECOND: int := 1_000_000_000
  const HOUR: int := 3600 * SECOND
  const RENEWAL_THRESHOLD: int := 4 * HOUR
  const ROOT_LIFETIME: int := 365 * 24 * HOUR
  const SERVER_LIFETIME: int := 7 * 24 * HOUR

  /** A key pair; the private and the public half share its number. */
  type Key = nat

  datatype Certificate = Certificate(
    subject: string,
    issuer: string,
    isCA: bool,
    publicKey: Key,
    signedBy: Key,
    notBefore: Time,
    notAfter: Time)

  /** A value of the secret: PEM of a private key, of a certificate, of something else, or no PEM at all. */
  datatype Blob = KeyPem(key: Key) | CertPem(cert: Certificate) | OtherPem(text: string) | NotPem(text: string)

  type Material = map<string, Blob>

  /** Validity times are encoded in whole seconds. */
  function Encode(t: Time): (e: Time)
    ensures e <= t < e + SECOND
  {
    t - t % SECOND
  }

  /** A certificate as encoding and decoding leaves it. */
  function Encoded(c: Certificate): Certificate {
    c.(notBefore := Encode(c.notBefore), notAfter := Encode(c.notAfter))
  }

  /**
   * What the random source and the signer yield during a pass; None or false is a failure. Releases of the Go library
   * differ in whether the signer refuses a key that does not belong to the parent certificate.
   */
  datatype Draw = Draw(
    rootKey: Option<Key>, rootSerial: bool, rootSigned: bool,
    serverKey: Option<Key>, serverSerial: bool, serverSigned: bool,
    checksParent: bool)

  /** What signing reads of the parent certificate; the template of a new root carries no public key. */
  datatype Parent = Parent(subject: string, publicKey: Option<Key>)

  function ParentOf(c: Certificate): Parent {
    Parent(c.subject, Some(c.publicKey))
  }

  /** Whether the signer produces a certificate. */
  predicate Signs(parent: Parent, rootKey: Key, draw: Draw) {
    draw.serverSigned && (draw.checksParent && parent.publicKey.Some? ==> parent.publicKey.value == rootKey)
  }

  // ---------- what is due ----------

  predicate RootDue(data: Material, now: Time) {
    || "ca.key" !in data || "ca.crt" !in data
    || !data["ca.crt"].CertPem?
    || now > data["ca.crt"].cert.notAfter - RENEWAL_THRESHOLD
    || !data["ca.key"].KeyPem?
  }

  predicate ServerDue(data: Material, now: Time) {
    || "tls.key" !in data || "tls.crt" !in data
    || !data["tls.crt"].CertPem?
    || now > data["tls.crt"].cert.notAfter - RENEWAL_THRESHOLD
  }

  function NewRoot(domain: string, key: Key, now: Time): Certificate {
    Certificate(domain, domain, true, key, key, Encode(now), Encode(now + ROOT_LIFETIME))
  }

  function NewServer(domain: string, issuer: string, key: Key, rootKey: Key, now: Time): Certificate {
    Certificate(domain, issuer, false, key, rootKey, Encode(now), Encode(now + SERVER_LIFETIME))
  }

  /** The data after trying to generate a root, and whether that worked. */
  function WithRoot(data: Material, domain: string, now: Time, draw: Draw): (Material, bool) {
    if draw.rootKey.None? then (data, false)
    else
      var keyed := data["ca.key" := KeyPem(draw.rootKey.value)];
      if !draw.rootSerial || !draw.rootSigned then (keyed, false)
      else (keyed["ca.crt" := CertPem(NewRoot(domain, draw.rootKey.value, now))], true)
  }

  function WithServer(data: Material, domain: string, parent: Parent, rootKey: Key, now: Time, draw: Draw)
    : (Material, bool)
  {
    if draw.serverKey.None? then (data, false)
    else
      var keyed := data["tls.key" := KeyPem(draw.serverKey.value)];
      if !draw.serverSerial || !Signs(parent, rootKey, draw) then (keyed, false)
      else (keyed["tls.crt" := CertPem(NewServer(domain, parent.subject, draw.serverKey.value, rootKey, now))], true)
  }

  /** The data a validation leaves, and whether it returned without an error. */
  function Validated(src: Material, domain: string, now: Time, draw: Draw): (Material, bool) {
    if RootDue(src, now) then
      var (rooted, ok) := WithRoot(src, domain, now, draw);
      if !ok then (rooted, false) else WithServer(rooted, domain, Parent(domain, None), draw.rootKey.value, now, draw)
    else if ServerDue(src, now) then
      WithServer(src, domain, ParentOf(src["ca.crt"].cert), src["ca.key"].key, now, draw)
    else (src, true)
  }

  // ---------- the class ----------

  /** A Go map on the heap: two variables can share one. */
  class DataMap {
    var m: Material

    constructor (m: Material)
      ensures this.m == m
    {
      this.m := m;
    }
  }

  class Certs {
    const domain: string
    const srcData: DataMap?
    var data: DataMap?
    var rootPrivateKey: Option<Key>
    var rootPublicCert: Option<Parent>

    constructor (domain: string, srcData: DataMap?)
      ensures this.domain == domain && this.srcData == srcData && data == null
    {
      this.domain, this.srcData := domain, srcData;
      data, rootPrivateKey, rootPublicCert := null, None, None;
    }

    function Source(): Material
      reads srcData
    {
      if srcData == null then map[] else srcData.m
    }

    method ValidateCerts(now: Time, draw: Draw) returns (ok: bool)
      modifies this
      ensures data != null && fresh(data)
      ensures (data.m, ok) == Validated(Source(), domain, now, draw)
    {
      data := new DataMap(map[]);
      if srcData != null {
        var keys := srcData.m.Keys;
        while keys != {}
          invariant data != null && fresh(data) && unchanged(srcData)
          invariant keys <= srcData.m.Keys
          invariant data.m.Keys == srcData.m.Keys - keys && forall k :: k in data.m ==> data.m[k] == srcData.m[k]
          decreases keys
        {
          var k :| k in keys;
          data.m := data.m[k := srcData.m[k]];
          keys := keys - {k};
        }
        assert data.m == srcData.m;
      }
      var renewRootCerts := ValidateRootCerts(now);
      if renewRootCerts {
        ok := GenerateRootCerts(now, draw);
        if !ok {
          return;
        }
      }
      if renewRootCerts {
        ok := GenerateServerCerts(now, draw);
        return;
      }
      var renewServerCerts := ValidateServerCerts(now);
      if renewServerCerts {
        ok := GenerateServerCerts(now, draw);
        return;
      }
      ok := true;
    }

    method ValidateRootCerts(now: Time) returns (due: bool)
      requires data != null
      modifies this`rootPrivateKey, this`rootPublicCert
      ensures due == RootDue(data.m, now)
      ensures !due ==>
        rootPublicCert == Some(ParentOf(data.m["ca.crt"].cert)) && rootPrivateKey == Some(data.m["ca.key"].key)
    {
      if "ca.key" !in data.m || "ca.crt" !in data.m {
        return true;
      }
      if !data.m["ca.crt"].CertPem? {
        return true;
      }
      var cert := data.m["ca.crt"].cert;
      rootPublicCert := Some(ParentOf(cert));
      if now > cert.notAfter - RENEWAL_THRESHOLD {
        return true;
      }
      if !data.m["ca.key"].KeyPem? {
        return true;
      }
      rootPrivateKey := Some(data.m["ca.key"].key);
      return false;
    }

    method ValidateServerCerts(now: Time) returns (due: bool)
      requires data != null
      ensures due == ServerDue(data.m, now)
    {
      if "tls.key" !in data.m || "tls.crt" !in data.m {
        return true;
      }
      if !data.m["tls.crt"].CertPem? {
        return true;
      }
      var cert := data.m["tls.crt"].cert;
      if now > cert.notAfter - RENEWAL_THRESHOLD {
        return true;
      }
      return false;
    }

    method GenerateRootCerts(now: Time, draw: Draw) returns (ok: bool)
      requires data != null && data != srcData
      modifies this`rootPrivateKey, this`rootPublicCert, data
      ensures (data.m, ok) == WithRoot(old(data.m), domain, now, draw)
      ensures ok ==> rootPrivateKey == draw.rootKey && rootPublicCert == Some(Parent(domain, None))
    {
      rootPrivateKey := draw.rootKey;
      if rootPrivateKey.None? {
        return false;
      }
      data.m := data.m["ca.key" := KeyPem(rootPrivateKey.value)];
      if !draw.rootSerial {
        return false;
      }
      // The template; encoding it rounds its validity to whole seconds.
      var key := rootPrivateKey.value;
      var template := Certificate(domain, domain, true, key, key, now, now + ROOT_LIFETIME);
      rootPublicCert := Some(Parent(domain, None));
      if !draw.rootSigned {
        return false;
      }
      data.m := data.m["ca.crt" := CertPem(Encoded(template))];
      return true;
    }

    method GenerateServerCerts(now: Time, draw: Draw) returns (ok: bool)
      requires data != null && data != srcData && rootPublicCert.Some? && rootPrivateKey.Some?
      modifies data
      ensures (data.m, ok) == WithServer(old(data.m), domain, rootPublicCert.value, rootPrivateKey.value, now, draw)
    {
      if draw.serverKey.None? {
        return false;
      }
      var key := draw.serverKey.value;
      data.m := data.m["tls.key" := KeyPem(key)];
      if !draw.serverSerial {
        return false;
      }
      var template := Certificate(domain, rootPublicCert.value.subject, false, key, rootPrivateKey.value,
                                  now, now + SERVER_LIFETIME);
      if !Signs(rootPublicCert.value, rootPrivateKey.value, draw) {
        return false;
      }
      data.m := data.m["tls.crt" := CertPem(Encoded(template))];
      return true;
    }
  }

  // ---------- chains ----------

  /** The root certificate belongs to the root key and is signed with it. */
  predicate RootSound(data: Material) {
    && "ca.key" in data && data["ca.key"].KeyPem? && "ca.crt" in data && data["ca.crt"].CertPem?
    && data["ca.crt"].cert.publicKey == data["ca.key"].key
    && data["ca.crt"].cert.signedBy == data["ca.key"].key
    && data["ca.crt"].cert.isCA
  }

  /** The server certificate belongs to the server key and is signed by the root certificate's key. */
  predicate ServerSound(data: Material) {
    && "ca.crt" in data && data["ca.crt"].CertPem?
    && "tls.key" in data && data["tls.key"].KeyPem? && "tls.crt" in data && data["tls.crt"].CertPem?
    && data["tls.crt"].cert.publicKey == data["tls.key"].key
    && data["tls.crt"].cert.signedBy == data["ca.crt"].cert.publicKey
    && data["tls.crt"].cert.issuer == data["ca.crt"].cert.subject
    && !data["tls.crt"].cert.isCA
  }

  predicate Chain(data: Material) {
    RootSound(data) && ServerSound(data)
  }

  /** Validity of RFC 5280, section 4.1.2.5: both ends inclusive. */
  predicate ValidAt(c: Certificate, t: Time) {
    c.notBefore <= t <= c.notAfter
  }

  predicate BothValidAt(data: Material, t: Time)
    requires Chain(data)
  {
    ValidAt(data["ca.crt"].cert, t) && ValidAt(data["tls.crt"].cert, t)
  }

  predicate StartedBy(data: Material, t: Time) {
    && ("ca.crt" in data && data["ca.crt"].CertPem? ==> data["ca.crt"].cert.notBefore <= t)
    && ("tls.crt" in data && data["tls.crt"].CertPem? ==> data["tls.crt"].cert.notBefore <= t)
  }

  /** For any data at all: a validation yields a chain exactly when what it kept was sound. */
  lemma ChainAfterValidation(src: Material, domain: string, now: Time, draw: Draw)
    requires Validated(src, domain, now, draw).1
    ensures Chain(Validated(src, domain, now, draw).0) <==>
            RootDue(src, now) || (RootSound(src) && (ServerDue(src, now) || ServerSound(src)))
  {
  }

  /** Whatever it started from, a validation leaves both certificates with at least four hours to run. */
  lemma FourHoursLeft(src: Material, domain: string, now: Time, draw: Draw)
    requires Validated(src, domain, now, draw).1
    ensures var d := Validated(src, domain, now, draw).0;
            && !RootDue(d, now) && !ServerDue(d, now)
            && d["ca.crt"].cert.notAfter >= now + 4 * HOUR
            && d["tls.crt"].cert.notAfter >= now + 4 * HOUR
            && (StartedBy(src, now) ==> StartedBy(d, now))
  {
  }

  /** The data is left alone exactly when nothing is due, as long as fresh keys are new. */
  lemma UntouchedIffNothingDue(src: Material, domain: string, now: Time, draw: Draw)
    requires Validated(src, domain, now, draw).1
    requires draw.rootKey.Some? ==> forall k :: k in src ==> src[k] != KeyPem(draw.rootKey.value)
    requires draw.serverKey.Some? ==> forall k :: k in src ==> src[k] != KeyPem(draw.serverKey.value)
    ensures Validated(src, domain, now, draw).0 == src <==> !RootDue(src, now) && !ServerDue(src, now)
  {
    var d := Validated(src, domain, now, draw).0;
    if RootDue(src, now) {
      assert d["ca.key"] == KeyPem(draw.rootKey.value);
    } else if ServerDue(src, now) {
      assert d["tls.key"] == KeyPem(draw.serverKey.value);
    }
  }

  /** A second validation at the same instant finds nothing to do. */
  lemma ValidationIdempotent(src: Material, domain: string, now: Time, draw: Draw, again: Draw)
    requires Validated(src, domain, now, draw).1
    ensures var d := Validated(src, domain, now, draw).0;
            Validated(d, domain, now, again) == (d, true)
  {
    FourHoursLeft(src, domain, now, draw);
  }

  /** Both certificates are made out to the webhook's service. */
  predicate NamedFor(data: Material, domain: string) {
    && "ca.crt" in data && data["ca.crt"].CertPem? && data["ca.crt"].cert.subject == domain
    && "tls.crt" in data && data["tls.crt"].CertPem? && data["tls.crt"].cert.subject == domain
  }

  /** A renewed certificate is made out to the domain, and what is kept keeps its name. */
  lemma RenewalNames(src: Material, domain: string, now: Time, draw: Draw)
    requires Validated(src, domain, now, draw).1
    ensures NamedFor(Validated(src, domain, now, draw).0, domain) <==>
            RootDue(src, now)
            || (src["ca.crt"].cert.subject == domain && (ServerDue(src, now) || src["tls.crt"].cert.subject == domain))
  {
  }

  /** A new root is not due again for a year and a new server certificate not for a week, but for the four hours. */
  lemma RenewalLasts(src: Material, domain: string, now: Time, draw: Draw, t: Time)
    requires Validated(src, domain, now, draw).1
    ensures var d := Validated(src, domain, now, draw).0;
            && (RootDue(src, now) && t <= now + (365 * 24 - 4) * HOUR - SECOND ==> !RootDue(d, t))
            && (RootDue(src, now) && t >= now + (365 * 24 - 4) * HOUR + SECOND ==> RootDue(d, t))
            && (RootDue(src, now) || ServerDue(src, now) ==>
                  && (t <= now + (7 * 24 - 4) * HOUR - SECOND ==> !ServerDue(d, t))
                  && (t >= now + (7 * 24 - 4) * HOUR + SECOND ==> ServerDue(d, t)))
  {
  }

  /** Nothing of the secret but the four entries is ever touched. */
  lemma OthersKept(src: Material, domain: string, now: Time, draw: Draw, k: string)
    requires k != "ca.key" && k != "ca.crt" && k != "tls.key" && k != "tls.crt"
    ensures var d := Validated(src, domain, now, draw).0;
            (k in d <==> k in src) && (k in d ==> d[k] == src[k])
  {
  }

  // ---------- a root key that does not belong to the root certificate ----------

  predicate RootMismatched(data: Material) {
    && "ca.key" in data && data["ca.key"].KeyPem? && "ca.crt" in data && data["ca.crt"].CertPem?
    && data["ca.crt"].cert.publicKey != data["ca.key"].key
  }

  /** Nothing fails by itself. */
  predicate Works(draw: Draw) {
    draw.rootKey.Some? && draw.rootSerial && draw.rootSigned && draw.serverKey.Some? && draw.serverSerial
        && draw.serverSigned
  }

  /** The validation looks at the root key only when it signs: a mismatch stops it iff the signer refuses it then. */
  lemma MismatchStopsIff(src: Material, domain: string, now: Time, draw: Draw)
    requires RootMismatched(src) && Works(draw)
    ensures !Validated(src, domain, now, draw).1 <==> !RootDue(src, now) && ServerDue(src, now) && draw.checksParent
  {
  }

  /** A key or certificate is kept exactly as long as it is there, decodes and has four hours left to the second. */
  lemma KeptIff(data: Material, now: Time)
    ensures !RootDue(data, now) <==>
              && "ca.key" in data && data["ca.key"].KeyPem?
              && "ca.crt" in data && data["ca.crt"].CertPem? && data["ca.crt"].cert.notAfter - now >= 4 * HOUR
    ensures !ServerDue(data, now) <==>
              && "tls.key" in data
              && "tls.crt" in data && data["tls.crt"].CertPem? && data["tls.crt"].cert.notAfter - now >= 4 * HOUR
  {
  }

  /** A validation fails exactly if a step it needs does, for the root or the server, or the signer's check. */
  lemma ValidationFailsIff(src: Material, domain: string, now: Time, draw: Draw)
    ensures !Validated(src, domain, now, draw).1 <==>
              || (RootDue(src, now) && (draw.rootKey.None? || !draw.rootSerial || !draw.rootSigned))
              || ((RootDue(src, now) || ServerDue(src, now))
                  && (draw.serverKey.None? || !draw.serverSerial || !draw.serverSigned))
              || (!RootDue(src, now) && ServerDue(src, now) && draw.checksParent && RootMismatched(src))
  {
  }

  /**
   * A server certificate that a validation writes is signed by the root certificate beside it unless the root was kept
   * and its key does not belong to it, which a signer that checks does not let happen.
   */
  lemma WrittenIsSoundIff(src: Material, domain: string, now: Time, draw: Draw)
    requires Validated(src, domain, now, draw).1 && (RootDue(src, now) || ServerDue(src, now))
    ensures ServerSound(Validated(src, domain, now, draw).0) <==> RootDue(src, now) || !RootMismatched(src)
    ensures draw.checksParent ==> ServerSound(Validated(src, domain, now, draw).0)
  {
  }

  // ---------- whole runs ----------

  /** One pass: its time, its randomness, and whether the API server accepts a write. */
  datatype CertPass = CertPass(now: Time, draw: Draw, accepted: bool)

  predicate Succeeds(persisted: Material, domain: string, p: CertPass) {
    var (d, ok) := Validated(persisted, domain, p.now, p.draw);
    ok && (d == persisted || p.accepted)
  }

  function Persisted(persisted: Material, domain: string, p: CertPass): Material {
    if Succeeds(persisted, domain, p) then Validated(persisted, domain, p.now, p.draw).0 else persisted
  }

  /** The persisted data after a run. */
  function After(src: Material, domain: string, run: seq<CertPass>): Material
    decreases |run|
  {
    if run == [] then src
    else Persisted(After(src, domain, run[..|run| - 1]), domain, run[|run| - 1])
  }

  /** When the last successful pass of a run was. */
  function LastSuccess(src: Material, domain: string, run: seq<CertPass>): Option<Time>
    decreases |run|
  {
    if run == [] then None
    else
      var before := run[..|run| - 1];
      var p := run[|run| - 1];
      if Succeeds(After(src, domain, before), domain, p) then Some(p.now) else LastSuccess(src, domain, before)
  }

  predicate ClockOrdered(run: seq<CertPass>) {
    forall i, j :: 0 <= i < j < |run| ==> run[i].now <= run[j].now
  }

  /** After a success: a chain that started by then and has four more hours to run. */
  predicate Healthy(data: Material, success: Time) {
    && Chain(data) && StartedBy(data, success)
    && data["ca.crt"].cert.notAfter >= success + RENEWAL_THRESHOLD
    && data["tls.crt"].cert.notAfter >= success + RENEWAL_THRESHOLD
  }

  lemma {:induction false} RunHealthy(domain: string, run: seq<CertPass>)
    requires ClockOrdered(run)
    ensures match LastSuccess(map[], domain, run)
            case None => After(map[], domain, run) == map[]
            case Some(t) =>
              && Healthy(After(map[], domain, run), t) && NamedFor(After(map[], domain, run), domain)
              && run != [] && t <= run[|run| - 1].now
    decreases |run|
  {
    if run != [] {
      var before, p := run[..|run| - 1], run[|run| - 1];
      RunHealthy(domain, before);
      var src := After(map[], domain, before);
      if Succeeds(src, domain, p) {
        assert LastSuccess(map[], domain, before).Some? ==> StartedBy(src, p.now) by {
          if LastSuccess(map[], domain, before).Some? {
            assert before[|before| - 1].now <= p.now;
          }
        }
        ChainAfterValidation(src, domain, p.now, p.draw);
        FourHoursLeft(src, domain, p.now, p.draw);
        RenewalNames(src, domain, p.now, p.draw);
      }
    }
  }

  /** No pass comes more than four hours after the last successful one before it. */
  predicate FrequentEnough(domain: string, run: seq<CertPass>) {
    forall i :: 0 < i < |run| && LastSuccess(map[], domain, run[..i]).Some? ==>
      run[i].now <= LastSuccess(map[], domain, run[..i]).value + RENEWAL_THRESHOLD
  }

  /**
   * Starting from no data, from the first successful pass on and at every instant up to the next pass, the persisted
   * server certificate is signed by the persisted root certificate and both are within their validity.
   */
  lemma AlwaysValid(domain: string, run: seq<CertPass>, i: nat, t: Time)
    requires ClockOrdered(run) && FrequentEnough(domain, run)
    requires 0 < i < |run| && run[i - 1].now <= t <= run[i].now
    requires LastSuccess(map[], domain, run[..i]).Some?
    ensures Chain(After(map[], domain, run[..i])) && BothValidAt(After(map[], domain, run[..i]), t)
    ensures NamedFor(After(map[], domain, run[..i]), domain)
  {
    RunHealthy(domain, run[..i]);
  }

  lemma OneMorePass(src: Material, domain: string, run: seq<CertPass>, p: CertPass)
    ensures After(src, domain, run + [p]) == Persisted(After(src, domain, run), domain, p)
    ensures LastSuccess(src, domain, run + [p])
         == if Succeeds(After(src, domain, run), domain, p) then Some(p.now) else LastSuccess(src, domain, run)
  {
    assert (run + [p])[..|run|] == run;
  }

  /** A pass that does not succeed is as if it had not been, wherever in a run it happens. */
  lemma {:induction false} FailingPassPersistsNothing(
      src: Material, domain: string, a: seq<CertPass>, p: CertPass, b: seq<CertPass>)
    requires !Succeeds(After(src, domain, a), domain, p)
    ensures After(src, domain, a + [p] + b) == After(src, domain, a + b)
    ensures LastSuccess(src, domain, a + [p] + b) == LastSuccess(src, domain, a + b)
    decreases |b|
  {
    OneMorePass(src, domain, a, p);
    if b == [] {
      assert a + [p] + b == a + [p] && a + b == a;
    } else {
      var b', q := b[..|b| - 1], b[|b| - 1];
      FailingPassPersistsNothing(src, domain, a, p, b');
      OneMorePass(src, domain, a + [p] + b', q);
      OneMorePass(src, domain, a + b', q);
      assert a + [p] + b == a + [p] + b' + [q];
      assert a + b == a + b' + [q];
    }
  }

  /**
   * With a signer that checks, a mismatched root blocks every pass from the moment the server certificate is due until
   * the root itself is: nothing succeeds and nothing is written.
   */
  lemma {:induction false} MismatchBlocksRenewal(src: Material, domain: string, run: seq<CertPass>)
    requires RootMismatched(src)
    requires forall i :: 0 <= i < |run| ==>
      run[i].draw.checksParent && !RootDue(src, run[i].now) && ServerDue(src, run[i].now)
    ensures After(src, domain, run) == src && LastSuccess(src, domain, run) == None
    decreases |run|
  {
    if run != [] {
      MismatchBlocksRenewal(src, domain, run[..|run| - 1]);
    }
  }
}
