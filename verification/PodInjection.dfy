/** The mutating webhook: a pod goes in, and the pod with the OneAgent injected comes out. */
module PodInjection {
  import opened Common
  import opened Text
  import opened EnvVars

  // ---------- constants ----------

  const LABEL_INSTANCE := "oneagent.dynatrace.com/instance"
  const ANNOTATION_INJECT := "oneagent.dynatrace.com/inject"
  const ANNOTATION_INJECTED := "oneagent.dynatrace.com/injected"
  const ANNOTATION_FLAVOR := "oneagent.dynatrace.com/flavor"
  const ANNOTATION_TECHNOLOGIES := "oneagent.dynatrace.com/technologies"
  const ANNOTATION_INSTALL_PATH := "oneagent.dynatrace.com/install-path"
  const ANNOTATION_INSTALLER_URL := "oneagent.dynatrace.com/installer-url"
  const ANNOTATION_FAILURE_POLICY := "oneagent.dynatrace.com/failure-policy"
  const ANNOTATION_IMAGE := "oneagent.dynatrace.com/image"
  const DEFAULT_INSTALL_PATH := "/opt/dynatrace/oneagent-paas"
  const SECRET_CONFIG_NAME := "dynatrace-oneagent-config"
  const PULL_SECRET_NAME := "dynatrace-oneagent-pull-secret"

  const BAD_REQUEST := 400
  const INTERNAL_SERVER_ERROR := 500

  // ---------- objects ----------

  datatype VolumeMount = VolumeMount(name: string, mountPath: string, subPath: string)

  datatype Volume = EmptyDir(name: string) | SecretVolume(name: string, secretName: string) | OtherVolume(name: string)

  /** Fields the webhook neither reads nor writes are kept in others. */
  datatype Container = Container(
    name: string,
    image: string,
    command: seq<string>,
    args: seq<string>,
    env: seq<EnvVar>,
    volumeMounts: seq<VolumeMount>,
    securityContext: Option<string>,
    resources: string,
    others: string)

  datatype PodValue = PodValue(
    name: string,
    generateName: string,
    annotations: map<string, string>,
    volumes: seq<Volume>,
    imagePullSecrets: seq<string>,
    containers: seq<Container>,
    initContainers: seq<Container>)

  datatype Namespace = Namespace(annotations: map<string, string>, labels: map<string, string>)

  datatype OneAgentAPM = OneAgentAPM(
    flavor: string,
    image: string,
    apiURL: string,
    agentVersion: string,
    networkZone: string,
    proxy: Option<Proxy>,
    resources: string,
    useImmutableImage: bool)

  datatype ApmAnswer = Found(apm: OneAgentAPM) | NotFound | GetFailed

  /** What the API server answers while a request is handled. */
  datatype Cluster = Cluster(namespace: Option<Namespace>, apm: string -> ApmAnswer)

  /** url.QueryEscape, and the code module image for an API URL, flavor, technologies and version. */
  datatype Library = Library(
      queryEscape: string -> string, buildImage: (string, string, string, string) -> Option<string>)

  /** The webhook's answer; Patched carries the pod that the patch produces. */
  datatype Response = Errored(code: int) | Unpatched | Patched(pod: PodValue) | Panicked

  // ---------- the settings of an injection ----------

  /** An empty value counts as absent. */
  function GetField(values: map<string, string>, key: string, defaultValue: string): (r: string)
    ensures r == "" ==> defaultValue == ""
  {
    if key in values && values[key] != "" then values[key] else defaultValue
  }

  datatype Settings = Settings(
    flavor: string,
    technologies: string,
    installPath: string,
    installerURL: string,
    imageAnnotation: string,
    failurePolicy: string)

  function GetFlavor(libc: string, annotations: map<string, string>, lib: Library): (r: string)
    ensures r == "musl" || r == "default"
  {
    if lib.queryEscape(GetField(annotations, ANNOTATION_FLAVOR, libc)) == "musl" then "musl" else "default"
  }

  function SettingsOf(annotations: map<string, string>, apm: OneAgentAPM, lib: Library): Settings {
    Settings(
      GetFlavor(apm.flavor, annotations, lib),
      lib.queryEscape(GetField(annotations, ANNOTATION_TECHNOLOGIES, "all")),
      GetField(annotations, ANNOTATION_INSTALL_PATH, DEFAULT_INSTALL_PATH),
      GetField(annotations, ANNOTATION_INSTALLER_URL, ""),
      GetField(annotations, ANNOTATION_IMAGE, ""),
      GetField(annotations, ANNOTATION_FAILURE_POLICY, "silent"))
  }

  /** The image of the init container; None when the API URL names no registry. */
  function InitImage(own: string, apm: OneAgentAPM, s: Settings, lib: Library): Option<string> {
    if s.installerURL != "" || !apm.useImmutableImage then Some(own)
    else if s.imageAnnotation != "" then Some(s.imageAnnotation)
    else if apm.image != "" then Some(apm.image)
    else lib.buildImage(apm.apiURL, s.flavor, s.technologies, apm.agentVersion)
  }

  /** The part of a name before its last dash, or all of it. */
  function BasePodName(name: string): (r: string)
    ensures Free(name, '-') ==> r == name
    ensures !Free(name, '-') ==> |r| < |name| && r + "-" + name[|r| + 1..] == name && Free(name[|r| + 1..], '-')
  {
    BeforeLastDash(name, |name|)
  }

  function BeforeLastDash(name: string, n: nat): (r: string)
    requires n <= |name|
    requires forall i :: n <= i < |name| ==> name[i] != '-'
    ensures Free(name, '-') ==> r == name
    ensures !Free(name, '-') ==> |r| < |name| && r + "-" + name[|r| + 1..] == name && Free(name[|r| + 1..], '-')
  {
    if n == 0 then name
    else if name[n - 1] == '-' then name[..n - 1]
    else BeforeLastDash(name, n - 1)
  }

  // ---------- the specification of the result ----------

  function Given(name: string, value: string): EnvVar {
    EnvVar(name, value, None)
  }

  function FromField(name: string, path: string): EnvVar {
    EnvVar(name, "", Some(FieldRef(path)))
  }

  /** The variables of the init container that do not belong to one container. */
  function InitEnv(count: nat, baseName: string, useImmutableImage: bool, s: Settings): seq<EnvVar> {
    [Given("FLAVOR", s.flavor),
     Given("TECHNOLOGIES", s.technologies),
     Given("INSTALLPATH", s.installPath),
     Given("INSTALLER_URL", s.installerURL),
     Given("FAILURE_POLICY", s.failurePolicy),
     Given("CONTAINERS_COUNT", Itoa(count)),
     FromField("K8S_PODNAME", "metadata.name"),
     FromField("K8S_PODUID", "metadata.uid"),
     Given("K8S_BASEPODNAME", baseName),
     FromField("K8S_NAMESPACE", "metadata.namespace"),
     FromField("K8S_NODE_NAME", "spec.nodeName"),
     Given("USE_IMMUTABLE_IMAGE", if useImmutableImage then "true" else "")]
  }

  function ContainerVar(i: nat, suffix: string): string {
    "CONTAINER_" + Itoa(i) + suffix
  }

  /** The two variables of the container at position i, counting from 1. */
  function ContainerVars(i: nat, c: Container): seq<EnvVar> {
    [Given(ContainerVar(i, "_NAME"), c.name), Given(ContainerVar(i, "_IMAGE"), c.image)]
  }

  function AllContainerVars(containers: seq<Container>): seq<EnvVar> {
    if containers == [] then []
    else
      var n := |containers| - 1;
      AllContainerVars(containers[..n]) + ContainerVars(n + 1, containers[n])
  }

  function ConfFile(name: string): string {
    "container_" + name + ".conf"
  }

  const CONF_PATH := "/var/lib/dynatrace/oneagent/agent/config/container.conf"

  function AddedMounts(name: string, installPath: string): seq<VolumeMount> {
    [VolumeMount("oneagent", "/etc/ld.so.preload", "ld.so.preload"),
     VolumeMount("oneagent", installPath, ""),
     VolumeMount("oneagent", CONF_PATH, ConfFile(name))]
  }

  predicate UsesProxy(apm: OneAgentAPM) {
    apm.proxy.Some? && (apm.proxy.value.value != "" || apm.proxy.value.valueFrom != "")
  }

  function AddedEnv(apm: OneAgentAPM, installPath: string): seq<EnvVar> {
    [Given("LD_PRELOAD", installPath + "/agent/lib64/liboneagentproc.so")]
    + (if UsesProxy(apm) then [EnvVar("DT_PROXY", "", Some(SecretKeyRef(SECRET_CONFIG_NAME, "proxy")))] else [])
    + (if apm.networkZone != "" then [Given("DT_NETWORK_ZONE", apm.networkZone)] else [])
  }

  function Instrumented(c: Container, apm: OneAgentAPM, installPath: string): Container {
    c.(volumeMounts := c.volumeMounts + AddedMounts(c.name, installPath), env := c.env + AddedEnv(apm, installPath))
  }

  function InstrumentedAll(cs: seq<Container>, apm: OneAgentAPM, installPath: string): (r: seq<Container>)
    ensures |r| == |cs| && forall i :: 0 <= i < |cs| ==> r[i] == Instrumented(cs[i], apm, installPath)
  {
    seq(|cs|, i requires 0 <= i < |cs| => Instrumented(cs[i], apm, installPath))
  }

  const INIT_MOUNTS := [
    VolumeMount("init", "/mnt/init", ""),
    VolumeMount("oneagent", "/mnt/oneagent", ""),
    VolumeMount("oneagent-config", "/mnt/config", "")]

  function InstallContainer(image: string, env: seq<EnvVar>, sc: Option<string>, resources: string): Container {
    Container(
      "install-oneagent", image, ["/usr/bin/env"], ["bash", "/mnt/config/init.sh"], env, INIT_MOUNTS, sc, resources,
      "imagePullPolicy: Always")
  }

  function InitContainer(pod: PodValue, apm: OneAgentAPM, s: Settings, image: string): Container
    requires pod.containers != []
  {
    var baseName := BasePodName(if pod.generateName != "" then pod.generateName else pod.name);
    InstallContainer(
      image, InitEnv(|pod.containers|, baseName, apm.useImmutableImage, s) + AllContainerVars(pod.containers),
      pod.containers[0].securityContext, apm.resources)
  }

  const ADDED_VOLUMES := [EmptyDir("init"), EmptyDir("oneagent"), SecretVolume("oneagent-config", SECRET_CONFIG_NAME)]

  predicate NeedsPullSecret(apm: OneAgentAPM, s: Settings) {
    apm.image == "" && s.imageAnnotation == "" && apm.useImmutableImage
  }

  function Injected(pod: PodValue, apm: OneAgentAPM, s: Settings, image: string): PodValue
    requires pod.containers != []
  {
    pod.(annotations := pod.annotations[ANNOTATION_INJECTED := "true"],
         volumes := pod.volumes + ADDED_VOLUMES,
         imagePullSecrets := pod.imagePullSecrets + if NeedsPullSecret(apm, s) then [PULL_SECRET_NAME] else [],
         containers := InstrumentedAll(pod.containers, apm, s.installPath),
         initContainers := pod.initContainers + [InitContainer(pod, apm, s, image)])
  }

  predicate WantsInjection(pod: PodValue, ns: Namespace) {
    GetField(pod.annotations, ANNOTATION_INJECT, GetField(ns.annotations, ANNOTATION_INJECT, "true")) != "false"
  }

  predicate IsInjected(pod: PodValue) {
    ANNOTATION_INJECTED in pod.annotations && pod.annotations[ANNOTATION_INJECTED] == "true"
  }

  function InstanceOf(ns: Namespace): string {
    GetField(ns.labels, LABEL_INSTANCE, "")
  }

  function Respond(pod: PodValue, cluster: Cluster, own: string, lib: Library): Response {
    if cluster.namespace.None? then Errored(INTERNAL_SERVER_ERROR)
    else if !WantsInjection(pod, cluster.namespace.value) then Unpatched
    else if InstanceOf(cluster.namespace.value) == "" then Errored(BAD_REQUEST)
    else match cluster.apm(InstanceOf(cluster.namespace.value))
      case NotFound => Errored(BAD_REQUEST)
      case GetFailed => Errored(INTERNAL_SERVER_ERROR)
      case Found(apm) => if IsInjected(pod) then Unpatched else RespondToNew(pod, apm, own, lib)
  }

  function RespondToNew(pod: PodValue, apm: OneAgentAPM, own: string, lib: Library): Response {
    var s := SettingsOf(pod.annotations, apm, lib);
    match InitImage(own, apm, s, lib)
    case None => Errored(INTERNAL_SERVER_ERROR)
    case Some(image) => if pod.containers == [] then Panicked else Patched(Injected(pod, apm, s, image))
  }

  /** Marking the pod changes none of the settings read from its annotations. */
  lemma MarkIsNoSetting(annotations: map<string, string>, apm: OneAgentAPM, lib: Library)
    ensures SettingsOf(annotations[ANNOTATION_INJECTED := "true"], apm, lib) == SettingsOf(annotations, apm, lib)
  {
    var at := |"oneagent.dynatrace.com/"|;
    assert ANNOTATION_INJECTED[at + 7] == 'd' && |ANNOTATION_INJECTED| == at + 8;
    assert |ANNOTATION_FLAVOR| == at + 6 && |ANNOTATION_TECHNOLOGIES| == at + 12
      && |ANNOTATION_INSTALL_PATH| == at + 12;
    assert |ANNOTATION_INSTALLER_URL| == at + 13 && |ANNOTATION_IMAGE| == at + 5
      && |ANNOTATION_FAILURE_POLICY| == at + 14;
  }

  /** The first i containers are instrumented and the others are as before. */
  predicate InstrumentedUpTo(
      before: seq<Container>, i: nat, apm: OneAgentAPM, installPath: string, cur: seq<Container>)
  {
    && |cur| == |before|
    && forall j :: 0 <= j < |cur| ==> cur[j] == if j < i then Instrumented(before[j], apm, installPath) else before[j]
  }

  lemma InstrumentedNext(before: seq<Container>, i: nat, apm: OneAgentAPM, installPath: string, cur: seq<Container>)
    requires i < |before| && InstrumentedUpTo(before, i, apm, installPath, cur)
    ensures cur[i] == before[i]
    ensures InstrumentedUpTo(before, i + 1, apm, installPath, cur[i := Instrumented(cur[i], apm, installPath)])
    ensures AllContainerVars(before[..i + 1]) == AllContainerVars(before[..i]) + ContainerVars(i + 1, cur[i])
  {
    assert before[..i + 1][..i] == before[..i];
  }

  lemma InstrumentedAtEnd(before: seq<Container>, apm: OneAgentAPM, installPath: string, cur: seq<Container>)
    requires InstrumentedUpTo(before, |before|, apm, installPath, cur)
    ensures cur == InstrumentedAll(before, apm, installPath)
    ensures before[..|before|] == before
  {
  }

  // ---------- the code ----------

  class Pod {
    const name: string
    const generateName: string
    var annotations: map<string, string>
    var volumes: seq<Volume>
    var imagePullSecrets: seq<string>
    var containers: seq<Container>
    var initContainers: seq<Container>

    constructor (v: PodValue)
      ensures Value() == v
    {
      name, generateName, annotations, volumes := v.name, v.generateName, v.annotations, v.volumes;
      imagePullSecrets, containers, initContainers := v.imagePullSecrets, v.containers, v.initContainers;
    }

    function Value(): PodValue
      reads this
    {
      PodValue(name, generateName, annotations, volumes, imagePullSecrets, containers, initContainers)
    }
  }

  class PodInjector {
    const image: string
    const lib: Library

    constructor (image: string, lib: Library) {
      this.image, this.lib := image, lib;
    }

    method InstrumentContainer(c: Container, apm: OneAgentAPM, installPath: string) returns (r: Container)
      ensures r == Instrumented(c, apm, installPath)
    {
      var mounts := c.volumeMounts + AddedMounts(c.name, installPath);
      var added := [Given("LD_PRELOAD", installPath + "/agent/lib64/liboneagentproc.so")];
      if apm.proxy.Some? && (apm.proxy.value.value != "" || apm.proxy.value.valueFrom != "") {
        added := added + [EnvVar("DT_PROXY", "", Some(SecretKeyRef(SECRET_CONFIG_NAME, "proxy")))];
      }
      if apm.networkZone != "" {
        added := added + [Given("DT_NETWORK_ZONE", apm.networkZone)];
      }
      return c.(volumeMounts := mounts, env := c.env + added);
    }

    /** Appends to the mounts and variables of every container, and collects what the init container is told. */
    method InstrumentContainers(pod: Pod, apm: OneAgentAPM, installPath: string, initEnv: seq<EnvVar>)
      returns (env: seq<EnvVar>)
      modifies pod`containers
      ensures pod.containers == InstrumentedAll(old(pod.containers), apm, installPath)
      ensures env == initEnv + AllContainerVars(old(pod.containers))
    {
      ghost var before := pod.containers;
      env := initEnv;
      for i := 0 to |pod.containers|
        invariant InstrumentedUpTo(before, i, apm, installPath, pod.containers)
        invariant env == initEnv + AllContainerVars(before[..i])
      {
        InstrumentedNext(before, i, apm, installPath, pod.containers);
        ghost var vars := AllContainerVars(before[..i]);
        var c := pod.containers[i];
        env := env + ContainerVars(i + 1, c);
        assert env == initEnv + (vars + ContainerVars(i + 1, c));
        c := InstrumentContainer(c, apm, installPath);
        pod.containers := pod.containers[i := c];
      }
      InstrumentedAtEnd(before, apm, installPath, pod.containers);
    }

    method ChooseImage(apm: OneAgentAPM, s: Settings) returns (r: Option<string>)
      ensures r == InitImage(image, apm, s, lib)
    {
      r := Some(image);
      if s.installerURL == "" && apm.useImmutableImage {
        if apm.image == "" && s.imageAnnotation == "" {
          r := lib.buildImage(apm.apiURL, s.flavor, s.technologies, apm.agentVersion);
        } else if s.imageAnnotation != "" {
          r := Some(s.imageAnnotation);
        } else if apm.image != "" {
          r := Some(apm.image);
        }
      }
    }

    /** The changes to the pod once the image is known; the pod has been marked already. */
    method Extend(pod: Pod, apm: OneAgentAPM, s: Settings, initImage: string) returns (panicked: bool)
      modifies pod`volumes, pod`imagePullSecrets, pod`containers, pod`initContainers
      ensures panicked <==> old(pod.containers) == []
      ensures !panicked ==> pod.volumes == old(pod.volumes) + ADDED_VOLUMES
      ensures !panicked ==> pod.containers == InstrumentedAll(old(pod.containers), apm, s.installPath)
      ensures !panicked ==>
        pod.imagePullSecrets == old(pod.imagePullSecrets) + if NeedsPullSecret(apm, s) then [PULL_SECRET_NAME] else []
      ensures !panicked ==>
        pod.initContainers == old(pod.initContainers) + [InitContainer(old(pod.Value()), apm, s, initImage)]
    {
      pod.volumes := pod.volumes + ADDED_VOLUMES;
      if |pod.containers| == 0 {
        return true;
      }
      var sc := pod.containers[0].securityContext;
      if NeedsPullSecret(apm, s) {
        pod.imagePullSecrets := pod.imagePullSecrets + [PULL_SECRET_NAME];
      }
      var basePodName := pod.generateName;
      if basePodName == "" {
        basePodName := pod.name;
      }
      basePodName := BasePodName(basePodName);
      var env := InitEnv(|pod.containers|, basePodName, apm.useImmutableImage, s);
      env := InstrumentContainers(pod, apm, s.installPath, env);
      pod.initContainers := pod.initContainers + [InstallContainer(initImage, env, sc, apm.resources)];
      return false;
    }

    /** A failed choice of the image, or a pod without containers, ends the handling half way. */
    method Inject(pod: Pod, apm: OneAgentAPM) returns (r: Response)
      modifies pod
      ensures r == RespondToNew(old(pod.Value()), apm, image, lib)
      ensures r.Patched? ==> r.pod == pod.Value()
    {
      MarkIsNoSetting(pod.annotations, apm, lib);
      pod.annotations := pod.annotations[ANNOTATION_INJECTED := "true"];
      var s := SettingsOf(pod.annotations, apm, lib);
      var chosen := ChooseImage(apm, s);
      if chosen.None? {
        return Errored(INTERNAL_SERVER_ERROR);
      }
      var panicked := Extend(pod, apm, s, chosen.value);
      if panicked {
        return Panicked;
      }
      return Patched(pod.Value());
    }

    method Handle(decoded: bool, pod: Pod, cluster: Cluster) returns (r: Response)
      modifies pod
      ensures r == if decoded then Respond(old(pod.Value()), cluster, image, lib) else Errored(BAD_REQUEST)
      ensures r.Patched? ==> r.pod == pod.Value()
    {
      if !decoded {
        return Errored(BAD_REQUEST);
      }
      if cluster.namespace.None? {
        return Errored(INTERNAL_SERVER_ERROR);
      }
      var ns := cluster.namespace.value;
      var inject := GetField(ns.annotations, ANNOTATION_INJECT, "true");
      inject := GetField(pod.annotations, ANNOTATION_INJECT, inject);
      if inject == "false" {
        return Unpatched;
      }
      var oaName := GetField(ns.labels, LABEL_INSTANCE, "");
      if oaName == "" {
        return Errored(BAD_REQUEST);
      }
      var answer := cluster.apm(oaName);
      if answer.NotFound? {
        return Errored(BAD_REQUEST);
      } else if answer.GetFailed? {
        return Errored(INTERNAL_SERVER_ERROR);
      }
      if ANNOTATION_INJECTED in pod.annotations && pod.annotations[ANNOTATION_INJECTED] == "true" {
        return Unpatched;
      }
      r := Inject(pod, answer.apm);
    }
  }
}
