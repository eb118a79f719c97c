/** When a pod is injected, and what the containers of the injected pod are given. */
module InjectionMeaning {
  import opened Common
  import opened EnvVars
  import opened PodInjection
  import opened PodProperties

  // ---------- whether ----------

  /** An annotation or label counts only if it is set to something. */
  predicate IsSet(values: map<string, string>, key: string) {
    key in values && values[key] != ""
  }

  /** The value read for a key: what it is set to, or else the default. */
  predicate ReadAs(values: map<string, string>, key: string, otherwise: string, v: string) {
    v == if IsSet(values, key) then values[key] else otherwise
  }

  /** A pod is injected unless it, or where it says nothing its namespace, opts out. */
  lemma InjectionWanted(pod: PodValue, ns: Namespace)
    ensures var key := "oneagent.dynatrace.com/inject";
            WantsInjection(pod, ns) <==>
              if IsSet(pod.annotations, key) then pod.annotations[key] != "false"
              else if IsSet(ns.annotations, key) then ns.annotations[key] != "false"
              else true
  {
  }

  /** The pod was not injected before, and its namespace is assigned to an instance that exists. */
  predicate Assigned(pod: PodValue, cluster: Cluster) {
    && cluster.namespace.Some?
    && var key := "oneagent.dynatrace.com/instance";
       var labels := cluster.namespace.value.labels;
       IsSet(labels, key) && cluster.apm(labels[key]).Found?
  }

  function ApmOf(pod: PodValue, cluster: Cluster): OneAgentAPM
    requires Assigned(pod, cluster)
  {
    cluster.apm(cluster.namespace.value.labels["oneagent.dynatrace.com/instance"]).apm
  }

  predicate Marked(pod: PodValue) {
    "oneagent.dynatrace.com/injected" in pod.annotations && pod.annotations["oneagent.dynatrace.com/injected"] == "true"
  }

  /** Exactly when the webhook changes a pod. */
  lemma PatchedIff(pod: PodValue, cluster: Cluster, own: string, lib: Library)
    ensures Respond(pod, cluster, own, lib).Patched? <==>
            && Assigned(pod, cluster) && WantsInjection(pod, cluster.namespace.value) && !Marked(pod)
            && pod.containers != []
            && var apm := ApmOf(pod, cluster);
               InitImage(own, apm, SettingsOf(pod.annotations, apm, lib), lib).Some?
    ensures Respond(pod, cluster, own, lib).Patched? ==> Marked(Respond(pod, cluster, own, lib).pod)
  {
  }

  /**
   * The webhook leaves a pod alone, without an error, exactly if it opts out, or is marked in an assigned namespace.
   */
  lemma UnpatchedIff(pod: PodValue, cluster: Cluster, own: string, lib: Library)
    ensures Respond(pod, cluster, own, lib).Unpatched? <==>
            && cluster.namespace.Some?
            && (!WantsInjection(pod, cluster.namespace.value) || (Assigned(pod, cluster) && Marked(pod)))
  {
  }

  /** A namespace that cannot be read, and an instance that cannot be, are the server's fault; a wrong label is not. */
  lemma ErrorCodes(pod: PodValue, cluster: Cluster, own: string, lib: Library)
    requires cluster.namespace.Some? ==> WantsInjection(pod, cluster.namespace.value)
    ensures var r := Respond(pod, cluster, own, lib);
            var key := "oneagent.dynatrace.com/instance";
            && (cluster.namespace.None? ==> r == Errored(500))
            && (cluster.namespace.Some? ==>
                  var labels := cluster.namespace.value.labels;
                  && (!IsSet(labels, key) ==> r == Errored(400))
                  && (IsSet(labels, key) && cluster.apm(labels[key]).NotFound? ==> r == Errored(400))
                  && (IsSet(labels, key) && cluster.apm(labels[key]).GetFailed? ==> r == Errored(500)))
  {
  }

  // ---------- the settings ----------

  /** Every setting is read from the annotation of its own, with its own default. */
  lemma SettingsMeaning(
      annotations: map<string, string>, apm: OneAgentAPM, lib: Library, flavor: string, technologies: string)
    requires ReadAs(annotations, "oneagent.dynatrace.com/flavor", apm.flavor, flavor)
    requires ReadAs(annotations, "oneagent.dynatrace.com/technologies", "all", technologies)
    ensures var s := SettingsOf(annotations, apm, lib);
            && s.flavor == (if lib.queryEscape(flavor) == "musl" then "musl" else "default")
            && s.technologies == lib.queryEscape(technologies)
            && ReadAs(annotations, "oneagent.dynatrace.com/install-path", "/opt/dynatrace/oneagent-paas", s.installPath)
            && ReadAs(annotations, "oneagent.dynatrace.com/installer-url", "", s.installerURL)
            && ReadAs(annotations, "oneagent.dynatrace.com/image", "", s.imageAnnotation)
            && ReadAs(annotations, "oneagent.dynatrace.com/failure-policy", "silent", s.failurePolicy)
  {
  }

  /**
   * An installer URL, or an installer instance, runs the operator's own image; else the annotation, the spec, the
   * tenant.
   */
  lemma ImageMeaning(own: string, apm: OneAgentAPM, s: Settings, lib: Library)
    ensures var image := InitImage(own, apm, s, lib);
            && (s.installerURL != "" ==> image == Some(own))
            && (!apm.useImmutableImage ==> image == Some(own))
            && (s.installerURL == "" && apm.useImmutableImage && s.imageAnnotation != "" ==>
                image == Some(s.imageAnnotation))
            && (s.installerURL == "" && apm.useImmutableImage && s.imageAnnotation == "" && apm.image != "" ==>
                  image == Some(apm.image))
            && (s.installerURL == "" && apm.useImmutableImage && s.imageAnnotation == "" && apm.image == "" ==>
                  image == lib.buildImage(apm.apiURL, s.flavor, s.technologies, apm.agentVersion))
    ensures NeedsPullSecret(apm, s) <==> apm.useImmutableImage && s.imageAnnotation == "" && apm.image == ""
  {
  }

  // ---------- the init container ----------

  /** What the init container is told about the agent to install. */
  lemma InitToldAgent(pod: PodValue, apm: OneAgentAPM, s: Settings, image: string)
    requires pod.containers != []
    ensures var env := InitContainer(pod, apm, s, image).env;
            && Value(env, "FLAVOR") == s.flavor
            && Value(env, "TECHNOLOGIES") == s.technologies
            && Value(env, "INSTALLPATH") == s.installPath
  {
    var baseName := BasePodName(if pod.generateName != "" then pod.generateName else pod.name);
    InitSees(pod, apm, s, image, baseName, 0);
    InitSees(pod, apm, s, image, baseName, 1);
    InitSees(pod, apm, s, image, baseName, 2);
  }

  /** And about how to get it, and what to do if that fails. */
  lemma InitToldSource(pod: PodValue, apm: OneAgentAPM, s: Settings, image: string)
    requires pod.containers != []
    ensures var env := InitContainer(pod, apm, s, image).env;
            && Value(env, "INSTALLER_URL") == s.installerURL
            && Value(env, "FAILURE_POLICY") == s.failurePolicy
            && Value(env, "USE_IMMUTABLE_IMAGE") == if apm.useImmutableImage then "true" else ""
  {
    var baseName := BasePodName(if pod.generateName != "" then pod.generateName else pod.name);
    InitSees(pod, apm, s, image, baseName, 3);
    InitSees(pod, apm, s, image, baseName, 4);
    InitSees(pod, apm, s, image, baseName, 11);
  }

  /** And about the pod: its base name, and the fields that only the cluster knows. */
  lemma InitToldPod(pod: PodValue, apm: OneAgentAPM, s: Settings, image: string, baseName: string)
    requires pod.containers != []
    requires baseName == BasePodName(if pod.generateName != "" then pod.generateName else pod.name)
    ensures var env := InitContainer(pod, apm, s, image).env;
            && Value(env, "K8S_BASEPODNAME") == baseName
            && LastOf(env, "K8S_PODNAME") == Some(FromField("K8S_PODNAME", "metadata.name"))
            && LastOf(env, "K8S_PODUID") == Some(FromField("K8S_PODUID", "metadata.uid"))
            && LastOf(env, "K8S_NAMESPACE") == Some(FromField("K8S_NAMESPACE", "metadata.namespace"))
            && LastOf(env, "K8S_NODE_NAME") == Some(FromField("K8S_NODE_NAME", "spec.nodeName"))
  {
    InitSees(pod, apm, s, image, baseName, 6);
    InitSees(pod, apm, s, image, baseName, 7);
    InitSees(pod, apm, s, image, baseName, 8);
    InitSees(pod, apm, s, image, baseName, 9);
    InitSees(pod, apm, s, image, baseName, 10);
  }

  /**
   * It runs the script of the config secret, where it finds the secret, with the first container's security context.
   */
  lemma InitRuns(pod: PodValue, apm: OneAgentAPM, s: Settings, image: string)
    requires pod.containers != []
    ensures var c := InitContainer(pod, apm, s, image);
            && Injected(pod, apm, s, image).initContainers == pod.initContainers + [c]
            && c.name == "install-oneagent" && c.image == image && c.resources == apm.resources
            && c.command + c.args == ["/usr/bin/env", "bash", "/mnt/config/init.sh"]
            && c.securityContext == pod.containers[0].securityContext
            && c.volumeMounts == [VolumeMount("init", "/mnt/init", ""), VolumeMount("oneagent", "/mnt/oneagent", ""),
                                  VolumeMount("oneagent-config", "/mnt/config", "")]
  {
  }

  /** The volumes behind these mounts, and the secret for an image that is built from the API URL. */
  lemma VolumesAdded(pod: PodValue, apm: OneAgentAPM, s: Settings, image: string)
    requires pod.containers != []
    ensures var p := Injected(pod, apm, s, image);
            && p.volumes == pod.volumes + [EmptyDir("init"), EmptyDir("oneagent"),
                                           SecretVolume("oneagent-config", "dynatrace-oneagent-config")]
            && p.imagePullSecrets == pod.imagePullSecrets
                 + if NeedsPullSecret(apm, s) then ["dynatrace-oneagent-pull-secret"] else []
  {
  }

  // ---------- the pod's own containers ----------

  lemma AddedEnvDistinct(apm: OneAgentAPM, installPath: string)
    ensures Distinct(AddedEnv(apm, installPath))
  {
  }

  /** What was appended wins over what the container had under the same name, and nothing else changes for it. */
  lemma ContainerSees(c: Container, apm: OneAgentAPM, installPath: string, name: string)
    ensures LastOf(Instrumented(c, apm, installPath).env, name)
         == if LastOf(AddedEnv(apm, installPath), name).Some? then LastOf(AddedEnv(apm, installPath), name)
            else LastOf(c.env, name)
  {
    LastOfAppend(c.env, AddedEnv(apm, installPath), name);
  }

  lemma AddedSeen(apm: OneAgentAPM, installPath: string, k: nat)
    requires k < |AddedEnv(apm, installPath)|
    ensures LastOf(AddedEnv(apm, installPath), AddedEnv(apm, installPath)[k].name)
      == Some(AddedEnv(apm, installPath)[k])
  {
    var added := AddedEnv(apm, installPath);
    AddedEnvDistinct(apm, installPath);
    InFront(added, [], k);
    assert added + [] == added;
  }

  lemma NotAdded(apm: OneAgentAPM, installPath: string, name: string)
    requires forall k :: 0 <= k < |AddedEnv(apm, installPath)| ==> AddedEnv(apm, installPath)[k].name != name
    ensures LastOf(AddedEnv(apm, installPath), name).None?
  {
    var _ := LastOfMeaning(AddedEnv(apm, installPath), name);
  }

  /** Every container preloads the agent from the install path. */
  lemma ContainerPreloads(c: Container, apm: OneAgentAPM, installPath: string)
    ensures Value(Instrumented(c, apm, installPath).env, "LD_PRELOAD")
      == installPath + "/agent/lib64/liboneagentproc.so"
  {
    ContainerSees(c, apm, installPath, "LD_PRELOAD");
    AddedSeen(apm, installPath, 0);
  }

  /**
   * It is told the proxy exactly if one is set, and the network zone exactly if there is one; else it keeps its own.
   */
  lemma ContainerToldNetwork(c: Container, apm: OneAgentAPM, installPath: string)
    ensures var env := Instrumented(c, apm, installPath).env;
            var proxied := apm.proxy.Some? && (apm.proxy.value.value != "" || apm.proxy.value.valueFrom != "");
            && LastOf(env, "DT_PROXY") ==
               (if proxied then Some(EnvVar("DT_PROXY", "", Some(SecretKeyRef("dynatrace-oneagent-config", "proxy"))))
                else LastOf(c.env, "DT_PROXY"))
            && LastOf(env, "DT_NETWORK_ZONE") ==
               (if apm.networkZone != "" then Some(EnvVar("DT_NETWORK_ZONE", apm.networkZone, None))
                else LastOf(c.env, "DT_NETWORK_ZONE"))
  {
    var added := AddedEnv(apm, installPath);
    ContainerSees(c, apm, installPath, "DT_PROXY");
    ContainerSees(c, apm, installPath, "DT_NETWORK_ZONE");
    if UsesProxy(apm) {
      AddedSeen(apm, installPath, 1);
    } else {
      NotAdded(apm, installPath, "DT_PROXY");
    }
    if apm.networkZone != "" {
      AddedSeen(apm, installPath, |added| - 1);
    } else {
      NotAdded(apm, installPath, "DT_NETWORK_ZONE");
    }
  }

  /** It finds the agent in the install path, the preload list where the loader looks, and its own configuration. */
  lemma ContainerMounts(c: Container, apm: OneAgentAPM, installPath: string, m: VolumeMount)
    ensures m in Instrumented(c, apm, installPath).volumeMounts <==>
            || m in c.volumeMounts
            || m == VolumeMount("oneagent", "/etc/ld.so.preload", "ld.so.preload")
            || m == VolumeMount("oneagent", installPath, "")
            || m == VolumeMount("oneagent", "/var/lib/dynatrace/oneagent/agent/config/container.conf",
                                "container_" + c.name + ".conf")
  {
    var added := AddedMounts(c.name, installPath);
    assert added == [added[0], added[1], added[2]];
  }
}
