/** What injection promises about the pod, its init container and repeated handling. */
module PodProperties {
  import opened Common
  import opened Text
  import opened EnvVars
  import opened PodInjection

  // ---------- what stays ----------

  /** A container as it was, with something appended to its mounts and variables. */
  predicate Extends(after: Container, before: Container) {
    && before.env <= after.env
    && before.volumeMounts <= after.volumeMounts
    && after.(env := before.env, volumeMounts := before.volumeMounts) == before
  }

  /** Whatever the answer, a patch only adds: order, number and contents of everything already there are kept. */
  lemma PatchOnlyAdds(pod: PodValue, cluster: Cluster, own: string, lib: Library)
    requires Respond(pod, cluster, own, lib).Patched?
    ensures var p := Respond(pod, cluster, own, lib).pod;
      && p.name == pod.name && p.generateName == pod.generateName
      && |p.containers| == |pod.containers|
      && (forall i :: 0 <= i < |pod.containers| ==> Extends(p.containers[i], pod.containers[i]))
      && pod.volumes <= p.volumes
      && pod.imagePullSecrets <= p.imagePullSecrets
      && pod.initContainers <= p.initContainers
      && |p.initContainers| == |pod.initContainers| + 1
      && (forall k :: k != ANNOTATION_INJECTED ==> (k in p.annotations <==> k in pod.annotations))
      && (forall k :: k != ANNOTATION_INJECTED && k in pod.annotations ==> p.annotations[k] == pod.annotations[k])
  {
    var apm := cluster.apm(InstanceOf(cluster.namespace.value)).apm;
    var s := SettingsOf(pod.annotations, apm, lib);
    InjectedOnlyAdds(pod, apm, s, InitImage(own, apm, s, lib).value);
  }

  lemma InjectedOnlyAdds(pod: PodValue, apm: OneAgentAPM, s: Settings, image: string)
    requires pod.containers != []
    ensures var p := Injected(pod, apm, s, image);
      && |p.containers| == |pod.containers|
      && (forall i :: 0 <= i < |pod.containers| ==> Extends(p.containers[i], pod.containers[i]))
      && pod.initContainers <= p.initContainers
  {
    forall i | 0 <= i < |pod.containers|
      ensures Extends(Instrumented(pod.containers[i], apm, s.installPath), pod.containers[i]) {
      var c := pod.containers[i];
      assert Instrumented(c, apm, s.installPath).(env := c.env, volumeMounts := c.volumeMounts) == c;
    }
  }

  // ---------- the init container's variables ----------

  predicate IsSuffix(suffix: string) {
    suffix == "_NAME" || suffix == "_IMAGE"
  }

  /** A variable's name tells the container and which of the two values it is. */
  lemma ContainerVarInjective(i: nat, k: nat, a: string, b: string)
    requires IsSuffix(a) && IsSuffix(b)
    requires ContainerVar(i, a) == ContainerVar(k, b)
    ensures i == k && a == b
  {
    var v, w := ContainerVar(i, a), ContainerVar(k, b);
    var n := |v|;
    assert v[n - 2] == a[|a| - 2] && w[n - 2] == b[|b| - 2];
    assert "_NAME"[3] == 'M' && "_IMAGE"[4] == 'G';
    assert a == b;
    assert Itoa(i) == v[10..n - |a|] == w[10..n - |b|] == Itoa(k);
    ItoaInjective(i, k);
  }

  lemma FixedVarsAreOthers(count: nat, baseName: string, immutable: bool, s: Settings, k: nat, suffix: string)
    requires IsSuffix(suffix)
    ensures LastOf(InitEnv(count, baseName, immutable, s), ContainerVar(k, suffix)).None?
  {
    var env := InitEnv(count, baseName, immutable, s);
    var v := ContainerVar(k, suffix);
    assert v[0] == 'C' && v[9] == '_';
    var at := LastOfMeaning(env, v);
    forall i | 0 <= i < |env| ensures env[i].name != v {
      assert i == 5 || env[i].name[0] != 'C';
      assert i == 5 ==> env[i].name[9] == 'S';
    }
    assert !Names(env, v);
  }

  lemma LastOfTwo(a: EnvVar, b: EnvVar, name: string)
    ensures LastOf([a, b], name) == if b.name == name then Some(b) else if a.name == name then Some(a) else None
  {
    assert [a, b][..1] == [a];
    assert [a][..0] == [];
    assert LastOf([a], name) == if a.name == name then Some(a) else None;
  }

  lemma LastOfPair(k: nat, c: Container, i: nat, suffix: string)
    requires IsSuffix(suffix)
    ensures LastOf(ContainerVars(k, c), ContainerVar(i, suffix))
         == if i != k then None else Some(Given(ContainerVar(k, suffix), if suffix == "_NAME" then c.name else c.image))
  {
    var pair := ContainerVars(k, c);
    LastOfTwo(pair[0], pair[1], ContainerVar(i, suffix));
    if ContainerVar(i, suffix) == ContainerVar(k, "_NAME") {
      ContainerVarInjective(i, k, suffix, "_NAME");
    }
    if ContainerVar(i, suffix) == ContainerVar(k, "_IMAGE") {
      ContainerVarInjective(i, k, suffix, "_IMAGE");
    }
  }

  lemma {:induction false} LastOfContainerVars(cs: seq<Container>, i: nat, suffix: string)
    requires IsSuffix(suffix)
    ensures LastOf(AllContainerVars(cs), ContainerVar(i, suffix))
         == if 1 <= i <= |cs|
            then Some(Given(ContainerVar(i, suffix), if suffix == "_NAME" then cs[i - 1].name else cs[i - 1].image))
            else None
    decreases |cs|
  {
    if cs != [] {
      var n := |cs| - 1;
      LastOfContainerVars(cs[..n], i, suffix);
      LastOfAppend(AllContainerVars(cs[..n]), ContainerVars(n + 1, cs[n]), ContainerVar(i, suffix));
      LastOfPair(n + 1, cs[n], i, suffix);
    }
  }

  lemma {:induction false} CountNotAContainerVar(cs: seq<Container>)
    ensures LastOf(AllContainerVars(cs), "CONTAINERS_COUNT").None?
    decreases |cs|
  {
    if cs != [] {
      var n := |cs| - 1;
      CountNotAContainerVar(cs[..n]);
      var pair := ContainerVars(n + 1, cs[n]);
      LastOfAppend(AllContainerVars(cs[..n]), pair, "CONTAINERS_COUNT");
      assert pair[0].name[9] == '_' && pair[1].name[9] == '_' && "CONTAINERS_COUNT"[9] == 'S';
      LastOfTwo(pair[0], pair[1], "CONTAINERS_COUNT");
    }
  }

  // ---------- the init script, which reads them ----------

  /** The value of a variable in the container's environment; unset reads as empty. */
  function Value(env: seq<EnvVar>, name: string): string {
    if LastOf(env, name).Some? then LastOf(env, name).value.value else ""
  }

  /** The init container tells the number of containers, and name and image of each under its position. */
  lemma InitContainerDescribesPod(pod: PodValue, apm: OneAgentAPM, s: Settings, image: string, i: nat)
    requires pod.containers != []
    ensures var env := InitContainer(pod, apm, s, image).env;
      && (|pod.containers| <= MAX_INT64 ==> Atoi(Value(env, "CONTAINERS_COUNT")) == Some(|pod.containers|))
      && (1 <= i <= |pod.containers| ==>
            && Value(env, ContainerVar(i, "_NAME")) == pod.containers[i - 1].name
            && Value(env, ContainerVar(i, "_IMAGE")) == pod.containers[i - 1].image)
      && (i < 1 || i > |pod.containers| ==>
          !Names(env, ContainerVar(i, "_NAME")) && !Names(env, ContainerVar(i, "_IMAGE")))
  {
    var baseName := BasePodName(if pod.generateName != "" then pod.generateName else pod.name);
    var count := |pod.containers|;
    var fixed := InitEnv(count, baseName, apm.useImmutableImage, s);
    var vars := AllContainerVars(pod.containers);
    VarsAfterFixed(fixed, pod.containers, count, baseName, apm.useImmutableImage, s, i, "_NAME");
    VarsAfterFixed(fixed, pod.containers, count, baseName, apm.useImmutableImage, s, i, "_IMAGE");
    LastOfAppend(fixed, vars, "CONTAINERS_COUNT");
    CountNotAContainerVar(pod.containers);
    CountVar(count, baseName, apm.useImmutableImage, s);
    if count <= MAX_INT64 {
      ItoaAtoiRoundTrip(count);
    }
  }

  lemma CountVar(count: nat, baseName: string, immutable: bool, s: Settings)
    ensures LastOf(InitEnv(count, baseName, immutable, s), "CONTAINERS_COUNT")
      == Some(Given("CONTAINERS_COUNT", Itoa(count)))
  {
    var env := InitEnv(count, baseName, immutable, s);
    var at := LastOfMeaning(env, "CONTAINERS_COUNT");
    assert env[5].name == "CONTAINERS_COUNT";
    assert Names(env, "CONTAINERS_COUNT");
    assert forall i :: 0 <= i < |env| && i != 5 ==> env[i].name[0] != 'C';
    assert at == 5;
  }

  lemma VarsAfterFixed(
      fixed: seq<EnvVar>, cs: seq<Container>, count: nat, baseName: string, immutable: bool, s: Settings, i: nat,
      suffix: string)
    requires IsSuffix(suffix) && fixed == InitEnv(count, baseName, immutable, s)
    ensures LastOf(fixed + AllContainerVars(cs), ContainerVar(i, suffix))
      == LastOf(AllContainerVars(cs), ContainerVar(i, suffix))
    ensures LastOf(AllContainerVars(cs), ContainerVar(i, suffix))
         == if 1 <= i <= |cs|
            then Some(Given(ContainerVar(i, suffix), if suffix == "_NAME" then cs[i - 1].name else cs[i - 1].image))
            else None
    ensures Names(fixed + AllContainerVars(cs), ContainerVar(i, suffix)) <==> 1 <= i <= |cs|
  {
    LastOfAppend(fixed, AllContainerVars(cs), ContainerVar(i, suffix));
    FixedVarsAreOthers(count, baseName, immutable, s, i, suffix);
    LastOfContainerVars(cs, i, suffix);
    var _ := LastOfMeaning(fixed + AllContainerVars(cs), ContainerVar(i, suffix));
  }

  /** A section the script writes about one container. */
  datatype Section = Section(containerName: string, imageName: string)

  /** What rounds 1 to n of the script's loop append to the file. */
  function Written(env: seq<EnvVar>, file: string, n: nat): seq<Section> {
    if n == 0 then []
    else
      var name := Value(env, ContainerVar(n, "_NAME"));
      Written(env, file, n - 1)
      + if ConfFile(name) == file then [Section(name, Value(env, ContainerVar(n, "_IMAGE")))] else []
  }

  /** One section for each container of that name, in the order of the containers. */
  function SectionsFor(cs: seq<Container>, name: string): seq<Section> {
    if cs == [] then []
    else
      var last := cs[|cs| - 1];
      SectionsFor(cs[..|cs| - 1], name) + if last.name == name then [Section(name, last.image)] else []
  }

  lemma ConfFileInjective(a: string, b: string)
    requires ConfFile(a) == ConfFile(b)
    ensures a == b
  {
    assert a == ConfFile(a)[10..|ConfFile(a)| - 5];
    assert b == ConfFile(b)[10..|ConfFile(b)| - 5];
  }

  lemma {:induction false} WrittenSections(
      pod: PodValue, apm: OneAgentAPM, s: Settings, image: string, name: string, n: nat)
    requires pod.containers != [] && n <= |pod.containers|
    ensures Written(InitContainer(pod, apm, s, image).env, ConfFile(name), n) == SectionsFor(pod.containers[..n], name)
    decreases n
  {
    if n > 0 {
      WrittenSections(pod, apm, s, image, name, n - 1);
      InitContainerDescribesPod(pod, apm, s, image, n);
      assert pod.containers[..n][..n - 1] == pod.containers[..n - 1];
      var c := pod.containers[n - 1];
      if ConfFile(c.name) == ConfFile(name) {
        ConfFileInjective(c.name, name);
      }
    }
  }

  predicate NamesUnique(cs: seq<Container>) {
    forall i, j :: 0 <= i < j < |cs| ==> cs[i].name != cs[j].name
  }

  lemma {:induction false} OneSection(cs: seq<Container>, i: nat)
    requires NamesUnique(cs) && i < |cs|
    ensures SectionsFor(cs, cs[i].name) == [Section(cs[i].name, cs[i].image)]
    decreases |cs|
  {
    var n := |cs| - 1;
    if i < n {
      OneSection(cs[..n], i);
    } else {
      NoSection(cs[..n], cs[n].name);
    }
  }

  lemma {:induction false} NoSection(cs: seq<Container>, name: string)
    requires forall i :: 0 <= i < |cs| ==> cs[i].name != name
    ensures SectionsFor(cs, name) == []
    decreases |cs|
  {
    if cs != [] { NoSection(cs[..|cs| - 1], name); }
  }

  /**
   * The file each container mounts as its container.conf is written by the init container, and holds
   * exactly one section: that container's own name and image.
   */
  lemma MountedConfigIsOwn(pod: PodValue, apm: OneAgentAPM, s: Settings, image: string, i: nat)
    requires i < |pod.containers| <= MAX_INT64 && NamesUnique(pod.containers)
    ensures var p := Injected(pod, apm, s, image);
      var env := p.initContainers[|p.initContainers| - 1].env;
      var mounts := p.containers[i].volumeMounts;
      && mounts[|mounts| - 1].mountPath == CONF_PATH
      && Atoi(Value(env, "CONTAINERS_COUNT")) == Some(|p.containers|)
      && Written(env, mounts[|mounts| - 1].subPath, |p.containers|)
         == [Section(p.containers[i].name, p.containers[i].image)]
  {
    var c := pod.containers[i];
    InitContainerDescribesPod(pod, apm, s, image, 0);
    WrittenSections(pod, apm, s, image, c.name, |pod.containers|);
    assert pod.containers[..|pod.containers|] == pod.containers;
    OneSection(pod.containers, i);
  }

  // ---------- repeated handling ----------

  datatype Request = Request(cluster: Cluster, own: string, lib: Library)

  /** The pod after a request: patched, or as it came. */
  function After(pod: PodValue, r: Request): PodValue {
    match Respond(pod, r.cluster, r.own, r.lib)
    case Patched(p) => p
    case _ => pod
  }

  function Run(pod: PodValue, requests: seq<Request>): PodValue
    decreases |requests|
  {
    if requests == [] then pod else Run(After(pod, requests[0]), requests[1..])
  }

  /** The first request that would patch the pod as it came decides the result. */
  function FirstPatch(pod: PodValue, requests: seq<Request>): PodValue {
    if requests == [] then pod
    else if Respond(pod, requests[0].cluster, requests[0].own, requests[0].lib).Patched? then After(pod, requests[0])
    else FirstPatch(pod, requests[1..])
  }

  lemma {:induction false} InjectedStays(pod: PodValue, requests: seq<Request>)
    requires IsInjected(pod)
    ensures Run(pod, requests) == pod
    decreases |requests|
  {
    if requests != [] {
      assert After(pod, requests[0]) == pod;
      InjectedStays(pod, requests[1..]);
    }
  }

  /** However often and in whatever cluster states a pod is handled, it is injected at most once. */
  lemma {:induction false} InjectedAtMostOnce(pod: PodValue, requests: seq<Request>)
    ensures Run(pod, requests) == FirstPatch(pod, requests)
    ensures |Run(pod, requests).initContainers| <= |pod.initContainers| + 1
    decreases |requests|
  {
    if requests != [] {
      var r := requests[0];
      if Respond(pod, r.cluster, r.own, r.lib).Patched? {
        assert IsInjected(After(pod, r));
        InjectedStays(After(pod, r), requests[1..]);
        PatchOnlyAdds(pod, r.cluster, r.own, r.lib);
      } else {
        InjectedAtMostOnce(pod, requests[1..]);
      }
    }
  }

  /** In an unchanged cluster the patched pod is answered without a patch and without an error. */
  lemma HandledAgainUnpatched(pod: PodValue, cluster: Cluster, own: string, lib: Library)
    requires Respond(pod, cluster, own, lib).Patched?
    ensures Respond(Respond(pod, cluster, own, lib).pod, cluster, own, lib) == Unpatched
  {
    assert ANNOTATION_INJECT != ANNOTATION_INJECTED by {
      assert |ANNOTATION_INJECT| + 2 == |ANNOTATION_INJECTED|;
    }
  }

  // ---------- the image and what the script does with it ----------

  /** The script copies the agent out of its own image instead of downloading it. */
  predicate ScriptCopies(env: seq<EnvVar>) {
    Value(env, "INSTALLER_URL") == "" && Value(env, "USE_IMMUTABLE_IMAGE") == "true"
  }

  lemma InitEnvDistinct(count: nat, baseName: string, immutable: bool, s: Settings)
    ensures Distinct(InitEnv(count, baseName, immutable, s))
  {
  }

  lemma InFront(fixed: seq<EnvVar>, rest: seq<EnvVar>, k: nat)
    requires Distinct(fixed) && k < |fixed| && LastOf(rest, fixed[k].name).None?
    ensures LastOf(fixed + rest, fixed[k].name) == Some(fixed[k])
  {
    LastOfAppend(fixed, rest, fixed[k].name);
    var at := LastOfMeaning(fixed, fixed[k].name);
    assert Names(fixed, fixed[k].name);
    assert fixed[at].name == fixed[k].name;
  }

  /** Every variable of the init container that is not about one container is what it sees under that name. */
  lemma InitSees(pod: PodValue, apm: OneAgentAPM, s: Settings, image: string, baseName: string, k: nat)
    requires pod.containers != [] && k < 12 && k != 5
    requires baseName == BasePodName(if pod.generateName != "" then pod.generateName else pod.name)
    ensures var e := InitEnv(|pod.containers|, baseName, apm.useImmutableImage, s)[k];
            LastOf(InitContainer(pod, apm, s, image).env, e.name) == Some(e)
  {
    var fixed := InitEnv(|pod.containers|, baseName, apm.useImmutableImage, s);
    InitEnvDistinct(|pod.containers|, baseName, apm.useImmutableImage, s);
    assert fixed[k].name != "" && fixed[k].name[0] != 'C';
    OtherVarsStay(pod.containers, fixed[k].name);
    InFront(fixed, AllContainerVars(pod.containers), k);
  }

  lemma {:induction false} OtherVarsStay(cs: seq<Container>, name: string)
    requires name != "" && name[0] != 'C'
    ensures LastOf(AllContainerVars(cs), name).None?
    decreases |cs|
  {
    if cs != [] {
      var n := |cs| - 1;
      OtherVarsStay(cs[..n], name);
      var pair := ContainerVars(n + 1, cs[n]);
      LastOfAppend(AllContainerVars(cs[..n]), pair, name);
      assert pair[0].name[0] == 'C' && pair[1].name[0] == 'C';
      LastOfTwo(pair[0], pair[1], name);
    }
  }

  /**
   * The script copies exactly when an image was chosen for that; otherwise the init container runs the
   * operator's own image. A pull secret is attached whenever the image is the one built from the API URL,
   * and needlessly so exactly when an installer URL overrides it.
   */
  lemma ImageAgreesWithScript(pod: PodValue, apm: OneAgentAPM, s: Settings, own: string, lib: Library)
    requires pod.containers != [] && InitImage(own, apm, s, lib).Some?
    ensures var image := InitImage(own, apm, s, lib).value;
      var copies := ScriptCopies(InitContainer(pod, apm, s, image).env);
      && (!copies ==> image == own)
      && (copies && s.imageAnnotation != "" ==> image == s.imageAnnotation)
      && (copies && s.imageAnnotation == "" && apm.image != "" ==> image == apm.image)
      && (NeedsPullSecret(apm, s) && copies ==>
          lib.buildImage(apm.apiURL, s.flavor, s.technologies, apm.agentVersion) == Some(image))
      && (NeedsPullSecret(apm, s) && !copies <==> NeedsPullSecret(apm, s) && s.installerURL != "")
      && (copies && !NeedsPullSecret(apm, s) ==> s.imageAnnotation != "" || apm.image != "")
  {
    var image := InitImage(own, apm, s, lib).value;
    var baseName := BasePodName(if pod.generateName != "" then pod.generateName else pod.name);
    InitSees(pod, apm, s, image, baseName, 3);
    InitSees(pod, apm, s, image, baseName, 11);
  }
}
