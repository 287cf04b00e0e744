/** What the objects of one role declare once they are as rendered, in terms of the spec. */
module RoleOutcome {
  import opened Wrappers
  import opened Kube
  import opened Resources
  import opened Builders
  import opened ClusterObjects
  import opened Convergence

  // ----- Objects in terms of the spec -----

  /** The field has this value, or is not there. */
  predicate FieldIs(f: Fields, p: Path, v: Option<Value>) {
    match v
    case Some(x) => p in f && f[p] == x
    case None => p !in f
  }

  /** The common labels of a child, with the version of its image, and its owner. */
  predicate MetaOf(f: Fields, instance: string, image: string, component: string, owner: string) {
    && FieldIs(f, Label("app.kubernetes.io/name"), Some(Text("n8n")))
    && FieldIs(f, Label("app.kubernetes.io/instance"), Some(Text(instance)))
    && FieldIs(f, Label("app.kubernetes.io/managed-by"), Some(Text("n8n-rustful-operator")))
    && FieldIs(f, Label("app.kubernetes.io/component"), Some(Text(component)))
    && FieldIs(f, Label("app.kubernetes.io/version"), Some(Text(ImageVersion(image))))
    && FieldIs(f, Spec("owner"), Some(Text(owner)))
  }

  predicate ScalerOf(f: Fields, name: string, a: Autoscaling) {
    && FieldIs(f, Spec("scaleTargetRef"), Some(Text(name)))
    && FieldIs(f, Spec("minReplicas"), Some(Number(a.minReplicas)))
    && FieldIs(f, Spec("maxReplicas"), Some(Number(a.maxReplicas)))
    && FieldIs(f, Spec("averageUtilization"), Some(Number(if a.cpu.Some? then a.cpu.value else 70)))
  }

  predicate IngressOf(f: Fields, host: string, backend: string, cfg: IngressConfig) {
    && FieldIs(f, Spec("host"), Some(Text(host))) && FieldIs(f, Spec("backend"), Some(Text(backend)))
    && FieldIs(f, Spec("ingressClassName"), if cfg.className.Some? then Some(Text(cfg.className.value)) else None)
    && FieldIs(f, Spec("tls"), if cfg.tlsSecretName.Some? then Some(Text(cfg.tlsSecretName.value)) else None)
  }

  predicate RouteOf(f: Fields, host: string, gateway: GatewayRef, section: Option<string>, rule: string) {
    && FieldIs(f, Spec("hostname"), Some(Text(host))) && FieldIs(f, Spec("parent"), Some(Text(gateway.name)))
    && FieldIs(f, Spec("rule"), Some(Text(rule)))
    && FieldIs(f, Spec("parentNamespace"), if gateway.ns.Some? then Some(Text(gateway.ns.value)) else None)
    && FieldIs(f, Spec("sectionName"), if section.Some? then Some(Text(section.value)) else None)
  }

  predicate ServiceOf(f: Fields, name: string, serviceType: Option<string>, sticky: bool) {
    && FieldIs(f, Spec("type"), Some(Text(if serviceType.Some? then serviceType.value else "ClusterIP")))
    && FieldIs(f, Spec("port"), Some(Number(5678)))
    && FieldIs(f, Spec("sessionAffinity"), if sticky then Some(Text("ClientIP")) else None)
    && FieldIs(f, SelectorLabel("app.kubernetes.io/name"), Some(Text("n8n")))
    && FieldIs(f, SelectorLabel("app.kubernetes.io/instance"), Some(Text(name)))
  }

  predicate ClaimOf(f: Fields, p: Storage) {
    && FieldIs(f, Spec("storage"), Some(Text(p.size))) && FieldIs(f, Spec("accessModes"), Some(Text(p.accessMode)))
    && FieldIs(f, Spec("storageClassName"), if p.storageClass.Some? then Some(Text(p.storageClass.value)) else None)
  }

  /** A rolling update with its bounds, or a replacement of all pods. */
  function Update(s: Strategy): seq<string> {
    if s.kind != "RollingUpdate" then [s.kind]
    else [ "RollingUpdate", if s.maxSurge.Some? then s.maxSurge.value else "",
           if s.maxUnavailable.Some? then s.maxUnavailable.value else "" ]
  }

  /** The fields of a pod specification. */
  predicate SpecOf(f: Fields, image: string, env: seq<EnvEntry>, volumes: seq<string>, command: seq<string>,
                   strategy: Option<Strategy>, envFrom: Option<string>)
  {
    && FieldIs(f, Spec("image"), Some(Text(image))) && FieldIs(f, EnvList, Some(Environment(env)))
    && FieldIs(f, Spec("volumes"), Some(Texts(volumes)))
    && FieldIs(f, Spec("command"), if command == [] then None else Some(Texts(command)))
    && FieldIs(f, Spec("envFrom"), if envFrom.Some? then Some(Text(envFrom.value)) else None)
    && FieldIs(f, Spec("strategy"), if strategy.Some? then Some(Texts(Update(strategy.value))) else None)
  }

  /** The user's labels and annotations are on the pods. */
  predicate PodWishes(f: Fields, pod: Option<PodConfig>) {
    pod.Some? ==>
      && (pod.value.podLabels.Some? ==> forall l | l in pod.value.podLabels.value ::
            FieldIs(f, PodLabel(l), Some(Text(pod.value.podLabels.value[l]))))
      && (pod.value.podAnnotations.Some? ==> forall l | l in pod.value.podAnnotations.value ::
            FieldIs(f, PodAnnotation(l), Some(Text(pod.value.podAnnotations.value[l]))))
  }

  predicate DeploymentOf(f: Fields, name: string, image: string, component: string, replicas: Option<int>,
                         env: seq<EnvEntry>, volumes: seq<string>, command: seq<string>, pod: Option<PodConfig>,
                         strategy: Option<Strategy>, envFrom: Option<string>, owner: string)
  {
    && MetaOf(f, name, image, component, owner) && PodWishes(f, pod)
    && SpecOf(f, image, env, volumes, command, strategy, envFrom)
    && FieldIs(f, Replicas, if replicas.Some? then Some(Number(replicas.value)) else None)
    && FieldIs(f, SelectorLabel("app.kubernetes.io/name"), Some(Text("n8n")))
    && FieldIs(f, SelectorLabel("app.kubernetes.io/instance"), Some(Text(name)))
  }

  // ----- Objects of a role in the store -----

  /** What this manager declares in the object; nothing if there is none. */
  function Declared(t: Store, k: Key): Fields {
    if k in t.objects then t.objects[k].Owned() else map[]
  }

  /** An Ingress to the role's Service, exactly if one is configured. */
  predicate IngressAs(t: Store, ns: string, role: string, image: string, component: string, host: Option<string>,
                      net: Option<NetworkingSpec>, owner: string)
  {
    var k := Key(Ingress, ns, role);
    if net.Some? && net.value.ingress.Some? then
      && IngressOf(Declared(t, k), if host.Some? then host.value else "", role, net.value.ingress.value)
      && MetaOf(Declared(t, k), role, image, component + "-ingress", owner)
    else k !in t.objects
  }

  /** A route to the role's Service, exactly if one is configured, and a redirect exactly if a listener for it is. */
  predicate RoutesAs(t: Store, ns: string, role: string, image: string, host: Option<string>,
                     net: Option<NetworkingSpec>, owner: string)
  {
    var route, redirect := Key(HTTPRoute, ns, role), Key(HTTPRoute, ns, role + "-redirect");
    if net.Some? && net.value.httpRoute.Some? then
      var cfg, h := net.value.httpRoute.value, if host.Some? then host.value else "";
      && RouteOf(Declared(t, route), h, cfg.gateway, cfg.gateway.sectionName, role)
      && MetaOf(Declared(t, route), role, image, "http-route", owner)
      && (if cfg.httpsRedirectSectionName.Some? then
            && RouteOf(Declared(t, redirect), h, cfg.gateway, cfg.httpsRedirectSectionName, "https 301")
            && MetaOf(Declared(t, redirect), role + "-redirect", image, "http-redirect", owner)
          else redirect !in t.objects)
    else route !in t.objects && redirect !in t.objects
  }

  predicate WayInAs(t: Store, ns: string, role: string, image: string, component: string, host: Option<string>,
                    net: Option<NetworkingSpec>, owner: string, gateway: bool)
  {
    && IngressAs(t, ns, role, image, component, host, net, owner)
    && (gateway ==> RoutesAs(t, ns, role, image, host, net, owner))
  }

  predicate ServiceAs(t: Store, ns: string, role: string, image: string, component: string,
                      serviceType: Option<string>, sticky: bool, owner: string)
  {
    var f := Declared(t, Key(Service, ns, role));
    ServiceOf(f, role, serviceType, sticky) && MetaOf(f, role, image, component, owner)
  }

  /** The container's environment. */
  function EnvAt(t: Store, k: Key): seq<EnvEntry> {
    var f := Declared(t, k);
    if EnvList in f && f[EnvList].Environment? then f[EnvList].entries else []
  }

  /** A claim as asked for; without one, whatever was there before. */
  predicate ClaimedAs(s: Store, t: Store, k: Key, p: Option<Storage>) {
    if p.Some? then ClaimOf(Declared(t, k), p.value) else t.Find(k) == s.Find(k)
  }

  /** The generated key: created when asked for and not there, and otherwise as before. */
  predicate KeyAs(s: Store, t: Store, k: Key, given: Option<SecretKeyRef>, generated: string) {
    if given.Some? || k in s.objects then t.Find(k) == s.Find(k)
    else Shows(t, k, Data("encryption_key"), Text(generated))
  }

  // ----- Reading rendered fields off -----

  lemma MetaSpec(labels: map<string, string>, owner: string, name: string)
    ensures Spec(name) in Meta(labels, owner) <==> name == "owner"
  {
    hide CommonAnnotations;
  }

  /** The six keys of the common labels. */
  lemma LabelKeys()
    ensures |"app.kubernetes.io/name"| == 22 && |"app.kubernetes.io/instance"| == 26
    ensures |"app.kubernetes.io/managed-by"| == 28 && |"app.kubernetes.io/component"| == 27
    ensures |"app.kubernetes.io/part-of"| == |"app.kubernetes.io/version"| == 25
    ensures "app.kubernetes.io/part-of"[18] == 'p' && "app.kubernetes.io/version"[18] == 'v'
  {}

  predicate CommonMap(m: map<string, string>, name: string, image: string, component: string) {
    && "app.kubernetes.io/name" in m && m["app.kubernetes.io/name"] == "n8n"
    && "app.kubernetes.io/instance" in m && m["app.kubernetes.io/instance"] == name
    && "app.kubernetes.io/managed-by" in m && m["app.kubernetes.io/managed-by"] == "n8n-rustful-operator"
    && "app.kubernetes.io/component" in m && m["app.kubernetes.io/component"] == component
    && "app.kubernetes.io/version" in m && m["app.kubernetes.io/version"] == ImageVersion(image)
  }

  lemma CommonIs(name: string, image: string, component: string)
    ensures CommonMap(CommonLabels(name, image, component), name, image, component)
  {
    hide ImageVersion;
    LabelKeys();
  }

  lemma IngressMap(name: string, image: string, component: string, c: string)
    ensures CommonMap(CommonLabels(name, image, c)["app.kubernetes.io/component" := component], name, image, component)
  {
    CommonIs(name, image, c);
    LabelKeys();
    hide CommonLabels, ImageVersion;
  }

  lemma OwnerIs(labels: map<string, string>, owner: string)
    ensures FieldIs(Meta(labels, owner), Spec("owner"), Some(Text(owner)))
  {
    hide CommonAnnotations, LabelFields, AnnotationFields;
  }

  lemma MetaHas(labels: map<string, string>, owner: string)
    ensures forall l | l in labels :: FieldIs(Meta(labels, owner), Label(l), Some(Text(labels[l])))
  {
    hide Meta;
    forall l | l in labels ensures FieldIs(Meta(labels, owner), Label(l), Some(Text(labels[l]))) {
      MetaLabel(labels, owner, l);
    }
  }

  /** Labels with these entries, and nothing that covers them. */
  lemma MetaIs(name: string, image: string, component: string, labels: map<string, string>, owner: string, rest: Fields)
    requires CommonMap(labels, name, image, component)
    requires forall p | p in rest :: !p.Label? && p != Spec("owner")
    ensures MetaOf(Meta(labels, owner) + rest, name, image, component, owner)
  {
    hide ImageVersion, Meta, FieldIs;
    MetaHas(labels, owner);
    OwnerIs(labels, owner);
    var m := Meta(labels, owner);
    forall p: Path, v | p !in rest && FieldIs(m, p, v) ensures FieldIs(m + rest, p, v) {
      Uncovered(m, rest, p, v);
    }
  }

  lemma Uncovered(m: Fields, rest: Fields, p: Path, v: Option<Value>)
    requires p !in rest && FieldIs(m, p, v)
    ensures FieldIs(m + rest, p, v)
  {}

  /** Fields below the metadata. */
  predicate BodyPath(p: Path) {
    (p.Spec? && p != Spec("owner")) || p.SelectorLabel?
  }

  lemma MetaIsNoBody(labels: map<string, string>, owner: string)
    ensures forall p | p in Meta(labels, owner) :: !BodyPath(p)
  {
    hide Meta;
    MetaPaths(labels, owner);
    forall n: string ensures Spec(n) in Meta(labels, owner) <==> n == "owner" { MetaSpec(labels, owner, n); }
  }

  lemma BodyKeeps(meta: Fields, rest: Fields)
    requires forall p | p in meta :: !BodyPath(p)
    ensures forall p: Path, v | BodyPath(p) :: FieldIs(meta + rest, p, v) == FieldIs(rest, p, v)
  {
    hide BodyPath;
  }

  lemma BodyIsNoMeta(rest: Fields)
    requires forall p | p in rest :: BodyPath(p)
    ensures forall p | p in rest :: !p.Label? && p != Spec("owner")
  {}

  /** An object of metadata and a body: each keeps its fields. */
  lemma BodyUnder(name: string, image: string, component: string, labels: map<string, string>, owner: string,
                  rest: Fields)
    requires CommonMap(labels, name, image, component) && forall p | p in rest :: BodyPath(p)
    ensures MetaOf(Meta(labels, owner) + rest, name, image, component, owner)
    ensures forall p: Path, v | BodyPath(p) :: FieldIs(Meta(labels, owner) + rest, p, v) == FieldIs(rest, p, v)
  {
    hide Meta, MetaOf, CommonMap, BodyPath, FieldIs;
    BodyIsNoMeta(rest);
    MetaIs(name, image, component, labels, owner, rest);
    MetaIsNoBody(labels, owner);
    BodyKeeps(Meta(labels, owner), rest);
  }

  lemma CommonUnder(name: string, image: string, component: string, owner: string, rest: Fields)
    requires forall p | p in rest :: BodyPath(p)
    ensures var f := Meta(CommonLabels(name, image, component), owner) + rest;
            && MetaOf(f, name, image, component, owner)
            && forall p: Path, v | BodyPath(p) :: FieldIs(f, p, v) == FieldIs(rest, p, v)
  {
    hide Meta, MetaOf, CommonMap, CommonLabels, BodyPath, FieldIs;
    CommonIs(name, image, component);
    BodyUnder(name, image, component, CommonLabels(name, image, component), owner, rest);
  }

  lemma SumOfThree(a: Fields, b: Fields, c: Fields, d: Fields)
    ensures a + b + c + d == a + (b + c + d) && a + b + c == a + (b + c)
  {}

  lemma ScalerBody(name: string, a: Autoscaling)
    ensures var f: Fields := map[Spec("scaleTargetRef") := Text(name), Spec("minReplicas") := Number(a.minReplicas),
                                 Spec("maxReplicas") := Number(a.maxReplicas),
                                 Spec("averageUtilization") := Number(a.cpu.GetOr(70))];
            ScalerOf(f, name, a) && forall p | p in f :: BodyPath(p)
  {
    assert |"scaleTargetRef"| == 14 && |"minReplicas"| == |"maxReplicas"| == 11 && |"averageUtilization"| == 18;
    assert "minReplicas"[1] == 'i' && "maxReplicas"[1] == 'a' && |"owner"| == 5;
  }

  lemma HpaIs(name: string, image: string, a: Autoscaling, owner: string)
    ensures var f := HpaFields(name, image, a, owner);
            ScalerOf(f, name, a) && MetaOf(f, name, image, "worker", owner)
  {
    ScalerBody(name, a);
    hide Meta, CommonLabels, MetaOf, FieldIs;
    assert |"scaleTargetRef"| == 14 && |"minReplicas"| == |"maxReplicas"| == 11 && |"averageUtilization"| == 18;
    assert |"owner"| == 5;
    CommonUnder(name, image, "worker", owner,
                map[Spec("scaleTargetRef") := Text(name), Spec("minReplicas") := Number(a.minReplicas),
                    Spec("maxReplicas") := Number(a.maxReplicas),
                    Spec("averageUtilization") := Number(a.cpu.GetOr(70))]);
  }

  lemma IngressBody(host: string, backend: string, cfg: IngressConfig)
    ensures var f := map[Spec("host") := Text(host), Spec("backend") := Text(backend)]
                     + TextField("ingressClassName", cfg.className) + TextField("tls", cfg.tlsSecretName);
            IngressOf(f, host, backend, cfg) && forall p | p in f :: BodyPath(p)
  {
    assert |"host"| == 4 && |"backend"| == 7 && |"ingressClassName"| == 16 && |"tls"| == 3 && |"owner"| == 5;
  }

  lemma IngressIs(name: string, image: string, component: string, host: string, cfg: IngressConfig, owner: string)
    ensures var f := IngressFields(name, image, component, host, cfg, owner);
            IngressOf(f, host, name, cfg) && MetaOf(f, name, image, component + "-ingress", owner)
  {
    IngressBody(host, name, cfg);
    hide Meta, CommonLabels, MetaOf, CommonMap, FieldIs, TextField;
    var labels := CommonLabels(name, image, "ingress")["app.kubernetes.io/component" := component + "-ingress"];
    var b, c, d := map[Spec("host") := Text(host), Spec("backend") := Text(name)],
                   TextField("ingressClassName", cfg.className), TextField("tls", cfg.tlsSecretName);
    SumOfThree(Meta(labels, owner), b, c, d);
    IngressMap(name, image, component + "-ingress", "ingress");
    BodyUnder(name, image, component + "-ingress", labels, owner, b + c + d);
  }

  lemma RouteNames()
    ensures |"hostname"| == 8 && |"parent"| == 6 && |"rule"| == 4 && |"parentNamespace"| == 15 && |"sectionName"| == 11
    ensures |"owner"| == 5
  {}

  lemma RouteBody(host: string, gateway: GatewayRef, section: Option<string>, rule: string)
    ensures var f := map[Spec("hostname") := Text(host), Spec("parent") := Text(gateway.name),
                         Spec("rule") := Text(rule)]
                     + TextField("parentNamespace", gateway.ns) + TextField("sectionName", section);
            RouteOf(f, host, gateway, section, rule) && forall p | p in f :: BodyPath(p)
  {
    RouteNames();
  }

  lemma RouteIs(name: string, image: string, component: string, host: string, gateway: GatewayRef,
                section: Option<string>, rule: string, owner: string)
    ensures var f := RouteFields(name, image, component, host, gateway, section, rule, owner);
            RouteOf(f, host, gateway, section, rule) && MetaOf(f, name, image, component, owner)
  {
    RouteBody(host, gateway, section, rule);
    RouteNames();
    hide Meta, CommonLabels, MetaOf, FieldIs, TextField;
    var b, c, d := map[Spec("hostname") := Text(host), Spec("parent") := Text(gateway.name),
                       Spec("rule") := Text(rule)],
                   TextField("parentNamespace", gateway.ns), TextField("sectionName", section);
    SumOfThree(Meta(CommonLabels(name, image, component), owner), b, c, d);
    CommonUnder(name, image, component, owner, b + c + d);
  }

  lemma RuleIs(name: string, image: string, ns: string, owner: string)
    ensures var f := DestinationRuleFields(name, image, ns, owner);
            && FieldIs(f, Spec("host"), Some(Text(name + "." + ns + ".svc.cluster.local")))
            && FieldIs(f, Spec("httpCookie"), Some(Text("n8n-route")))
            && MetaOf(f, name, image, "main", owner)
  {
    hide Meta, CommonLabels, MetaOf;
    assert |"host"| == 4 && |"httpCookie"| == 10 && |"owner"| == 5;
    CommonUnder(name, image, "main", owner,
                map[Spec("host") := Text(name + "." + ns + ".svc.cluster.local"),
                    Spec("httpCookie") := Text("n8n-route")]);
  }

  lemma ServiceNames()
    ensures |"type"| == |"port"| == 4 && "type"[0] == 't' && "port"[0] == 'p' && |"sessionAffinity"| == 15
            && |"owner"| == 5
  {}

  lemma ServiceBody(name: string, serviceType: Option<string>, sticky: bool)
    ensures var f := SelectorFields(SelectorLabels(name))
                     + map[Spec("type") := Text(serviceType.GetOr("ClusterIP")), Spec("port") := Number(5678)]
                     + (if sticky then map[Spec("sessionAffinity") := Text("ClientIP")] else map[]);
            ServiceOf(f, name, serviceType, sticky) && forall p | p in f :: BodyPath(p)
  {
    SelectorIs(name);
    hide SelectorFields, SelectorLabels;
    ServiceNames();
  }

  lemma ServiceMoves(f: Fields, rest: Fields, name: string, serviceType: Option<string>, sticky: bool)
    requires ServiceOf(rest, name, serviceType, sticky)
    requires forall p: Path, v | BodyPath(p) :: FieldIs(f, p, v) == FieldIs(rest, p, v)
    ensures ServiceOf(f, name, serviceType, sticky)
  {
    hide FieldIs;
    ServiceNames();
  }

  lemma ServiceIs(name: string, image: string, component: string, serviceType: Option<string>, sticky: bool,
                  owner: string)
    ensures var f := ServiceFields(name, image, component, serviceType, sticky, owner);
            ServiceOf(f, name, serviceType, sticky) && MetaOf(f, name, image, component, owner)
  {
    ServiceBody(name, serviceType, sticky);
    hide Meta, CommonLabels, SelectorFields, SelectorLabels, MetaOf, FieldIs, ServiceOf, BodyPath;
    var b, c := SelectorFields(SelectorLabels(name)),
                map[Spec("type") := Text(serviceType.GetOr("ClusterIP")), Spec("port") := Number(5678)];
    var d: Fields := if sticky then map[Spec("sessionAffinity") := Text("ClientIP")] else map[];
    SumOfThree(Meta(CommonLabels(name, image, component), owner), b, c, d);
    CommonUnder(name, image, component, owner, b + c + d);
    ServiceMoves(ServiceFields(name, image, component, serviceType, sticky, owner), b + c + d, name, serviceType,
                 sticky);
  }

  lemma SelectorIs(name: string)
    ensures var f := SelectorFields(SelectorLabels(name));
            && (forall p | p in f :: p.SelectorLabel?)
            && FieldIs(f, SelectorLabel("app.kubernetes.io/name"), Some(Text("n8n")))
            && FieldIs(f, SelectorLabel("app.kubernetes.io/instance"), Some(Text(name)))
  {
    assert |"app.kubernetes.io/name"| == 22 && |"app.kubernetes.io/instance"| == 26;
    assert "app.kubernetes.io/name" in SelectorLabels(name) && "app.kubernetes.io/instance" in SelectorLabels(name);
  }

  lemma PvcIs(instance: string, image: string, component: string, p: Storage, owner: string)
    ensures var f := PvcFields(instance, image, component, p, owner);
            ClaimOf(f, p) && MetaOf(f, instance, image, component, owner)
  {
    hide Meta, CommonLabels, MetaOf;
    assert |"storage"| == 7 && |"accessModes"| == 11 && |"storageClassName"| == 16 && |"owner"| == 5;
    var b, c := map[Spec("accessModes") := Text(p.accessMode), Spec("storage") := Text(p.size)],
                TextField("storageClassName", p.storageClass);
    SumOfThree(Meta(CommonLabels(instance, image, component), owner), b, c, map[]);
    CommonUnder(instance, image, component, owner, b + c);
  }

  lemma PodSpecIs(image: string, env: seq<EnvEntry>, volumes: seq<string>, command: seq<string>,
                  strategy: Option<Strategy>, instanceAi: Option<(string, string)>)
    ensures var f := PodSpecFields(image, env, volumes, command, strategy, instanceAi);
            && SpecOf(f, image, env, volumes, command, strategy,
                      if instanceAi.Some? then Some(instanceAi.value.0 + "-instance-ai") else None)
            && Replicas !in f && Spec("owner") !in f
  {
    UpdateIs(strategy);
    hide StrategyTexts, Update;
    PodSpecNames();
  }

  lemma UpdateIs(s: Option<Strategy>)
    ensures s.Some? ==> StrategyTexts(s.value) == Update(s.value)
  {}

  lemma PodSpecNames()
    ensures |"image"| == |"owner"| == 5 && |"volumes"| == |"command"| == |"envFrom"| == 7 && |"strategy"| == 8
    ensures "image"[0] == 'i' && "owner"[0] == 'o' && "volumes"[0] == 'v' && "command"[0] == 'c' && "envFrom"[0] == 'e'
  {}

  /** Four groups of fields that have no path in common. */
  lemma FourGroups(meta: Fields, workload: Fields, spec: Fields, count: Fields)
    requires forall p | p in meta :: p.Label? || p.Annotation? || p == Spec("owner")
    requires forall p | p in workload :: p.SelectorLabel? || p.PodLabel? || p.PodAnnotation?
    requires forall p | p in spec :: (p.Spec? && p != Spec("owner")) || p.EnvList?
    requires forall p | p in count :: p.Replicas?
    ensures forall p: Path, v | (p.Spec? && p != Spec("owner")) || p.EnvList? ::
              FieldIs(meta + workload + spec + count, p, v) == FieldIs(spec, p, v)
    ensures forall p: Path, v | p.SelectorLabel? || p.PodLabel? || p.PodAnnotation? ::
              FieldIs(meta + workload + spec + count, p, v) == FieldIs(workload, p, v)
    ensures forall v :: FieldIs(meta + workload + spec + count, Replicas, v) == FieldIs(count, Replicas, v)
    ensures meta + workload + spec + count == meta + (workload + spec + count)
  {}

  /** What a Deployment's groups of fields are made of. */
  lemma DeploymentGroups(name: string, image: string, component: string, env: seq<EnvEntry>,
                         volumes: seq<string>, command: seq<string>, pod: Option<PodConfig>, strategy: Option<Strategy>,
                         instanceAi: Option<(string, string)>, owner: string, annotations: map<string, string>)
    ensures var labels := CommonLabels(name, image, component);
            var meta, workload := Meta(labels, owner), WorkloadFields(SelectorLabels(name), labels, annotations, pod);
            var spec := PodSpecFields(image, env, volumes, command, strategy, instanceAi);
            && (forall p | p in meta :: p.Label? || p.Annotation? || p == Spec("owner"))
            && (forall p | p in workload :: p.SelectorLabel? || p.PodLabel? || p.PodAnnotation?)
            && (forall p | p in spec :: (p.Spec? && p != Spec("owner")) || p.EnvList?)
            && FieldIs(workload, SelectorLabel("app.kubernetes.io/name"), Some(Text("n8n")))
            && FieldIs(workload, SelectorLabel("app.kubernetes.io/instance"), Some(Text(name)))
            && PodWishes(workload, pod)
  {
    WishesMet(SelectorLabels(name), CommonLabels(name, image, component), annotations, pod);
    hide PodWishes, CommonLabels, SelectorLabels, CommonAnnotations, Meta, PodSpecFields, SelectorFields,
         WorkloadFields;
    SelectorIs(name);
    PodSpecIs(image, env, volumes, command, strategy, instanceAi);
    var labels := CommonLabels(name, image, component);
    MetaPaths(labels, owner);
    forall n: string ensures Spec(n) in Meta(labels, owner) <==> n == "owner" { MetaSpec(labels, owner, n); }
    WorkloadPaths(SelectorLabels(name), labels, annotations, pod);
    WorkloadSelectors(SelectorLabels(name), labels, annotations, pod);
    PodSpecPaths(image, env, volumes, command, strategy, instanceAi);
  }

  lemma SpecMoves(f: Fields, spec: Fields, image: string, env: seq<EnvEntry>, volumes: seq<string>,
                  command: seq<string>, strategy: Option<Strategy>, envFrom: Option<string>)
    requires SpecOf(spec, image, env, volumes, command, strategy, envFrom)
    requires forall p: Path, v | (p.Spec? && p != Spec("owner")) || p.EnvList? ::
               FieldIs(f, p, v) == FieldIs(spec, p, v)
    ensures SpecOf(f, image, env, volumes, command, strategy, envFrom)
  {
    hide Update, FieldIs;
    PodSpecNames();
  }

  /** A Deployment from its groups of fields. */
  lemma DeploymentFrom(meta: Fields, workload: Fields, spec: Fields, count: Fields, name: string, image: string,
                       component: string, replicas: Option<int>, env: seq<EnvEntry>, volumes: seq<string>,
                       command: seq<string>, pod: Option<PodConfig>, strategy: Option<Strategy>,
                       envFrom: Option<string>, owner: string)
    requires PodWishes(workload, pod)
    requires forall p | p in meta :: p.Label? || p.Annotation? || p == Spec("owner")
    requires forall p | p in workload :: p.SelectorLabel? || p.PodLabel? || p.PodAnnotation?
    requires forall p | p in spec :: (p.Spec? && p != Spec("owner")) || p.EnvList?
    requires forall p | p in count :: p.Replicas?
    requires MetaOf(meta + (workload + spec + count), name, image, component, owner)
    requires SpecOf(spec, image, env, volumes, command, strategy, envFrom)
    requires FieldIs(count, Replicas, if replicas.Some? then Some(Number(replicas.value)) else None)
    requires FieldIs(workload, SelectorLabel("app.kubernetes.io/name"), Some(Text("n8n")))
    requires FieldIs(workload, SelectorLabel("app.kubernetes.io/instance"), Some(Text(name)))
    ensures DeploymentOf(meta + workload + spec + count, name, image, component, replicas, env, volumes, command,
                         pod, strategy, envFrom, owner)
  {
    hide MetaOf, FieldIs, SpecOf;
    FourGroups(meta, workload, spec, count);
    SpecMoves(meta + workload + spec + count, spec, image, env, volumes, command, strategy, envFrom);
  }

  lemma DeploymentIs(name: string, image: string, component: string, replicas: Option<int>, env: seq<EnvEntry>,
                     volumes: seq<string>, command: seq<string>, pod: Option<PodConfig>, strategy: Option<Strategy>,
                     instanceAi: Option<(string, string)>, owner: string)
    ensures DeploymentOf(DeploymentFields(name, image, component, replicas, env, volumes, command, pod, strategy,
                                          instanceAi, owner),
                         name, image, component, replicas, env, volumes, command, pod, strategy,
                         if instanceAi.Some? then Some(instanceAi.value.0 + "-instance-ai") else None, owner)
  {
    hide CommonLabels, SelectorLabels, CommonAnnotations, Meta, PodSpecFields, INSTANCE_AI_REVISION, SelectorFields,
         WorkloadFields, StrategyTexts, MetaOf, CommonMap, SpecOf, DeploymentOf, PodWishes;
    var count := if replicas.Some? then map[Replicas := Number(replicas.value)] else map[];
    var labels := CommonLabels(name, image, component);
    var annotations := CommonAnnotations()
      + if instanceAi.Some? then map[INSTANCE_AI_REVISION := instanceAi.value.1] else map[];
    var meta, workload := Meta(labels, owner), WorkloadFields(SelectorLabels(name), labels, annotations, pod);
    var spec := PodSpecFields(image, env, volumes, command, strategy, instanceAi);
    var envFrom := if instanceAi.Some? then Some(instanceAi.value.0 + "-instance-ai") else None;
    DeploymentGroups(name, image, component, env, volumes, command, pod, strategy, instanceAi, owner, annotations);
    PodSpecIs(image, env, volumes, command, strategy, instanceAi);
    CommonIs(name, image, component);
    MetaIs(name, image, component, labels, owner, workload + spec + count);
    DeploymentFrom(meta, workload, spec, count, name, image, component, replicas, env, volumes, command, pod, strategy,
                   envFrom, owner);
  }

  lemma UserLabelsMet(selector: map<string, string>, labels: map<string, string>, annotations: map<string, string>,
                      pod: Option<PodConfig>, l: string)
    requires l in PodLabelsOf(pod)
    ensures FieldIs(WorkloadFields(selector, labels, annotations, pod), PodLabel(l), Some(Text(PodLabelsOf(pod)[l])))
  {
    hide PodLabelsOf, PodAnnotationsOf;
    assert PodLabel(l) in PodLabelFields(labels + PodLabelsOf(pod));
  }

  lemma UserNotesMet(selector: map<string, string>, labels: map<string, string>, annotations: map<string, string>,
                     pod: Option<PodConfig>, l: string)
    requires l in PodAnnotationsOf(pod)
    ensures FieldIs(WorkloadFields(selector, labels, annotations, pod), PodAnnotation(l),
                    Some(Text(PodAnnotationsOf(pod)[l])))
  {
    hide PodLabelsOf, PodAnnotationsOf;
    assert PodAnnotation(l) in PodAnnotationFields(annotations + PodAnnotationsOf(pod));
  }

  lemma WishesMet(selector: map<string, string>, labels: map<string, string>, annotations: map<string, string>,
                  pod: Option<PodConfig>)
    ensures PodWishes(WorkloadFields(selector, labels, annotations, pod), pod)
  {
    hide PodLabelsOf, PodAnnotationsOf, WorkloadFields, FieldIs, PodWishes;
    var f := WorkloadFields(selector, labels, annotations, pod);
    forall l | l in PodLabelsOf(pod) ensures FieldIs(f, PodLabel(l), Some(Text(PodLabelsOf(pod)[l]))) {
      UserLabelsMet(selector, labels, annotations, pod, l);
    }
    forall l | l in PodAnnotationsOf(pod) ensures FieldIs(f, PodAnnotation(l), Some(Text(PodAnnotationsOf(pod)[l]))) {
      UserNotesMet(selector, labels, annotations, pod, l);
    }
    WishesAre(f, pod);
  }

  lemma WishesAre(f: Fields, pod: Option<PodConfig>)
    requires forall l | l in PodLabelsOf(pod) :: FieldIs(f, PodLabel(l), Some(Text(PodLabelsOf(pod)[l])))
    requires forall l | l in PodAnnotationsOf(pod) :: FieldIs(f, PodAnnotation(l), Some(Text(PodAnnotationsOf(pod)[l])))
    ensures PodWishes(f, pod)
  {}

  lemma WorkloadSelectors(selector: map<string, string>, labels: map<string, string>, annotations: map<string, string>,
                          pod: Option<PodConfig>)
    ensures forall p | p in SelectorFields(selector) ::
              FieldIs(WorkloadFields(selector, labels, annotations, pod), p, Some(SelectorFields(selector)[p]))
  {
    hide PodLabelsOf, PodAnnotationsOf;
  }

  // ----- From expectations to the spec -----

  lemma DeclaredIs(t: Store, e: Expectation)
    requires Meets(t, e) && e.want.Some?
    ensures e.key in t.objects && Declared(t, e.key) == e.want.value
  {}

  lemma IngressMeets(t: Store, ns: string, role: string, image: string, component: string, host: Option<string>,
                     net: Option<NetworkingSpec>, owner: string)
    requires Meets(t,
                   Expectation(Key(Ingress, ns, role), RoleSurface(role, image, component, host, net, owner).ingress))
    ensures IngressAs(t, ns, role, image, component, host, net, owner)
  {
    hide IngressFields, RouteFields, IngressOf, MetaOf, RedirectName;
    if net.Some? && net.value.ingress.Some? {
      IngressIs(role, image, component, host.GetOr(""), net.value.ingress.value, owner);
    }
  }

  lemma RoutesMeet(t: Store, ns: string, role: string, image: string, component: string, host: Option<string>,
                   net: Option<NetworkingSpec>, owner: string)
    requires var s := RoleSurface(role, image, component, host, net, owner);
             && Meets(t, Expectation(Key(HTTPRoute, ns, role), s.route))
             && Meets(t, Expectation(Key(HTTPRoute, ns, role + "-redirect"), s.redirect))
    ensures RoutesAs(t, ns, role, image, host, net, owner)
  {
    hide IngressFields, RouteFields, RouteOf, MetaOf;
    if net.Some? && net.value.httpRoute.Some? {
      var cfg, h := net.value.httpRoute.value, host.GetOr("");
      RouteIs(role, image, "http-route", h, cfg.gateway, cfg.gateway.sectionName, role, owner);
      RouteIs(role + "-redirect", image, "http-redirect", h, cfg.gateway, cfg.httpsRedirectSectionName, "https 301",
              owner);
    }
  }

  lemma ServiceMeets(t: Store, ns: string, role: string, image: string, component: string,
                     serviceType: Option<string>, sticky: bool, owner: string)
    requires Meets(t, Expectation(Key(Service, ns, role),
                                  Some(ServiceFields(role, image, component, serviceType, sticky, owner))))
    ensures ServiceAs(t, ns, role, image, component, serviceType, sticky, owner)
  {
    hide ServiceFields, ServiceOf, MetaOf;
    ServiceIs(role, image, component, serviceType, sticky, owner);
  }

  /** A Deployment as rendered: what it declares, with the environment it carries. */
  lemma DeploymentMeets(t: Store, ns: string, role: string, image: string, component: string, replicas: Option<int>,
                        env: seq<EnvEntry>, volumes: seq<string>, command: seq<string>, pod: Option<PodConfig>,
                        strategy: Option<Strategy>, instanceAi: Option<(string, string)>, owner: string)
    requires Meets(t, Expectation(Key(Deployment, ns, role),
                                  Some(DeploymentFields(role, image, component, replicas, env, volumes, command, pod,
                                                        strategy, instanceAi, owner))))
    ensures var k := Key(Deployment, ns, role);
            && EnvAt(t, k) == env
            && DeploymentOf(Declared(t, k), role, image, component, replicas, env, volumes, command, pod, strategy,
                            if instanceAi.Some? then Some(instanceAi.value.0 + "-instance-ai") else None, owner)
  {
    hide DeploymentFields, MetaOf;
    DeploymentIs(role, image, component, replicas, env, volumes, command, pod, strategy, instanceAi, owner);
    var want := DeploymentFields(role, image, component, replicas, env, volumes, command, pod, strategy, instanceAi,
                                 owner);
    DeclaredIs(t, Expectation(Key(Deployment, ns, role), Some(want)));
    hide SpecOf;
    ListOf(want, image, env, volumes, command, strategy,
           if instanceAi.Some? then Some(instanceAi.value.0 + "-instance-ai") else None);
  }

  lemma ListOf(f: Fields, image: string, env: seq<EnvEntry>, volumes: seq<string>, command: seq<string>,
               strategy: Option<Strategy>, envFrom: Option<string>)
    requires SpecOf(f, image, env, volumes, command, strategy, envFrom)
    ensures FieldIs(f, EnvList, Some(Environment(env)))
  {}

  // ----- Objects outside the expectations -----

  /** A claim is applied when wanted, and not touched otherwise. */
  lemma ClaimStep(s: Store, ops: seq<Op>, k: Key, p: Option<Storage>, want: Option<Fields>)
    requires Keyed(ops) && Distinct(ops) && (want.Some? <==> p.Some?)
    requires want.Some? ==> Put(k, want.value) in ops && ClaimOf(want.value, p.value)
    requires want.None? ==> forall op | op in ops :: op.key != k
    ensures ClaimedAs(s, Run(s, ops), k, p)
  {
    hide Run, ClaimOf;
    if want.Some? {
      WriteMeets(s, ops, Expectation(k, want));
    } else {
      RunFrame(s, ops, k);
    }
  }

  /** The generated key is created once. */
  lemma KeyStep(s: Store, ops: seq<Op>, k: Key, given: Option<SecretKeyRef>, want: Option<Fields>, generated: string)
    requires Keyed(ops) && Distinct(ops) && (want.None? <==> given.Some?)
    requires want.Some? ==> Create(k, want.value) in ops
    requires want.Some? ==> FieldIs(want.value, Data("encryption_key"), Some(Text(generated)))
    requires want.None? ==> forall op | op in ops :: op.key != k
    ensures KeyAs(s, Run(s, ops), k, given, generated)
  {
    hide Run;
    if want.None? {
      RunFrame(s, ops, k);
    } else {
      forall op | op in ops && op.key == k ensures op.Create? {
        SameKeySameWrite(ops, op, Create(k, want.value));
      }
      if k in s.objects {
        CreatedStays(s, ops, k);
      } else {
        RunCreates(s, ops, k, want.value);
      }
    }
  }

  lemma StepElsewhere(s: Store, op: Op, k: Key)
    requires !op.Purge? && op.key != k
    ensures Step(s, op).Find(k) == s.Find(k)
  {}

  lemma {:induction false} RunCreates(s: Store, ops: seq<Op>, k: Key, want: Fields)
    requires Keyed(ops) && Distinct(ops) && Create(k, want) in ops && k !in s.objects
    ensures k in Run(s, ops).objects && Run(s, ops).objects[k].fields == want
    decreases |ops|
  {
    hide Step;
    var t, rest := Step(s, ops[0]), ops[1..];
    assert forall i | 0 <= i < |rest| :: rest[i] == ops[i + 1];
    var i :| 0 <= i < |ops| && ops[i] == Create(k, want);
    if i == 0 {
      StepCreates(s, k, want);
      RunFrame(t, rest, k);
      assert Run(t, rest).Find(k) == t.Find(k);
    } else {
      StepElsewhere(s, ops[0], k);
      assert t.Find(k) == s.Find(k) && rest[i - 1] == ops[i];
      RunCreates(t, rest, k, want);
    }
  }

  lemma StepCreates(s: Store, k: Key, want: Fields)
    requires k !in s.objects
    ensures k in Step(s, Create(k, want)).objects && Step(s, Create(k, want)).objects[k].fields == want
  {}

  lemma SecretIs(name: string, image: string, generated: string, owner: string)
    ensures FieldIs(EncryptionSecretFields(name, image, generated, owner), Data("encryption_key"),
                    Some(Text(generated)))
  {
    hide Meta, CommonLabels;
  }

  // ----- The version label -----

  lemma {:induction false} AfterLastFound(s: string, t: string, sep: char)
    requires sep !in t
    ensures AfterLast(s + [sep] + t, sep) == Some(t)
    decreases |t|
  {
    var all := s + [sep] + t;
    if t != "" {
      var n := |t| - 1;
      assert all[..|all| - 1] == s + [sep] + t[..n] && t[n] in t;
      AfterLastFound(s, t[..n], sep);
      assert t == t[..n] + [t[n]];
    }
  }

  lemma {:induction false} AfterLastMissing(s: string, sep: char)
    requires sep !in s
    ensures AfterLast(s, sep) == None
  {
    if s != "" {
      assert s[|s| - 1] in s && forall c | c in s[..|s| - 1] :: c in s;
      AfterLastMissing(s[..|s| - 1], sep);
    }
  }

  /** The version is the tag of the image's last path segment, or `latest`; a registry's port is no tag. */
  lemma VersionIs(path: string, name: string, tag: string)
    requires '/' !in name && '/' !in tag && ':' !in tag
    ensures ImageVersion(name + ":" + tag) == tag && ImageVersion(path + "/" + name + ":" + tag) == tag
    ensures ':' !in name ==> ImageVersion(name) == "latest" && ImageVersion(path + "/" + name) == "latest"
  {
    hide AfterLast;
    var last := name + ":" + tag;
    assert '/' !in last;
    AfterLastMissing(last, '/');
    AfterLastMissing(name, '/');
    assert path + "/" + name + ":" + tag == path + ['/'] + last && path + "/" + name == path + ['/'] + name;
    AfterLastFound(path, last, '/');
    AfterLastFound(path, name, '/');
    assert last == name + [':'] + tag;
    AfterLastFound(name, tag, ':');
    if ':' !in name {
      AfterLastMissing(name, ':');
    }
  }
}
