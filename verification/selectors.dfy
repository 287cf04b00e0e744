/** User pod metadata over operator metadata, and what that does to label selectors. */
module Selectors {
  import opened Wrappers
  import opened Resources
  import opened Builders
  import opened SandboxNames

  /** `merge_string_map`: every extra entry is inserted over the target's, in any order. */
  method MergeStringMap(target: Option<map<string, string>>, extra: map<string, string>)
    returns (merged: map<string, string>)
    ensures merged == target.GetOr(map[]) + extra
  {
    var base := target.GetOr(map[]);
    merged := base;
    var left := extra.Keys;
    while left != {}
      invariant left <= extra.Keys
      invariant merged.Keys == base.Keys + (extra.Keys - left)
      invariant forall k | k in merged :: merged[k] == if k in extra && k !in left then extra[k] else base[k]
      decreases |left|
    {
      var k :| k in left;
      merged := merged[k := extra[k]];
      left := left - {k};
    }
  }

  /** `apply_pod_config` on a pod template's labels and annotations; unset parts change nothing. */
  method ApplyPodConfig(labels: map<string, string>, annotations: map<string, string>, pod: Option<PodConfig>)
    returns (l: map<string, string>, a: map<string, string>)
    ensures l == labels + PodLabelsOf(pod) && a == annotations + PodAnnotationsOf(pod)
  {
    l, a := labels, annotations;
    if pod.Some? && pod.value.podLabels.Some? {
      l := MergeStringMap(Some(labels), pod.value.podLabels.value);
    }
    if pod.Some? && pod.value.podAnnotations.Some? {
      a := MergeStringMap(Some(annotations), pod.value.podAnnotations.value);
    }
  }

  /** No user label gives a selector key another value. */
  predicate Respects(extra: map<string, string>, selector: map<string, string>) {
    forall k | k in extra && k in selector :: extra[k] == selector[k]
  }

  /** A selector that matched the operator's labels still matches after the merge exactly when the user respects it. */
  lemma ContainmentIff(labels: map<string, string>, extra: map<string, string>, selector: map<string, string>)
    requires MatchesLabels(labels, selector)
    ensures MatchesLabels(labels + extra, selector) <==> Respects(extra, selector)
  {
    forall k | k in extra && k in selector ensures (labels + extra)[k] == extra[k] {
    }
  }

  /** The n8n workloads: pods match their Deployment's and Service's selector exactly when the user respects it. */
  lemma WorkloadSelected(name: string, image: string, component: string, pod: Option<PodConfig>)
    ensures MatchesLabels(CommonLabels(name, image, component) + PodLabelsOf(pod), SelectorLabels(name))
       <==> Respects(PodLabelsOf(pod), SelectorLabels(name))
  {
    CommonLabelsSelected(name, image, component);
    ContainmentIff(CommonLabels(name, image, component), PodLabelsOf(pod), SelectorLabels(name));
  }

  lemma CommonLabelsSelected(name: string, image: string, component: string)
    ensures MatchesLabels(CommonLabels(name, image, component), SelectorLabels(name))
  {
    hide ImageVersion;
    assert |"app.kubernetes.io/name"| == 22 && |"app.kubernetes.io/instance"| == 26;
    assert |"app.kubernetes.io/managed-by"| == 28 && |"app.kubernetes.io/part-of"| == 25;
    assert |"app.kubernetes.io/component"| == 27 && |"app.kubernetes.io/version"| == 25;
  }

  // ----- Sandbox workloads -----

  /** The selector of a sandbox workload and of its Service. */
  function PodSelector(crNs: string, crName: string, component: string): map<string, string> {
    map["app.kubernetes.io/name" := "n8n-sandbox", "app.kubernetes.io/instance" := crName,
        "app.kubernetes.io/component" := component, ASSISTANT_NS_LABEL := crNs]
  }

  function PodLabels(crNs: string, crName: string, component: string, pod: Option<PodConfig>): map<string, string> {
    SandboxLabels(crNs, crName, component) + PodLabelsOf(pod)
  }

  lemma SandboxKeysDiffer()
    ensures |"app.kubernetes.io/name"| == 22 && |"app.kubernetes.io/instance"| == 26
        && |"app.kubernetes.io/managed-by"| == 28
    ensures |"app.kubernetes.io/part-of"| == 25 && |"app.kubernetes.io/component"| == 27
    ensures |ASSISTANT_LABEL| == 22 && |ASSISTANT_NS_LABEL| == 32
    ensures "app.kubernetes.io/name"[0] == 'a' && ASSISTANT_LABEL[0] == 'n'
  {}

  /** The operator's own labels determine what a selector of this shape picks. */
  lemma SelectsOwn(ns1: string, name1: string, c1: string, ns2: string, name2: string, c2: string)
    ensures MatchesLabels(SandboxLabels(ns1, name1, c1), PodSelector(ns2, name2, c2))
       <==> ns1 == ns2 && name1 == name2 && c1 == c2
  {
    SandboxKeysDiffer();
    var s, l := PodSelector(ns2, name2, c2), SandboxLabels(ns1, name1, c1);
    assert "app.kubernetes.io/instance" in s && "app.kubernetes.io/component" in s && ASSISTANT_NS_LABEL in s;
    assert s["app.kubernetes.io/instance"] == name2 && s["app.kubernetes.io/component"] == c2
        && s[ASSISTANT_NS_LABEL] == ns2;
    assert l["app.kubernetes.io/instance"] == name1 && l["app.kubernetes.io/component"] == c1
        && l[ASSISTANT_NS_LABEL] == ns1;
  }

  /** A sandbox pod belongs to its own selector exactly when the user respects it. */
  lemma SandboxPodSelected(crNs: string, crName: string, component: string, pod: Option<PodConfig>)
    ensures MatchesLabels(PodLabels(crNs, crName, component, pod), PodSelector(crNs, crName, component))
       <==> Respects(PodLabelsOf(pod), PodSelector(crNs, crName, component))
  {
    SelectsOwn(crNs, crName, component, crNs, crName, component);
    ContainmentIff(SandboxLabels(crNs, crName, component), PodLabelsOf(pod), PodSelector(crNs, crName, component));
  }

  /**
   As long as users respect their own selectors, a sandbox Service reaches the pods of its own component and no
   others.
   */
  lemma ServiceIsolated(ns1: string, name1: string, c1: string, pod: Option<PodConfig>, ns2: string, name2: string,
                        c2: string)
    requires Respects(PodLabelsOf(pod), PodSelector(ns1, name1, c1))
    ensures MatchesLabels(PodLabels(ns1, name1, c1, pod), PodSelector(ns2, name2, c2))
       <==> ns1 == ns2 && name1 == name2 && c1 == c2
  {
    SelectsOwn(ns1, name1, c1, ns2, name2, c2);
    SelectsOwn(ns1, name1, c1, ns1, name1, c1);
    SameKeys(ns1, name1, c1, ns2, name2, c2);
    hide PodSelector, SandboxLabels, PodLabelsOf;
    var labels, extra, s, t := SandboxLabels(ns1, name1, c1), PodLabelsOf(pod), PodSelector(ns1, name1, c1),
        PodSelector(ns2, name2, c2);
    forall k | k in t ensures k in labels && (labels + extra)[k] == labels[k] {
      assert k in s;
    }
  }

  lemma SameKeys(ns1: string, name1: string, c1: string, ns2: string, name2: string, c2: string)
    ensures PodSelector(ns1, name1, c1).Keys == PodSelector(ns2, name2, c2).Keys
  {}

  /** Without it, a pod label is enough to be reached through another Assistant's Service. */
  lemma RelabelledPodIsReached(crNs: string, crName: string, other: string)
    requires crName != other
    ensures var pod := Some(PodConfig(Some(map["app.kubernetes.io/instance" := other]), None));
            && MatchesLabels(PodLabels(crNs, crName, "sandbox-api", pod), PodSelector(crNs, other, "sandbox-api"))
            && !MatchesLabels(PodLabels(crNs, crName, "sandbox-api", pod), PodSelector(crNs, crName, "sandbox-api"))
  {
    var extra := map["app.kubernetes.io/instance" := other];
    SandboxKeysDiffer();
    SelectsOwn(crNs, crName, "sandbox-api", crNs, crName, "sandbox-api");
    SandboxPodSelected(crNs, crName, "sandbox-api", Some(PodConfig(Some(extra), None)));
    var s := PodSelector(crNs, crName, "sandbox-api");
    assert "app.kubernetes.io/instance" in extra && "app.kubernetes.io/instance" in s
        && s["app.kubernetes.io/instance"] == crName;
  }
}
