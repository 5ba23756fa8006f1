/**
 * How the objects of a run fit together: which pods belong to which workload and service, which account may do what,
 * and on which nodes pods run.
 */
module Wiring {
  import opened Basics
  import opened Api
  import opened Profiles
  import opened Resources
  import opened Naming
  import opened Blueprint
  import opened Convergence

  // ---------------------------------------------------------------- pods

  predicate IsWorkload(k: Key) { k.kind == DaemonSet || k.kind == Deployment }

  /** The component a workload's name tells. */
  lemma WorkloadComponent(x: string, k: Key, o: Object) returns (c: Component)
    requires (k.kind == DaemonSet && DaemonSetSpelled(x, k.name, o))
      || (k.kind == Deployment && DeploymentSpelled(x, k.name, o))
    ensures Stem(k.kind, c).Some? && k.name == StemName(k.kind, c, x) && Marked(o, x, ComponentText(c))
    ensures o.body.Workload? && o.body.selector == PodsOf(x, ComponentText(c)) == o.body.podLabels
  {
    hide PodsOf;
    if k.kind == DaemonSet {
      c := if Marked(o, x, "device-plugin") && k.name == "device-plugin-" + x then DevicePlugin
        else if Marked(o, x, "metrics-exporter") && k.name == "nvidia-dcgm-exporter-" + x then MetricsExporter
        else if Marked(o, x, "mig-faker") && k.name == "mig-faker-" + x then MigFaker
        else if Marked(o, x, "dra-plugin") && k.name == "dra-plugin-" + x then DraPlugin else ComputeDomainDra;
    } else {
      c := if Marked(o, x, "status-updater") && k.name == "status-updater-" + x then StatusUpdater
        else if Marked(o, x, "topology-server") && k.name == "topology-server-" + x then TopologyServer
        else ComputeDomainController;
    }
  }

  lemma ComponentTexts(c: Component, d: Component)
    ensures ComponentText(c) == ComponentText(d) ==> c == d
  {
  }

  lemma PodsApart(x: string, s: string, y: string, t: string)
    ensures Matches(PodsOf(x, s), PodsOf(y, t)) <==> x == y && s == t
  {
    assert AppInstance in PodsOf(x, s) && AppComponent in PodsOf(x, s);
  }

  lemma OneKind(c: Component)
    ensures Stem(DaemonSet, c).None? || Stem(Deployment, c).None?
  {
  }

  lemma WorkloadFacts(x: string, spec: Spec, ns: string, os: bool, m: Manifest) returns (c: Component)
    requires InPlan(x, spec, ns, os, m) && IsWorkload(m.key)
    ensures Stem(m.key.kind, c).Some? && m.key == Key(m.key.kind, ns, StemName(m.key.kind, c, x))
    ensures Marked(m.obj, x, ComponentText(c)) && m.obj.body.Workload?
    ensures m.obj.body.selector == PodsOf(x, ComponentText(c)) == m.obj.body.podLabels
  {
    hide InPlan, DaemonSetSpelled, DeploymentSpelled, Marked, PodsOf, ResolveProfile;
    PlannedSpelled(x, spec, ns, os, m);
    c := WorkloadComponent(x, m.key, m.obj);
  }

  /**
   * Every workload finds its own pods and nobody else's, whatever other components of whatever other custom resources
   * run in the namespace.
   */
  lemma SelectorsApart(x: string, s: Spec, m: Manifest, y: string, t: Spec, n: Manifest, ns: string, os: bool)
    requires InPlan(x, s, ns, os, m) && InPlan(y, t, ns, os, n) && IsWorkload(m.key) && IsWorkload(n.key)
    ensures m.obj.body.Workload? && n.obj.body.Workload?
      && (Matches(m.obj.body.selector, n.obj.body.podLabels) <==> m.key == n.key)
  {
    hide InPlan, Marked, PodsOf, ComponentText, Matches;
    var c := WorkloadFacts(x, s, ns, os, m);
    var d := WorkloadFacts(y, t, ns, os, n);
    PodsApart(x, ComponentText(c), y, ComponentText(d));
    ComponentTexts(c, d);
    OneKind(c);
    if m.key == n.key { StemNameInjective(m.key.kind, c, x, d, y); }
  }

  /** A service reaches the pods of its own component, and no others. */
  lemma ServicesReach(x: string, s: Spec, m: Manifest, y: string, t: Spec, n: Manifest, ns: string, os: bool)
    requires InPlan(x, s, ns, os, m) && InPlan(y, t, ns, os, n) && m.key.kind == Service && IsWorkload(n.key)
    ensures m.obj.body.Endpoint? && n.obj.body.Workload?
      && (Matches(m.obj.body.selector, n.obj.body.podLabels) <==>
            || (m.key.name == "nvidia-dcgm-exporter-" + x && n.key == Key(DaemonSet, ns, "nvidia-dcgm-exporter-" + x))
            || (m.key.name == "topology-server-" + x && n.key == Key(Deployment, ns, "topology-server-" + x)))
  {
    hide InPlan, Marked, PodsOf, ComponentText, Matches, ResolveProfile, CalledFor;
    PlannedSpelled(x, s, ns, os, m);
    var d := WorkloadFacts(y, t, ns, os, n);
    var c := if m.obj.body == Endpoint(PodsOf(x, "metrics-exporter")) && m.key.name == "nvidia-dcgm-exporter-" + x
      then MetricsExporter else TopologyServer;
    ServiceComponent(x, m.key.name, m.obj, c);
    PodsApart(x, ComponentText(c), y, ComponentText(d));
    ComponentTexts(c, d);
    ServiceNames(x);
    if n.key == Key(DaemonSet, ns, "nvidia-dcgm-exporter-" + x) {
      StemNameInjective(DaemonSet, MetricsExporter, x, d, y);
    }
    if n.key == Key(Deployment, ns, "topology-server-" + x) { StemNameInjective(Deployment, TopologyServer, x, d, y); }
  }

  lemma ServiceComponent(x: string, name: string, o: Object, c: Component)
    requires ServiceSpelled(x, name, o)
    requires c == if o.body == Endpoint(PodsOf(x, "metrics-exporter")) && name == "nvidia-dcgm-exporter-" + x
      then MetricsExporter else TopologyServer
    ensures o.body == Endpoint(PodsOf(x, ComponentText(c)))
    ensures c == MetricsExporter ==> name == "nvidia-dcgm-exporter-" + x
    ensures c == TopologyServer ==> name == "topology-server-" + x
  {
    hide PodsOf;
  }

  lemma ServiceNames(x: string)
    ensures "nvidia-dcgm-exporter-" + x != "topology-server-" + x
  {
    assert ("nvidia-dcgm-exporter-" + x)[0] == 'n' && ("topology-server-" + x)[0] == 't';
  }

  // ---------------------------------------------------------------- who may do what

  /** The components with a role of their own. */
  predicate Granted(c: Component) { c == DevicePlugin || c == StatusUpdater || c == MetricsExporter }

  lemma MarkedComponent(o: Object, x: string, t: string)
    requires Marked(o, x, t)
    ensures AppComponent in o.labels && o.labels[AppComponent] == t
  {
  }

  /** The component a binding's name tells. */
  lemma BindingFacts(x: string, spec: Spec, ns: string, os: bool, b: Manifest) returns (c: Component)
    requires InPlan(x, spec, ns, os, b) && b.key.kind == ClusterRoleBinding
    ensures Stem(ClusterRole, c).Some? && b.key == BindingKey(x, c) && Marked(b.obj, x, ComponentText(c))
    ensures b.obj.body.Binding? && b.obj.body.roleRef == b.key.name
    ensures c == Scc ==> os && b.obj.body.subjects == [Key(ServiceAccount, ns, "device-plugin-" + x),
      Key(ServiceAccount, ns, "metrics-exporter-" + x), Key(ServiceAccount, ns, "status-updater-" + x)]
    ensures c != Scc ==> Granted(c) && b.obj.body.subjects == [Key(ServiceAccount, ns, ComponentText(c) + "-" + x)]
  {
    hide InPlan, ResolveProfile, CalledFor;
    PlannedSpelled(x, spec, ns, os, b);
    c := BindingComponent(x, ns, b.key.name, b.obj);
    assert b.key.ns == "" && (c == Scc ==> os) by { BindingCalled(x, spec, ns, os, b.key, c); }
  }

  lemma BindingComponent(x: string, ns: string, name: string, o: Object) returns (c: Component)
    requires BindingSpelled(x, ns, name, o)
    ensures Stem(ClusterRole, c).Some? && name == StemName(ClusterRole, c, x) && Marked(o, x, ComponentText(c))
    ensures o.body.Binding? && o.body.roleRef == name
    ensures c == Scc ==> o.body.subjects == [Key(ServiceAccount, ns, "device-plugin-" + x),
      Key(ServiceAccount, ns, "metrics-exporter-" + x), Key(ServiceAccount, ns, "status-updater-" + x)]
    ensures c != Scc ==> Granted(c) && o.body.subjects == [Key(ServiceAccount, ns, ComponentText(c) + "-" + x)]
  {
    hide Marked;
    c := if name == "fake-gpu-device-plugin-" + x
        && Grants(o, x, "device-plugin", name, [Key(ServiceAccount, ns, "device-plugin-" + x)]) then DevicePlugin
      else if name == "fake-gpu-status-updater-" + x
        && Grants(o, x, "status-updater", name, [Key(ServiceAccount, ns, "status-updater-" + x)]) then StatusUpdater
      else if name == "fake-gpu-metrics-exporter-" + x
        && Grants(o, x, "metrics-exporter", name, [Key(ServiceAccount, ns, "metrics-exporter-" + x)])
        then MetricsExporter
      else Scc;
    assert "device-plugin" + "-" + x == "device-plugin-" + x;
    assert "status-updater" + "-" + x == "status-updater-" + x;
    assert "metrics-exporter" + "-" + x == "metrics-exporter-" + x;
  }

  lemma BindingCalled(x: string, spec: Spec, ns: string, os: bool, k: Key, c: Component)
    requires ResolveProfile(spec).Some? && CalledFor(x, spec, ResolveProfile(spec).value.name, ns, os, k)
    requires k.kind == ClusterRoleBinding && Stem(ClusterRole, c).Some? && k.name == StemName(ClusterRole, c, x)
    ensures k.ns == "" && (c == Scc ==> os)
  {
    hide ResolveProfile;
    NotSccName(x, DevicePlugin);
    NotSccName(x, StatusUpdater);
    NotSccName(x, MetricsExporter);
  }

  lemma NotSccName(x: string, c: Component)
    requires Granted(c)
    ensures StemName(ClusterRole, c, x) != StemName(ClusterRole, Scc, x)
  {
    if StemName(ClusterRole, c, x) == StemName(ClusterRole, Scc, x) { StemNameInjective(ClusterRole, c, x, Scc, x); }
  }

  /** Which service account the pods of a workload run under: their component's own if it has one. */
  lemma AccountFacts(x: string, spec: Spec, ns: string, os: bool, m: Manifest, c: Component)
    requires InPlan(x, spec, ns, os, m) && IsWorkload(m.key) && Marked(m.obj, x, ComponentText(c))
    requires Granted(c)
    ensures m.obj.body.Workload? && m.obj.body.account == ComponentText(c) + "-" + x
  {
    hide InPlan, ResolveProfile, CalledFor;
    PlannedSpelled(x, spec, ns, os, m);
    assert AppComponent in PodsOf(x, ComponentText(c));
    AccountOf(x, m.key, m.obj, c);
  }

  lemma AccountOf(x: string, k: Key, o: Object, c: Component)
    requires (k.kind == DaemonSet && DaemonSetSpelled(x, k.name, o))
      || (k.kind == Deployment && DeploymentSpelled(x, k.name, o))
    requires AppComponent in o.labels && o.labels[AppComponent] == ComponentText(c)
    requires Granted(c)
    ensures o.body.Workload? && o.body.account == ComponentText(c) + "-" + x
  {
    assert "device-plugin" + "-" + x == "device-plugin-" + x;
    assert "status-updater" + "-" + x == "status-updater-" + x;
    assert "metrics-exporter" + "-" + x == "metrics-exporter-" + x;
  }

  /**
   * The role of a component is granted to the account its pods run under, and to no other: in a run's plan, the subject
   * of a binding is the account of every workload of the same component, and the role it refers to is planned with the
   * same labels. The binding for OpenShift's security context constraints is granted to the accounts of the device
   * plugin, the metrics exporter and the status updater.
   */
  lemma GrantsReachPods(x: string, spec: Spec, ns: string, os: bool, b: Manifest, w: Manifest)
    requires InPlan(x, spec, ns, os, b) && InPlan(x, spec, ns, os, w)
    requires b.key.kind == ClusterRoleBinding && IsWorkload(w.key)
    ensures b.obj.body.Binding? && w.obj.body.Workload? && AppComponent in b.obj.labels && AppComponent in w.obj.labels
    ensures b.obj.labels[AppComponent] == w.obj.labels[AppComponent] ==>
      b.obj.body.subjects == [Key(ServiceAccount, ns, w.obj.body.account)]
    ensures b.obj.labels[AppComponent] == "scc" ==>
      b.obj.body.subjects == [Key(ServiceAccount, ns, "device-plugin-" + x),
        Key(ServiceAccount, ns, "metrics-exporter-" + x), Key(ServiceAccount, ns, "status-updater-" + x)]
    ensures b.obj.labels[AppComponent] == "scc" && Privileged(w.obj.labels[AppComponent]) ==>
      Key(ServiceAccount, ns, w.obj.body.account) in b.obj.body.subjects
  {
    hide InPlan, ResolveProfile, Matches, Marked, PodsOf, ComponentText;
    var c := BindingFacts(x, spec, ns, os, b);
    var d := WorkloadFacts(x, spec, ns, os, w);
    MarkedComponent(b.obj, x, ComponentText(c));
    MarkedComponent(w.obj, x, ComponentText(d));
    ComponentTexts(c, d);
    SccOwnText(c);
    if Granted(d) { AccountFacts(x, spec, ns, os, w, d); GrantedText(x, d); }
    TextOfThree(d);
    NotScc(w.key.kind, d);
  }

  /** The components whose pods need OpenShift's security context constraints. */
  predicate Privileged(t: string) { t == "device-plugin" || t == "metrics-exporter" || t == "status-updater" }

  lemma GrantedText(x: string, d: Component)
    requires Granted(d)
    ensures ComponentText(d) + "-" + x
      in ["device-plugin-" + x, "metrics-exporter-" + x, "status-updater-" + x]
  {
    assert "device-plugin" + "-" + x == "device-plugin-" + x;
    assert "status-updater" + "-" + x == "status-updater-" + x;
    assert "metrics-exporter" + "-" + x == "metrics-exporter-" + x;
  }

  lemma SccOwnText(c: Component)
    ensures ComponentText(c) == "scc" <==> c == Scc
  {
    ComponentTexts(c, Scc);
  }

  lemma TextOfThree(d: Component)
    ensures Privileged(ComponentText(d)) <==> Granted(d)
  {
    ComponentTexts(d, DevicePlugin);
    ComponentTexts(d, MetricsExporter);
    ComponentTexts(d, StatusUpdater);
  }

  lemma NotScc(kind: Kind, d: Component)
    requires (kind == DaemonSet || kind == Deployment) && Stem(kind, d).Some?
    ensures d != Scc
  {
  }

  /** Each binding refers to the role planned under its own name, with its own labels. */
  lemma RolesExist(x: string, spec: Spec, ns: string, os: bool, b: Manifest)
    requires InPlan(x, spec, ns, os, b) && b.key.kind == ClusterRoleBinding
    ensures b.obj.body.Binding? && exists r ::
      InPlan(x, spec, ns, os, r) && r.key == Key(ClusterRole, "", b.obj.body.roleRef) && r.obj.labels == b.obj.labels
  {
    hide ResolveProfile, Plan, CalledFor, Spelled;
    var c := BindingFacts(x, spec, ns, os, b);
    var p := ResolveProfile(spec).value;
    var k := Key(ClusterRole, "", b.obj.body.roleRef);
    PlannedSpelled(x, spec, ns, os, b);
    RoleCalledToo(x, spec, p, ns, os, b.key);
    PlanIsCalledFor(x, spec, p, ns, os, k);
    var plan := Plan(x, spec, p, ns, os);
    var i :| 0 <= i < |plan| && plan[i].key == k;
    assert InPlan(x, spec, ns, os, plan[i]);
    PlannedSpelled(x, spec, ns, os, plan[i]);
    RoleOf(x, spec, p, ns, plan[i], c);
  }

  lemma RoleCalledToo(x: string, spec: Spec, p: GPUProfile, ns: string, os: bool, k: Key)
    requires k.kind == ClusterRoleBinding && CalledFor(x, spec, p.name, ns, os, k)
    ensures CalledFor(x, spec, p.name, ns, os, Key(ClusterRole, "", k.name))
  {
  }

  lemma RoleOf(x: string, spec: Spec, p: GPUProfile, ns: string, r: Manifest, c: Component)
    requires Spelled(x, spec, p, ns, r.key, r.obj) && Stem(ClusterRole, c).Some? && r.key == RoleKey(x, c)
    ensures Marked(r.obj, x, ComponentText(c))
  {
    hide Marked;
    RoleNames(x, c, DevicePlugin);
    RoleNames(x, c, StatusUpdater);
    RoleNames(x, c, MetricsExporter);
    RoleNames(x, c, Scc);
  }

  lemma RoleNames(x: string, c: Component, d: Component)
    requires Stem(ClusterRole, c).Some? && Stem(ClusterRole, d).Some?
    ensures StemName(ClusterRole, c, x) == StemName(ClusterRole, d, x) ==> c == d
  {
    if StemName(ClusterRole, c, x) == StemName(ClusterRole, d, x) { StemNameInjective(ClusterRole, c, x, d, x); }
  }

  // ---------------------------------------------------------------- where pods run

  /** Which label of a node lets a DaemonSet's pods run there. */
  predicate Admits(x: string, name: string, k: LabelKey) {
    || (name == "device-plugin-" + x && k == DeployDevicePlugin)
    || (name == "nvidia-dcgm-exporter-" + x && k == DeployDcgm)
    || (name == "mig-faker-" + x && k == DynamicMig)
    || (name == "dra-plugin-" + x && k == DeployDra)
    || (name == "compute-domain-dra-" + x && k == DeployComputeDomain)
  }

  /** The pods of a DaemonSet run exactly on the nodes that carry its own label, one the operator manages. */
  lemma LandsOnlyOn(x: string, spec: Spec, ns: string, os: bool, m: Manifest) returns (k: LabelKey)
    requires InPlan(x, spec, ns, os, m) && m.key.kind == DaemonSet
    ensures Admits(x, m.key.name, k) && k in MANAGED && m.obj.body.Workload?
    ensures forall l: Labels :: Matches(m.obj.body.placement, l) <==> k in l && l[k] == "true"
  {
    hide InPlan, ResolveProfile, CalledFor, DaemonSetSpelled;
    PlannedSpelled(x, spec, ns, os, m);
    k := AdmittedBy(x, m.key.name, m.obj);
    forall l: Labels ensures Matches(m.obj.body.placement, l) <==> k in l && l[k] == "true" { OneLabel(k, l); }
  }

  lemma AdmittedBy(x: string, name: string, o: Object) returns (k: LabelKey)
    requires DaemonSetSpelled(x, name, o)
    ensures Admits(x, name, k) && k in MANAGED && o.body.Workload? && o.body.placement == map[k := "true"]
  {
    hide PodsOf, Marked;
    if name == "device-plugin-" + x && o.body.Workload? && o.body.placement == map[DeployDevicePlugin := "true"] {
      k := DeployDevicePlugin;
    } else if name == "nvidia-dcgm-exporter-" + x && o.body.Workload? && o.body.placement == map[DeployDcgm := "true"] {
      k := DeployDcgm;
    } else if name == "mig-faker-" + x && o.body.Workload? && o.body.placement == map[DynamicMig := "true"] {
      k := DynamicMig;
    } else if name == "dra-plugin-" + x && o.body.Workload? && o.body.placement == map[DeployDra := "true"] {
      k := DeployDra;
    } else {
      k := DeployComputeDomain;
    }
  }

  lemma OneLabel(k: LabelKey, l: Labels)
    ensures Matches(map[k := "true"], l) <==> k in l && l[k] == "true"
  {
    assert k in map[k := "true"];
  }
}
