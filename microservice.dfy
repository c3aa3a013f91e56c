/** The example composite controller (examples/microservice/main.go): its
    sync hook turns a Microservice into one Deployment and one Service. */
module Microservice {
  import opened Wrappers
  import opened Kinds
  import opened Runtime
  import opened ChildSets

  newtype int32 = x: int | -0x8000_0000 <= x < 0x8000_0000

  /** The metav1.ObjectMeta fields the example reads or sets. */
  datatype ObjectMeta = ObjectMeta(name: string, namespace: string, labels: map<string, string>)

  /** MicroserviceSpec (examples/microservice/v1alpha1/types.go). */
  datatype MicroserviceSpec = MicroserviceSpec(image: string, replicas: int32, port: int32, exposure: string)

  /** The Microservice custom resource, as far as sync reads it. */
  datatype MicroserviceResource = MicroserviceResource(meta: ObjectMeta, spec: MicroserviceSpec)

  datatype ContainerPort = ContainerPort(containerPort: int32)

  datatype Container = Container(name: string, image: string, ports: seq<ContainerPort>)

  datatype PodTemplate = PodTemplate(labels: map<string, string>, containers: seq<Container>)

  /** The appsv1.Deployment fields the example sets. */
  datatype Deployment = Deployment(meta: ObjectMeta, replicas: int32, selector: map<string, string>, template: PodTemplate)

  datatype ServiceType = ClusterIP | LoadBalancer

  /** A corev1.ServicePort; the target port is intstr.FromInt's integer form. */
  datatype ServicePort = ServicePort(port: int32, targetPort: int32)

  /** The corev1.Service fields the example sets. */
  datatype Service = Service(meta: ObjectMeta, selector: map<string, string>, ports: seq<ServicePort>, serviceType: ServiceType)

  /** The objects this controller deals in. */
  datatype Object = MicroserviceObject(microservice: MicroserviceResource) | DeploymentObject(deployment: Deployment) | ServiceObject(service: Service)

  /** The sync response: the parent's new status and the desired children. */
  datatype SyncResponse = SyncResponse(status: MicroserviceResource, children: Buckets<Object>)

  /** appsv1.SchemeGroupVersion.WithKind("Deployment") and corev1.SchemeGroupVersion.WithKind("Service"). */
  const DeploymentKind := GVK("apps", "v1", "Deployment")
  const ServiceKind := GVK("", "v1", "Service")

  /** The parent's namespace, or "default" when it has none. */
  function TargetNamespace(parent: MicroserviceResource): (ns: string)
    ensures ns != ""
    ensures parent.meta.namespace != "" ==> ns == parent.meta.namespace
    ensures parent.meta.namespace == "" ==> ns == "default"
  {
    if parent.meta.namespace == "" then "default" else parent.meta.namespace
  }

  /** The labels every object of this microservice carries and selects on. */
  function AppLabels(name: string): (labels: map<string, string>)
  {
    map["app" := name]
  }

  /** The Deployment: named after the parent with "-deploy", in the target
      namespace, labelled and selecting app=name, with one container that
      runs the spec's image on the spec's port and the spec's replica count. */
  function DesiredDeployment(parent: MicroserviceResource): (d: Deployment)
    ensures d.meta.name == parent.meta.name + "-deploy"
    ensures d.meta.namespace == TargetNamespace(parent)
    ensures d.meta.labels == map["app" := parent.meta.name]
    ensures d.selector == map["app" := parent.meta.name]
    ensures d.replicas == parent.spec.replicas
    ensures |d.template.containers| == 1
    ensures d.template.containers[0].image == parent.spec.image
    ensures d.template.containers[0].ports == [ContainerPort(parent.spec.port)]
  {
    var name := parent.meta.name;
    Deployment(
      ObjectMeta(name + "-deploy", TargetNamespace(parent), AppLabels(name)),
      parent.spec.replicas,
      AppLabels(name),
      PodTemplate(AppLabels(name), [Container("microservice", parent.spec.image, [ContainerPort(parent.spec.port)])]))
  }

  /** ClusterIP unless the microservice asks to be public. */
  function ServiceTypeFor(exposure: string): (t: ServiceType)
    ensures t == LoadBalancer <==> exposure == "public"
  {
    if exposure == "public" then LoadBalancer else ClusterIP
  }

  /** The Service: named after the parent with "-svc", in the same namespace
      as the Deployment, exposing the spec's port on the same target port,
      LoadBalancer exactly for public microservices. */
  function DesiredService(parent: MicroserviceResource): (s: Service)
    ensures s.meta.name == parent.meta.name + "-svc"
    ensures s.meta.namespace == DesiredDeployment(parent).meta.namespace
    ensures s.meta.labels == map["app" := parent.meta.name]
    ensures s.selector == map["app" := parent.meta.name]
    ensures s.ports == [ServicePort(parent.spec.port, parent.spec.port)]
    ensures s.serviceType == LoadBalancer <==> parent.spec.exposure == "public"
  {
    var name := parent.meta.name;
    Service(
      ObjectMeta(name + "-svc", TargetNamespace(parent), AppLabels(name)),
      AppLabels(name),
      [ServicePort(parent.spec.port, parent.spec.port)],
      ServiceTypeFor(parent.spec.exposure))
  }

  /** The example's sync hook. It reads only the request's parent, never
      fails, leaves the status as the parent, and asks for exactly one
      Deployment and one Service. */
  function Sync(parent: MicroserviceResource): (r: Result<SyncResponse>)
    ensures r.Ok? && r.value.status == parent
    ensures r.value.children.Keys == {DeploymentKind, ServiceKind}
    ensures r.value.children[DeploymentKind] == [DeploymentObject(DesiredDeployment(parent))]
    ensures r.value.children[ServiceKind] == [ServiceObject(DesiredService(parent))]
  {
    Ok(SyncResponse(parent, map[
      DeploymentKind := [DeploymentObject(DesiredDeployment(parent))],
      ServiceKind := [ServiceObject(DesiredService(parent))]]))
  }

  /** `selector` selects an object carrying `labels`. */
  predicate Selects(selector: map<string, string>, labels: map<string, string>)
  {
    forall k :: k in selector ==> k in labels && labels[k] == selector[k]
  }

  /** The Deployment's selector matches its own pod template, and the
      Service's selector matches the same pods: the Service routes to the
      Deployment's pods. */
  lemma SelectorsMatchPods(parent: MicroserviceResource)
    ensures Selects(DesiredDeployment(parent).selector, DesiredDeployment(parent).template.labels)
    ensures Selects(DesiredService(parent).selector, DesiredDeployment(parent).template.labels)
  {
  }

  lemma {:induction false} SuffixCancels(a: string, b: string, suffix: string)
    requires a + suffix == b + suffix
    ensures a == b
  {
    assert |a| == |b|;
    assert a == (a + suffix)[..|a|];
    assert b == (b + suffix)[..|b|];
  }

  /** Distinct microservices in one namespace never compete for a child:
      children's names determine the parent's name. */
  lemma ChildNamesIdentifyParent(p1: MicroserviceResource, p2: MicroserviceResource)
    requires DesiredDeployment(p1).meta.name == DesiredDeployment(p2).meta.name
          || DesiredService(p1).meta.name == DesiredService(p2).meta.name
    ensures p1.meta.name == p2.meta.name
  {
    if DesiredDeployment(p1).meta.name == DesiredDeployment(p2).meta.name {
      SuffixCancels(p1.meta.name, p2.meta.name, "-deploy");
    } else {
      SuffixCancels(p1.meta.name, p2.meta.name, "-svc");
    }
  }

  /** The wire keys of the two child kinds, written out. */
  lemma WireKeys()
    ensures KeyForGVK(DeploymentKind) == "apps/v1/Deployment"
    ensures KeyForGVK(ServiceKind) == "v1/Service"
  {
  }

  /** The two child kinds are distinct and their names hold no slash. */
  lemma ChildKindsPlain()
    ensures Plain(DeploymentKind) && Plain(ServiceKind) && DeploymentKind != ServiceKind
  {
  }

  /** On the wire the response has exactly the keys "apps/v1/Deployment" and
      "v1/Service", one encoded object under each, whatever order the
      encoder visits the buckets in. */
  lemma SyncWireShape(enc: Encoder<Object>, parent: MicroserviceResource, wire: map<string, seq<Bytes>>)
    requires EncodesChildren(enc, Sync(parent).value.children, wire)
    ensures wire.Keys == {"apps/v1/Deployment", "v1/Service"}
    ensures |wire["apps/v1/Deployment"]| == 1 && |wire["v1/Service"]| == 1
  {
    var children := Sync(parent).value.children;
    ChildKindsPlain();
    TwoBucketWire(enc, children, wire, DeploymentKind, ServiceKind);
    WireKeys();
  }
}
