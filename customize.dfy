/** The customize hook's response shape: the related resources a parent
    wants the orchestrator to watch. Both generations of the package declare
    the same shape (hookserver.go and controller/customize/customize.go). */
module Customize {

  /** A metav1.LabelSelectorRequirement. */
  datatype SelectorRequirement = SelectorRequirement(key: string, operator: string, values: seq<string>)

  /** A metav1.LabelSelector. */
  datatype LabelSelector = LabelSelector(matchLabels: map<string, string>, matchExpressions: seq<SelectorRequirement>)

  /** One related-resource rule; `labelSelector` is a nullable pointer in Go. */
  datatype ResourceRule = ResourceRule(
    apiVersion: string,
    resource: string,
    labelSelector: LabelSelectorRef,
    namespace: string,
    names: seq<string>)

  datatype LabelSelectorRef = NoSelector | Selector(selector: LabelSelector)

  /** CustomizeResponse: the flat list of rules, in the handler's order. */
  datatype CustomizeResponse = CustomizeResponse(relatedResources: seq<ResourceRule>)
}
