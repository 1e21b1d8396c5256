/** Labels and selectors (api/labels/labels.go, mergeLabels in internal/convert/stack.go). */
module Labels {

  const FOR_SERVICE_NAME := "com.docker.service.name"
  const FOR_STACK_NAME := "com.docker.stack.namespace"
  const FOR_SERVICE_ID := "com.docker.service.id"

  type LabelMap = map<string, string>

  function ForService(stackName: string, serviceName: string): LabelMap {
    (if serviceName != "" then map[FOR_SERVICE_NAME := serviceName] else map[])
    + (if stackName != "" then map[FOR_STACK_NAME := stackName] else map[])
    + (if serviceName != "" && stackName != "" then map[FOR_SERVICE_ID := stackName + "-" + serviceName] else map[])
  }

  /** Later maps override earlier ones. */
  function MergeLabels(a: LabelMap, b: LabelMap): LabelMap { a + b }

  predicate Reserved(key: string) {
    key == FOR_SERVICE_NAME || key == FOR_STACK_NAME || key == FOR_SERVICE_ID
  }

  predicate NoReserved(labels: LabelMap) {
    FOR_SERVICE_NAME !in labels && FOR_STACK_NAME !in labels && FOR_SERVICE_ID !in labels
  }

  /** Kubernetes' equality-based selection. */
  ghost predicate Matches(selector: LabelMap, labels: LabelMap) {
    forall k :: k in selector ==> k in labels && labels[k] == selector[k]
  }

  /** A service's selector picks the pods of that service of that stack and no others. */
  lemma SelectorPicksOwnPods(stack: string, service: string, stack': string, service': string, deployLabels': LabelMap)
    requires stack != "" && service != "" && stack' != "" && service' != ""
    requires NoReserved(deployLabels')
    ensures Matches(ForService(stack, service), MergeLabels(ForService(stack', service'), deployLabels'))
            <==> stack == stack' && service == service'
  {
    var selector, labels := ForService(stack, service), MergeLabels(ForService(stack', service'), deployLabels');
    assert selector[FOR_SERVICE_NAME] == service && selector[FOR_STACK_NAME] == stack;
    assert labels[FOR_SERVICE_NAME] == service' && labels[FOR_STACK_NAME] == stack';
  }

  /**
  With arbitrary deploy labels, a selector misses its own pods exactly when a reserved label is
  overridden by another value.
  */
  lemma OverriddenLabelsMissOwnPods(stack: string, service: string, deployLabels: LabelMap)
    requires stack != "" && service != ""
    ensures var own := ForService(stack, service);
            Matches(own, MergeLabels(own, deployLabels))
            <==> forall k :: Reserved(k) && k in deployLabels ==> deployLabels[k] == own[k]
  {
    var own := ForService(stack, service);
    assert forall k :: k in own <==> Reserved(k);
    var merged := MergeLabels(own, deployLabels);
    if Matches(own, merged) {
      forall k | Reserved(k) && k in deployLabels ensures deployLabels[k] == own[k] {
        assert merged[k] == deployLabels[k];
      }
    }
  }
}
