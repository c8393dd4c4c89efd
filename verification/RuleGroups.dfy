/** Rule groups: what users ask for, what goes over the wire, and the controllers' comparison. */
module RuleGroups {
  import opened Wrappers
  import opened Texts

  type Labels = map<Text, Text>

  /** mimir.Rule */
  datatype Rule = Rule(alert: Text, record: Text, expr: Text, forDuration: Text, keepFiringFor: Text,
                       labels: Labels, annotations: Labels)

  /** mimir.RuleGroup */
  datatype RuleGroup = RuleGroup(name: Text, interval: Text, sourceTenants: seq<Text>, rules: seq<Rule>)

  /** AlertingRule and RecordingRule of the API types. */
  datatype RuleSpec =
    | Alerting(alert: Text, expr: Text, forDuration: Option<Text>, keepFiringFor: Option<Text>,
               labels: Labels, annotations: Labels)
    | Recording(record: Text, expr: Text, labels: Labels)

  /** spec.forProvider of RuleGroupAlerting and RuleGroupRecording (which differ in their rules only),
      and of the legacy GroupRecording, which names no group and no source tenants. */
  datatype Desired =
    | RuleGroupSpec(orgID: Option<Text>, namespace: Option<Text>, name: Text, interval: Option<Text>,
                    sourceTenants: seq<Text>, rules: seq<RuleSpec>)
    | GroupRecordingSpec(orgID: Option<Text>, namespace: Option<Text>, interval: Option<Text>,
                         queryOffset: Option<Text>, rules: seq<RuleSpec>)

  const DEFAULT_NAMESPACE: Text := "default"

  function Namespace(d: Desired): Text {
    d.namespace.GetOr(DEFAULT_NAMESPACE)
  }

  function Translate(r: RuleSpec): Rule {
    match r
    case Alerting(alert, expr, forDuration, keepFiringFor, labels, annotations) =>
      Rule(alert, "", expr, forDuration.GetOr(""), keepFiringFor.GetOr(""), labels, annotations)
    case Recording(record, expr, labels) =>
      Rule("", record, expr, "", "", labels, map[])
  }

  /** buildRuleGroup; the legacy controller is handed the name, the others have it in the spec. */
  function Build(d: Desired, name: Text): RuleGroup {
    RuleGroup(name, d.interval.GetOr(""), if d.RuleGroupSpec? then d.sourceTenants else [],
              Map(Translate, d.rules))
  }

  /** isUpToDate */
  predicate UpToDate(d: Desired, rg: RuleGroup) {
    && (d.RuleGroupSpec? ==> d.name == rg.name)
    && (d.interval.Some? ==> d.interval.value == rg.interval)
    && |d.rules| == |rg.rules|
  }

  /** Precisely what the comparison sees of the spec a stored group was built from: the name (in the two
      current controllers), the interval when the present spec sets one, and the number of rules. */
  predicate SameAsFarAsCompared(d: Desired, built: Desired) {
    && (d.RuleGroupSpec? && built.RuleGroupSpec? ==> d.name == built.name)
    && (d.interval.Some? ==> d.interval.value == built.interval.GetOr(""))
    && |d.rules| == |built.rules|
  }

  /** The name a spec's group is stored under, given the name the annotation holds. */
  function GroupName(d: Desired, annotated: Text): Text {
    if d.RuleGroupSpec? then d.name else annotated
  }

  lemma UpToDateExactly(d: Desired, built: Desired, annotated: Text)
    requires d.RuleGroupSpec? == built.RuleGroupSpec?
    ensures UpToDate(d, Build(built, GroupName(built, annotated))) <==> SameAsFarAsCompared(d, built)
    ensures UpToDate(d, Build(d, GroupName(d, annotated)))
  {
  }

  /** The blind spot: clearing the interval, or replacing every rule by others of the same number,
      leaves a stored group up to date although it is not the group the new spec describes. */
  lemma UnseenEdit(d: Desired, rules: seq<RuleSpec>, annotated: Text)
    requires |rules| == |d.rules|
    ensures var edited := d.(interval := None, rules := rules);
      var name := GroupName(d, annotated);
      && UpToDate(edited, Build(d, name))
      && (Build(edited, name) == Build(d, name) <==>
          d.interval.GetOr("") == "" && Map(Translate, rules) == Map(Translate, d.rules))
  {
  }

  // --------------------------------------------------------------------------------------------------
  // What the translation keeps of a spec

  /** A rule as sent, read back as an alerting or a recording rule. */
  function ReadRule(r: Rule, alerting: bool): RuleSpec {
    if alerting then
      Alerting(r.alert, r.expr, if r.forDuration == "" then None else Some(r.forDuration),
               if r.keepFiringFor == "" then None else Some(r.keepFiringFor), r.labels, r.annotations)
    else Recording(r.record, r.expr, r.labels)
  }

  function EraseText(t: Option<Text>): Option<Text> {
    if t == Some("") then None else t
  }

  /** An empty duration is as good as none. */
  function EraseRule(r: RuleSpec): RuleSpec {
    if r.Alerting? then r.(forDuration := EraseText(r.forDuration), keepFiringFor := EraseText(r.keepFiringFor)) else r
  }

  /** All rules are of the kind the resource is for. */
  predicate OfKind(rules: seq<RuleSpec>, alerting: bool) {
    forall i :: 0 <= i < |rules| ==> rules[i].Alerting? == alerting
  }

  lemma RulesReadBack(rules: seq<RuleSpec>, alerting: bool)
    requires OfKind(rules, alerting)
    ensures Map((r: Rule) => ReadRule(r, alerting), Map(Translate, rules)) == Map(EraseRule, rules)
    ensures Map(Translate, Map(EraseRule, rules)) == Map(Translate, rules)
  {
  }

  /** Two resources of one kind send the same group under a name exactly when they agree on the interval and
      on every rule, in order, with empty durations counting as none, and (current controllers) on the source
      tenants; organisation, namespace and query offset are no part of it. */
  lemma BuildKernelExactly(d: Desired, d': Desired, name: Text, alerting: bool)
    requires d.RuleGroupSpec? == d'.RuleGroupSpec? && OfKind(d.rules, alerting) && OfKind(d'.rules, alerting)
    ensures Build(d, name) == Build(d', name) <==>
      && EraseText(d.interval) == EraseText(d'.interval)
      && Map(EraseRule, d.rules) == Map(EraseRule, d'.rules)
      && (d.RuleGroupSpec? ==> d.sourceTenants == d'.sourceTenants)
  {
    RulesReadBack(d.rules, alerting);
    RulesReadBack(d'.rules, alerting);
  }

  // --------------------------------------------------------------------------------------------------
  // Position by position: predicates that state what is proved, and are not used by the model

  /** An optional text and the text sent for it. */
  ghost predicate Shows(t: Option<Text>, sent: Text) {
    match t
    case None => sent == ""
    case Some(text) => sent == text
  }

  /** A rule and what is sent for it, field by field; the fields of the other kind stay empty. */
  ghost predicate RuleShows(r: RuleSpec, sent: Rule) {
    match r
    case Alerting(alert, expr, forDuration, keepFiringFor, labels, annotations) =>
      && sent.alert == alert && sent.record == "" && sent.expr == expr
      && Shows(forDuration, sent.forDuration) && Shows(keepFiringFor, sent.keepFiringFor)
      && sent.labels == labels && sent.annotations == annotations
    case Recording(record, expr, labels) =>
      && sent.alert == "" && sent.record == record && sent.expr == expr
      && sent.forDuration == "" && sent.keepFiringFor == ""
      && sent.labels == labels && sent.annotations == map[]
  }

  /** The group sent has the name it is given, the spec's interval and source tenants, and in every place the rule that
      the spec has there; and each rule reads back as the spec's. */
  lemma BuildExactly(d: Desired, name: Text, alerting: bool)
    ensures var g := Build(d, name);
      && g.name == name && Shows(d.interval, g.interval)
      && g.sourceTenants == (if d.RuleGroupSpec? then d.sourceTenants else [])
      && |g.rules| == |d.rules|
      && (forall i :: 0 <= i < |d.rules| ==> RuleShows(d.rules[i], g.rules[i]))
      && (OfKind(d.rules, alerting) ==>
            forall i :: 0 <= i < |d.rules| ==> ReadRule(g.rules[i], alerting) == EraseRule(d.rules[i]))
      && (if g.interval == "" then None else Some(g.interval)) == EraseText(d.interval)
  {
  }

  /** The namespace of a spec that gives none, and of one that does, the empty text included. */
  lemma NamespaceExactly(d: Desired)
    ensures d.namespace.None? ==> Namespace(d) == "default"
    ensures d.namespace.Some? ==> Namespace(d) == d.namespace.value
  {
  }

  /** The comparison with any stored group, whoever wrote it. */
  lemma ComparisonExactly(d: Desired, rg: RuleGroup)
    ensures UpToDate(d, rg) <==>
      && (d.RuleGroupSpec? ==> rg.name == d.name)
      && (d.interval == None || d.interval == Some(rg.interval))
      && |rg.rules| == |d.rules|
  {
  }
}
