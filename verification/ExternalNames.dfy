/** The external-name annotation: printed as namespace/name, parsed strictly by the two current rule
    controllers and leniently by the legacy GroupRecording controller. */
module ExternalNames {
  import opened Wrappers
  import opened Texts

  /** formatExternalName */
  function Format(namespace: Text, name: Text): Text {
    namespace + "/" + name
  }

  /** parseExternalName of the alerting and recording controllers; None is its error. */
  function StrictParse(externalName: Text): Option<(Text, Text)> {
    match SplitAtSlash(externalName)
    case Some((namespace, name)) => if namespace == "" || name == "" then None else Some((namespace, name))
    case None => None
  }

  /** The name Observe looks up: the parsed one, or spec.name when the annotation does not parse. */
  function StrictLookup(externalName: Text, specName: Text): Text {
    match StrictParse(externalName)
    case Some((_, name)) => name
    case None => specName
  }

  /** parseExternalName of the GroupRecording controller: what follows the first slash, else everything. */
  function LegacyParse(externalName: Text): Text {
    match SplitAtSlash(externalName)
    case Some((_, name)) => name
    case None => externalName
  }

  /** The namespaces whose printed names the strict controllers look up again under the same name. */
  predicate StrictSafe(namespace: Text) {
    '/' !in namespace || namespace[0] == '/'
  }

  /** Where the first slash of a printed name stands, and hence what follows it. */
  lemma FormatSplit(namespace: Text, name: Text)
    ensures '/' !in namespace ==> SplitAtSlash(Format(namespace, name)) == Some((namespace, name))
    ensures '/' in namespace ==>
      var (first, rest) := SplitAtSlash(namespace).value;
      SplitAtSlash(Format(namespace, name)) == Some((first, rest + "/" + name))
  {
    if '/' in namespace {
      var (first, rest) := SplitAtSlash(namespace).value;
      assert Format(namespace, name) == first + "/" + (rest + "/" + name);
      SplitIs(Format(namespace, name), first, rest + "/" + name);
    } else {
      SplitIs(Format(namespace, name), namespace, name);
    }
  }

  /** Parsing undoes printing exactly on non-empty names in non-empty, slash-free namespaces. */
  lemma StrictRoundTrip(namespace: Text, name: Text)
    ensures StrictParse(Format(namespace, name)) == Some((namespace, name))
       <==> '/' !in namespace && namespace != "" && name != ""
  {
    FormatSplit(namespace, name);
  }

  /** After Create, Observe looks up the very name Create wrote, exactly on the safe namespaces;
      elsewhere it looks up a strictly longer one. */
  lemma StrictAgreement(namespace: Text, name: Text)
    ensures StrictLookup(Format(namespace, name), name) == name <==> StrictSafe(namespace)
    ensures !StrictSafe(namespace) ==> |StrictLookup(Format(namespace, name), name)| > |name|
  {
    FormatSplit(namespace, name);
    if '/' in namespace {
      var (first, rest) := SplitAtSlash(namespace).value;
      assert namespace[|first|] == '/';
      assert first == "" <==> namespace[0] == '/';
    }
  }

  /** Re-printing a legacy annotation keeps the name it parses to, exactly in slash-free namespaces;
      elsewhere every round trip makes the name strictly longer. */
  lemma LegacyAgreement(namespace: Text, externalName: Text)
    ensures var name := LegacyParse(externalName);
      && (LegacyParse(Format(namespace, name)) == name <==> '/' !in namespace)
      && ('/' in namespace ==> |LegacyParse(Format(namespace, name))| > |name|)
  {
    FormatSplit(namespace, LegacyParse(externalName));
  }

  // --------------------------------------------------------------------------------------------------
  // In other words

  /** A name is what follows the first slash of a text. Used to state what is proved, not by the model. */
  ghost predicate FollowsSlash(t: Text, before: Text, name: Text) {
    '/' !in before && t == before + "/" + name
  }

  /** What each controller makes of an annotation, whoever wrote it. */
  lemma LookupsExactly(externalName: Text, specName: Text)
    ensures '/' !in externalName ==>
      LegacyParse(externalName) == externalName && StrictLookup(externalName, specName) == specName
    ensures forall before: Text, name: Text :: FollowsSlash(externalName, before, name) ==>
      && LegacyParse(externalName) == name
      && StrictLookup(externalName, specName) == (if before == "" || name == "" then specName else name)
  {
    forall before: Text, name: Text | FollowsSlash(externalName, before, name)
      ensures LegacyParse(externalName) == name
      ensures StrictLookup(externalName, specName) == (if before == "" || name == "" then specName else name)
    {
      SplitIs(externalName, before, name);
    }
  }

  lemma FormatExactly(namespace: Text, name: Text)
    ensures Format(namespace, name) == namespace + "/" + name
  {
  }
}
