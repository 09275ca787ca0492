/** `generateKubeConfig` of src/kube-config/kube-config-handler.ts: validate
    the described EKS cluster, pick the region out of its ARN and render the
    kubeconfig document whose single user obtains its token from
    `aws eks get-token`. */
module KubeConfig {
  import opened Wrappers
  import opened Text

  /** The `certificateAuthority` record of a described cluster. */
  datatype CertificateAuthority = CertificateAuthority(data: Option<string>)

  /** The fields of the SDK's cluster description that the generator reads;
      every one of them may be absent. */
  datatype Cluster = Cluster(
    name: Option<string>,
    endpoint: Option<string>,
    certificateAuthority: Option<CertificateAuthority>,
    arn: Option<string>)

  /** The values interpolated into the document template. */
  datatype Settings = Settings(name: string, endpoint: string, caData: string, region: string)

  const IncompleteClusterInformation: string := "Incomplete cluster information"
  const FallbackRegion: string := "us-east-1"
  const UserName: string := "aws"
  const ExecApiVersion: string := "client.authentication.k8s.io/v1alpha1"
  const ExecCommand: string := "aws"

  /** JavaScript truthiness of an optional string: present and not empty. */
  predicate Truthy(v: Option<string>)
  {
    v.Some? && v.value != ""
  }

  /** `cluster.certificateAuthority?.data`. */
  function CaData(c: Cluster): Option<string>
  {
    match c.certificateAuthority
    case None => None
    case Some(ca) => ca.data
  }

  /** The three fields without which no document is produced. */
  predicate IsComplete(c: Cluster)
  {
    Truthy(c.name) && Truthy(c.endpoint) && Truthy(CaData(c))
  }

  /** `cluster.arn?.split(':')[3] || 'us-east-1'`: the fourth colon-separated
      field of the ARN, or the fallback region when the ARN is absent, has
      fewer than four fields, or that field is empty. */
  function Region(arn: Option<string>): (r: string)
    ensures r != ""
    ensures ':' !in r
  {
    match arn
    case None => FallbackRegion
    case Some(a) =>
      var fields := Split(a, ':');
      if |fields| > 3 && fields[3] != "" then fields[3] else FallbackRegion
  }

  /** The lines of the kubeconfig template, values substituted. */
  function Lines(s: Settings): seq<string>
  {
    [ "apiVersion: v1",
      "kind: Config",
      "clusters:",
      "- cluster:",
      "    server: " + s.endpoint,
      "    certificate-authority-data: " + s.caData,
      "  name: " + s.name,
      "contexts:",
      "- context:",
      "    cluster: " + s.name,
      "    user: " + UserName,
      "  name: " + s.name,
      "current-context: " + s.name,
      "preferences: {}",
      "users:",
      "- name: " + UserName,
      "  user:",
      "    exec:",
      "      apiVersion: " + ExecApiVersion,
      "      command: " + ExecCommand,
      "      args:",
      "        - --region",
      "        - " + s.region,
      "        - eks",
      "        - get-token",
      "        - --cluster-name",
      "        - " + s.name ]
  }

  /** The document: every template line followed by a line feed. */
  function Render(s: Settings): string
  {
    Unlines(Lines(s))
  }

  /** The template values taken from a complete cluster description. */
  function SettingsOf(c: Cluster): Settings
    requires IsComplete(c)
  {
    Settings(c.name.value, c.endpoint.value, CaData(c).value, Region(c.arn))
  }

  /** `generateKubeConfig`: fails with "Incomplete cluster information" exactly
      when the name, the endpoint or the CA data is absent or empty. */
  function GenerateKubeConfig(c: Cluster): (r: Result<string, string>)
    ensures r.Failure? <==> !IsComplete(c)
    ensures r.Failure? ==> r.error == IncompleteClusterInformation
  {
    if !IsComplete(c) then Failure(IncompleteClusterInformation)
    else Success(Render(SettingsOf(c)))
  }

  /** No interpolated value contains a line feed. */
  predicate SingleLine(s: Settings)
  {
    '\n' !in s.name && '\n' !in s.endpoint && '\n' !in s.caData && '\n' !in s.region
  }

  /** No field of the description that reaches the document contains a line feed. */
  predicate SingleLineFields(c: Cluster)
    requires IsComplete(c)
  {
    '\n' !in c.name.value && '\n' !in c.endpoint.value && '\n' !in CaData(c).value
    && (c.arn.Some? ==> '\n' !in c.arn.value)
  }

  /** The region of an ARN without line feeds has none either. */
  lemma RegionSingleLine(arn: Option<string>)
    requires arn.Some? ==> '\n' !in arn.value
    ensures '\n' !in Region(arn)
  {
    if arn.Some? && |Split(arn.value, ':')| > 3 {
      SplitKeepsOut(arn.value, ':', '\n', 3);
    }
  }

  /** For a well-formed ARN (at least four colon-separated fields, the fourth
      non-empty) the region is exactly the fourth field. */
  lemma RegionOfArn(fields: seq<string>)
    requires |fields| > 3 && fields[3] != ""
    requires SeparatorFree(fields, ':')
    ensures Region(Some(Join(fields, ':'))) == fields[3]
  {
    JoinThenSplit(fields, ':');
  }

  /** An ARN with fewer than four fields, or an empty fourth field, falls back
      to `us-east-1` instead of failing. */
  lemma RegionFallback(fields: seq<string>)
    requires |fields| >= 1
    requires |fields| <= 3 || fields[3] == ""
    requires SeparatorFree(fields, ':')
    ensures Region(Some(Join(fields, ':'))) == FallbackRegion
  {
    JoinThenSplit(fields, ':');
  }

  /** Every ARN string is the join of its fields, so the two lemmas above
      cover every ARN; in particular one with fewer than three colons falls
      back, and so does an absent one. */
  lemma RegionFallbackByColons(arn: Option<string>)
    requires arn.Some? ==> Count(arn.value, ':') < 3
    ensures Region(arn) == FallbackRegion
  {
    if arn.Some? {
      SplitLength(arn.value, ':');
    }
  }

  /** Read line by line, the document is exactly the template lines, as long
      as no value contains a line feed. */
  lemma DocumentLines(s: Settings)
    requires SingleLine(s)
    ensures Split(Render(s), '\n') == Lines(s) + [""]
  {
    ClusterLinesSingle(s);
    ContextLinesSingle(s);
    UserLinesSingle(s);
    UnlinesThenSplit(Lines(s));
  }

  /** Lines 0 to 8 of the template (the cluster entry) have no line feed. */
  lemma ClusterLinesSingle(s: Settings)
    requires SingleLine(s)
    ensures forall i :: 0 <= i < 9 ==> '\n' !in Lines(s)[i]
  {
    var ls := Lines(s);
    assert '\n' !in ls[0]; assert '\n' !in ls[1]; assert '\n' !in ls[2];
    assert '\n' !in ls[3]; assert '\n' !in ls[4]; assert '\n' !in ls[5];
    assert '\n' !in ls[6]; assert '\n' !in ls[7]; assert '\n' !in ls[8];
  }

  /** Lines 9 to 17 of the template (the context and the user's head) have no line feed. */
  lemma ContextLinesSingle(s: Settings)
    requires SingleLine(s)
    ensures forall i :: 9 <= i < 18 ==> '\n' !in Lines(s)[i]
  {
    var ls := Lines(s);
    assert '\n' !in ls[9]; assert '\n' !in ls[10]; assert '\n' !in ls[11];
    assert '\n' !in ls[12]; assert '\n' !in ls[13]; assert '\n' !in ls[14];
    assert '\n' !in ls[15]; assert '\n' !in ls[16]; assert '\n' !in ls[17];
  }

  /** Lines 18 to 26 of the template (the exec credential plugin) have no line feed. */
  lemma UserLinesSingle(s: Settings)
    requires SingleLine(s)
    ensures forall i :: 18 <= i < 27 ==> '\n' !in Lines(s)[i]
  {
    var ls := Lines(s);
    assert '\n' !in ls[18]; assert '\n' !in ls[19]; assert '\n' !in ls[20];
    assert '\n' !in ls[21]; assert '\n' !in ls[22]; assert '\n' !in ls[23];
    assert '\n' !in ls[24]; assert '\n' !in ls[25]; assert '\n' !in ls[26];
  }

  /** The generated document, line by line: the endpoint and CA data on the
      cluster entry and the region after `--region`. */
  lemma GeneratedDocument(c: Cluster)
    requires IsComplete(c)
    requires SingleLineFields(c)
    ensures GenerateKubeConfig(c).Success?
    ensures var ls := Split(GenerateKubeConfig(c).value, '\n');
      && |ls| == 28 && ls[27] == ""
      && ls[4] == "    server: " + c.endpoint.value
      && ls[5] == "    certificate-authority-data: " + CaData(c).value
      && ls[22] == "        - " + Region(c.arn)
  {
    GeneratedLines(c);
  }

  /** The cluster name in its five places: the cluster entry's name, the
      context's cluster and name, the current context and the last
      argument, `--cluster-name`'s value. */
  lemma GeneratedNamePlaces(c: Cluster)
    requires IsComplete(c)
    requires SingleLineFields(c)
    ensures GenerateKubeConfig(c).Success?
    ensures var ls := Split(GenerateKubeConfig(c).value, '\n');
      && |ls| == 28
      && ls[6] == "  name: " + c.name.value
      && ls[9] == "    cluster: " + c.name.value
      && ls[11] == "  name: " + c.name.value
      && ls[12] == "current-context: " + c.name.value
      && ls[26] == "        - " + c.name.value
  {
    GeneratedLines(c);
  }

  /** The fixed lines of the generated document: the context's user `aws`,
      the user entry, the exec API version, the command `aws` and the
      `--region` and `--cluster-name` flags. */
  lemma GeneratedFixedLines(c: Cluster)
    requires IsComplete(c)
    requires SingleLineFields(c)
    ensures GenerateKubeConfig(c).Success?
    ensures var ls := Split(GenerateKubeConfig(c).value, '\n');
      && |ls| == 28
      && ls[10] == "    user: " + UserName
      && ls[15] == "- name: " + UserName
      && ls[18] == "      apiVersion: " + ExecApiVersion
      && ls[19] == "      command: " + ExecCommand
      && ls[21] == "        - --region"
      && ls[25] == "        - --cluster-name"
  {
    GeneratedLines(c);
  }

  /** Read line by line, a generated document is its template lines. */
  lemma GeneratedLines(c: Cluster)
    requires IsComplete(c)
    requires SingleLineFields(c)
    ensures GenerateKubeConfig(c).Success?
    ensures Split(GenerateKubeConfig(c).value, '\n') == Lines(SettingsOf(c)) + [""]
  {
    RegionSingleLine(c.arn);
    var s := SettingsOf(c);
    assert GenerateKubeConfig(c).value == Render(s);
    DocumentLines(s);
  }

  /** Whatever characters they contain, the endpoint, the CA data, the
      region and the cluster name in all five of its places appear in the
      document verbatim. The places whose text recurs (the two `  name:`
      lines, the last argument) are given by their offsets in the document. */
  lemma ValuesVerbatim(c: Cluster)
    requires IsComplete(c)
    ensures GenerateKubeConfig(c).Success?
    ensures var doc := GenerateKubeConfig(c).value;
      var ls := Lines(SettingsOf(c));
      && Contains(doc, "    server: " + c.endpoint.value + "\n")
      && Contains(doc, "    certificate-authority-data: " + CaData(c).value + "\n")
      && OccursAt(doc, |Unlines(ls[..22])|, "        - " + Region(c.arn) + "\n")
      && OccursAt(doc, |Unlines(ls[..6])|, "  name: " + c.name.value + "\n")
      && Contains(doc, "    cluster: " + c.name.value + "\n")
      && OccursAt(doc, |Unlines(ls[..11])|, "  name: " + c.name.value + "\n")
      && Contains(doc, "current-context: " + c.name.value + "\n")
      && OccursAt(doc, |Unlines(ls[..26])|, "        - " + c.name.value + "\n")
  {
    var ls := Lines(SettingsOf(c));
    LineOccurs(ls, 4);
    LineOccurs(ls, 5);
    LineOccurs(ls, 22);
    LineOccurs(ls, 6);
    LineOccurs(ls, 9);
    LineOccurs(ls, 11);
    LineOccurs(ls, 12);
    LineOccurs(ls, 26);
  }

  /** Different values give different documents: the document determines
      the name, endpoint, CA data and region it was rendered from. */
  lemma RenderInjective(s1: Settings, s2: Settings)
    requires SingleLine(s1) && SingleLine(s2)
    requires Render(s1) == Render(s2)
    ensures s1 == s2
  {
    DocumentLines(s1);
    DocumentLines(s2);
    var l1, l2 := Lines(s1), Lines(s2);
    assert l1 == (l1 + [""])[..27] == (l2 + [""])[..27] == l2;
    ValuesFromLines(s1);
    ValuesFromLines(s2);
  }

  /** The values can be cut back out of their template lines. */
  lemma ValuesFromLines(s: Settings)
    ensures var ls := Lines(s);
      && ls[4][12..] == s.endpoint
      && ls[5][32..] == s.caData
      && ls[6][8..] == s.name
      && ls[22][10..] == s.region
  {
    var ls := Lines(s);
    assert ls[4] == "    server: " + s.endpoint;
    assert ls[5] == "    certificate-authority-data: " + s.caData;
    assert ls[6] == "  name: " + s.name;
    assert ls[22] == "        - " + s.region;
  }

  /** The worked example: the ARN `arn:aws:eks:eu-west-1:123456789012:cluster/demo`,
      given as its colon-separated fields, names the region eu-west-1. */
  lemma ExampleWithArn()
    ensures Region(Some(Join(["arn", "aws", "eks", "eu-west-1", "123456789012", "cluster/demo"], ':')))
            == "eu-west-1"
  {
    RegionOfArn(["arn", "aws", "eks", "eu-west-1", "123456789012", "cluster/demo"]);
  }

  /** The same description without an ARN, or with one that is not an ARN,
      gets the fallback region; an empty endpoint is an error. */
  lemma ExampleFallbackAndError()
    ensures Region(None) == FallbackRegion
    ensures Region(Some("not-an-arn")) == FallbackRegion
    ensures GenerateKubeConfig(Cluster(Some("demo"), Some(""),
                                       Some(CertificateAuthority(Some("BASE64DATA"))), None))
            == Failure(IncompleteClusterInformation)
  {
    RegionFallback(["not-an-arn"]);
  }
}
