# Kubeconfig custom-resource handler, modelled in Dafny

This project models the one piece of the EKS infrastructure repository that
makes decisions: the CloudFormation custom-resource handler in
`src/kube-config/kube-config-handler.ts`. It has two parts.

- `generateKubeConfig` checks that the described EKS cluster has a name, an
  endpoint and certificate-authority data. It takes the region from the
  cluster ARN (the fourth colon-separated field, `us-east-1` when that is
  missing or empty). It renders a kubeconfig document with one cluster, one
  context, that context as current, and one `aws` user whose exec plugin runs
  `aws --region <region> eks get-token --cluster-name <name>`.
- `handler` rejects an event without a `ClusterName`. On Create and Update it
  fails when the cluster is not found; otherwise it returns the physical id
  `kubeconfig-<ClusterName>` and the document. On Delete it echoes the
  event's physical id.

Files:

- `wrappers.dfy`: `Option` (JavaScript's `undefined`) and `Result` (a thrown
  error becomes `Failure(message)`).
- `text.dfy`: `Split` with JavaScript `split` semantics for a one-character
  separator, its inverse `Join`, and `Unlines`, the layout of a template
  literal whose lines each end in a line feed. Round trips are proved both ways.
- `kube_config.dfy`: the cluster description, the validation, the region
  extraction, the template as a list of 27 lines, and `GenerateKubeConfig`.
- `handler.dfy`: events, responses and `Handle`, the request-type dispatch.

JavaScript "falsy" on a string field is modelled as "absent or the empty
string" (`Truthy`). The answer of the EKS `DescribeCluster` call is a
parameter of `Handle` of type `Option<Cluster>`.

Two facts about the code that the model keeps:

- `GenerateKubeConfig` fails with the single message
  "Incomplete cluster information"; the message does not say which field is
  missing.
- The names inside the document come from the described cluster's `name`.
  The physical id comes from the event's `ClusterName`. The model keeps the
  two apart; `Handler.CreateOrUpdateDocument` states it.

## Model

| member | source | states |
|---|---|---|
| Text.Split | src/kube-config/kube-config-handler.ts:90 | `split(':')` always yields at least one field, and no field contains the separator |
| Text.SplitThenJoin | src/kube-config/kube-config-handler.ts:90 | joining the fields of a split with the separator gives back the original string, so no character of the ARN is lost |
| Text.JoinThenSplit | src/kube-config/kube-config-handler.ts:90 | splitting the join of separator-free fields gives back exactly those fields |
| Text.SplitLength | src/kube-config/kube-config-handler.ts:90 | a split has one more field than the string has separators |
| Text.UnlinesThenSplit | src/kube-config/kube-config-handler.ts:68-95 | reading a laid-out document line by line gives back its lines plus the empty rest after the final line feed |
| Text.LineOccurs | src/kube-config/kube-config-handler.ts:68-95 | every line of a laid-out document occurs in it verbatim, followed by its line feed, at the offset of the lines before it |
| KubeConfig.Region | src/kube-config/kube-config-handler.ts:90 | the `--region` value is never empty and never contains a colon |
| KubeConfig.RegionOfArn | src/kube-config/kube-config-handler.ts:90 | for an ARN with at least four fields and a non-empty fourth field, the region is exactly that field |
| KubeConfig.RegionFallback | src/kube-config/kube-config-handler.ts:90 | an ARN with fewer than four fields, or an empty fourth field, gives `us-east-1` instead of an error |
| KubeConfig.RegionFallbackByColons | src/kube-config/kube-config-handler.ts:90 | an absent ARN, or one with fewer than three colons, gives `us-east-1` |
| KubeConfig.RegionSingleLine | src/kube-config/kube-config-handler.ts:90 | an ARN without line feeds yields a region without line feeds |
| KubeConfig.GenerateKubeConfig | src/kube-config/kube-config-handler.ts:63-66 | fails with "Incomplete cluster information" if and only if the name, the endpoint or `certificateAuthority.data` is absent or empty |
| KubeConfig.IsComplete | src/kube-config/kube-config-handler.ts:64 | no contract; the guard `name && endpoint && certificateAuthority?.data` with `Truthy` and `CaData`, stated by KubeConfig.GenerateKubeConfig |
| KubeConfig.Lines | src/kube-config/kube-config-handler.ts:68-94 | no contract; the template literal as 27 lines, stated by KubeConfig.DocumentLines, KubeConfig.GeneratedDocument, KubeConfig.GeneratedNamePlaces, KubeConfig.GeneratedFixedLines and KubeConfig.ValuesVerbatim |
| KubeConfig.Render | src/kube-config/kube-config-handler.ts:68-95 | no contract; every template line followed by a line feed, stated by KubeConfig.DocumentLines and KubeConfig.ValuesVerbatim |
| KubeConfig.DocumentLines | src/kube-config/kube-config-handler.ts:68-95 | for values without line feeds, the rendered document read line by line is exactly the 27 template lines with the values substituted, plus the empty rest after the final line feed |
| KubeConfig.GeneratedLines | src/kube-config/kube-config-handler.ts:68-95 | for a complete description without line feeds, the generated document read line by line is the template lines of its values |
| KubeConfig.GeneratedDocument | src/kube-config/kube-config-handler.ts:68-95 | the generated document has 27 lines; the endpoint and CA data sit on the cluster entry; the region follows `--region` |
| KubeConfig.GeneratedNamePlaces | src/kube-config/kube-config-handler.ts:74-94 | the cluster name sits in the cluster entry, the context cluster, the context name, `current-context` and the last `--cluster-name` argument |
| KubeConfig.GeneratedFixedLines | src/kube-config/kube-config-handler.ts:78-93 | the context user and the user entry are `aws`, the exec API version is `client.authentication.k8s.io/v1alpha1`, the command is `aws`, and the `--region` and `--cluster-name` flags are on their lines |
| KubeConfig.ValuesVerbatim | src/kube-config/kube-config-handler.ts:71-94 | whatever characters they contain, `server: <endpoint>`, `certificate-authority-data: <data>` and the region argument occur in the document verbatim, and so does the cluster name in all five places: the cluster entry's `name:`, the context's `cluster:` and `name:`, `current-context:` and the last argument; the recurring lines are pinned to their offsets |
| Text.LineOffsetsIncrease | src/kube-config/kube-config-handler.ts:68-95 | an earlier template line sits at a strictly smaller offset, so the two `name:` lines are two different places in the document |
| KubeConfig.RenderInjective | src/kube-config/kube-config-handler.ts:68-95 | two single-line value sets with the same document are equal, so the document determines the name, endpoint, CA data and region |
| KubeConfig.ExampleWithArn | src/kube-config/kube-config-handler.ts:90 | `arn:aws:eks:eu-west-1:123456789012:cluster/demo` gives region `eu-west-1` |
| KubeConfig.ExampleFallbackAndError | src/kube-config/kube-config-handler.ts:64-90 | no ARN and `not-an-arn` give `us-east-1`; an empty endpoint is the incomplete-information error |
| Handler.PhysicalId | src/kube-config/kube-config-handler.ts:43 | the physical id is `kubeconfig-` followed by the cluster name, which can be read back from it |
| Handler.PhysicalIdInjective | src/kube-config/kube-config-handler.ts:43 | two cluster names give the same physical id if and only if they are equal |
| Handler.Handle | src/kube-config/kube-config-handler.ts:8-58 | the handler succeeds if and only if ClusterName is given and the event is a Delete or the described cluster is complete; a success carries a document if and only if the event is not a Delete |
| Handler.MissingClusterName | src/kube-config/kube-config-handler.ts:12-16 | a missing or empty ClusterName fails with "ClusterName property is required" for every request type, Delete included |
| Handler.CreateOrUpdateNotFound | src/kube-config/kube-config-handler.ts:27-29 | Create or Update without a described cluster fails with "Cluster <name> not found" |
| Handler.CreateOrUpdateFound | src/kube-config/kube-config-handler.ts:18-47 | Create or Update of a complete cluster returns `kubeconfig-<name>` and the rendered document; an incomplete one rethrows "Incomplete cluster information" |
| Handler.DeleteEchoes | src/kube-config/kube-config-handler.ts:50-53 | Delete returns the event's physical id unchanged with no data, whatever DescribeCluster would answer |
| Handler.CreateOrUpdateDocument | src/kube-config/kube-config-handler.ts:32-47 | a successful Create or Update carries the document generated from the described cluster and the id made from the event's ClusterName |

## Left out

- The EKS client and the `DescribeCluster` network call (lines 20-24): foreign I/O. A successful answer is the `described` parameter of `Handle`.
- The write of `/tmp/kubeconfig`, the `AWS_LAMBDA_FUNCTION_NAME` check and the console logging (lines 9, 36-40, 55): side effects; when they succeed they do not change the returned value.
- A `DescribeCluster` call or a `/tmp/kubeconfig` write that throws is rethrown by the handler (lines 24, 38, 54-56); the model does not represent these failures. `Handle`'s success condition assumes both succeed.
- `async`/`await` and Lambda invocation: `Handle` is a synchronous function. The `catch` that logs and rethrows is the propagation of `Failure`.
- Cluster fields of other types than string (the generator takes `any`): the model types every field as an optional string, so JavaScript truthiness of numbers or objects is not modelled.
- KubeConfig.GeneratedDocument: requires that no value contains a line feed, because it reads the document line by line; so do KubeConfig.GeneratedLines, KubeConfig.GeneratedNamePlaces and KubeConfig.GeneratedFixedLines. KubeConfig.ValuesVerbatim states, without that condition, that the endpoint, the CA data, the region and the name in its five places are copied verbatim; the fixed lines and the line count are stated only for values without line feeds.
- KubeConfig.RenderInjective: holds only for values without line feeds; with line feeds two value sets can render the same text.
- KubeConfig.ExampleWithArn: states the ARN as the join of its fields rather than as one string literal, because the verifier unrolls the split of a long literal too far.
- Determinism of the output: every member is a Dafny function, so equal inputs give equal documents by construction; no lemma states it separately.
- `lib/`, `constants/` and `types/`: declarative wiring into `aws-cdk-lib` constructs whose behaviour is not visible (subnet filtering, tag merging, `??` defaults, default policies, the conditional loading of the kubectl layer). They are not part of this model.
