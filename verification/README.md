# Reference construction of xades4j signature production, in Dafny

This project models the step of xades4j signature production that turns
data object descriptions into XML Signature references. The step is
`DataObjectDescsProcessor.process` and its helper `processTransforms`.

Each description of something to sign becomes one `ds:Reference` in the
signature's SignedInfo. The reference gets an id `"{sigId}-ref{n}"`, the
requested digest method, and the description's transform chain.
A `DataObjectReference` (here `Desc.External`) is referenced by its own URI.
An `EnvelopedXmlObject` (here `Desc.Enveloped`) is first embedded in a new
`ds:Object` with id `"{sigId}-object{m}"`. Its reference then points at
`"#"` plus that id and has the type `http://www.w3.org/2000/09/xmldsig#Object`,
as defined in section 4.3.3.1 of the W3C XML Signature recommendation.

`process` returns a map from each description to a reference. The first
unsupported transform or digest method aborts the pass with an
`UnsupportedAlgorithm` error. Whatever was appended to the signature before
that point stays appended.

Modules:

- `Wrappers` holds `Option` and `Result`.
- `Errors` holds the two failures: an unsupported algorithm (transform or
  digest, with its URI) and the internal illegal state.
- `Identifiers` writes the generated ids in decimal. Its lemmas show that a
  generated reference id parses back to its number (`ParseRefIndex`), that
  reference ids and object ids are each injective in their number, and that
  no reference id equals an object id.
- `XmlSignature` is the signature under construction. It keeps the id, the
  `ds:Object` list and the SignedInfo reference list. The provider is the
  set of transform and digest algorithm URIs the XML Signature engine
  accepts.
- `TransformChain` models `processTransforms`.
- `DataObjectDescs` models `process`. `Run` is the loop after its first n
  iterations. `Iteration` stops once an earlier iteration has failed. `Step`
  is the body of the loop. `Process` is `Run` over all the descriptions.
- `ProcessProperties` holds the properties of whole passes.

The map of the source is an `IdentityHashMap` keyed by description objects.
Here it is keyed by each description's position in the input
(`map<nat, Reference>`). Its value is SignedInfo's reference at index
`|m|`, the map's size when the entry is made, which is what the source reads
back.

Three behaviours of the code are worth stating plainly:

- A second `process` call on the same signature numbers its references from
  `ref0` again, because the number is the size of the call's own map
  (line 99). Its first mapping reads SignedInfo item 0 (line 104), which is
  the first call's reference. `ProcessProperties.RepeatedCallReusesRefIds`
  states this.
- An enveloped object is numbered by the signature's current object count
  (line 79), not by its position within the pass. On a signature that
  already holds objects the numbering continues from them.
  `ProcessProperties.EnvelopedReferenceTarget` states this numbering.
- The map value is SignedInfo item `|m|` (line 104), not the reference just
  added. The two coincide when the signature has no references on entry:
  then position k maps to the reference with id `"{sigId}-ref{k}"`
  (`ProcessProperties.MappingIsCreatedReference`). In general position k
  maps to SignedInfo item k (`ProcessProperties.MappingIsItem`), which may
  be an earlier reference.

## Model

| member | source | states |
|---|---|---|
| TransformChain.AddTransforms | src/main/java/xades4j/production/DataObjectDescsProcessor.java:134-152 | Adding the transforms succeeds exactly when every transform URI is supported. The chain then registers the transforms one for one, in order, with a parameter element exactly when the transform has one. A failure is a transform-algorithm error. |
| TransformChain.ProcessTransforms | src/main/java/xades4j/production/DataObjectDescsProcessor.java:126-153 | An empty transform list gives no chain at all. A non-empty list gives a non-empty chain that registers the transforms in order, with parameters exactly when present. It succeeds exactly when every transform is supported, and a failure is a transform-algorithm error. |
| TransformChain.AddTransformsReportsFirstUnsupported | src/main/java/xades4j/production/DataObjectDescsProcessor.java:136-150 | If transform j is the first unsupported one, adding the transforms fails with j's URI. |
| TransformChain.ProcessTransformsFailsFast | src/main/java/xades4j/production/DataObjectDescsProcessor.java:145-149 | processTransforms fails with the URI of the first unsupported transform, not a later one. |
| TransformChain.FailureHasFirstUnsupported | src/main/java/xades4j/production/DataObjectDescsProcessor.java:136-150 | Whenever some transform is unsupported, there is a first one, and every transform before it is supported. |
| Identifiers.Decimal | src/main/java/xades4j/production/DataObjectDescsProcessor.java:99 | The `%d` text of a count is a non-empty string of digits with no leading zero, and "0" for zero. |
| Identifiers.DecimalRoundTrip | src/main/java/xades4j/production/DataObjectDescsProcessor.java:99 | Reading back the decimal text of n gives n. |
| Identifiers.DecimalInjective | src/main/java/xades4j/production/DataObjectDescsProcessor.java:99 | Different counts have different decimal texts. |
| Identifiers.ParsePositive | src/main/java/xades4j/production/DataObjectDescsProcessor.java:99 | A digit string that does not start with '0' denotes a positive number. |
| Identifiers.CanonicalRoundTrip | src/main/java/xades4j/production/DataObjectDescsProcessor.java:99 | Writing back a canonical digit string that was read gives the same text. |
| Identifiers.RefIdParses | src/main/java/xades4j/production/DataObjectDescsProcessor.java:99 | The reference id `"{sigId}-ref{n}"` parses back to n. |
| Identifiers.ParsedRefIdIsGenerated | src/main/java/xades4j/production/DataObjectDescsProcessor.java:99 | Only generated reference ids parse, and each parses to the number it was generated from. |
| Identifiers.RefIdInjective | src/main/java/xades4j/production/DataObjectDescsProcessor.java:99 | Two reference ids of one signature are equal only if their numbers are. |
| Identifiers.ObjectIdInjective | src/main/java/xades4j/production/DataObjectDescsProcessor.java:79 | Two object ids of one signature are equal only if their numbers are. |
| Identifiers.RefIdIsNotObjectId | src/main/java/xades4j/production/DataObjectDescsProcessor.java:79-99 | A reference id is never an object id of the same signature. |
| DataObjectDescs.Classify | src/main/java/xades4j/production/DataObjectDescsProcessor.java:69-89 | An external description is referenced by its own URI with no type and leaves the signature unchanged. An enveloped one keeps the signature id and references and appends exactly one object, last, with the description's content, MIME type and encoding and an id generated from the prior object count; the reference URI is "#" plus that id, with the object type. |
| DataObjectDescs.Step | src/main/java/xades4j/production/DataObjectDescsProcessor.java:66-105 | One loop iteration succeeds exactly when the provider accepts the description's transforms and the digest method. It only appends. On success it adds exactly one reference, adds one object exactly for an enveloped description, and maps the description's position to the SignedInfo item whose index is the map's prior size. On failure it reports an unsupported algorithm and has added no reference. |
| DataObjectDescs.Run | src/main/java/xades4j/production/DataObjectDescsProcessor.java:57-106 | After n iterations the signature id is unchanged and earlier references and objects are kept. Only an unsupported algorithm ends the loop. On success the map has exactly one key for each of the n positions, n references were added, and one object was added per enveloped description. |
| DataObjectDescs.Process | src/main/java/xades4j/production/DataObjectDescsProcessor.java:52-124 | A successful pass has exactly one map entry per description and adds one reference per description. |
| DataObjectDescs.IterationRefusal | src/main/java/xades4j/production/DataObjectDescsProcessor.java:64-115 | A refused transform leaves the signature untouched and reports the chain builder's error. A refused digest method fails with the digest URI and adds no reference, but an enveloped description's object, with its generated id and content, stays appended as the last object. |
| DataObjectDescs.IterationSucceeds | src/main/java/xades4j/production/DataObjectDescsProcessor.java:64-115 | Iteration n succeeds exactly when the earlier ones did and the provider accepts descs[n-1]'s transforms and the digest method. |
| DataObjectDescs.IterationKeeps | src/main/java/xades4j/production/DataObjectDescsProcessor.java:87-100 | An iteration only appends, and adds a reference exactly when it succeeds. |
| DataObjectDescs.IterationObject | src/main/java/xades4j/production/DataObjectDescsProcessor.java:73-87 | The only object an iteration can append is for an enveloped description. That object has id `"{sigId}-object{M}"`, where M is the prior object count, and carries the description's content, MIME type and encoding. |
| DataObjectDescs.IterationReference | src/main/java/xades4j/production/DataObjectDescsProcessor.java:66-100 | A successful iteration's reference has id `"{sigId}-ref{n-1}"`, the digest method and the description's chain. For an external description it has the description's URI and no type. For an enveloped one it points at `"#"` plus the new object's id and has the object type. |
| DataObjectDescs.IterationMapping | src/main/java/xades4j/production/DataObjectDescsProcessor.java:104-105 | A successful iteration adds only the mapping from position n-1 to SignedInfo item n-1. |
| ProcessProperties.MappingIsItem | src/main/java/xades4j/production/DataObjectDescsProcessor.java:104-105 | After a successful pass, every position k is mapped, and to SignedInfo's reference at index k. |
| ProcessProperties.CreatedReference | src/main/java/xades4j/production/DataObjectDescsProcessor.java:95-100 | The k-th description's reference sits k places after the references the signature already had and has id `"{sigId}-ref{k}"`, the pass's digest method and the description's transform chain. |
| ProcessProperties.ExternalReferenceTarget | src/main/java/xades4j/production/DataObjectDescsProcessor.java:69-72 | An external description's reference has the description's URI and no type. |
| ProcessProperties.EnvelopedReferenceTarget | src/main/java/xades4j/production/DataObjectDescsProcessor.java:73-89 | An enveloped description's reference has the object type and points at `"#{sigId}-object{M}"`. M is the prior object count plus the number of enveloped descriptions before it, and that object carries the description's content, MIME type and encoding. |
| ProcessProperties.GeneratedObjectId | src/main/java/xades4j/production/DataObjectDescsProcessor.java:79-87 | Every object a pass appends, even a failed pass, has the id generated from its index in the signature. |
| ProcessProperties.GeneratedRefId | src/main/java/xades4j/production/DataObjectDescsProcessor.java:95-100 | Every reference a pass adds, even a failed pass, has the id generated from its number among the pass's references. |
| ProcessProperties.GeneratedIdsUnique | src/main/java/xades4j/production/DataObjectDescsProcessor.java:79-99 | Within a pass, generated reference ids are pairwise distinct, object ids are pairwise distinct, and no reference id equals an object id. |
| ProcessProperties.MappingIsCreatedReference | src/main/java/xades4j/production/DataObjectDescsProcessor.java:99-105 | On a signature with no references yet, position k maps to the reference created for descs[k], whose id is `"{sigId}-ref{k}"`. |
| ProcessProperties.SucceedsOnlyIfAccepted | src/main/java/xades4j/production/DataObjectDescsProcessor.java:64-115 | If the first n iterations succeed, the provider accepted each of those n descriptions. |
| ProcessProperties.SucceedsIfAccepted | src/main/java/xades4j/production/DataObjectDescsProcessor.java:64-115 | If the provider accepts each of the first n descriptions, the first n iterations succeed. |
| ProcessProperties.SucceedsIffAllAccepted | src/main/java/xades4j/production/DataObjectDescsProcessor.java:52-124 | A pass succeeds exactly when every description is accepted. |
| ProcessProperties.FailureIsFirstRefusal | src/main/java/xades4j/production/DataObjectDescsProcessor.java:64-115 | A failed pass stops at the first refused description j, and nothing is rolled back. A transform refusal reports the transform's error and leaves the signature as the iterations before j left it. A digest refusal reports the digest URI, keeps those references and objects, and keeps after them exactly j's object (its generated id, content, MIME type and encoding) if j is enveloped, nothing more otherwise. |
| ProcessProperties.UnsupportedDigestFailsAtFirst | src/main/java/xades4j/production/DataObjectDescsProcessor.java:95-115 | With an unsupported digest method, a non-empty pass fails at its first description. It adds no reference and at most one object, and if the first description's transforms are supported the error names the digest. |
| ProcessProperties.RepeatedCallReusesRefIds | src/main/java/xades4j/production/DataObjectDescsProcessor.java:99-105 | A second pass on the same signature generates `"{sigId}-ref0"` again, and its first mapping is the first pass's reference. |
| ProcessProperties.ExternalExample | src/main/java/xades4j/production/DataObjectDescsProcessor.java:69-100 | The external description "#data1" with no transforms, signed into the empty signature "sig", yields exactly one reference: "sig-ref0" to "#data1", with no chain and no type. |
| ProcessProperties.EnvelopedExample | src/main/java/xades4j/production/DataObjectDescsProcessor.java:73-100 | An enveloped description signed into the empty signature "sig" yields exactly the object "sig-object0" and the reference "sig-ref0" to "#sig-object0" whose type is the URI http://www.w3.org/2000/09/xmldsig#Object. |

## Left out

- XML content and DOM documents: content, parameter elements and the
  document an object belongs to are opaque values (`Node`), never inspected.
  `appendChild` (line 84) moves the content node in the DOM, so two enveloped
  descriptions sharing one node leave it only in the last `ds:Object`; this
  move is not modelled, and every object keeps its description's content.
- The XML Signature engine (Apache Santuario) is reduced to its effect on
  the signature: `appendObject` appends, `addDocument` appends a reference
  or refuses an unknown digest method, and `item` reads SignedInfo.
- The provider's algorithm registry is a parameter (`Provider`): two sets of
  accepted URIs. A transform is refused only for its URI. A refusal that the
  engine bases on the parameter element is not modelled.
- The `ClassCastException` for a description that is neither a
  `DataObjectReference` nor an `EnvelopedXmlObject` (line 91): `Desc` has
  exactly those two cases, so the branch cannot arise.
- The `XMLSignatureException` that `appendObject` could throw (line 110): the
  source notes it is not thrown when signing, and the model's append always
  succeeds. The `IllegalStateException` branch (lines 116-121) is modelled
  as `Errors.IllegalState`. `Step`'s contract shows it is unreachable.
- Exception messages: a failure carries the algorithm kind and URI only.
- Identity keys of the `IdentityHashMap`: the map is keyed by position. A
  collection holding the same description object twice, which the source's
  callers rule out (lines 102-103), is not modelled.
- `String.format` locale: `%d` is modelled with ASCII digits. A default
  locale with other digits is not modelled.
- Java `int` range: object and reference counts are unbounded naturals.
- `Collections.unmodifiableMap`: the model's map is an immutable value.
