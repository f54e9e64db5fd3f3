/** The reference-building pass of signature production
    (DataObjectDescsProcessor.process): each data object description becomes
    a ds:Reference of SignedInfo, an enveloped description first becoming a
    ds:Object that the reference points at. The result maps each description,
    by its position in the input, to SignedInfo's reference at the map's size
    when it was added. */
module DataObjectDescs {
  import opened Wrappers
  import opened Errors
  import opened XmlSignature
  import opened TransformChain
  import opened Identifiers

  /** A description of a data object to sign. */
  datatype Desc =
      /** DataObjectReference: a resource already addressable by a URI. */
    | External(uri: string, transforms: seq<DataObjectTransform>)
      /** EnvelopedXmlObject: content to embed in a new ds:Object. */
    | Enveloped(content: Node, mimeType: Option<string>, encoding: Option<string>,
                transforms: seq<DataObjectTransform>)

  /** The outcome of a pass. The signature is returned in both cases: what
      was appended before a failure is not taken back. */
  datatype Outcome =
    | Ok(sig: Signature, mappings: map<nat, Reference>)
    | Err(sig: Signature, error: Error)

  /** Where a description's reference points, and the signature once any
      ds:Object it needs has been appended. */
  datatype Target = Target(sig: Signature, uri: string, refType: Option<RefType>)

  /** The last element of a non-empty sequence. */
  function Last<T>(xs: seq<T>): T
    requires |xs| > 0
  {
    xs[|xs| - 1]
  }

  /** The dispatch on the kind of description: an external description is
      referenced by its own URI, untyped, and leaves the signature as it
      is; an enveloped one gets a new ds:Object, appended last and carrying
      its content, whose id is generated from the objects already there and
      is what the same-document URI names, with the object type. */
  function Classify(d: Desc, s: Signature): (t: Target)
    ensures t.sig.id == s.id && t.sig.references == s.references
    ensures d.External? ==> t.sig == s && t.uri == d.uri && t.refType == None
    ensures d.Enveloped? ==>
      && |t.sig.objects| == |s.objects| + 1
      && s.objects <= t.sig.objects
      && Last(t.sig.objects).id == ObjectId(s.id, |s.objects|)
      && Last(t.sig.objects).content == d.content
      && Last(t.sig.objects).mimeType == d.mimeType
      && Last(t.sig.objects).encoding == d.encoding
      && t.uri == "#" + Last(t.sig.objects).id
      && t.refType == Some(ObjectType)
  {
    match d
    case External(uri, _) => Target(s, uri, None)
    case Enveloped(content, mimeType, encoding, _) =>
      var objectId := ObjectId(s.id, |s.objects|);
      Target(AppendObject(s, XmlObject(objectId, content, mimeType, encoding)), "#" + objectId, Some(ObjectType))
  }

  /** The number of enveloped descriptions among the first n of ds. */
  function EnvelopedBefore(ds: seq<Desc>, n: nat): nat
    requires n <= |ds|
    decreases n
  {
    if n == 0 then 0
    else EnvelopedBefore(ds, n - 1) + (if ds[n - 1].Enveloped? then 1 else 0)
  }

  /** The ds:Object an enveloped description leaves behind when its
      reference is refused, numbered p; nothing for an external one. */
  function KeptObject(sigId: string, p: nat, d: Desc): seq<XmlObject> {
    if d.Enveloped? then [XmlObject(ObjectId(sigId, p), d.content, d.mimeType, d.encoding)] else []
  }

  /** The loop of process after its first n iterations: the signature as
      they left it and the mappings they made, or the failure that ended
      the loop. Nothing is taken back, and only an unsupported algorithm
      ends the loop. */
  function Run(prov: Provider, descs: seq<Desc>, n: nat, s: Signature, digest: string): (r: Outcome)
    requires n <= |descs|
    ensures r.sig.id == s.id
    ensures s.references <= r.sig.references && s.objects <= r.sig.objects
    ensures r.Err? ==> r.error.UnsupportedAlgorithm?
    ensures r.Ok? ==>
      && |r.mappings| == n
      && (forall k :: k in r.mappings <==> 0 <= k < n)
      && |r.sig.references| == |s.references| + n
      && |r.sig.objects| == |s.objects| + EnvelopedBefore(descs, n)
    decreases n, 2
  {
    if n == 0 then Ok(s, map[]) else Iteration(prov, descs, n, s, digest)
  }

  /** Iteration n of the loop: nothing happens once an earlier iteration
      has failed. */
  function Iteration(prov: Provider, descs: seq<Desc>, n: nat, s: Signature, digest: string): Outcome
    requires 0 < n <= |descs|
    decreases n, 1
  {
    match Run(prov, descs, n - 1, s, digest)
    case Err(s', e) => Err(s', e)
    case Ok(_, _) => Step(prov, descs, n, s, digest)
  }

  /** The work of iteration n, on descs[n - 1] and the signature and
      mappings m the earlier iterations left: build the transform chain,
      append a ds:Object for an enveloped description, add a reference with
      id "{sigId}-ref{|m|}", and map position n - 1 to SignedInfo's
      reference at index |m|. It succeeds exactly when the provider accepts
      the description's transforms and the digest method, and when it fails
      it has added no reference. */
  function Step(prov: Provider, descs: seq<Desc>, n: nat, s: Signature, digest: string): (r: Outcome)
    requires 0 < n <= |descs|
    requires Run(prov, descs, n - 1, s, digest).Ok?
    ensures var before := Run(prov, descs, n - 1, s, digest);
      && r.sig.id == s.id
      && before.sig.references <= r.sig.references && before.sig.objects <= r.sig.objects
      && (r.Ok? <==> AllSupported(descs[n - 1].transforms, prov.transformUris) && digest in prov.digestUris)
      && (r.Err? ==> r.error.UnsupportedAlgorithm? && r.sig.references == before.sig.references)
      && (r.Ok? ==>
            && |r.sig.references| == |before.sig.references| + 1
            && |r.sig.objects| == |before.sig.objects| + (if descs[n - 1].Enveloped? then 1 else 0)
            && r.mappings == before.mappings[n - 1 := r.sig.references[|before.mappings|]])
    decreases n, 0
  {
    var before := Run(prov, descs, n - 1, s, digest);
    var d := descs[n - 1];
    match ProcessTransforms(d.transforms, prov.transformUris)
    case Failure(e) => Err(before.sig, e)
    case Success(chain) =>
      var t := Classify(d, before.sig);
      var m := before.mappings;
      match AddDocument(prov, t.sig, t.uri, chain, digest, RefId(s.id, |m|), t.refType)
      case None => Err(t.sig, UnsupportedAlgorithm(DigestAlgorithm, digest))
      case Some(s') =>
        match Item(s', |m|)
        case None => Err(s', IllegalState)
        case Some(ref) => Ok(s', m[n - 1 := ref])
  }

  /** Iteration n is Step on a loop the earlier iterations left running. */
  lemma RunStep(prov: Provider, descs: seq<Desc>, n: nat, s: Signature, digest: string)
    requires 0 < n <= |descs|
    ensures var before := Run(prov, descs, n - 1, s, digest);
      Run(prov, descs, n, s, digest) == if before.Err? then before else Step(prov, descs, n, s, digest)
  {
  }

  /** A failed iteration n on a running loop: a refused transform leaves
      the signature as it was and reports the chain builder's error; a
      refused digest method adds no reference, but an enveloped
      description's ds:Object stays appended. */
  lemma IterationRefusal(prov: Provider, descs: seq<Desc>, n: nat, s: Signature, digest: string)
    requires 0 < n <= |descs|
    requires Run(prov, descs, n - 1, s, digest).Ok?
    ensures var before := Run(prov, descs, n - 1, s, digest);
      var r := Run(prov, descs, n, s, digest);
      var d := descs[n - 1];
      && (!AllSupported(d.transforms, prov.transformUris) ==>
            r == Err(before.sig, ProcessTransforms(d.transforms, prov.transformUris).error))
      && (AllSupported(d.transforms, prov.transformUris) && digest !in prov.digestUris ==>
            && r == Err(r.sig, UnsupportedAlgorithm(DigestAlgorithm, digest))
            && r.sig.references == before.sig.references
            && r.sig.objects == before.sig.objects + KeptObject(s.id, |before.sig.objects|, d))
  {
    RunStep(prov, descs, n, s, digest);
  }

  /** Iteration n succeeds exactly when the ones before it did and the
      provider accepts the description's transforms and the digest method. */
  lemma IterationSucceeds(prov: Provider, descs: seq<Desc>, n: nat, s: Signature, digest: string)
    requires 0 < n <= |descs|
    ensures Run(prov, descs, n, s, digest).Ok? <==>
      && Run(prov, descs, n - 1, s, digest).Ok?
      && AllSupported(descs[n - 1].transforms, prov.transformUris)
      && digest in prov.digestUris
  {
    RunStep(prov, descs, n, s, digest);
  }

  /** Iteration n, whatever its outcome, keeps what was there before it,
      and adds a reference exactly when it succeeds. */
  lemma IterationKeeps(prov: Provider, descs: seq<Desc>, n: nat, s: Signature, digest: string)
    requires 0 < n <= |descs|
    ensures var before := Run(prov, descs, n - 1, s, digest);
      var r := Run(prov, descs, n, s, digest);
      && before.sig.references <= r.sig.references
      && before.sig.objects <= r.sig.objects
      && |r.sig.references| == |before.sig.references| + (if r.Ok? then 1 else 0)
  {
    RunStep(prov, descs, n, s, digest);
  }

  /** The only ds:Object iteration n can append is one for an enveloped
      description, carrying its content and numbered by the objects already
      in the signature. */
  lemma IterationObject(prov: Provider, descs: seq<Desc>, n: nat, s: Signature, digest: string)
    requires 0 < n <= |descs|
    requires |Run(prov, descs, n - 1, s, digest).sig.objects| < |Run(prov, descs, n, s, digest).sig.objects|
    ensures var before := Run(prov, descs, n - 1, s, digest);
      var r := Run(prov, descs, n, s, digest);
      var d := descs[n - 1];
      var p := |before.sig.objects|;
      && d.Enveloped?
      && |r.sig.objects| == p + 1
      && r.sig.objects[p] == XmlObject(ObjectId(s.id, p), d.content, d.mimeType, d.encoding)
  {
    RunStep(prov, descs, n, s, digest);
  }

  /** The reference a successful iteration n adds, at index
      |s.references| + n - 1: id "{sigId}-ref{n-1}", the digest method, the
      description's transform chain, and either its URI with no type or, for
      an enveloped description, a same-document URI naming the ds:Object
      appended for it, with the object type. */
  lemma IterationReference(prov: Provider, descs: seq<Desc>, n: nat, s: Signature, digest: string)
    requires 0 < n <= |descs|
    requires Run(prov, descs, n, s, digest).Ok?
    ensures var before := Run(prov, descs, n - 1, s, digest);
      var r := Run(prov, descs, n, s, digest);
      var d := descs[n - 1];
      var ref := r.sig.references[|s.references| + n - 1];
      && before.Ok?
      && ref.id == RefId(s.id, n - 1)
      && ref.digestMethod == digest
      && ProcessTransforms(d.transforms, prov.transformUris) == Success(ref.transforms)
      && (d.External? ==> ref.uri == d.uri && ref.refType == None)
      && (d.Enveloped? ==>
            var p := |before.sig.objects|;
            && p < |r.sig.objects|
            && r.sig.objects[p] == XmlObject(ObjectId(s.id, p), d.content, d.mimeType, d.encoding)
            && ref.uri == "#" + ObjectId(s.id, p)
            && ref.refType == Some(ObjectType))
  {
    RunStep(prov, descs, n, s, digest);
  }

  /** A successful iteration n maps position n - 1 to SignedInfo's reference
      at index n - 1, the number of mappings before it. */
  lemma IterationMapping(prov: Provider, descs: seq<Desc>, n: nat, s: Signature, digest: string)
    requires 0 < n <= |descs|
    requires Run(prov, descs, n, s, digest).Ok?
    ensures var before := Run(prov, descs, n - 1, s, digest);
      var r := Run(prov, descs, n, s, digest);
      && before.Ok?
      && r.mappings == before.mappings[n - 1 := r.sig.references[n - 1]]
  {
    RunStep(prov, descs, n, s, digest);
  }

  /** process: every description, in order, against the signature s, with
      the digest method digest, on a provider implementing prov. On success
      there is exactly one mapping per description and one new reference
      per description. */
  function Process(prov: Provider, descs: seq<Desc>, s: Signature, digest: string): (r: Outcome)
    ensures r.Ok? ==>
      && (forall k :: k in r.mappings <==> 0 <= k < |descs|)
      && |r.sig.references| == |s.references| + |descs|
  {
    Run(prov, descs, |descs|, s, digest)
  }
}
