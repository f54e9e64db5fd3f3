/** What a reference-building pass guarantees: one reference per description,
    in input order, with generated ids that never collide within a pass;
    success exactly when every description is accepted; on failure, the first refusal in
    input order, with nothing rolled back. The lemmas speak of Run, the loop
    after its first n iterations; Process is Run over all the descriptions. */
module ProcessProperties {
  import opened Wrappers
  import opened Errors
  import opened XmlSignature
  import opened TransformChain
  import opened Identifiers
  import opened DataObjectDescs

  /** The provider accepts every transform of d and the digest method. */
  predicate Accepted(prov: Provider, d: Desc, digest: string) {
    AllSupported(d.transforms, prov.transformUris) && digest in prov.digestUris
  }

  /** The value mapped for position k is SignedInfo's reference at index k,
      the number of mappings made before it. */
  lemma {:induction false} MappingIsItem(prov: Provider, descs: seq<Desc>, n: nat, s: Signature, digest: string, k: nat)
    requires n <= |descs|
    requires Run(prov, descs, n, s, digest).Ok?
    requires k < n
    ensures var r := Run(prov, descs, n, s, digest);
      k in r.mappings && r.mappings[k] == r.sig.references[k]
    decreases n
  {
    IterationMapping(prov, descs, n, s, digest);
    if k < n - 1 {
      MappingIsItem(prov, descs, n - 1, s, digest, k);
      IterationKeeps(prov, descs, n, s, digest);
    }
  }

  /** The reference created for descs[k] sits at index |s.references| + k of
      SignedInfo, with id "{sigId}-ref{k}", the pass's digest method and the
      description's transform chain. */
  lemma {:induction false} CreatedReference(prov: Provider, descs: seq<Desc>, n: nat, s: Signature, digest: string, k: nat)
    requires n <= |descs|
    requires Run(prov, descs, n, s, digest).Ok?
    requires k < n
    ensures var ref := Run(prov, descs, n, s, digest).sig.references[|s.references| + k];
      && ref.id == RefId(s.id, k)
      && ref.digestMethod == digest
      && ProcessTransforms(descs[k].transforms, prov.transformUris) == Success(ref.transforms)
    decreases n
  {
    IterationReference(prov, descs, n, s, digest);
    if k < n - 1 {
      CreatedReference(prov, descs, n - 1, s, digest, k);
      IterationKeeps(prov, descs, n, s, digest);
    }
  }

  /** The reference created for an external description has the
      description's URI and no type. */
  lemma {:induction false} ExternalReferenceTarget(prov: Provider, descs: seq<Desc>, n: nat, s: Signature, digest: string, k: nat)
    requires n <= |descs|
    requires Run(prov, descs, n, s, digest).Ok?
    requires k < n && descs[k].External?
    ensures var ref := Run(prov, descs, n, s, digest).sig.references[|s.references| + k];
      ref.uri == descs[k].uri && ref.refType == None
    decreases n
  {
    IterationReference(prov, descs, n, s, digest);
    if k < n - 1 {
      ExternalReferenceTarget(prov, descs, n - 1, s, digest, k);
      IterationKeeps(prov, descs, n, s, digest);
    }
  }

  /** The reference created for an enveloped description has the object
      type and points at the ds:Object appended for it, which carries the
      description's content, MIME type and encoding and is numbered by the
      objects before it: those already in the signature and those appended
      for the enveloped descriptions that precede it. */
  lemma {:induction false} EnvelopedReferenceTarget(prov: Provider, descs: seq<Desc>, n: nat, s: Signature, digest: string, k: nat)
    requires n <= |descs|
    requires Run(prov, descs, n, s, digest).Ok?
    requires k < n && descs[k].Enveloped?
    ensures var r := Run(prov, descs, n, s, digest);
      var ref := r.sig.references[|s.references| + k];
      var p := |s.objects| + EnvelopedBefore(descs, k);
      && p < |r.sig.objects|
      && r.sig.objects[p] == XmlObject(ObjectId(s.id, p), descs[k].content, descs[k].mimeType, descs[k].encoding)
      && ref.uri == "#" + ObjectId(s.id, p)
      && ref.refType == Some(ObjectType)
    decreases n
  {
    IterationReference(prov, descs, n, s, digest);
    if k < n - 1 {
      EnvelopedReferenceTarget(prov, descs, n - 1, s, digest, k);
      IterationKeeps(prov, descs, n, s, digest);
    }
  }

  /** Every ds:Object a pass appends, whether or not the pass succeeds, has
      the id generated from its index in the signature. */
  lemma {:induction false} GeneratedObjectId(prov: Provider, descs: seq<Desc>, n: nat, s: Signature, digest: string, p: nat)
    requires n <= |descs|
    requires |s.objects| <= p < |Run(prov, descs, n, s, digest).sig.objects|
    ensures Run(prov, descs, n, s, digest).sig.objects[p].id == ObjectId(s.id, p)
    decreases n
  {
    if p < |Run(prov, descs, n - 1, s, digest).sig.objects| {
      GeneratedObjectId(prov, descs, n - 1, s, digest, p);
      IterationKeeps(prov, descs, n, s, digest);
    } else {
      IterationObject(prov, descs, n, s, digest);
    }
  }

  /** Every ds:Reference a pass appends, whether or not the pass succeeds,
      has the id generated from its index among those the pass created. */
  lemma {:induction false} GeneratedRefId(prov: Provider, descs: seq<Desc>, n: nat, s: Signature, digest: string, q: nat)
    requires n <= |descs|
    requires |s.references| <= q < |Run(prov, descs, n, s, digest).sig.references|
    ensures Run(prov, descs, n, s, digest).sig.references[q].id == RefId(s.id, q - |s.references|)
    decreases n
  {
    IterationKeeps(prov, descs, n, s, digest);
    if q < |Run(prov, descs, n - 1, s, digest).sig.references| {
      GeneratedRefId(prov, descs, n - 1, s, digest, q);
    } else {
      IterationReference(prov, descs, n, s, digest);
    }
  }

  /** Within a pass, reference ids are pairwise distinct, object ids are
      pairwise distinct, and no reference id is an object id. */
  lemma GeneratedIdsUnique(prov: Provider, descs: seq<Desc>, s: Signature, digest: string)
    ensures var r := Process(prov, descs, s, digest);
      && (forall p, p' :: |s.objects| <= p < p' < |r.sig.objects| ==>
            r.sig.objects[p].id != r.sig.objects[p'].id)
      && (forall q, q' :: |s.references| <= q < q' < |r.sig.references| ==>
            r.sig.references[q].id != r.sig.references[q'].id)
      && (forall p, q :: |s.objects| <= p < |r.sig.objects| && |s.references| <= q < |r.sig.references| ==>
            r.sig.objects[p].id != r.sig.references[q].id)
  {
    var r := Process(prov, descs, s, digest);
    var n := |descs|;
    forall p, p' | |s.objects| <= p < p' < |r.sig.objects|
      ensures r.sig.objects[p].id != r.sig.objects[p'].id
    {
      GeneratedObjectId(prov, descs, n, s, digest, p);
      GeneratedObjectId(prov, descs, n, s, digest, p');
      if ObjectId(s.id, p) == ObjectId(s.id, p') {
        ObjectIdInjective(s.id, p, p');
      }
    }
    forall q, q' | |s.references| <= q < q' < |r.sig.references|
      ensures r.sig.references[q].id != r.sig.references[q'].id
    {
      GeneratedRefId(prov, descs, n, s, digest, q);
      GeneratedRefId(prov, descs, n, s, digest, q');
      if RefId(s.id, q - |s.references|) == RefId(s.id, q' - |s.references|) {
        RefIdInjective(s.id, q - |s.references|, q' - |s.references|);
      }
    }
    forall p, q | |s.objects| <= p < |r.sig.objects| && |s.references| <= q < |r.sig.references|
      ensures r.sig.objects[p].id != r.sig.references[q].id
    {
      GeneratedObjectId(prov, descs, n, s, digest, p);
      GeneratedRefId(prov, descs, n, s, digest, q);
      RefIdIsNotObjectId(s.id, q - |s.references|, p);
    }
  }

  /** On a signature with no references yet, the map sends position k to
      the reference created for descs[k], whose id is "{sigId}-ref{k}". */
  lemma MappingIsCreatedReference(prov: Provider, descs: seq<Desc>, s: Signature, digest: string, k: nat)
    requires |s.references| == 0
    requires Process(prov, descs, s, digest).Ok?
    requires k < |descs|
    ensures var r := Process(prov, descs, s, digest);
      && k in r.mappings
      && r.mappings[k] == r.sig.references[k]
      && r.mappings[k].id == RefId(s.id, k)
  {
    MappingIsItem(prov, descs, |descs|, s, digest, k);
    CreatedReference(prov, descs, |descs|, s, digest, k);
  }

  /** If the first n iterations succeed, each of the first n descriptions
      was accepted. */
  lemma {:induction false} SucceedsOnlyIfAccepted(prov: Provider, descs: seq<Desc>, n: nat, s: Signature, digest: string)
    requires n <= |descs|
    ensures Run(prov, descs, n, s, digest).Ok? ==> forall k :: 0 <= k < n ==> Accepted(prov, descs[k], digest)
    decreases n
  {
    if n > 0 {
      SucceedsOnlyIfAccepted(prov, descs, n - 1, s, digest);
      IterationSucceeds(prov, descs, n, s, digest);
    }
  }

  /** If each of the first n descriptions is accepted, the first n
      iterations succeed. */
  lemma {:induction false} SucceedsIfAccepted(prov: Provider, descs: seq<Desc>, n: nat, s: Signature, digest: string)
    requires n <= |descs|
    ensures (forall k :: 0 <= k < n ==> Accepted(prov, descs[k], digest)) ==> Run(prov, descs, n, s, digest).Ok?
    decreases n
  {
    if n > 0 {
      SucceedsIfAccepted(prov, descs, n - 1, s, digest);
      IterationSucceeds(prov, descs, n, s, digest);
    }
  }

  /** A pass succeeds exactly when every description is accepted. */
  lemma SucceedsIffAllAccepted(prov: Provider, descs: seq<Desc>, s: Signature, digest: string)
    ensures Process(prov, descs, s, digest).Ok? <==> forall k :: 0 <= k < |descs| ==> Accepted(prov, descs[k], digest)
  {
    SucceedsOnlyIfAccepted(prov, descs, |descs|, s, digest);
    SucceedsIfAccepted(prov, descs, |descs|, s, digest);
  }

  /** A failed pass stops at the first description, in input order, that is
      not accepted. The signature is left as the descriptions before it made
      it, except that the ds:Object of an enveloped description whose digest
      method was refused stays appended. A refused transform is reported in
      preference to a refused digest method, since the chain is built first. */
  lemma {:induction false} FailureIsFirstRefusal(prov: Provider, descs: seq<Desc>, n: nat, s: Signature, digest: string) returns (j: nat)
    requires n <= |descs|
    requires Run(prov, descs, n, s, digest).Err?
    ensures j < n
    ensures forall i :: 0 <= i < j ==> Accepted(prov, descs[i], digest)
    ensures !Accepted(prov, descs[j], digest)
    ensures var r := Run(prov, descs, n, s, digest);
      var before := Run(prov, descs, j, s, digest);
      && before.Ok?
      && (!AllSupported(descs[j].transforms, prov.transformUris) ==>
            r.error == ProcessTransforms(descs[j].transforms, prov.transformUris).error && r.sig == before.sig)
      && (AllSupported(descs[j].transforms, prov.transformUris) ==>
            && r.error == UnsupportedAlgorithm(DigestAlgorithm, digest)
            && r.sig.references == before.sig.references
            && r.sig.objects == before.sig.objects + KeptObject(s.id, |before.sig.objects|, descs[j]))
    decreases n
  {
    RunStep(prov, descs, n, s, digest);
    if Run(prov, descs, n - 1, s, digest).Err? {
      j := FailureIsFirstRefusal(prov, descs, n - 1, s, digest);
    } else {
      j := n - 1;
      SucceedsOnlyIfAccepted(prov, descs, n - 1, s, digest);
      IterationSucceeds(prov, descs, n, s, digest);
      IterationRefusal(prov, descs, n, s, digest);
    }
  }

  /** A refused digest method fails the pass at its first description: no
      reference is added, and at most that description's ds:Object is. */
  lemma UnsupportedDigestFailsAtFirst(prov: Provider, descs: seq<Desc>, s: Signature, digest: string)
    requires digest !in prov.digestUris
    requires |descs| > 0
    ensures var r := Process(prov, descs, s, digest);
      && r.Err?
      && r.sig.references == s.references
      && |s.objects| <= |r.sig.objects| <= |s.objects| + 1
      && (AllSupported(descs[0].transforms, prov.transformUris) ==>
            r.error == UnsupportedAlgorithm(DigestAlgorithm, digest))
  {
    SucceedsOnlyIfAccepted(prov, descs, |descs|, s, digest);
    assert !Accepted(prov, descs[0], digest);
    var j := FailureIsFirstRefusal(prov, descs, |descs|, s, digest);
    assert j == 0;
  }

  /** process numbers references from the size of its own map, not from
      SignedInfo: a second pass over the same signature generates
      "{sigId}-ref0" again, and maps its first description to the first
      pass's reference. */
  lemma RepeatedCallReusesRefIds(prov: Provider, first: seq<Desc>, second: seq<Desc>, s: Signature, digest: string)
    requires |s.references| == 0
    requires |first| > 0 && |second| > 0
    requires Process(prov, first, s, digest).Ok?
    requires Process(prov, second, Process(prov, first, s, digest).sig, digest).Ok?
    ensures var r1 := Process(prov, first, s, digest);
      var r2 := Process(prov, second, r1.sig, digest);
      && r2.sig.references[0].id == RefId(s.id, 0)
      && r2.sig.references[|first|].id == RefId(s.id, 0)
      && r2.mappings[0] == r1.mappings[0]
  {
    var r1 := Process(prov, first, s, digest);
    CreatedReference(prov, first, |first|, s, digest, 0);
    CreatedReference(prov, second, |second|, r1.sig, digest, 0);
    MappingIsItem(prov, first, |first|, s, digest, 0);
    MappingIsItem(prov, second, |second|, r1.sig, digest, 0);
  }

  /** An external description "#data1" with no transforms, signed with
      "sha256" into the empty signature "sig", yields one reference
      "sig-ref0" with that URI, no transform chain and no type, and no
      ds:Object. */
  lemma ExternalExample(prov: Provider)
    requires "sha256" in prov.digestUris
    ensures var s := Signature("sig", [], []);
      var ref := Reference("#data1", None, "sha256", "sig-ref0", None);
      Process(prov, [External("#data1", [])], s, "sha256") == Ok(Signature("sig", [], [ref]), map[0 := ref])
  {
    var descs := [External("#data1", [])];
    var s := Signature("sig", [], []);
    assert Run(prov, descs, 0, s, "sha256") == Ok(s, map[]);
    assert RefId("sig", 0) == "sig-ref0" by {
      assert Decimal(0) == "0";
    }
    RunStep(prov, descs, 1, s, "sha256");
  }

  /** An enveloped description, signed into the empty signature "sig",
      appends the ds:Object "sig-object0" holding its content and yields
      the reference "sig-ref0" to "#sig-object0" with the object type. */
  lemma EnvelopedExample(prov: Provider, content: Node)
    requires "sha256" in prov.digestUris
    ensures var s := Signature("sig", [], []);
      var o := XmlObject("sig-object0", content, Some("text/xml"), None);
      var ref := Reference("#sig-object0", None, "sha256", "sig-ref0", Some(ObjectType));
      && Process(prov, [Enveloped(content, Some("text/xml"), None, [])], s, "sha256") == Ok(Signature("sig", [o], [ref]), map[0 := ref])
      && TypeUri(ref.refType.value) == "http://www.w3.org/2000/09/xmldsig#Object"
  {
    var descs := [Enveloped(content, Some("text/xml"), None, [])];
    var s := Signature("sig", [], []);
    assert Run(prov, descs, 0, s, "sha256") == Ok(s, map[]);
    assert RefId("sig", 0) == "sig-ref0" && ObjectId("sig", 0) == "sig-object0" by {
      assert Decimal(0) == "0";
    }
    assert "#" + "sig-object0" == "#sig-object0";
    RunStep(prov, descs, 1, s, "sha256");
  }
}
