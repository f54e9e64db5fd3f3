/** The signature under construction, reduced to what the reference-building
    pass reads and writes: the signature id, the ds:Object elements appended
    so far and the ds:Reference entries of SignedInfo; and the algorithm URIs
    the signature provider accepts. XML content is carried, never inspected. */
module XmlSignature {
  import opened Wrappers

  /** An XML element or node, carried along as an opaque value. */
  datatype Node = Node(markup: string)

  /** One transform registered in a ds:Transforms chain, either by algorithm
      URI alone or together with a parameter element. */
  datatype ChainEntry =
    | Plain(algorithm: string)
    | Parameterised(algorithm: string, params: Node)

  /** The Type attribute of a reference. The only one this pass sets marks a
      reference to a ds:Object. */
  datatype RefType = ObjectType

  /** The URI a Type attribute carries, as defined in section 4.3.3.1 of the
      W3C XML Signature recommendation. */
  function TypeUri(t: RefType): string {
    match t
    case ObjectType => "http://www.w3.org/2000/09/xmldsig#Object"
  }

  /** A ds:Reference; an absent transform chain and an absent type are
      omitted from the element. */
  datatype Reference = Reference(
    uri: string,
    transforms: Option<seq<ChainEntry>>,
    digestMethod: string,
    id: string,
    refType: Option<RefType>)

  /** A ds:Object enveloping some content. */
  datatype XmlObject = XmlObject(
    id: string,
    content: Node,
    mimeType: Option<string>,
    encoding: Option<string>)

  datatype Signature = Signature(
    id: string,
    objects: seq<XmlObject>,
    references: seq<Reference>)

  /** The algorithms the signature provider implements, a fixed registry
      that no signature changes. */
  datatype Provider = Provider(transformUris: set<string>, digestUris: set<string>)

  /** Appends a ds:Object to the signature. */
  function AppendObject(s: Signature, o: XmlObject): Signature {
    s.(objects := s.objects + [o])
  }

  /** Adds a reference to SignedInfo. The provider rejects a digest method it
      does not support (None), before anything is added. */
  function AddDocument(
    prov: Provider, s: Signature, uri: string, transforms: Option<seq<ChainEntry>>,
    digestMethod: string, id: string, refType: Option<RefType>): Option<Signature>
  {
    if digestMethod in prov.digestUris
    then Some(s.(references := s.references + [Reference(uri, transforms, digestMethod, id, refType)]))
    else None
  }

  /** The reference at position i of SignedInfo, None when there is none. */
  function Item(s: Signature, i: nat): Option<Reference> {
    if i < |s.references| then Some(s.references[i]) else None
  }
}
