/** Building the ds:Transforms chain of one data object description
    (processTransforms): in order, failing on the first transform whose
    algorithm the provider does not support. */
module TransformChain {
  import opened Wrappers
  import opened Errors
  import opened XmlSignature

  /** A transform requested by a data object description: an algorithm URI
      and an optional parameter element. */
  datatype DataObjectTransform = DataObjectTransform(uri: string, params: Option<Node>)

  predicate AllSupported(ts: seq<DataObjectTransform>, supported: set<string>) {
    forall i :: 0 <= i < |ts| ==> ts[i].uri in supported
  }

  /** j is the position of the first transform whose algorithm is refused. */
  predicate FirstUnsupportedAt(ts: seq<DataObjectTransform>, supported: set<string>, j: nat) {
    && j < |ts|
    && ts[j].uri !in supported
    && forall i :: 0 <= i < j ==> ts[i].uri in supported
  }

  /** e registers t: same algorithm, with a parameter element exactly when t
      has one, and then the same one. */
  predicate Registers(t: DataObjectTransform, e: ChainEntry) {
    && e.algorithm == t.uri
    && (e.Parameterised? <==> t.params.Some?)
    && (e.Parameterised? ==> t.params == Some(e.params))
  }

  /** c registers the transforms ts one for one, in the same order. */
  predicate ChainOf(ts: seq<DataObjectTransform>, c: seq<ChainEntry>) {
    |c| == |ts| && forall i :: 0 <= i < |ts| ==> Registers(ts[i], c[i])
  }

  function Register(t: DataObjectTransform): ChainEntry {
    match t.params
    case None => Plain(t.uri)
    case Some(p) => Parameterised(t.uri, p)
  }

  /** Adds the transforms ts, in order, to a chain. */
  function AddTransforms(ts: seq<DataObjectTransform>, supported: set<string>): (r: Result<seq<ChainEntry>, Error>)
    ensures r.Success? <==> AllSupported(ts, supported)
    ensures r.Success? ==> ChainOf(ts, r.value)
    ensures r.Failure? ==> r.error.UnsupportedAlgorithm? && r.error.kind == TransformAlgorithm
    decreases |ts|
  {
    if |ts| == 0 then Success([])
    else if ts[0].uri !in supported then Failure(UnsupportedAlgorithm(TransformAlgorithm, ts[0].uri))
    else
      match AddTransforms(ts[1..], supported)
      case Failure(e) => Failure(e)
      case Success(rest) => Success([Register(ts[0])] + rest)
  }

  /** The chain for a description's transforms: none at all for an empty
      list, which is not the same as an empty chain. */
  function ProcessTransforms(ts: seq<DataObjectTransform>, supported: set<string>): (r: Result<Option<seq<ChainEntry>>, Error>)
    ensures r.Success? <==> AllSupported(ts, supported)
    ensures r == Success(None) <==> |ts| == 0
    ensures r.Success? && r.value.Some? ==> |r.value.value| > 0 && ChainOf(ts, r.value.value)
    ensures r.Failure? ==> r.error.UnsupportedAlgorithm? && r.error.kind == TransformAlgorithm
  {
    if |ts| == 0 then Success(None)
    else
      match AddTransforms(ts, supported)
      case Failure(e) => Failure(e)
      case Success(c) => Success(Some(c))
  }

  /** A refused chain names the first refused transform. */
  lemma {:induction false} AddTransformsReportsFirstUnsupported(ts: seq<DataObjectTransform>, supported: set<string>, j: nat)
    requires FirstUnsupportedAt(ts, supported, j)
    ensures AddTransforms(ts, supported) == Failure(UnsupportedAlgorithm(TransformAlgorithm, ts[j].uri))
    decreases |ts|
  {
    if j > 0 {
      assert ts[0].uri in supported;
      assert FirstUnsupportedAt(ts[1..], supported, j - 1) by {
        forall i | 0 <= i < j - 1
          ensures ts[1..][i].uri in supported
        {
          assert ts[1..][i] == ts[i + 1];
        }
      }
      AddTransformsReportsFirstUnsupported(ts[1..], supported, j - 1);
    }
  }

  /** processTransforms fails with the URI of the first refused transform. */
  lemma ProcessTransformsFailsFast(ts: seq<DataObjectTransform>, supported: set<string>, j: nat)
    requires FirstUnsupportedAt(ts, supported, j)
    ensures ProcessTransforms(ts, supported) == Failure(UnsupportedAlgorithm(TransformAlgorithm, ts[j].uri))
  {
    AddTransformsReportsFirstUnsupported(ts, supported, j);
  }

  /** Whenever processTransforms fails, some transform is the first refused
      one. */
  lemma {:induction false} FailureHasFirstUnsupported(ts: seq<DataObjectTransform>, supported: set<string>) returns (j: nat)
    requires !AllSupported(ts, supported)
    ensures FirstUnsupportedAt(ts, supported, j)
    decreases |ts|
  {
    if ts[0].uri !in supported {
      j := 0;
    } else {
      assert !AllSupported(ts[1..], supported) by {
        var i :| 0 <= i < |ts| && ts[i].uri !in supported;
        assert ts[1..][i - 1] == ts[i];
      }
      var j' := FailureHasFirstUnsupported(ts[1..], supported);
      j := j' + 1;
      forall i | 0 <= i < j
        ensures ts[i].uri in supported
      {
        if i > 0 {
          assert ts[i] == ts[1..][i - 1];
        }
      }
    }
  }
}
