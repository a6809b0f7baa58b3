/**
 * Embedding vectors as the ingestion script receives them from the
 * embedding provider: an arbitrary JavaScript value, and the check that
 * decides whether it may be stored.
 */
module Embedding {

  /** The dimension of the embedding model and of the collection's vectors. */
  const ModelDimensions: nat := 1536

  /**
   * A JavaScript number. `Finite` stands for any finite double; its value is
   * an opaque identifier, never computed with.
   */
  datatype JsNumber = Finite(id: int) | NaN | Infinity(negative: bool)

  /** The JavaScript values an embedding response can hold where a vector is expected. */
  datatype JsValue =
    | Undefined
    | Null
    | Boolean(b: bool)
    | Number(n: JsNumber)
    | Text(s: string)
    | Array(elements: seq<JsValue>)
    | Object

  /** `typeof val !== 'number' || isNaN(val) || !isFinite(val)` */
  predicate IsBadElement(v: JsValue) {
    !v.Number? || v.n.NaN? || v.n.Infinity?
  }

  /** `elements.some(IsBadElement)`, element by element from the front. */
  function SomeBad(elements: seq<JsValue>): (r: bool)
    ensures r <==> exists i :: 0 <= i < |elements| && IsBadElement(elements[i])
  {
    if elements == [] then false
    else if IsBadElement(elements[0]) then true
    else
      var r := SomeBad(elements[1..]);
      assert forall i :: 1 <= i < |elements| ==> elements[i] == elements[1..][i - 1];
      r
  }

  /** An element the store accepts: a finite number. */
  predicate IsFiniteNumber(v: JsValue) {
    v.Number? && v.n.Finite?
  }

  /**
   * `isValidEmbedding`: false for non-arrays (which covers `null` and
   * `undefined`), false for an array of the wrong length, false when some
   * element is not a finite number, true otherwise.
   */
  function IsValidEmbedding(v: JsValue): (r: bool)
    ensures r <==> v.Array? && |v.elements| == ModelDimensions
                   && forall i :: 0 <= i < |v.elements| ==> IsFiniteNumber(v.elements[i])
  {
    if !v.Array? then false
    else if |v.elements| != ModelDimensions then false
    else if SomeBad(v.elements) then false
    else true
  }
}
