/**
 * `ObservableCollectionValidation`: a validation attribute that accepts a value
 * only when it is a collection holding at least `MinCount` elements.
 */
module CollectionValidation {
  import opened Int32Arith

  /** What the attribute may be handed: null, a collection with its `Count`, or any other object. */
  datatype Value = Null | Collection(count: nat) | NotACollection

  datatype ValidationResult = Success | Failure(errorMessage: string)

  /** The attribute with the two read-only properties its constructor sets. */
  datatype ObservableCollectionValidation = ObservableCollectionValidation(MinCount: Int32, ErrMsg: string)
  {
    /** `IsValid`: success for a collection of at least `MinCount` elements, otherwise a failure carrying `ErrMsg`. */
    function IsValid(value: Value): (r: ValidationResult)
      ensures r == Success <==> value.Collection? && value.count >= MinCount
      ensures r != Success ==> r == Failure(ErrMsg)
    {
      if value.Collection? && value.count >= MinCount then Success
      else Failure(ErrMsg)
    }
  }

  /** The constructor: both properties hold the arguments unchanged. */
  function Create(minCount: Int32, errMsg: string): (v: ObservableCollectionValidation)
    ensures v.MinCount == minCount && v.ErrMsg == errMsg
  {
    ObservableCollectionValidation(minCount, errMsg)
  }

  /** Validity is monotone in the size of the collection. */
  lemma IsValidMonotone(v: ObservableCollectionValidation, smaller: nat, larger: nat)
    requires smaller <= larger
    requires v.IsValid(Collection(smaller)) == Success
    ensures v.IsValid(Collection(larger)) == Success
  {
  }

  /** Anything that is not a collection, null included, fails whatever `MinCount` is. */
  lemma NonCollectionsFail(v: ObservableCollectionValidation, value: Value)
    requires !value.Collection?
    ensures v.IsValid(value) == Failure(v.ErrMsg)
  {
  }

  /** With a minimum of one, as the selection list uses, the empty collection fails and any other passes. */
  lemma MinCountOneRejectsEmpty(errMsg: string, count: nat)
    ensures Create(1, errMsg).IsValid(Collection(count)) == Success <==> count >= 1
  {
  }
}
