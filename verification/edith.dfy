/** The allocator factory and the synthetic-feeder stub of
    src/zepben/edith/__init__.py.

    An allocator is any callable the synthetic-feeder creator is documented to
    run over each `LvFeeder` of a feeder. The two the module defines are Python
    functions whose bodies are `pass`; a caller may pass any other. Here an
    allocator is a value naming which one it is, and `Allocate` says what
    running it does to a feeder, including raising an exception. */
module Edith {

  /** The part of an `LvFeeder` an allocator could change: its mRID and the
      mRIDs of the equipment on it. */
  datatype LvFeeder = LvFeeder(mrid: string, equipmentMrids: seq<string>)

  /** A network service, reduced to the mRIDs of the objects it holds. */
  datatype NetworkService = NetworkService(objectMrids: set<string>)

  /** The allocators: the two the module defines, and any callable a caller
      supplies, which may change the feeder or fail. */
  datatype Allocator =
    | DoNothing
    | DistributionTransformerProportional(proportion: int, edithCustomers: seq<string>)
    | Custom(run: LvFeeder -> Result<LvFeeder>)

  /** The exceptions of this model: the factory's `ValueError`, or whatever a
      caller-supplied allocator raises. */
  datatype Error = ValueError(message: string)

  datatype Result<T> = Success(value: T) | Failure(error: Error)

  /** The message of the `ValueError` raised for an out-of-range proportion. */
  const ProportionMessage: string := "Proportion must be between 1 and 100"

  /** Running allocator `a` over `f`: the feeder as it is afterwards, or the
      exception the allocator raised. The module's own allocators never raise
      and leave the feeder as it was. */
  function Allocate(a: Allocator, f: LvFeeder): (r: Result<LvFeeder>)
    ensures !a.Custom? ==> r.Success? && r.value.mrid == f.mrid && r.value.equipmentMrids == f.equipmentMrids
    ensures a.Custom? ==> r == a.run(f)
  {
    match a
    case DoNothing => Success(f)
    case DistributionTransformerProportional(_, _) => Success(f)
    case Custom(run) => run(f)
  }

  /** The range the docstring gives for `proportion`: between 1 and 100,
      both included. */
  predicate DocumentedProportion(proportion: int) {
    1 <= proportion <= 100
  }

  /** `distribution_transformer_proportional_allocator_creator`: a
      `ValueError` unless 1 < `proportion` <= 100, and otherwise an allocator
      that leaves every feeder as it was. */
  function DistributionTransformerProportionalAllocatorCreator(
    proportion: int, edithCustomers: seq<string>): (r: Result<Allocator>)
    ensures r.Success? <==> 2 <= proportion <= 100
    ensures r.Failure? ==> r.error == ValueError(ProportionMessage)
    ensures r.Success? ==> r.value.DistributionTransformerProportional? && r.value.proportion == proportion
    ensures r.Success? ==> r.value.edithCustomers == edithCustomers
    ensures r.Success? ==> forall f :: Allocate(r.value, f) == Success(f)
  {
    if !(1 < proportion <= 100) then Failure(ValueError(ProportionMessage))
    else Success(DistributionTransformerProportional(proportion, edithCustomers))
  }

  /** Measured against the docstring: every documented proportion but 1 is
      accepted, and nothing outside the documented range is. */
  lemma CreatorAcceptsDocumentedRangeExceptOne(proportion: int, edithCustomers: seq<string>)
    ensures DistributionTransformerProportionalAllocatorCreator(proportion, edithCustomers).Success?
        <==> DocumentedProportion(proportion) && proportion != 1
  {
  }

  /** `_create_synthetic_feeder`: the feeder is not fetched and the allocator
      is never run, so the call succeeds with an empty network service. Had it
      run the allocator, an allocator's exception would be its result. */
  function CreateSyntheticFeeder(feederMrid: string, allocator: Allocator := DoNothing): (r: Result<NetworkService>)
    ensures r.Success? && r.value.objectMrids == {}
  {
    Success(NetworkService({}))
  }

  /** The synthetic feeder depends on neither argument: two calls with any
      mRIDs and any allocators give the same service. */
  lemma SyntheticFeederIgnoresArguments(m1: string, a1: Allocator, m2: string, a2: Allocator)
    ensures CreateSyntheticFeeder(m1, a1) == CreateSyntheticFeeder(m2, a2)
    ensures CreateSyntheticFeeder(m1) == CreateSyntheticFeeder(m1, a1)
  {
  }

  /** The allocator is never run: given an allocator that raises `e` on every
      feeder, the creator still returns the empty service instead of `e`. */
  lemma SyntheticFeederNeverRunsAllocator(feederMrid: string, f: LvFeeder, e: Error)
    ensures Allocate(Custom(_ => Failure(e)), f) == Failure(e)
    ensures CreateSyntheticFeeder(feederMrid, Custom(_ => Failure(e))) == Success(NetworkService({}))
  {
  }
}
