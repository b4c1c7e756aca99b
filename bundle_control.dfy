/**
 * The transaction bundle under construction (work/BundleControl.java):
 * a bundle of type TRANSACTION, the number of resources in it and the
 * internal bundle number that counts how often it was reset.
 */
module BundleControl {
  import opened Wrappers

  /** A FHIR resource as far as the bundle sees it: its type name, its id
      and, for a MedicationAdministration, the id of the Medication it references. */
  datatype Resource = Resource(fhirType: string, id: string, medication: Option<string>)

  datatype BundleType = TRANSACTION
  datatype HttpVerb = POST

  /** One bundle entry: the resource and its transaction request. */
  datatype Entry = Entry(
    fullUrl: Option<string>,
    resource: Resource,
    verb: HttpVerb,
    url: string,
    ifNoneExist: Option<string>)

  datatype Bundle = Bundle(bundleType: BundleType, entry: seq<Entry>)

  /** Entry of `addResourceToBundle`: POST to the resource type, no fullUrl, no condition. */
  function PlainEntry(r: Resource): Entry
  {
    Entry(None, r, POST, r.fhirType, None)
  }

  /** Entry of `addUUIDResourceToBundle`: as a plain one, with fullUrl set to the resource id. */
  function UuidEntry(r: Resource): Entry
  {
    Entry(Some(r.id), r, POST, r.fhirType, None)
  }

  /** Entry of `addUUIDResourceWithConditionToBundle`: a conditional create with ifNoneExist set. */
  function ConditionalEntry(r: Resource, condition: string): Entry
  {
    Entry(Some(r.id), r, POST, r.fhirType, Some(condition))
  }

  /** Every entry is a POST to the resource type; only the UUID variants set a fullUrl
      (the resource id), and only the conditional one sets ifNoneExist. */
  lemma EntryRequests(r: Resource, condition: string)
    ensures PlainEntry(r).verb == UuidEntry(r).verb == ConditionalEntry(r, condition).verb == POST
    ensures PlainEntry(r).url == UuidEntry(r).url == ConditionalEntry(r, condition).url == r.fhirType
    ensures PlainEntry(r).fullUrl == None
    ensures UuidEntry(r).fullUrl == ConditionalEntry(r, condition).fullUrl == Some(r.id)
    ensures PlainEntry(r).ifNoneExist == UuidEntry(r).ifNoneExist == None
    ensures ConditionalEntry(r, condition).ifNoneExist == Some(condition)
  {
  }

  class Controller {
    var transactionBundle: Bundle
    var numberOfResources: int
    var internalBundleNumber: int

    /** The resource count is the number of entries, and the bundle number never drops below 1. */
    ghost predicate Valid()
      reads this
    {
      transactionBundle.bundleType == TRANSACTION
      && numberOfResources == |transactionBundle.entry|
      && internalBundleNumber >= 1
    }

    constructor ()
      ensures Valid()
      ensures transactionBundle == Bundle(TRANSACTION, [])
      ensures numberOfResources == 0 && internalBundleNumber == 1
    {
      transactionBundle := Bundle(TRANSACTION, []);
      numberOfResources := 0;
      internalBundleNumber := 1;
    }

    method GetNumberOfResources() returns (n: int)
      requires Valid()
      ensures n == |transactionBundle.entry|
    {
      n := numberOfResources;
    }

    method GetInternalBundleNumber() returns (n: int)
      requires Valid()
      ensures n == internalBundleNumber && n >= 1
    {
      n := internalBundleNumber;
    }

    method GetTransactionBundle() returns (b: Bundle)
      requires Valid()
      ensures b == transactionBundle && b.bundleType == TRANSACTION
      ensures |b.entry| == numberOfResources
    {
      b := transactionBundle;
    }

    method ResetInternalBundleNumber()
      requires Valid()
      modifies this
      ensures Valid()
      ensures internalBundleNumber == 1
      ensures transactionBundle == old(transactionBundle)
      ensures numberOfResources == old(numberOfResources)
    {
      internalBundleNumber := 1;
    }

    method ResetBundle()
      requires Valid()
      modifies this
      ensures Valid()
      ensures transactionBundle == Bundle(TRANSACTION, []) && numberOfResources == 0
      ensures internalBundleNumber == old(internalBundleNumber) + 1
    {
      transactionBundle := Bundle(TRANSACTION, []);
      numberOfResources := 0;
      internalBundleNumber := internalBundleNumber + 1;
    }

    method AddResourceToBundle(r: Resource)
      requires Valid()
      modifies this
      ensures Valid()
      ensures transactionBundle.entry == old(transactionBundle.entry) + [PlainEntry(r)]
      ensures internalBundleNumber == old(internalBundleNumber)
    {
      var e := PlainEntry(r);
      transactionBundle := transactionBundle.(entry := transactionBundle.entry + [e]);
      numberOfResources := numberOfResources + 1;
    }

    method AddUuidResourceToBundle(r: Resource)
      requires Valid()
      modifies this
      ensures Valid()
      ensures transactionBundle.entry == old(transactionBundle.entry) + [UuidEntry(r)]
      ensures internalBundleNumber == old(internalBundleNumber)
    {
      var e := UuidEntry(r);
      transactionBundle := transactionBundle.(entry := transactionBundle.entry + [e]);
      numberOfResources := numberOfResources + 1;
    }

    method AddUuidResourceWithConditionToBundle(r: Resource, condition: string)
      requires Valid()
      modifies this
      ensures Valid()
      ensures transactionBundle.entry == old(transactionBundle.entry) + [ConditionalEntry(r, condition)]
      ensures internalBundleNumber == old(internalBundleNumber)
    {
      var e := ConditionalEntry(r, condition);
      transactionBundle := transactionBundle.(entry := transactionBundle.entry + [e]);
      numberOfResources := numberOfResources + 1;
    }
  }
}
