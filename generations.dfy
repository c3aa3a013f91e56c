/** How the two generations of the hook package relate: the same error
    categories and, on inputs where no child is bad, the same children for
    the handler; they part ways on a bad child (fail-fast versus drop-and-warn). */
module Generations {
  import opened Wrappers
  import opened Runtime
  import opened ChildSets
  import Old = HookServer
  import New = HttpHandlers

  /** With debug output off, both writeError versions send the same message. */
  lemma ErrorMessagesAgreeWithoutDebug(code: int, err: string)
    ensures Old.ErrorMessage(code, err, false) == New.ErrorMessage(code, err, false)
  {
  }

  /** With debug output on, the new message is the old one behind the category. */
  lemma DebugMessageAddsCategory(code: int, err: string)
    ensures New.ErrorMessage(code, err, true) == Old.ErrorMessage(code, err, false) + ": " + Old.ErrorMessage(code, err, true)
  {
  }

  /** Every blob decodes and is a client.Object. */
  predicate AllGood<O>(dec: Decoder<O>, isObject: O -> bool, blobs: seq<Bytes>)
  {
    forall i :: 0 <= i < |blobs| ==> dec(blobs[i]).Ok? && isObject(dec(blobs[i]).value.0)
  }

  /** When every child is good, the fail-fast decode succeeds with exactly
      the children the drop-and-warn decode keeps, and nothing is skipped. */
  lemma {:induction false} PoliciesAgreeOnGoodChildren<O>(dec: Decoder<O>, isObject: O -> bool, blobs: seq<Bytes>)
    requires AllGood(dec, isObject, blobs)
    ensures DecodeAll(dec, blobs) == Ok(Accepted(dec, isObject, blobs))
    ensures Skipped(dec, isObject, blobs) == []
  {
    if blobs != [] {
      var init := blobs[..|blobs| - 1];
      assert forall i :: 0 <= i < |init| ==> init[i] == blobs[i];
      PoliciesAgreeOnGoodChildren(dec, isObject, init);
      assert dec(blobs[|blobs| - 1]).Ok?;
    }
  }

  /** One undecodable child: the first generation fails the whole batch (and
      so the request, with 400), while the second logs that child, keeps
      going, and still hands the handler every other good child. */
  lemma PoliciesDifferOnBadChild<O>(dec: Decoder<O>, isObject: O -> bool, blobs: seq<Bytes>, i: nat)
    requires i < |blobs| && dec(blobs[i]).Err?
    ensures DecodeAll(dec, blobs).Err?
    ensures blobs[i] in Skipped(dec, isObject, blobs)
    ensures |Accepted(dec, isObject, blobs)| == |blobs| - |Skipped(dec, isObject, blobs)|
  {
    DecodeAllFailsAtFirstError(dec, blobs);
    SkippedMembers(dec, isObject, blobs, blobs[i]);
    AcceptedPlusSkipped(dec, isObject, blobs);
  }
}
