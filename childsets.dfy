/** Child sets: the observed children on the way in (wire lists of raw blobs,
    decoded and bucketed by kind) and the desired children on the way out
    (typed buckets encoded back under their wire keys). The two handler
    generations share these definitions; each has its own decode loop. */
module ChildSets {
  import opened Wrappers
  import opened Kinds
  import opened Runtime

  /** The wire `children` map (map[string][]json.RawMessage), listed in the
      order Go's `range` happens to visit it. Every property below holds for
      every such order. */
  type WireChildren = seq<(string, seq<Bytes>)>

  /** A Go map[GroupVersionKind][]Object. */
  type Buckets<O> = map<GVK, seq<O>>

  /** All raw blobs, wire list after wire list, each list in its own order:
      the order in which the nested decode loops visit them. */
  function Flatten(children: WireChildren): (blobs: seq<Bytes>)
  {
    if children == [] then [] else Flatten(children[..|children| - 1]) + children[|children| - 1].1
  }

  lemma FlattenStep(children: WireChildren, i: nat)
    requires i < |children|
    ensures Flatten(children[..i + 1]) == Flatten(children[..i]) + children[i].1
  {
    assert children[..i + 1][..i] == children[..i];
  }

  lemma {:induction false} FlattenConcat(a: WireChildren, b: WireChildren)
    ensures Flatten(a + b) == Flatten(a) + Flatten(b)
  {
    if b != [] {
      assert (a + b)[..|a + b| - 1] == a + b[..|b| - 1];
      FlattenConcat(a, b[..|b| - 1]);
    } else {
      assert a + b == a;
    }
  }

  /** Reading a missing key of a Go map of slices yields the nil (empty) slice. */
  function Lookup<O>(m: Buckets<O>, g: GVK): (objs: seq<O>)
  {
    if g in m then m[g] else []
  }

  /** The objects filed under kind `g`, in the order they were decoded. */
  function Select<O>(pairs: seq<(GVK, O)>, g: GVK): (objs: seq<O>)
  {
    if pairs == [] then []
    else
      var last := pairs[|pairs| - 1];
      Select(pairs[..|pairs| - 1], g) + (if last.0 == g then [last.1] else [])
  }

  /** The kinds that have at least one object. */
  function KindsOf<O>(pairs: seq<(GVK, O)>): (kinds: set<GVK>)
  {
    set i | 0 <= i < |pairs| :: pairs[i].0
  }

  /** The reference definition of bucketing: one bucket per kind that occurs,
      holding that kind's objects in order. */
  function Group<O>(pairs: seq<(GVK, O)>): (buckets: Buckets<O>)
  {
    map g | g in KindsOf(pairs) :: Select(pairs, g)
  }

  lemma {:induction false} SelectConcat<O>(a: seq<(GVK, O)>, b: seq<(GVK, O)>, g: GVK)
    ensures Select(a + b, g) == Select(a, g) + Select(b, g)
  {
    if b != [] {
      assert (a + b)[..|a + b| - 1] == a + b[..|b| - 1];
      SelectConcat(a, b[..|b| - 1], g);
    } else {
      assert a + b == a;
    }
  }

  /** An object is in bucket `g` exactly when it was decoded with kind `g`. */
  lemma {:induction false} SelectMembers<O>(pairs: seq<(GVK, O)>, g: GVK, o: O)
    ensures o in Select(pairs, g) <==> (g, o) in pairs
  {
    if pairs != [] {
      var init := pairs[..|pairs| - 1];
      SelectMembers(init, g, o);
      assert pairs == init + [pairs[|pairs| - 1]];
    }
  }

  lemma {:induction false} SelectAbsent<O>(pairs: seq<(GVK, O)>, g: GVK)
    requires g !in KindsOf(pairs)
    ensures Select(pairs, g) == []
  {
    if pairs != [] {
      var init := pairs[..|pairs| - 1];
      assert KindsOf(init) <= KindsOf(pairs) by {
        forall k | k in KindsOf(init) ensures k in KindsOf(pairs) {
          var i :| 0 <= i < |init| && init[i].0 == k;
          assert pairs[i] == init[i];
        }
      }
      SelectAbsent(init, g);
    }
  }

  /** Every kind's bucket, present or not, holds exactly its selected objects. */
  lemma LookupGroup<O>(pairs: seq<(GVK, O)>, g: GVK)
    ensures Lookup(Group(pairs), g) == Select(pairs, g)
  {
    if g !in KindsOf(pairs) { SelectAbsent(pairs, g); }
  }

  /** Appending one decoded object to its bucket, as the decode loops do,
      keeps the map equal to the reference grouping. */
  lemma GroupSnoc<O>(pairs: seq<(GVK, O)>, g: GVK, o: O)
    ensures Group(pairs + [(g, o)]) == Group(pairs)[g := Lookup(Group(pairs), g) + [o]]
  {
    var p := pairs + [(g, o)];
    assert p[..|p| - 1] == pairs;
    assert KindsOf(p) == KindsOf(pairs) + {g} by {
      forall k | k in KindsOf(p) ensures k in KindsOf(pairs) + {g} {
        var i :| 0 <= i < |p| && p[i].0 == k;
        if i < |pairs| { assert p[i] == pairs[i]; }
      }
      forall k | k in KindsOf(pairs) ensures k in KindsOf(p) {
        var i :| 0 <= i < |pairs| && pairs[i].0 == k;
        assert p[i] == pairs[i];
      }
      assert p[|pairs|].0 == g;
    }
    LookupGroup(pairs, g);
    var lhs, rhs := Group(p), Group(pairs)[g := Lookup(Group(pairs), g) + [o]];
    forall k | k in lhs ensures k in rhs && lhs[k] == rhs[k] {
      assert Select(p, k) == Select(pairs, k) + (if k == g then [o] else []);
    }
  }

  // ---- Decoding with drop-and-warn (http_handlers.go) ----

  /** The objects that both decode and pass the client.Object assertion, each
      with its decoded kind, in visiting order. */
  function Accepted<O>(dec: Decoder<O>, isObject: O -> bool, blobs: seq<Bytes>): (pairs: seq<(GVK, O)>)
    ensures |pairs| <= |blobs|
    ensures forall k :: 0 <= k < |pairs| ==> isObject(pairs[k].1)
  {
    if blobs == [] then []
    else
      var d := dec(blobs[|blobs| - 1]);
      Accepted(dec, isObject, blobs[..|blobs| - 1])
        + (if d.Ok? && isObject(d.value.0) then [(d.value.1, d.value.0)] else [])
  }

  /** The raw blobs that were logged and dropped, in visiting order. */
  function Skipped<O>(dec: Decoder<O>, isObject: O -> bool, blobs: seq<Bytes>): (bad: seq<Bytes>)
    ensures |bad| <= |blobs|
    ensures forall k :: 0 <= k < |bad| ==> bad[k] in blobs && !(dec(bad[k]).Ok? && isObject(dec(bad[k]).value.0))
  {
    if blobs == [] then []
    else
      var b := blobs[|blobs| - 1];
      var d := dec(b);
      Skipped(dec, isObject, blobs[..|blobs| - 1])
        + (if d.Ok? && isObject(d.value.0) then [] else [b])
  }

  /** Nothing is lost: every blob is either accepted or skipped. */
  lemma {:induction false} AcceptedPlusSkipped<O>(dec: Decoder<O>, isObject: O -> bool, blobs: seq<Bytes>)
    ensures |Accepted(dec, isObject, blobs)| + |Skipped(dec, isObject, blobs)| == |blobs|
  {
    if blobs != [] { AcceptedPlusSkipped(dec, isObject, blobs[..|blobs| - 1]); }
  }

  /** A blob is skipped exactly when it fails to decode or fails the assertion. */
  lemma {:induction false} SkippedMembers<O>(dec: Decoder<O>, isObject: O -> bool, blobs: seq<Bytes>, b: Bytes)
    ensures b in Skipped(dec, isObject, blobs) <==>
      b in blobs && !(dec(b).Ok? && isObject(dec(b).value.0))
  {
    if blobs != [] {
      var init := blobs[..|blobs| - 1];
      SkippedMembers(dec, isObject, init, b);
      assert blobs == init + [blobs[|blobs| - 1]];
    }
  }

  /** One more blob: it is appended to the accepted pairs or to the skipped blobs. */
  lemma AcceptedSkippedSnoc<O>(dec: Decoder<O>, isObject: O -> bool, blobs: seq<Bytes>, b: Bytes)
    ensures Accepted(dec, isObject, blobs + [b]) == Accepted(dec, isObject, blobs)
      + (if dec(b).Ok? && isObject(dec(b).value.0) then [(dec(b).value.1, dec(b).value.0)] else [])
    ensures Skipped(dec, isObject, blobs + [b]) == Skipped(dec, isObject, blobs)
      + (if dec(b).Ok? && isObject(dec(b).value.0) then [] else [b])
  {
    assert (blobs + [b])[..|blobs + [b]| - 1] == blobs;
  }

  lemma {:induction false} AcceptedConcat<O>(dec: Decoder<O>, isObject: O -> bool, a: seq<Bytes>, b: seq<Bytes>)
    ensures Accepted(dec, isObject, a + b) == Accepted(dec, isObject, a) + Accepted(dec, isObject, b)
  {
    if b != [] {
      assert (a + b)[..|a + b| - 1] == a + b[..|b| - 1];
      AcceptedConcat(dec, isObject, a, b[..|b| - 1]);
    } else {
      assert a + b == a;
    }
  }

  /** Within one bucket, the objects of wire list `i` sit together and in
      their wire order, after those of earlier lists and before those of later ones. */
  lemma BucketKeepsWireOrder<O>(dec: Decoder<O>, isObject: O -> bool, children: WireChildren, i: nat, g: GVK)
    requires i < |children|
    ensures Lookup(Group(Accepted(dec, isObject, Flatten(children))), g) ==
      Select(Accepted(dec, isObject, Flatten(children[..i])), g)
      + Select(Accepted(dec, isObject, children[i].1), g)
      + Select(Accepted(dec, isObject, Flatten(children[i + 1..])), g)
  {
    assert children == children[..i + 1] + children[i + 1..];
    FlattenConcat(children[..i + 1], children[i + 1..]);
    FlattenStep(children, i);
    var a, b, c := Flatten(children[..i]), children[i].1, Flatten(children[i + 1..]);
    assert Flatten(children) == a + b + c;
    AcceptedConcat(dec, isObject, a + b, c);
    AcceptedConcat(dec, isObject, a, b);
    var pa, pb, pc := Accepted(dec, isObject, a), Accepted(dec, isObject, b), Accepted(dec, isObject, c);
    SelectConcat(pa + pb, pc, g);
    SelectConcat(pa, pb, g);
    LookupGroup(pa + pb + pc, g);
  }

  /** Sum of the bucket lengths over an enumeration of kinds. */
  function SumSizes<O>(m: Buckets<O>, ks: seq<GVK>): nat
  {
    if ks == [] then 0 else |Lookup(m, ks[0])| + SumSizes(m, ks[1..])
  }

  predicate Distinct(ks: seq<GVK>)
  {
    forall i, j :: 0 <= i < j < |ks| ==> ks[i] != ks[j]
  }

  lemma {:induction false} SumSizesUpdate<O>(m: Buckets<O>, ks: seq<GVK>, g: GVK, v: seq<O>)
    requires Distinct(ks)
    ensures SumSizes(m[g := v], ks) + (if g in ks then |Lookup(m, g)| else 0)
         == SumSizes(m, ks) + (if g in ks then |v| else 0)
  {
    if ks != [] {
      assert Distinct(ks[1..]);
      SumSizesUpdate(m, ks[1..], g, v);
      if ks[0] == g { assert g !in ks[1..]; }
      else { assert g in ks <==> g in ks[1..]; }
    }
  }

  /** The buckets hold exactly as many objects as there were decoded pairs,
      summed over any duplicate-free enumeration of the kinds that occur. */
  lemma {:induction false} GroupCount<O>(pairs: seq<(GVK, O)>, ks: seq<GVK>)
    requires Distinct(ks)
    requires forall g :: g in KindsOf(pairs) ==> g in ks
    ensures SumSizes(Group(pairs), ks) == |pairs|
  {
    if pairs == [] {
      SumSizesEmpty(Group(pairs), ks);
    } else {
      var init, last := pairs[..|pairs| - 1], pairs[|pairs| - 1];
      assert pairs == init + [(last.0, last.1)];
      assert KindsOf(init) <= KindsOf(pairs) by {
        forall k | k in KindsOf(init) ensures k in KindsOf(pairs) {
          var i :| 0 <= i < |init| && init[i].0 == k;
          assert pairs[i] == init[i];
        }
      }
      GroupCount(init, ks);
      GroupSnoc(init, last.0, last.1);
      assert last.0 in KindsOf(pairs) by { assert pairs[|pairs| - 1].0 == last.0; }
      SumSizesUpdate(Group(init), ks, last.0, Lookup(Group(init), last.0) + [last.1]);
    }
  }

  lemma {:induction false} SumSizesEmpty<O>(m: Buckets<O>, ks: seq<GVK>)
    requires m == map[]
    ensures SumSizes(m, ks) == 0
  {
    if ks != [] { SumSizesEmpty(m, ks[1..]); }
  }

  // ---- Decoding with fail-fast (hookserver.go) ----

  /** Decode every blob in visiting order; the first failure is the result. */
  function DecodeAll<O>(dec: Decoder<O>, blobs: seq<Bytes>): (r: Result<seq<(GVK, O)>>)
    ensures r.Ok? ==> |r.value| == |blobs|
    ensures r.Ok? ==> forall k :: 0 <= k < |blobs| ==> dec(blobs[k]) == Ok((r.value[k].1, r.value[k].0))
  {
    if blobs == [] then Ok([])
    else
      match DecodeAll(dec, blobs[..|blobs| - 1])
      case Err(e) => Err(e)
      case Ok(pairs) =>
        match dec(blobs[|blobs| - 1])
        case Err(e) => Err(e)
        case Ok(d) => Ok(pairs + [(d.1, d.0)])
  }

  lemma DecodeAllSnoc<O>(dec: Decoder<O>, a: seq<Bytes>, b: Bytes)
    ensures DecodeAll(dec, a + [b]) ==
      match DecodeAll(dec, a)
      case Err(e) => Err(e)
      case Ok(pairs) =>
        match dec(b)
        case Err(e) => Err(e)
        case Ok(d) => Ok(pairs + [(d.1, d.0)])
  {
    assert (a + [b])[..|a + [b]| - 1] == a;
  }

  /** The visiting order seen from inside the nested loops: what came before
      position `j` of wire list `i`, and what comes after. */
  lemma FlattenAt(children: WireChildren, i: nat, j: nat)
    requires i < |children| && j <= |children[i].1|
    ensures Flatten(children) ==
      (Flatten(children[..i]) + children[i].1[..j]) + (children[i].1[j..] + Flatten(children[i + 1..]))
  {
    FlattenStep(children, i);
    assert children == children[..i + 1] + children[i + 1..];
    FlattenConcat(children[..i + 1], children[i + 1..]);
    assert children[i].1 == children[i].1[..j] + children[i].1[j..];
  }

  /** Once a prefix has failed, the whole batch fails with that error. */
  lemma {:induction false} DecodeAllSticky<O>(dec: Decoder<O>, a: seq<Bytes>, b: seq<Bytes>)
    requires DecodeAll(dec, a).Err?
    ensures DecodeAll(dec, a + b) == DecodeAll(dec, a)
  {
    if b != [] {
      assert (a + b)[..|a + b| - 1] == a + b[..|b| - 1];
      DecodeAllSticky(dec, a, b[..|b| - 1]);
    } else {
      assert a + b == a;
    }
  }

  /** The fail-fast decode seen from inside the nested loops: decoding
      element `j` of wire list `i` extends the decode of everything before it. */
  lemma DecodeAllStep<O>(dec: Decoder<O>, before: seq<Bytes>, list: seq<Bytes>, j: nat)
    requires j < |list|
    ensures DecodeAll(dec, before + list[..j + 1]) ==
      match DecodeAll(dec, before + list[..j])
      case Err(e) => Err(e)
      case Ok(pairs) =>
        match dec(list[j])
        case Err(e) => Err(e)
        case Ok(d) => Ok(pairs + [(d.1, d.0)])
  {
    assert before + list[..j + 1] == (before + list[..j]) + [list[j]];
    DecodeAllSnoc(dec, before + list[..j], list[j]);
  }

  /** A failure at element `j` of wire list `i` is the failure of the whole batch. */
  lemma DecodeAllFailsInside<O>(dec: Decoder<O>, children: WireChildren, i: nat, j: nat)
    requires i < |children| && j < |children[i].1|
    requires DecodeAll(dec, Flatten(children[..i]) + children[i].1[..j + 1]).Err?
    ensures DecodeAll(dec, Flatten(children)) == DecodeAll(dec, Flatten(children[..i]) + children[i].1[..j + 1])
  {
    FlattenAt(children, i, j + 1);
    DecodeAllSticky(dec, Flatten(children[..i]) + children[i].1[..j + 1], children[i].1[j + 1..] + Flatten(children[i + 1..]));
  }

  /** The batch fails with error `e` exactly when some blob fails with `e`
      and every blob before it decodes. */
  lemma {:induction false} DecodeAllFailsAtFirstError<O>(dec: Decoder<O>, blobs: seq<Bytes>)
    ensures DecodeAll(dec, blobs).Err? <==> exists i :: 0 <= i < |blobs| && dec(blobs[i]).Err?
    ensures DecodeAll(dec, blobs).Err? ==>
      exists i :: 0 <= i < |blobs| && dec(blobs[i]) == Err(DecodeAll(dec, blobs).error)
        && forall j :: 0 <= j < i ==> dec(blobs[j]).Ok?
  {
    if blobs != [] {
      var init := blobs[..|blobs| - 1];
      DecodeAllFailsAtFirstError(dec, init);
      assert forall i :: 0 <= i < |init| ==> init[i] == blobs[i];
    }
  }

  function Always<O>(o: O): bool { true }

  /** When no child fails, the fail-fast decode yields exactly the pairs the
      drop-and-warn decode accepts with no type assertion, so both
      generations hand the handler the same children in that case. */
  lemma {:induction false} DecodeAllIsAccepted<O>(dec: Decoder<O>, blobs: seq<Bytes>)
    requires DecodeAll(dec, blobs).Ok?
    ensures DecodeAll(dec, blobs).value == Accepted(dec, Always, blobs)
    ensures Skipped(dec, Always, blobs) == []
  {
    if blobs != [] {
      DecodeAllIsAccepted(dec, blobs[..|blobs| - 1]);
    }
  }

  // ---- Encoding (both generations: all-or-nothing) ----

  /** `raw` is the element-wise encoding of `objs`: same length, same order. */
  predicate IsEncoding<O>(enc: Encoder<O>, objs: seq<O>, raw: seq<Bytes>)
  {
    |raw| == |objs| && forall i :: 0 <= i < |objs| ==> enc(objs[i]) == Ok(raw[i])
  }

  predicate Encodable<O>(enc: Encoder<O>, objs: seq<O>)
  {
    forall i :: 0 <= i < |objs| ==> enc(objs[i]).Ok?
  }

  predicate AllEncodable<O>(enc: Encoder<O>, children: Buckets<O>)
  {
    forall g :: g in children ==> Encodable(enc, children[g])
  }

  /** `e` is the error of encoding some desired child. */
  ghost predicate ChildFails<O>(enc: Encoder<O>, children: Buckets<O>, e: string)
  {
    exists g, i :: g in children && 0 <= i < |children[g]| && enc(children[g][i]) == Err(e)
  }

  /** No other kind in `ks` shares g's wire key. */
  predicate KeyUnique(g: GVK, ks: set<GVK>)
  {
    forall h :: h in ks && KeyForGVK(h) == KeyForGVK(g) ==> h == g
  }

  /** `wire` is an encoding of the buckets: one key per bucket kind, each
      key's list the encoding of a bucket with that key, and of the bucket's
      own kind when no other kind shares the key. */
  ghost predicate EncodesChildren<O>(enc: Encoder<O>, children: Buckets<O>, wire: map<string, seq<Bytes>>)
  {
    && wire.Keys == (set g | g in children :: KeyForGVK(g))
    && (forall k :: k in wire ==>
          exists g :: g in children && KeyForGVK(g) == k && IsEncoding(enc, children[g], wire[k]))
    && (forall g :: g in children && KeyUnique(g, children.Keys) ==>
          IsEncoding(enc, children[g], wire[KeyForGVK(g)]))
  }

  /** The encode loop: visit the buckets in an arbitrary order (Go map
      iteration), encode each object in bucket order, and give up on the
      first failure. */
  method EncodeChildren<O>(enc: Encoder<O>, children: Buckets<O>) returns (r: Result<map<string, seq<Bytes>>>)
    ensures r.Ok? <==> AllEncodable(enc, children)
    ensures r.Ok? ==> EncodesChildren(enc, children, r.value)
    ensures r.Err? ==> ChildFails(enc, children, r.error)
  {
    var remaining := children.Keys;
    var wire: map<string, seq<Bytes>> := map[];
    ghost var done: set<GVK> := {};
    while remaining != {}
      invariant remaining <= children.Keys && done == children.Keys - remaining
      invariant forall g :: g in done ==> Encodable(enc, children[g])
      invariant wire.Keys == (set g | g in done :: KeyForGVK(g))
      invariant forall k :: k in wire ==>
        exists g :: g in done && KeyForGVK(g) == k && IsEncoding(enc, children[g], wire[k])
      invariant forall g :: g in done && KeyUnique(g, children.Keys) ==>
        IsEncoding(enc, children[g], wire[KeyForGVK(g)])
      decreases remaining
    {
      var g :| g in remaining;
      var objs := children[g];
      var raw: seq<Bytes> := [];
      var j := 0;
      while j < |objs|
        invariant 0 <= j <= |objs|
        invariant IsEncoding(enc, objs[..j], raw)
      {
        var data := enc(objs[j]);
        if data.Err? {
          r := Err(data.error);
          assert !Encodable(enc, children[g]);
          return;
        }
        raw := raw + [data.value];
        j := j + 1;
      }
      assert objs[..j] == objs;
      var key := KeyForGVK(g);
      var next := wire[key := raw];
      forall k | k in next
        ensures exists h :: h in done + {g} && KeyForGVK(h) == k && IsEncoding(enc, children[h], next[k])
      {
        if k != key {
          var h :| h in done && KeyForGVK(h) == k && IsEncoding(enc, children[h], wire[k]);
          assert h in done + {g};
        } else {
          assert g in done + {g};
        }
      }
      wire := next;
      remaining := remaining - {g};
      done := done + {g};
    }
    r := Ok(wire);
  }

  /** With slash-free kinds no two buckets share a key. */
  lemma PlainKeysUnique<O>(children: Buckets<O>, g: GVK)
    requires forall h :: h in children ==> Plain(h)
    requires g in children
    ensures KeyUnique(g, children.Keys)
  {
    forall h | h in children && KeyForGVK(h) == KeyForGVK(g) ensures h == g {
      KeyForGVKInjective(h, g);
    }
  }

  /** The keys of an encoding are the keys of the bucket kinds. */
  lemma EncodedKeys<O>(enc: Encoder<O>, children: Buckets<O>, wire: map<string, seq<Bytes>>)
    requires EncodesChildren(enc, children, wire)
    ensures wire.Keys == (set g | g in children :: KeyForGVK(g))
  {
  }

  /** The keys of a bucket map with two kinds. */
  lemma PairKeys<O>(children: Buckets<O>, keys: set<string>, a: GVK, b: GVK)
    requires children.Keys == {a, b}
    requires keys == (set g | g in children :: KeyForGVK(g))
    ensures keys == {KeyForGVK(a), KeyForGVK(b)}
  {
  }

  /** In a bucket map of two slash-free kinds, each kind has its own key. */
  lemma PairKeysUnique<O>(children: Buckets<O>, a: GVK, b: GVK)
    requires Plain(a) && Plain(b)
    requires children.Keys == {a, b}
    ensures KeyUnique(a, children.Keys) && KeyUnique(b, children.Keys)
  {
    PlainKeysUnique(children, a);
    PlainKeysUnique(children, b);
  }

  /** Two buckets of distinct slash-free kinds, one object each, encode to
      two wire lists of one blob each, under the two kinds' keys. */
  lemma TwoBucketWire<O>(enc: Encoder<O>, children: Buckets<O>, wire: map<string, seq<Bytes>>, a: GVK, b: GVK)
    requires Plain(a) && Plain(b) && a != b
    requires children.Keys == {a, b}
    requires |children[a]| == 1 && |children[b]| == 1
    requires EncodesChildren(enc, children, wire)
    ensures wire.Keys == {KeyForGVK(a), KeyForGVK(b)}
    ensures |wire[KeyForGVK(a)]| == 1 && |wire[KeyForGVK(b)]| == 1
  {
    EncodedKeys(enc, children, wire);
    PairKeys(children, wire.Keys, a, b);
    PairKeysUnique(children, a, b);
  }

  /** For slash-free kinds the encoded map does not depend on the order in
      which the buckets were visited: any two encodings are equal. */
  lemma EncodingIsOrderIndependent<O>(enc: Encoder<O>, children: Buckets<O>, w1: map<string, seq<Bytes>>, w2: map<string, seq<Bytes>>)
    requires forall h :: h in children ==> Plain(h)
    requires EncodesChildren(enc, children, w1) && EncodesChildren(enc, children, w2)
    ensures w1 == w2
  {
    forall k | k in w1 ensures w1[k] == w2[k] {
      var g :| g in children && KeyForGVK(g) == k;
      PlainKeysUnique(children, g);
      EncodingUnique(enc, children[g], w1[k], w2[k]);
    }
  }

  lemma EncodingUnique<O>(enc: Encoder<O>, objs: seq<O>, r1: seq<Bytes>, r2: seq<Bytes>)
    requires IsEncoding(enc, objs, r1) && IsEncoding(enc, objs, r2)
    ensures r1 == r2
  {
    forall i | 0 <= i < |objs| ensures r1[i] == r2[i] {
      assert enc(objs[i]) == Ok(r1[i]);
    }
  }
}
