/**
 The length-prefixed texts that are hashed (core/packages/core/src/nativeOrdinaryAuthorityProtocol.ts,
 core/packages/core/src/nativeOrdinaryEvent.ts). A field is the UTF-8 form of its string.
 */
module DigestPreimages {
  import opened Wrappers
  import opened ByteStrings
  import opened Texts

  const COLON: Byte := 0x3A

  // ---- decimal numbers ----

  function DecimalBytes(n: nat): (s: Bytes)
    ensures |s| == |Digits(n)| && forall i :: 0 <= i < |s| ==> 0x30 <= s[i] <= 0x39
  {
    var digits := Digits(n);
    seq(|digits|, i requires 0 <= i < |digits| => (0x30 + digits[i] as int) as Byte)
  }

  /** The number a byte string writes; negative when it is not one. */
  function Number(s: Bytes): int {
    if forall i :: 0 <= i < |s| ==> 0x30 <= s[i] <= 0x39
    then Value(seq(|s|, i requires 0 <= i < |s| => (s[i] as int - 0x30) as Digit)) else -1
  }

  lemma NumberOfDecimal(n: nat)
    ensures Number(DecimalBytes(n)) == n
  {
    var s := DecimalBytes(n);
    assert seq(|s|, i requires 0 <= i < |s| => (s[i] as int - 0x30) as Digit) == Digits(n);
    ValueOfDigits(n);
  }

  // ---- framed fields ----

  function Framed(field: Bytes): Bytes { DecimalBytes(|field|) + [COLON] + field }

  function Frame(fields: seq<Bytes>): Bytes {
    if fields == [] then [] else Framed(fields[0]) + Frame(fields[1..])
  }

  /** Reads framed fields back: the number before the next colon says how long the field is. */
  function Unframe(s: Bytes): Option<seq<Bytes>>
    decreases |s|
  {
    if s == [] then Some([]) else
    var colon := Find(s, COLON);
    if colon == |s| then None else
    var n := Number(s[..colon]);
    if n < 0 || colon + 1 + n > |s| then None else
    var rest := Unframe(s[colon + 1 + n..]);
    if rest.None? then None else Some([s[colon + 1..colon + 1 + n]] + rest.value)
  }

  lemma UnframeFirst(field: Bytes, rest: Bytes)
    ensures Unframe(Framed(field) + rest) == if Unframe(rest).None? then None else Some([field] + Unframe(rest).value)
  {
    var s := Framed(field) + rest;
    var d := DecimalBytes(|field|);
    assert s[..|d|] == d && s[|d|] == COLON;
    FindIs(s, COLON, |d|);
    NumberOfDecimal(|field|);
    assert s[|d| + 1..|d| + 1 + |field|] == field;
    assert s[|d| + 1 + |field|..] == rest;
  }

  lemma {:induction false} UnframeOfFrame(fields: seq<Bytes>)
    ensures Unframe(Frame(fields)) == Some(fields)
  {
    if fields != [] {
      UnframeFirst(fields[0], Frame(fields[1..]));
      UnframeOfFrame(fields[1..]);
      assert [fields[0]] + fields[1..] == fields;
    }
  }

  /** No two lists of fields, of whatever lengths, share a framing. */
  lemma FrameInjective(tag: Bytes, a: seq<Bytes>, b: seq<Bytes>)
    ensures tag + Frame(a) == tag + Frame(b) <==> a == b
  {
    if tag + Frame(a) == tag + Frame(b) {
      assert Frame(a) == (tag + Frame(a))[|tag|..] == Frame(b);
      UnframeOfFrame(a);
      UnframeOfFrame(b);
    }
  }

  lemma {:induction false} FrameAppend(a: seq<Bytes>, b: seq<Bytes>)
    ensures Frame(a + b) == Frame(a) + Frame(b)
    decreases |a|
  {
    if a == [] {
      assert a + b == b;
    } else {
      assert (a + b)[1..] == a[1..] + b;
      FrameAppend(a[1..], b);
    }
  }

  /** The bytes fed to one hash. */
  class Hash {
    var fed: Bytes

    constructor ()
      ensures fed == []
    {
      fed := [];
    }

    method Update(bytes: Bytes)
      modifies this
      ensures fed == old(fed) + bytes
    {
      fed := fed + bytes;
    }

    /** The loop `for (const field of fields) hash.update(...).update(...)`. */
    method UpdateFields(fields: seq<Bytes>)
      modifies this
      ensures fed == old(fed) + Frame(fields)
    {
      assert fields[..0] == [];
      for i := 0 to |fields|
        invariant fed == old(fed) + Frame(fields[..i])
      {
        FrameAppend(fields[..i], [fields[i]]);
        assert Frame([fields[i]]) == Framed(fields[i]) + Frame([]);
        assert fields[..i] + [fields[i]] == fields[..i + 1];
        Update(DecimalBytes(|fields[i]|) + [COLON]);
        Update(fields[i]);
      }
      assert fields[..|fields|] == fields;
    }
  }

  // ---- descriptors and review-job tuples ----

  datatype Bounds = Bounds(cpu: Bytes, memoryBytes: Bytes, pids: Bytes, wallClockSeconds: Bytes, outputBytes: Bytes)

  function BoundsFields(b: Bounds): seq<Bytes> { [b.cpu, b.memoryBytes, b.pids, b.wallClockSeconds, b.outputBytes] }

  datatype Descriptor = Descriptor(
    projectId: Bytes, repositoryId: Bytes, protectedRef: Bytes, expectedProtectedHead: Bytes,
    candidateCommit: Bytes, candidateTree: Bytes, policyRevision: Bytes, requiredReviewRevision: Bytes,
    requiredJobSetRevision: Bytes, admissionGeneration: Bytes, jobName: Bytes, runnerBaseImage: Bytes, bounds: Bounds,
    configObjectId: Bytes, configSha256: Bytes, scriptObjectId: Bytes, scriptSha256: Bytes, scriptPath: Bytes, jobImage: Bytes)

  datatype ReviewJob = ReviewJob(
    projectId: Bytes, repositoryId: Bytes, protectedRef: Bytes, reviewId: Bytes, expectedProtectedHead: Bytes,
    candidateCommit: Bytes, candidateTree: Bytes, policyRevision: Bytes, requiredReviewRevision: Bytes,
    requiredJobSetRevision: Bytes, jobName: Bytes)

  function Latin(s: string): (r: Bytes)
    ensures |r| == |s|
  {
    seq(|s|, i requires 0 <= i < |s| => if s[i] as int < 256 then s[i] as int else 0x3F)
  }

  const EVIDENCE_CLASS: Bytes := Latin("candidate-controlled")
  const ARGV: seq<Bytes> := [Latin("/bin/bash"), Latin("--noprofile"), Latin("--norc"), Latin("/run/dim/job/script")]
  const DESCRIPTOR_TAG: Bytes := Latin("dim-native-ordinary-execution-v1")
  const TUPLE_TAG: Bytes := Latin("dim-native-review-job-tuple-v1")
  const CAPACITY_TAG: Bytes := Latin("dim-native-ordinary-capacities-v2")

  function DescriptorFields(d: Descriptor): seq<Bytes> {
    [d.projectId, d.repositoryId, d.protectedRef, d.expectedProtectedHead,
     d.candidateCommit, d.candidateTree, d.policyRevision, d.requiredReviewRevision,
     d.requiredJobSetRevision, d.admissionGeneration, d.jobName, EVIDENCE_CLASS,
     d.configObjectId, d.configSha256, d.scriptPath, d.scriptObjectId,
     d.scriptSha256] + ARGV + [d.jobImage, d.runnerBaseImage] + BoundsFields(d.bounds)
  }

  function DescriptorPreimage(d: Descriptor): Bytes { DESCRIPTOR_TAG + Frame(DescriptorFields(d)) }

  method NativeDescriptorDigest(d: Descriptor) returns (preimage: Bytes)
    ensures preimage == DescriptorPreimage(d)
  {
    var hash := new Hash();
    hash.Update(DESCRIPTOR_TAG);
    hash.UpdateFields(DescriptorFields(d));
    return hash.fed;
  }

  function TupleFields(e: ReviewJob): seq<Bytes> {
    [e.projectId, e.repositoryId, e.protectedRef, e.reviewId, e.expectedProtectedHead, e.candidateCommit, e.candidateTree,
     e.policyRevision, e.requiredReviewRevision, e.requiredJobSetRevision, e.jobName, EVIDENCE_CLASS]
  }

  function TuplePreimage(e: ReviewJob): Bytes { TUPLE_TAG + Frame(TupleFields(e)) }

  method NativeReviewJobTupleDigest(e: ReviewJob) returns (preimage: Bytes)
    ensures preimage == TuplePreimage(e)
  {
    var hash := new Hash();
    hash.Update(TUPLE_TAG);
    hash.UpdateFields(TupleFields(e));
    return hash.fed;
  }

  lemma DescriptorFieldsInjective(a: Descriptor, b: Descriptor)
    requires DescriptorFields(a) == DescriptorFields(b)
    ensures a == b
  {
    var x, y := DescriptorFields(a), DescriptorFields(b);
    assert |ARGV| == 4;
    assert forall i | 0 <= i < |x| :: x[i] == y[i];
    assert x[0] == a.projectId && x[1] == a.repositoryId && x[2] == a.protectedRef && x[3] == a.expectedProtectedHead;
    assert x[4] == a.candidateCommit && x[5] == a.candidateTree && x[6] == a.policyRevision;
    assert x[7] == a.requiredReviewRevision;
    assert x[8] == a.requiredJobSetRevision && x[9] == a.admissionGeneration && x[10] == a.jobName;
    assert x[12] == a.configObjectId && x[13] == a.configSha256 && x[14] == a.scriptPath &&
      x[15] == a.scriptObjectId && x[16] == a.scriptSha256;
    assert x[21] == a.jobImage && x[22] == a.runnerBaseImage;
    assert x[23..] == BoundsFields(a.bounds) && y[23..] == BoundsFields(b.bounds);
    BoundsInjective(a.bounds, b.bounds);
  }

  lemma BoundsInjective(a: Bounds, b: Bounds)
    requires BoundsFields(a) == BoundsFields(b)
    ensures a == b
  {
    var x := BoundsFields(a);
    assert x[0] == a.cpu && x[1] == a.memoryBytes && x[2] == a.pids && x[3] == a.wallClockSeconds;
    assert x[4] == a.outputBytes;
  }

  lemma TupleFieldsInjective(a: ReviewJob, b: ReviewJob)
    requires TupleFields(a) == TupleFields(b)
    ensures a == b
  {
    var x := TupleFields(a);
    assert x[0] == a.projectId && x[1] == a.repositoryId && x[2] == a.protectedRef && x[3] == a.reviewId;
    assert x[4] == a.expectedProtectedHead;
    assert x[5] == a.candidateCommit && x[6] == a.candidateTree && x[7] == a.policyRevision;
    assert x[8] == a.requiredReviewRevision;
    assert x[9] == a.requiredJobSetRevision && x[10] == a.jobName;
  }

  /** Equal preimages come from equal descriptors. */
  lemma DescriptorPreimageInjective(a: Descriptor, b: Descriptor)
    ensures DescriptorPreimage(a) == DescriptorPreimage(b) <==> a == b
  {
    hide DescriptorFields;
    FrameInjective(DESCRIPTOR_TAG, DescriptorFields(a), DescriptorFields(b));
    if DescriptorFields(a) == DescriptorFields(b) { DescriptorFieldsInjective(a, b); }
  }

  /** Equal preimages come from equal review-job tuples. */
  lemma TuplePreimageInjective(a: ReviewJob, b: ReviewJob)
    ensures TuplePreimage(a) == TuplePreimage(b) <==> a == b
  {
    hide TupleFields;
    FrameInjective(TUPLE_TAG, TupleFields(a), TupleFields(b));
    if TupleFields(a) == TupleFields(b) { TupleFieldsInjective(a, b); }
  }

  // ---- capacities ----

  datatype Capacity = Capacity(hostId: Bytes, capacity: Bytes, runnerBaseImage: Bytes, jobBaseImage: Bytes, bounds: Bounds)

  function Key(c: Capacity): Bytes { c.hostId + [0] + c.capacity }

  predicate Less(a: Bytes, b: Bytes) {
    b != [] && (a == [] || a[0] < b[0] || (a[0] == b[0] && Less(a[1..], b[1..])))
  }

  /** A stable sort by key. */
  function Insert(c: Capacity, s: seq<Capacity>): seq<Capacity> {
    if s == [] || !Less(Key(s[0]), Key(c)) then [c] + s else [s[0]] + Insert(c, s[1..])
  }

  function Sort(s: seq<Capacity>): seq<Capacity> { if s == [] then [] else Insert(s[0], Sort(s[1..])) }

  function CapacityFields(c: Capacity): seq<Bytes> {
    [c.hostId, c.capacity, c.runnerBaseImage, c.jobBaseImage] + BoundsFields(c.bounds)
  }

  function AllFields(s: seq<Capacity>): seq<Bytes> { if s == [] then [] else CapacityFields(s[0]) + AllFields(s[1..]) }

  function CapacityPreimage(s: seq<Capacity>): Bytes { CAPACITY_TAG + Frame(AllFields(Sort(s))) }

  method NativeCapacityConfigDigest(capacities: seq<Capacity>) returns (preimage: Bytes)
    ensures preimage == CapacityPreimage(capacities)
  {
    var ordered := Sort(capacities);
    var hash := new Hash();
    hash.Update(CAPACITY_TAG);
    assert ordered[..0] == [];
    for i := 0 to |ordered|
      invariant hash.fed == CAPACITY_TAG + Frame(AllFields(ordered[..i]))
    {
      hash.UpdateFields(CapacityFields(ordered[i]));
      AllFieldsAppend(ordered[..i], ordered[i]);
      FrameAppend(AllFields(ordered[..i]), CapacityFields(ordered[i]));
      assert ordered[..i] + [ordered[i]] == ordered[..i + 1];
    }
    assert ordered[..|ordered|] == ordered;
    return hash.fed;
  }

  lemma {:induction false} AllFieldsAppend(s: seq<Capacity>, c: Capacity)
    ensures AllFields(s + [c]) == AllFields(s) + CapacityFields(c)
    decreases |s|
  {
    if s == [] {
      assert s + [c] == [c] && [c][1..] == [];
    } else {
      assert (s + [c])[1..] == s[1..] + [c];
      AllFieldsAppend(s[1..], c);
    }
  }

  lemma CapacityFieldsInjective(a: Capacity, b: Capacity)
    requires CapacityFields(a) == CapacityFields(b)
    ensures a == b
  {
    var x, y := CapacityFields(a), CapacityFields(b);
    assert x[0] == a.hostId && x[1] == a.capacity && x[2] == a.runnerBaseImage && x[3] == a.jobBaseImage;
    assert x[4..] == BoundsFields(a.bounds) && y[4..] == BoundsFields(b.bounds);
    BoundsInjective(a.bounds, b.bounds);
  }

  lemma {:induction false} AllFieldsInjective(a: seq<Capacity>, b: seq<Capacity>)
    requires AllFields(a) == AllFields(b)
    ensures a == b
    decreases |a|
  {
    hide CapacityFields;
    NineFields();
    if a != [] && b != [] {
      assert AllFields(a)[..9] == CapacityFields(a[0]) && AllFields(b)[..9] == CapacityFields(b[0]);
      assert AllFields(a)[9..] == AllFields(a[1..]) && AllFields(b)[9..] == AllFields(b[1..]);
      CapacityFieldsInjective(a[0], b[0]);
      AllFieldsInjective(a[1..], b[1..]);
      assert a == [a[0]] + a[1..] && b == [b[0]] + b[1..];
    }
  }

  lemma NineFields()
    ensures forall c :: |CapacityFields(c)| == 9
  {
  }

  lemma {:induction false} InsertIsPermutation(c: Capacity, s: seq<Capacity>)
    ensures multiset(Insert(c, s)) == multiset(s) + multiset{c}
    decreases |s|
  {
    if s != [] && Less(Key(s[0]), Key(c)) {
      InsertIsPermutation(c, s[1..]);
      assert s == [s[0]] + s[1..];
    }
  }

  lemma {:induction false} SortIsPermutation(s: seq<Capacity>)
    ensures multiset(Sort(s)) == multiset(s)
    decreases |s|
  {
    if s != [] {
      SortIsPermutation(s[1..]);
      InsertIsPermutation(s[0], Sort(s[1..]));
      assert s == [s[0]] + s[1..];
    }
  }

  lemma {:induction false} LessIsTotal(a: Bytes, b: Bytes)
    ensures a == b || Less(a, b) || Less(b, a)
    ensures !(Less(a, b) && Less(b, a)) && !Less(a, a)
    decreases |a|
  {
    if a != [] { LessIsIrreflexive(a); }
    if a != [] && b != [] && a[0] == b[0] {
      LessIsTotal(a[1..], b[1..]);
      assert a == [a[0]] + a[1..] && b == [b[0]] + b[1..];
    }
  }

  lemma {:induction false} LessIsIrreflexive(a: Bytes)
    ensures !Less(a, a)
    decreases |a|
  {
    if a != [] { LessIsIrreflexive(a[1..]); }
  }

  lemma {:induction false} LessIsTransitive(a: Bytes, b: Bytes, c: Bytes)
    requires !Less(b, a) && !Less(c, b)
    ensures !Less(c, a)
    decreases |a|
  {
    if a != [] && b != [] && c != [] && a[0] == b[0] == c[0] { LessIsTransitive(a[1..], b[1..], c[1..]); }
  }

  ghost predicate Ordered(s: seq<Capacity>) { forall i, j :: 0 <= i < j < |s| ==> !Less(Key(s[j]), Key(s[i])) }

  lemma {:induction false} InsertKeepsOrder(c: Capacity, s: seq<Capacity>)
    requires Ordered(s)
    ensures Ordered(Insert(c, s))
    decreases |s|
  {
    hide Less, Key;
    if s == [] || !Less(Key(s[0]), Key(c)) {
      forall j | 0 <= j < |s| ensures !Less(Key(s[j]), Key(c)) {
        if j > 0 { LessIsTransitive(Key(c), Key(s[0]), Key(s[j])); }
      }
    } else {
      InsertKeepsOrder(c, s[1..]);
      var rest := Insert(c, s[1..]);
      InsertIsPermutation(c, s[1..]);
      LessIsTotal(Key(s[0]), Key(c));
      forall j | 0 <= j < |rest| ensures !Less(Key(rest[j]), Key(s[0])) {
        assert rest[j] in multiset(rest);
        if rest[j] != c { assert rest[j] in s[1..]; }
      }
      assert forall i, j | 0 <= i < j < |[s[0]] + rest| :: !Less(Key(([s[0]] + rest)[j]), Key(([s[0]] + rest)[i]));
    }
  }

  lemma {:induction false} SortOrders(s: seq<Capacity>)
    ensures Ordered(Sort(s))
    decreases |s|
  {
    if s != [] {
      SortOrders(s[1..]);
      InsertKeepsOrder(s[0], Sort(s[1..]));
    }
  }

  /** Capacities of the same host and slot are the same capacity. */
  ghost predicate KeysAgree(s: seq<Capacity>) {
    forall i, j :: 0 <= i < |s| && 0 <= j < |s| && Key(s[i]) == Key(s[j]) ==> s[i] == s[j]
  }

  lemma {:induction false} OrderIsUnique(a: seq<Capacity>, b: seq<Capacity>)
    requires Ordered(a) && Ordered(b) && multiset(a) == multiset(b) && KeysAgree(a)
    ensures a == b
    decreases |a|
  {
    hide Less, Key, Ordered, KeysAgree;
    if a == [] {
      assert |multiset(b)| == 0;
    } else {
      assert |multiset(a)| == |multiset(b)|;
      HeadIsUnique(a, b);
      TailOf(a);
      TailOf(b);
      OrderIsUnique(a[1..], b[1..]);
      assert a == [a[0]] + a[1..] && b == [b[0]] + b[1..];
    }
  }

  lemma HeadIsUnique(a: seq<Capacity>, b: seq<Capacity>)
    requires Ordered(a) && Ordered(b) && multiset(a) == multiset(b) && KeysAgree(a) && a != [] && b != []
    ensures a[0] == b[0]
  {
    hide Less, Key;
    assert a[0] in multiset(b) && b[0] in multiset(a);
    var i :| 0 <= i < |a| && a[i] == b[0];
    var j :| 0 <= j < |b| && b[j] == a[0];
    LessIsTotal(Key(a[0]), Key(b[0]));
  }

  lemma TailOf(a: seq<Capacity>)
    requires a != []
    ensures multiset(a[1..]) == multiset(a) - multiset{a[0]}
    ensures (Ordered(a) ==> Ordered(a[1..])) && (KeysAgree(a) ==> KeysAgree(a[1..]))
  {
    hide Less, Key;
    assert a == [a[0]] + a[1..];
  }

  /** The capacity preimage stands for the capacities as a multiset: any order gives it, nothing else does. */
  lemma CapacityPreimageIsTheSet(a: seq<Capacity>, b: seq<Capacity>)
    requires KeysAgree(a)
    ensures CapacityPreimage(a) == CapacityPreimage(b) <==> multiset(a) == multiset(b)
  {
    hide Sort, AllFields, Frame;
    SortIsPermutation(a);
    SortIsPermutation(b);
    FrameInjective(CAPACITY_TAG, AllFields(Sort(a)), AllFields(Sort(b)));
    if AllFields(Sort(a)) == AllFields(Sort(b)) { AllFieldsInjective(Sort(a), Sort(b)); }
    if multiset(a) == multiset(b) {
      SortOrders(a);
      SortOrders(b);
      KeysAgreeSorted(a, Sort(a));
      OrderIsUnique(Sort(a), Sort(b));
    }
  }

  lemma KeysAgreeSorted(a: seq<Capacity>, b: seq<Capacity>)
    requires KeysAgree(a) && multiset(a) == multiset(b)
    ensures KeysAgree(b)
  {
    hide Key;
    forall i, j | 0 <= i < |b| && 0 <= j < |b| && Key(b[i]) == Key(b[j]) ensures b[i] == b[j] {
      assert b[i] in multiset(a) && b[j] in multiset(a);
    }
  }

  /** Two different capacities under one key are hashed in the order they are given. */
  lemma ClashingKeysKeepTheirOrder(a: Capacity, b: Capacity)
    requires a != b && Key(a) == Key(b)
    ensures CapacityPreimage([a, b]) != CapacityPreimage([b, a])
  {
    hide Frame, AllFields;
    LessIsIrreflexive(Key(a));
    assert [a, b][1..] == [b] && [b, a][1..] == [a] && [a][1..] == [] && [b][1..] == [];
    assert Sort([b]) == [b] && Sort([a]) == [a];
    assert Sort([a, b]) == [a, b] && Sort([b, a]) == [b, a];
    FrameInjective(CAPACITY_TAG, AllFields([a, b]), AllFields([b, a]));
    if AllFields([a, b]) == AllFields([b, a]) {
      AllFieldsInjective([a, b], [b, a]);
      assert false;
    }
  }
}
