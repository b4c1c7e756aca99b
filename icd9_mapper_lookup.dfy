/**
 * `ICD9MapperLookup`: memoised translation of ICD-9 diagnosis codes to
 * ICD-10-GM and to SNOMED CT. Keys are normalised with conformIcdString; a
 * miss asks the terminology server (a function of the key here) and stores
 * the answer, storing the marker "NULL" when the server has no match. Among
 * several ICD-10-GM candidates the first ending in "9" is preferred, then the
 * first ending in "8", then the first of the rest.
 */
module ICD9MapperLookup {
  import opened Wrappers
  import opened Text
  import StringManipulator

  /** What the terminology server answers for one key. */
  datatype Reply<T> = NoMatch | Match(value: T)

  /** What a getter hands back: a code, Java null, or an exception that leaves the getter. */
  datatype Answer = Code(code: string) | Null | Failure

  /** A getter's answer together with the cache after the call. */
  datatype Step = Step(answer: Answer, table: map<string, string>)

  /** Stored for a key the server could not translate. */
  const NullMarker: string := "NULL"

  datatype Kind = Nine | Eight | Other

  /** The part of a candidate after the pattern LNN.N or LNN.NN: from index 5 when longer than 5, else from index 4. */
  function Ending(code: string): (e: string)
    requires |code| >= 4
    ensures |e| == (if |code| > 5 then |code| - 5 else |code| - 4)
    ensures e == code[|code| - |e|..]
  {
    if |code| > 5 then code[5..] else code[4..]
  }

  /**
   * The kind of a candidate: its ending is "8", "9", or anything else. A
   * candidate too short to have an ending never gets classified (the loop
   * throws first); it counts as Other here.
   */
  function KindOf(code: string): Kind
  {
    if |code| < 4 then Other
    else
      var e := Ending(code);
      if e == "8" then Eight else if e == "9" then Nine else Other
  }

  /** Every candidate is long enough for its ending to be taken. */
  predicate Classifiable(codes: seq<string>)
  {
    forall i :: 0 <= i < |codes| ==> |codes[i]| >= 4
  }

  /** The candidates of one kind, in list order: what the classifying loop collects. */
  function Bucket(codes: seq<string>, k: Kind): (b: seq<string>)
    ensures |b| <= |codes|
  {
    if codes == [] then []
    else
      var last := codes[|codes| - 1];
      Bucket(codes[..|codes| - 1], k) + (if KindOf(last) == k then [last] else [])
  }

  /** The first candidate of a kind, scanning from the front. */
  function FirstOfKind(codes: seq<string>, k: Kind): (r: Option<string>)
  {
    if codes == [] then None
    else if KindOf(codes[0]) == k then Some(codes[0])
    else FirstOfKind(codes[1..], k)
  }

  /** The selection rule: first nine-ending, else first eight-ending, else the first candidate. */
  function Preferred(codes: seq<string>): (r: Option<string>)
  {
    var nine := FirstOfKind(codes, Nine);
    var eight := FirstOfKind(codes, Eight);
    if nine.Some? then nine
    else if eight.Some? then eight
    else if codes != [] then Some(codes[0])
    else None
  }

  lemma {:induction false} FirstOfKindMember(codes: seq<string>, k: Kind)
    ensures FirstOfKind(codes, k).Some? <==> exists i :: 0 <= i < |codes| && KindOf(codes[i]) == k
    ensures FirstOfKind(codes, k).Some? ==> FirstOfKind(codes, k).value in codes && KindOf(FirstOfKind(codes, k).value) == k
  {
    if codes != [] {
      var rest := codes[1..];
      assert codes == [codes[0]] + rest;
      FirstOfKindMember(rest, k);
      if KindOf(codes[0]) != k {
        assert FirstOfKind(codes, k) == FirstOfKind(rest, k);
        if exists i :: 0 <= i < |codes| && KindOf(codes[i]) == k {
          var i :| 0 <= i < |codes| && KindOf(codes[i]) == k;
          assert rest[i - 1] == codes[i];
        }
        if exists j :: 0 <= j < |rest| && KindOf(rest[j]) == k {
          var j :| 0 <= j < |rest| && KindOf(rest[j]) == k;
          assert codes[j + 1] == rest[j];
        }
      }
    }
  }

  lemma {:induction false} FirstOfKindAppend(codes: seq<string>, x: string, k: Kind)
    ensures FirstOfKind(codes + [x], k) ==
      if FirstOfKind(codes, k).Some? then FirstOfKind(codes, k)
      else if KindOf(x) == k then Some(x) else None
  {
    if codes != [] {
      assert (codes + [x])[1..] == codes[1..] + [x];
      FirstOfKindAppend(codes[1..], x, k);
    }
  }

  /** The loop's bucket starts with the first candidate of its kind. */
  lemma {:induction false} BucketHead(codes: seq<string>, k: Kind)
    ensures Bucket(codes, k) == [] <==> FirstOfKind(codes, k).None?
    ensures Bucket(codes, k) != [] ==> Bucket(codes, k)[0] == FirstOfKind(codes, k).value
  {
    if codes != [] {
      var init, last := codes[..|codes| - 1], codes[|codes| - 1];
      assert init + [last] == codes;
      BucketHead(init, k);
      FirstOfKindAppend(init, last, k);
    }
  }

  /** When every candidate ends in something other than 9 or 8, the third bucket is the whole list. */
  lemma {:induction false} OtherBucketIsAll(codes: seq<string>)
    requires forall i :: 0 <= i < |codes| ==> KindOf(codes[i]) == Other
    ensures Bucket(codes, Other) == codes
  {
    if codes != [] {
      var init, last := codes[..|codes| - 1], codes[|codes| - 1];
      assert forall i :: 0 <= i < |init| ==> KindOf(init[i]) == Other by {
        forall i | 0 <= i < |init|
          ensures KindOf(init[i]) == Other
        {
          assert init[i] == codes[i];
        }
      }
      OtherBucketIsAll(init);
      assert init + [last] == codes;
    }
  }

  lemma NoNineNoEight(codes: seq<string>)
    requires FirstOfKind(codes, Nine).None? && FirstOfKind(codes, Eight).None?
    ensures forall i :: 0 <= i < |codes| ==> KindOf(codes[i]) == Other
  {
    FirstOfKindMember(codes, Nine);
    FirstOfKindMember(codes, Eight);
  }

  /** The chosen code is one of the candidates; there is one exactly when the list is non-empty. */
  lemma PreferredIsCandidate(codes: seq<string>)
    ensures Preferred(codes).Some? <==> codes != []
    ensures Preferred(codes).Some? ==> Preferred(codes).value in codes
  {
    FirstOfKindMember(codes, Nine);
    FirstOfKindMember(codes, Eight);
  }

  /** An optional code that is present and of the given kind. */
  predicate IsOfKind(o: Option<string>, k: Kind)
  {
    o.Some? && |o.value| >= 4 && KindOf(o.value) == k
  }

  /** A candidate ending in 9 always wins; an 8-ending wins when there is no 9-ending. */
  lemma PreferenceOrder(codes: seq<string>, i: int)
    requires 0 <= i < |codes|
    ensures KindOf(codes[i]) == Nine ==> IsOfKind(Preferred(codes), Nine)
    ensures KindOf(codes[i]) == Eight ==> !IsOfKind(Preferred(codes), Other)
  {
    FirstOfKindMember(codes, Nine);
    FirstOfKindMember(codes, Eight);
  }

  /** One more candidate: it joins the bucket of its kind and the prefix stays classifiable. */
  lemma BucketStep(codes: seq<string>, i: int)
    requires 0 <= i < |codes| && Classifiable(codes[..i]) && |codes[i]| >= 4
    ensures Classifiable(codes[..i + 1])
    ensures forall k :: Bucket(codes[..i + 1], k) == Bucket(codes[..i], k) + (if KindOf(codes[i]) == k then [codes[i]] else [])
  {
    assert codes[..i + 1][..i] == codes[..i];
  }

  /** The for-loop over the candidates: three buckets, or an exception at the first candidate shorter than 4. */
  method Classify(codes: seq<string>) returns (nine: seq<string>, eight: seq<string>, other: seq<string>, ok: bool)
    ensures ok <==> Classifiable(codes)
    ensures ok ==> nine == Bucket(codes, Nine) && eight == Bucket(codes, Eight) && other == Bucket(codes, Other)
  {
    nine, eight, other := [], [], [];
    var i := 0;
    while i < |codes|
      invariant 0 <= i <= |codes|
      invariant Classifiable(codes[..i])
      invariant nine == Bucket(codes[..i], Nine)
      invariant eight == Bucket(codes[..i], Eight)
      invariant other == Bucket(codes[..i], Other)
    {
      var code := codes[i];
      if |code| < 4 {
        ok := false;
        return;
      }
      BucketStep(codes, i);
      var e := Ending(code);
      if e == "8" {
        eight := eight + [code];
      } else if e == "9" {
        nine := nine + [code];
      } else {
        other := other + [code];
      }
      i := i + 1;
    }
    assert codes[..i] == codes;
    ok := true;
  }

  /** The cached answer for a stored value: the marker reads as null. */
  function Cached(stored: string): (a: Answer)
    ensures a.Null? <==> stored == NullMarker
    ensures a.Code? ==> a.code == stored
  {
    if stored == NullMarker then Null else Code(stored)
  }

  /** `getICD10GMCode` on a given cache: what it returns and what the cache holds afterwards. */
  function GetICD10GM(table: map<string, string>, translate: string -> Reply<seq<string>>, icd9code: string): (s: Step)
  {
    var key := StringManipulator.ConformIcdString(icd9code);
    if key in table then Step(Cached(table[key]), table)
    else match translate(key)
      case NoMatch => Step(Null, table[key := NullMarker])
      case Match(codes) =>
        if Classifiable(codes) && codes != [] then
          PreferredIsCandidate(codes);
          Step(Code(Preferred(codes).value), table[key := Preferred(codes).value])
        else Step(Failure, table)
  }

  /** `getSNOMEDCode` on a given cache. A found-but-null code cannot be stored in the concurrent map, so it fails. */
  function GetSNOMED(table: map<string, string>, translate: string -> Reply<Option<string>>, icd9code: string): (s: Step)
  {
    var key := StringManipulator.ConformIcdString(icd9code);
    if key in table then Step(Cached(table[key]), table)
    else match translate(key)
      case NoMatch => Step(Null, table[key := NullMarker])
      case Match(None) => Step(Failure, table)
      case Match(Some(c)) => Step(Code(c), table[key := c])
  }

  /** What a getter may do to the cache: nothing, or store one value under the normalised key, never on failure. */
  predicate StoresAtMostKey(table: map<string, string>, icd9code: string, s: Step)
  {
    var key := StringManipulator.ConformIcdString(icd9code);
    (key in table ==> s.table == table)
    && (s.answer.Failure? ==> s.table == table)
    && (s.answer.Code? && key !in table ==> s.table == table[key := s.answer.code])
    && (s.answer.Null? && key !in table ==> s.table == table[key := NullMarker])
  }

  lemma ICD10GMStoresAtMostKey(table: map<string, string>, translate: string -> Reply<seq<string>>, icd9code: string)
    ensures StoresAtMostKey(table, icd9code, GetICD10GM(table, translate, icd9code))
  {
  }

  lemma SNOMEDStoresAtMostKey(table: map<string, string>, translate: string -> Reply<Option<string>>, icd9code: string)
    ensures StoresAtMostKey(table, icd9code, GetSNOMED(table, translate, icd9code))
  {
  }

  /** A code computed on a miss is the preferred candidate of the server's list. */
  lemma ICD10GMChoosesCandidate(table: map<string, string>, translate: string -> Reply<seq<string>>, icd9code: string)
    requires StringManipulator.ConformIcdString(icd9code) !in table
    requires GetICD10GM(table, translate, icd9code).answer.Code?
    ensures var key := StringManipulator.ConformIcdString(icd9code);
      translate(key).Match? && Classifiable(translate(key).value) &&
      GetICD10GM(table, translate, icd9code).answer.code in translate(key).value &&
      Some(GetICD10GM(table, translate, icd9code).answer.code) == Preferred(translate(key).value)
  {
    var key := StringManipulator.ConformIcdString(icd9code);
    PreferredIsCandidate(translate(key).value);
  }

  /**
   * Memoisation: after a call that did not fail, the same call on the new cache
   * returns the same answer and changes nothing, whatever the server would say now.
   * The one exception is a candidate spelled like the marker itself.
   */
  lemma ICD10GMRepeats(table: map<string, string>, translate: string -> Reply<seq<string>>,
                       later: string -> Reply<seq<string>>, icd9code: string)
    requires GetICD10GM(table, translate, icd9code).answer != Failure
    requires GetICD10GM(table, translate, icd9code).answer != Code(NullMarker)
    ensures var s := GetICD10GM(table, translate, icd9code);
      GetICD10GM(s.table, later, icd9code) == s
  {
  }

  lemma SNOMEDRepeats(table: map<string, string>, translate: string -> Reply<Option<string>>,
                      later: string -> Reply<Option<string>>, icd9code: string)
    requires GetSNOMED(table, translate, icd9code).answer != Failure
    requires GetSNOMED(table, translate, icd9code).answer != Code(NullMarker)
    ensures var s := GetSNOMED(table, translate, icd9code);
      GetSNOMED(s.table, later, icd9code) == s
  {
  }

  /** Codes that differ only in whitespace share one cache entry and one answer. */
  lemma KeyIgnoresSpaces(table: map<string, string>, translate: string -> Reply<seq<string>>,
                         snomed: string -> Reply<Option<string>>, a: string, b: string)
    requires StripSpaces(a) == StripSpaces(b)
    ensures GetICD10GM(table, translate, a) == GetICD10GM(table, translate, b)
    ensures GetSNOMED(table, snomed, a) == GetSNOMED(table, snomed, b)
  {
    StringManipulator.ConformInjective(a, b);
  }

  /** An empty candidate list, or a candidate shorter than 4, makes the getter fail and stores nothing. */
  lemma ICD10GMFailure(table: map<string, string>, translate: string -> Reply<seq<string>>, icd9code: string)
    requires StringManipulator.ConformIcdString(icd9code) !in table
    requires translate(StringManipulator.ConformIcdString(icd9code)).Match?
    ensures var codes := translate(StringManipulator.ConformIcdString(icd9code)).value;
      GetICD10GM(table, translate, icd9code).answer.Failure? <==> codes == [] || !Classifiable(codes)
  {
  }

  class Mapper {
    var snomedLookupTable: map<string, string>
    var icd10gmLookupTable: map<string, string>
    const translateIcd10gm: string -> Reply<seq<string>>
    const translateSnomed: string -> Reply<Option<string>>

    constructor(translateIcd10gm: string -> Reply<seq<string>>, translateSnomed: string -> Reply<Option<string>>)
      ensures snomedLookupTable == map[] && icd10gmLookupTable == map[]
      ensures this.translateIcd10gm == translateIcd10gm && this.translateSnomed == translateSnomed
    {
      snomedLookupTable := map[];
      icd10gmLookupTable := map[];
      this.translateIcd10gm := translateIcd10gm;
      this.translateSnomed := translateSnomed;
    }

    method GetICD10GMCode(icd9code: string) returns (r: Answer)
      modifies this`icd10gmLookupTable
      ensures Step(r, icd10gmLookupTable) == GetICD10GM(old(icd10gmLookupTable), translateIcd10gm, icd9code)
    {
      var formalIcd9code := StringManipulator.ConformIcdString(icd9code);
      if formalIcd9code in icd10gmLookupTable {
        var cacheCode := icd10gmLookupTable[formalIcd9code];
        r := if cacheCode == NullMarker then Null else Code(cacheCode);
        return;
      }
      var reply := translateIcd10gm(formalIcd9code);
      if reply.NoMatch? {
        icd10gmLookupTable := icd10gmLookupTable[formalIcd9code := NullMarker];
        r := Null;
        return;
      }
      var codes := reply.value;
      var nine, eight, other, ok := Classify(codes);
      if !ok {
        r := Failure;
        return;
      }
      BucketHead(codes, Nine);
      BucketHead(codes, Eight);
      if nine != [] {
        icd10gmLookupTable := icd10gmLookupTable[formalIcd9code := nine[0]];
        r := Code(nine[0]);
      } else if eight != [] {
        icd10gmLookupTable := icd10gmLookupTable[formalIcd9code := eight[0]];
        r := Code(eight[0]);
      } else {
        NoNineNoEight(codes);
        OtherBucketIsAll(codes);
        if other == [] {
          r := Failure;
        } else {
          icd10gmLookupTable := icd10gmLookupTable[formalIcd9code := other[0]];
          r := Code(other[0]);
        }
      }
    }

    method GetSNOMEDCode(icd9code: string) returns (r: Answer)
      modifies this`snomedLookupTable
      ensures Step(r, snomedLookupTable) == GetSNOMED(old(snomedLookupTable), translateSnomed, icd9code)
    {
      var formalIcd9code := StringManipulator.ConformIcdString(icd9code);
      if formalIcd9code in snomedLookupTable {
        var cacheCode := snomedLookupTable[formalIcd9code];
        r := if cacheCode == NullMarker then Null else Code(cacheCode);
        return;
      }
      var reply := translateSnomed(formalIcd9code);
      match reply
      case NoMatch =>
        snomedLookupTable := snomedLookupTable[formalIcd9code := NullMarker];
        r := Null;
      case Match(None) =>
        r := Failure;
      case Match(Some(code)) =>
        snomedLookupTable := snomedLookupTable[formalIcd9code := code];
        r := Code(code);
    }
  }
}
