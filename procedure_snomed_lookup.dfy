/**
 * `ProcedureSNOMEDLookup`: memoised translation of ICD-9 and ICD-10 procedure
 * codes to lists of SNOMED CT codes. Each getter normalises its key, answers
 * from its own map on a hit, and on a miss stores whatever the server
 * returned, the empty list included.
 */
module ProcedureSNOMEDLookup {
  import opened Wrappers
  import opened Text
  import MemoCache

  /**
   * The ICD-9 key: the trimmed code with "." inserted after its second
   * character. None stands for the exception `substring(0, 2)` raises on a
   * trimmed code shorter than two characters.
   */
  function Icd9Key(icd9code: string): (k: Option<string>)
    ensures k.None? <==> |Trim(icd9code)| < 2
    ensures k.Some? ==> |k.value| == |Trim(icd9code)| + 1 && k.value[2] == '.'
  {
    var t := Trim(icd9code);
    if |t| < 2 then None else Some(t[..2] + "." + t[2..])
  }

  /** Deleting the dot recovers the trimmed code. */
  lemma Icd9KeyRoundTrip(icd9code: string)
    requires Icd9Key(icd9code).Some?
    ensures var k := Icd9Key(icd9code).value; k[..2] + k[3..] == Trim(icd9code)
  {
    var t := Trim(icd9code);
    var k := Icd9Key(icd9code).value;
    assert k[..2] == t[..2] && k[3..] == t[2..];
    assert t[..2] + t[2..] == t;
  }

  /** Two codes share an ICD-9 cache entry exactly when they agree after trimming. */
  lemma Icd9KeyInjective(a: string, b: string)
    requires Icd9Key(a).Some? && Icd9Key(b).Some?
    ensures Icd9Key(a) == Icd9Key(b) <==> Trim(a) == Trim(b)
  {
    if Icd9Key(a) == Icd9Key(b) {
      Icd9KeyRoundTrip(a);
      Icd9KeyRoundTrip(b);
    }
  }

  /**
   * Memoisation across spellings: after a lookup of `a`, a lookup of any `b`
   * with the same trimmed form answers the same list from the map, however the
   * server would answer now, an empty list included.
   */
  lemma Icd9SameKeySameList(table: map<string, seq<string>>, fetch: string -> seq<string>,
                            later: string -> seq<string>, a: string, b: string)
    requires Icd9Key(a).Some? && Trim(a) == Trim(b)
    ensures var first := MemoCache.Lookup(table, fetch, Icd9Key(a).value);
      Icd9Key(b).Some? && MemoCache.Lookup(first.table, later, Icd9Key(b).value) == first
  {
    Icd9KeyInjective(a, b);
    MemoCache.LookupRepeats(table, fetch, later, Icd9Key(a).value);
  }

  /** The ICD-10 key is the trimmed code; the same holds for it. */
  lemma Icd10SameKeySameList(table: map<string, seq<string>>, fetch: string -> seq<string>,
                             later: string -> seq<string>, a: string, b: string)
    requires Trim(a) == Trim(b)
    ensures var first := MemoCache.Lookup(table, fetch, Trim(a));
      MemoCache.Lookup(first.table, later, Trim(b)) == first
  {
    MemoCache.LookupRepeats(table, fetch, later, Trim(a));
  }

  class Lookup {
    var icd9SnomedLookupTable: map<string, seq<string>>
    var icd10SnomedLookupTable: map<string, seq<string>>
    /** The server's answer for an ICD-9 procedure key and for an ICD-10-PCS key. */
    const findIcd9: string -> seq<string>
    const findIcd10: string -> seq<string>

    constructor(findIcd9: string -> seq<string>, findIcd10: string -> seq<string>)
      ensures icd9SnomedLookupTable == map[] && icd10SnomedLookupTable == map[]
      ensures this.findIcd9 == findIcd9 && this.findIcd10 == findIcd10
    {
      icd9SnomedLookupTable := map[];
      icd10SnomedLookupTable := map[];
      this.findIcd9 := findIcd9;
      this.findIcd10 := findIcd10;
    }

    /** None is the exception on a code shorter than two characters; the map is then untouched. */
    method GetSnomedForIcd9(icd9code: string) returns (r: Option<seq<string>>)
      modifies this`icd9SnomedLookupTable
      ensures Icd9Key(icd9code).None? ==> r.None? && icd9SnomedLookupTable == old(icd9SnomedLookupTable)
      ensures Icd9Key(icd9code).Some? ==>
        var o := MemoCache.Lookup(old(icd9SnomedLookupTable), findIcd9, Icd9Key(icd9code).value);
        r == Some(o.value) && icd9SnomedLookupTable == o.table
      ensures icd10SnomedLookupTable == old(icd10SnomedLookupTable)
    {
      var code := Trim(icd9code);
      if |code| < 2 {
        return None;
      }
      code := code[..2] + "." + code[2..];
      if code in icd9SnomedLookupTable {
        return Some(icd9SnomedLookupTable[code]);
      }
      var snomedCodes := findIcd9(code);
      icd9SnomedLookupTable := icd9SnomedLookupTable[code := snomedCodes];
      r := Some(snomedCodes);
    }

    method GetSnomedForIcd10(icd10code: string) returns (r: seq<string>)
      modifies this`icd10SnomedLookupTable
      ensures var o := MemoCache.Lookup(old(icd10SnomedLookupTable), findIcd10, Trim(icd10code));
        r == o.value && icd10SnomedLookupTable == o.table
      ensures icd9SnomedLookupTable == old(icd9SnomedLookupTable)
    {
      var code := Trim(icd10code);
      if code in icd10SnomedLookupTable {
        return icd10SnomedLookupTable[code];
      }
      var snomedCodes := findIcd10(code);
      icd10SnomedLookupTable := icd10SnomedLookupTable[code := snomedCodes];
      r := snomedCodes;
    }
  }
}
