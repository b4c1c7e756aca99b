/**
 * `RxNormLookup`: memoised RxNorm concepts for an NDC or a GSN, and the
 * ingredients of an NDC. A miss stores the fetched list wrapped in an
 * OptionalCacheResult: with data when the list is non-empty, as a no-value
 * marker otherwise. The getters therefore answer either a non-empty list or
 * null, and never fetch a key twice.
 */
module RxNormLookup {
  import opened Wrappers
  import MemoCache

  datatype CacheResultType = Ndc | Gsn | Ingredient

  /** OptionalCacheResult: built without data (hasValue false) or with data (hasValue true). */
  datatype OptionalCacheResult<T> =
    | NoValue(resultType: CacheResultType)
    | WithData(resultType: CacheResultType, data: seq<T>)
  {
    predicate HasValue() { WithData? }
  }

  datatype RxNormConcept = RxNormConcept(cui: string, name: Option<string>)

  datatype IngredientInfo = IngredientInfo(name: string, rxCui: string,
                                           atcCodes: seq<string>, snomedCodes: seq<string>, uniiCodes: seq<string>)

  /** What a miss stores for a fetched list. */
  function Wrap<T>(t: CacheResultType, list: seq<T>): (c: OptionalCacheResult<T>)
    ensures c.resultType == t
    ensures c.HasValue() <==> |list| > 0
    ensures c.HasValue() ==> c.data == list
  {
    if |list| > 0 then WithData(t, list) else NoValue(t)
  }

  /** What a hit returns: `inCache.hasValue ? inCache.getData() : null`. */
  function Unwrap<T>(c: OptionalCacheResult<T>): (r: Option<seq<T>>)
    ensures r.Some? <==> c.HasValue()
    ensures r.Some? ==> r.value == c.data
  {
    if c.HasValue() then Some(c.data) else None
  }

  /** A fresh fetch answers the list itself when it is non-empty, null otherwise. */
  lemma UnwrapWrap<T>(t: CacheResultType, list: seq<T>)
    ensures Unwrap(Wrap(t, list)) == if |list| > 0 then Some(list) else None
  {
  }

  /** No stored entry holds an empty list. */
  ghost predicate NoEmptyData<T>(table: map<string, OptionalCacheResult<T>>)
  {
    forall k :: k in table && table[k].WithData? ==> |table[k].data| > 0
  }

  /** One getter call on a given map: the memoised, wrapped fetch. */
  function Cached<T>(table: map<string, OptionalCacheResult<T>>, fetch: string -> seq<T>,
                     t: CacheResultType, key: string): MemoCache.Outcome<string, OptionalCacheResult<T>>
  {
    MemoCache.Lookup(table, k => Wrap(t, fetch(k)), key)
  }

  /**
   * A getter never answers an empty list, and keeps the map free of empty
   * data; a miss answers the fetched list or null.
   */
  lemma CachedNeverEmpty<T>(table: map<string, OptionalCacheResult<T>>, fetch: string -> seq<T>,
                            t: CacheResultType, key: string)
    requires NoEmptyData(table)
    ensures var o := Cached(table, fetch, t, key);
      NoEmptyData(o.table) && Unwrap(o.value) != Some([]) &&
      (key !in table ==> Unwrap(o.value) == if |fetch(key)| > 0 then Some(fetch(key)) else None)
  {
    var o := Cached(table, fetch, t, key);
    forall k | k in o.table && o.table[k].WithData?
      ensures |o.table[k].data| > 0
    {
      if k != key {
        assert k in table;
      }
    }
  }

  /** A negative answer is remembered: once null, always null, without fetching again. */
  lemma NegativeRemembered<T>(table: map<string, OptionalCacheResult<T>>, fetch: string -> seq<T>,
                              later: string -> seq<T>, t: CacheResultType, key: string)
    requires Unwrap(Cached(table, fetch, t, key).value).None?
    ensures var o := Cached(table, fetch, t, key);
      Cached(o.table, later, t, key) == o && Unwrap(Cached(o.table, later, t, key).value).None?
  {
  }

  /** The ingredients of the concepts, each concept's list appended in concept order. */
  function IngredientsOf(concepts: seq<RxNormConcept>, findIngredients: string -> seq<IngredientInfo>): (r: seq<IngredientInfo>)
  {
    if concepts == [] then []
    else IngredientsOf(concepts[..|concepts| - 1], findIngredients) + findIngredients(concepts[|concepts| - 1].cui)
  }

  /** What a miss of the ingredient map fetches for an NDC: the ingredients of all its concepts. */
  function IngredientFetch(findRxNormForNdc: string -> seq<RxNormConcept>, findIngredients: string -> seq<IngredientInfo>)
    : string -> seq<IngredientInfo>
  {
    n => IngredientsOf(findRxNormForNdc(n), findIngredients)
  }

  /** An ingredient is listed exactly when one of the concepts lists it. */
  lemma {:induction false} IngredientsOfMembers(concepts: seq<RxNormConcept>, findIngredients: string -> seq<IngredientInfo>,
                                                x: IngredientInfo)
    ensures x in IngredientsOf(concepts, findIngredients) <==>
      exists i :: 0 <= i < |concepts| && x in findIngredients(concepts[i].cui)
  {
    if concepts != [] {
      var init := concepts[..|concepts| - 1];
      IngredientsOfMembers(init, findIngredients, x);
      if exists i :: 0 <= i < |init| && x in findIngredients(init[i].cui) {
        var i :| 0 <= i < |init| && x in findIngredients(init[i].cui);
        assert concepts[i] == init[i];
      }
      if exists i :: 0 <= i < |concepts| && x in findIngredients(concepts[i].cui) {
        var i :| 0 <= i < |concepts| && x in findIngredients(concepts[i].cui);
        if i < |init| {
          assert init[i] == concepts[i];
        }
      }
    }
  }

  class Lookup {
    var rdxLookupNdc: map<string, OptionalCacheResult<RxNormConcept>>
    var rdxLookupGsn: map<string, OptionalCacheResult<RxNormConcept>>
    var ingredientLookupNdc: map<string, OptionalCacheResult<IngredientInfo>>
    /** The server's concepts for an NDC and for a GSN, and the ingredients related to a concept id. */
    const findRxNormForNdc: string -> seq<RxNormConcept>
    const findRxNormForGsn: string -> seq<RxNormConcept>
    const findIngredients: string -> seq<IngredientInfo>

    ghost predicate Valid()
      reads this
    {
      NoEmptyData(rdxLookupNdc) && NoEmptyData(rdxLookupGsn) && NoEmptyData(ingredientLookupNdc)
    }

    constructor(findRxNormForNdc: string -> seq<RxNormConcept>, findRxNormForGsn: string -> seq<RxNormConcept>,
                findIngredients: string -> seq<IngredientInfo>)
      ensures Valid()
      ensures rdxLookupNdc == map[] && rdxLookupGsn == map[] && ingredientLookupNdc == map[]
      ensures this.findRxNormForNdc == findRxNormForNdc && this.findRxNormForGsn == findRxNormForGsn
      ensures this.findIngredients == findIngredients
    {
      rdxLookupNdc := map[];
      rdxLookupGsn := map[];
      ingredientLookupNdc := map[];
      this.findRxNormForNdc := findRxNormForNdc;
      this.findRxNormForGsn := findRxNormForGsn;
      this.findIngredients := findIngredients;
    }

    method GetRxNormForNdc(ndc: string) returns (r: Option<seq<RxNormConcept>>)
      requires Valid()
      modifies this`rdxLookupNdc
      ensures Valid()
      ensures var o := Cached(old(rdxLookupNdc), findRxNormForNdc, Ndc, ndc);
        r == Unwrap(o.value) && rdxLookupNdc == o.table
      ensures r != Some([])
    {
      CachedNeverEmpty(rdxLookupNdc, findRxNormForNdc, Ndc, ndc);
      if ndc in rdxLookupNdc {
        var inCache := rdxLookupNdc[ndc];
        return if inCache.HasValue() then Some(inCache.data) else None;
      }
      var rdxNorm := findRxNormForNdc(ndc);
      if |rdxNorm| > 0 {
        rdxLookupNdc := rdxLookupNdc[ndc := WithData(Ndc, rdxNorm)];
      } else {
        rdxLookupNdc := rdxLookupNdc[ndc := NoValue(Ndc)];
        return None;
      }
      r := Some(rdxNorm);
    }

    method GetRxNormForGsn(gsn: string) returns (r: Option<seq<RxNormConcept>>)
      requires Valid()
      modifies this`rdxLookupGsn
      ensures Valid()
      ensures var o := Cached(old(rdxLookupGsn), findRxNormForGsn, Gsn, gsn);
        r == Unwrap(o.value) && rdxLookupGsn == o.table
      ensures r != Some([])
    {
      CachedNeverEmpty(rdxLookupGsn, findRxNormForGsn, Gsn, gsn);
      if gsn in rdxLookupGsn {
        var inCache := rdxLookupGsn[gsn];
        return if inCache.HasValue() then Some(inCache.data) else None;
      }
      var rdxNorm := findRxNormForGsn(gsn);
      if |rdxNorm| > 0 {
        rdxLookupGsn := rdxLookupGsn[gsn := WithData(Gsn, rdxNorm)];
      } else {
        rdxLookupGsn := rdxLookupGsn[gsn := NoValue(Gsn)];
        return None;
      }
      r := Some(rdxNorm);
    }

    /** Asks the server for the NDC's concepts directly, bypassing the concept map, and appends each concept's ingredients. */
    method FindIngredientsForNdc(ndc: string) returns (ingredientsList: seq<IngredientInfo>)
      ensures ingredientsList == IngredientsOf(findRxNormForNdc(ndc), findIngredients)
    {
      var rxNormConcepts := findRxNormForNdc(ndc);
      ingredientsList := [];
      var i := 0;
      while i < |rxNormConcepts|
        invariant 0 <= i <= |rxNormConcepts|
        invariant ingredientsList == IngredientsOf(rxNormConcepts[..i], findIngredients)
      {
        assert rxNormConcepts[..i + 1][..i] == rxNormConcepts[..i];
        ingredientsList := ingredientsList + findIngredients(rxNormConcepts[i].cui);
        i := i + 1;
      }
      assert rxNormConcepts[..i] == rxNormConcepts;
    }

    method GetIngredientsForNdc(ndc: string) returns (r: Option<seq<IngredientInfo>>)
      requires Valid()
      modifies this`ingredientLookupNdc
      ensures Valid()
      ensures var o := Cached(old(ingredientLookupNdc), IngredientFetch(findRxNormForNdc, findIngredients), Ingredient, ndc);
        r == Unwrap(o.value) && ingredientLookupNdc == o.table
      ensures r != Some([])
    {
      ghost var fetch := IngredientFetch(findRxNormForNdc, findIngredients);
      CachedNeverEmpty(ingredientLookupNdc, fetch, Ingredient, ndc);
      if ndc in ingredientLookupNdc {
        var inCache := ingredientLookupNdc[ndc];
        return if inCache.HasValue() then Some(inCache.data) else None;
      }
      var ingredientList := FindIngredientsForNdc(ndc);
      assert ingredientList == fetch(ndc);
      if |ingredientList| > 0 {
        ingredientLookupNdc := ingredientLookupNdc[ndc := WithData(Ingredient, ingredientList)];
      } else {
        ingredientLookupNdc := ingredientLookupNdc[ndc := NoValue(Ingredient)];
        return None;
      }
      r := Some(ingredientList);
    }
  }
}
