/** What any stable sort of the line-code table by normal current rating
    looks like: where the lowest- and highest-rated entries end up, and the
    order of entries that share a rating. `LinecodeParameters` shows that its
    result is such a sort, and the only one. */
module CatalogueOrder {
  import opened LinecodeCatalogue
  import opened NormAmpsSort

  /** No entry of the table is rated below Rosella's 94.03 A, and only
      the three Rosella entries carry that rating. */
  lemma CatalogueFloor()
    ensures forall x | x in Catalogue :: 94.03 <= x.normAmps
    ensures WithAmps(Catalogue, 94.03) == Catalogue[27..30]
  {
    CatalogueRatings();
    forall x | x in Catalogue
      ensures 94.03 <= x.normAmps
    {
      var i :| 0 <= i < |Catalogue| && Catalogue[i] == x;
    }
    GroupIsRun(Catalogue, 94.03, 27, 30);
  }

  /** No entry of the table is rated above `AAAC:19/4.75`'s 747 A, and no
      other entry carries that rating. */
  lemma CatalogueCeiling()
    ensures forall x | x in Catalogue :: x.normAmps <= Catalogue[47].normAmps
    ensures WithAmps(Catalogue, Catalogue[47].normAmps) == [Catalogue[47]]
  {
    CatalogueRatings();
    forall x | x in Catalogue
      ensures x.normAmps <= Catalogue[47].normAmps
    {
      var i :| 0 <= i < |Catalogue| && Catalogue[i] == x;
    }
    GroupIsRun(Catalogue, 747.0, 47, 48);
  }

  /** Any stable sort of the table starts with the three Rosella entries. */
  lemma StableSortOfCatalogueStartsWithRosella(r: seq<LC>)
    requires IsStableSortOf(r, Catalogue)
    ensures |r| >= 3 && r[..3] == Catalogue[27..30]
  {
    CatalogueFloor();
    StableSortStartsWithLowestGroup(Catalogue, r, 94.03);
  }

  /** Any stable sort of the table ends with `AAAC:19/4.75`. */
  lemma StableSortOfCatalogueEndsWithAaac19(r: seq<LC>)
    requires IsStableSortOf(r, Catalogue)
    ensures |r| > 0 && r[|r| - 1] == Catalogue[47]
  {
    CatalogueCeiling();
    StableSortEndsWithTop(Catalogue, r, Catalogue[47]);
  }

  /** Any stable sort of the table lists the 105 A entries and the Flourine
      entries in declaration order. */
  lemma StableSortOfCatalogueKeepsTiesInOrder(r: seq<LC>)
    requires IsStableSortOf(r, Catalogue)
    ensures WithAmps(r, 105.0) == [Catalogue[42], Catalogue[49], Catalogue[56]]
    ensures WithAmps(r, 165.38) == Catalogue[..3]
  {
    CatalogueRatings();
    GroupOfThree(Catalogue, 105.0, 42, 49, 56);
    GroupIsRun(Catalogue, 165.38, 0, 3);
  }
}

/** `get_linecode_to_parameters_catalogue` of
    src/zepben/edith/linecode_catalogue.py: the line-code table ordered by
    normal current rating. */
module LinecodeParameters {
  import opened LinecodeCatalogue
  import opened NormAmpsSort

  /** The table stably sorted by `normAmps`. The source builds a new list and
      leaves the table itself in declaration order. */
  function GetLinecodeToParametersCatalogue(): (r: seq<LC>)
    ensures |r| == 74
    ensures IsStableSortOf(r, Catalogue)
  {
    var table := Catalogue;
    CatalogueEntriesValid();
    SortMeetsReference(table, SortByNormAmps(table));
    SortByNormAmps(table)
  }

  /** The result is the only stable sort of the table, so the facts
      `CatalogueOrder` proves about every stable sort of it are facts about
      this result. */
  lemma SortedCatalogueIsOnlyStableSort(r: seq<LC>)
    requires IsStableSortOf(r, Catalogue)
    ensures r == GetLinecodeToParametersCatalogue()
  {
    SortMeetsReference(Catalogue, r);
  }

  /** The result is already sorted, so sorting it again returns it unchanged. */
  lemma SortedCatalogueIsFixedPoint()
    ensures SortByNormAmps(GetLinecodeToParametersCatalogue()) == GetLinecodeToParametersCatalogue()
  {
    SortOfSorted(GetLinecodeToParametersCatalogue());
  }

  /** The table itself is not sorted (Flourine, 165.38 A, comes before
      Rosella, 94.03 A), so the result is a new ordering of it. */
  lemma SortedCatalogueDiffersFromTable()
    ensures GetLinecodeToParametersCatalogue() != Catalogue
  {
    assert !Sorted(Catalogue) by {
      assert Catalogue[0].normAmps > Catalogue[27].normAmps;
    }
  }
}
