/** The catalogue queries (service/WineService.java): the price-range token lookup, the
    filtered listing and the lookup of one wine that fails with WineNotFound. The wine table
    is passed in as the sequence of its rows. */
module WineService {
  import opened Common
  import opened Wines
  import opened WineSpecification

  /** The (minimum, maximum) pair `mapPriceRange` returns; `None` is a `null` bound. */
  datatype PriceRange = PriceRange(minPrice: Option<int>, maxPrice: Option<int>)

  const NoBounds := PriceRange(None, None)

  /** The tokens the switch recognises, matched against the untrimmed argument. */
  const KnownTokens: set<string> := {"<20", "20-30", "30-40", "40-50", ">50"}

  /** `mapPriceRange`, with the bounds in hundredths. */
  function MapPriceRange(priceRange: Option<string>): (r: PriceRange)
    ensures priceRange.None? || Trim(priceRange.value) == [] ==> r == NoBounds
    ensures r != NoBounds <==> priceRange.Some? && priceRange.value in KnownTokens
    ensures r.minPrice.Some? && r.maxPrice.Some? ==> r.minPrice.value < r.maxPrice.value
    ensures priceRange == Some("<20") ==> r == PriceRange(None, Some(2000))
    ensures priceRange == Some("20-30") ==> r == PriceRange(Some(2000), Some(3000))
    ensures priceRange == Some("30-40") ==> r == PriceRange(Some(3000), Some(4000))
    ensures priceRange == Some("40-50") ==> r == PriceRange(Some(4000), Some(5000))
    ensures priceRange == Some(">50") ==> r == PriceRange(Some(5000), None)
  {
    if priceRange.None? || Trim(priceRange.value) == [] then NoBounds
    else
      match priceRange.value
      case "<20" => PriceRange(None, Some(2000))
      case "20-30" => PriceRange(Some(2000), Some(3000))
      case "30-40" => PriceRange(Some(3000), Some(4000))
      case "40-50" => PriceRange(Some(4000), Some(5000))
      case ">50" => PriceRange(Some(5000), None)
      case _ => NoBounds
  }

  /** The switch compares the untrimmed string, so a padded token applies no price
      filter at all. */
  lemma PaddedTokenAppliesNoFilter()
    ensures MapPriceRange(Some(" 20-30")) == NoBounds
    ensures MapPriceRange(Some("20-30 ")) == NoBounds
  {
    assert " 20-30" !in KnownTokens;
    assert "20-30 " !in KnownTokens;
  }

  /** A wine priced exactly 20.00 is listed under both "<20" and "20-30". */
  lemma TwentyIsInBothLowRanges(w: Wine)
    requires w.price == 2000
    ensures HasPriceBetween(MapPriceRange(Some("<20")).minPrice, MapPriceRange(Some("<20")).maxPrice)(w)
    ensures HasPriceBetween(MapPriceRange(Some("20-30")).minPrice, MapPriceRange(Some("20-30")).maxPrice)(w)
  {
  }

  /** `filterWines`: the catalogue rows accepted by the combined filter with the mapped
      bounds. */
  function FilterWines(catalogue: seq<Wine>, color: Option<string>, flavour: Option<string>,
                       typeName: Option<string>, priceRange: Option<string>): (r: seq<Wine>)
    ensures forall w :: w in r <==>
              w in catalogue
              && Filter(color, flavour, typeName, MapPriceRange(priceRange).minPrice,
                        MapPriceRange(priceRange).maxPrice)(w)
    ensures IsSubsequence(r, catalogue)
  {
    var range := MapPriceRange(priceRange);
    FindAllIsSubsequence(catalogue, Filter(color, flavour, typeName, range.minPrice, range.maxPrice));
    FindAll(catalogue, Filter(color, flavour, typeName, range.minPrice, range.maxPrice))
  }

  /** No criteria at all lists the whole catalogue (in the order of the table's sequence,
      which is the order the model chooses for the query). */
  lemma FilterWinesWithoutCriteria(catalogue: seq<Wine>)
    ensures FilterWines(catalogue, None, None, None, None) == catalogue
  {
    FindAllAcceptingEverything(catalogue, Filter(None, None, None, None, None));
  }

  /** An unrecognised price token filters exactly like no price token. */
  lemma UnknownTokenIgnored(catalogue: seq<Wine>, color: Option<string>, flavour: Option<string>,
                            typeName: Option<string>, priceRange: string)
    requires priceRange !in KnownTokens
    ensures FilterWines(catalogue, color, flavour, typeName, Some(priceRange))
         == FilterWines(catalogue, color, flavour, typeName, None)
  {
  }

  /** `findWineByIdOrThrow`. */
  function FindWineByIdOrThrow(catalogue: seq<Wine>, id: int): (r: Result<Wine>)
    ensures r.Ok? ==> r.value in catalogue && r.value.id == id
    ensures r.Err? <==> forall w :: w in catalogue ==> w.id != id
    ensures r.Err? ==> r.error == WineNotFound
  {
    match FindById(catalogue, id)
    case Some(w) => Ok(w)
    case None => Err(WineNotFound)
  }
}
