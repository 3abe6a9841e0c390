/**
 * The home page: an inline copy of the listing card's comparison, and the
 * mock list of listings the page shows.
 */
module HomePage {

  import opened Comparison
  import ListingCard
  import ListingDetailPage

  type CardListing = ListingCard.CardListing

  const LiberalisationPointsThreshold: int := 136

  /**
   * The inline card's comparison. It reads the props without a guard, so it is
   * only ever given a listing.
   */
  function CompareRent(listing: CardListing): (r: ListingCard.CardComparison)
    ensures r.cls == Neutral <==> listing.wwsPoints >= LiberalisationPointsThreshold
    ensures r.cls == Overpriced <==>
      listing.wwsPoints < LiberalisationPointsThreshold && listing.advertisedRent > listing.maxLegalRent
    ensures r.cls == Fair <==>
      listing.wwsPoints < LiberalisationPointsThreshold && listing.advertisedRent <= listing.maxLegalRent
    ensures r.text == ListingCard.BadgeText(r.cls)
  {
    if listing.wwsPoints >= LiberalisationPointsThreshold then
      ListingCard.CardComparison(Neutral, "Likely liberalized")
    else if listing.advertisedRent > listing.maxLegalRent then
      ListingCard.CardComparison(Overpriced, "Overpriced")
    else
      ListingCard.CardComparison(Fair, "Fair Price")
  }

  /** The inline copy shows the same class and text as the listing card component. */
  lemma AgreesWithListingCard(listing: CardListing)
    ensures CompareRent(listing) ==
      ListingCard.CompareRent(listing.advertisedRent, listing.maxLegalRent, listing.wwsPoints)
  {
  }

  /** The mock listings, with image URLs replaced by short identifiers. */
  const ListingsData: seq<CardListing> := [
    ListingCard.CardListing(1, "Charming Canal View Apartment", "Amsterdam Centrum",
                            "listing-1/photo-1", 1850.0, 75.0, 2, 140, 1050.75),
    ListingCard.CardListing(2, "Modern Loft in De Pijp", "Amsterdam De Pijp",
                            "listing-2/photo-1", 2200.0, 90.0, 3, 165, 1250.50),
    ListingCard.CardListing(3, "Spacious Family Home", "Utrecht Oost",
                            "listing-3/photo-1", 2400.0, 120.0, 4, 170, 1380.00),
    ListingCard.CardListing(4, "Cozy Studio near Station", "Rotterdam Centraal",
                            "listing-4/photo-1", 1100.0, 45.0, 1, 125, 850.20)
  ]

  /** The mock listings 1 to 3 are liberalized and listing 4 is overpriced. */
  lemma MockListingsClassification()
    ensures |ListingsData| == 4
    ensures CompareRent(ListingsData[0]).cls == Neutral
    ensures CompareRent(ListingsData[1]).cls == Neutral
    ensures CompareRent(ListingsData[2]).cls == Neutral
    ensures CompareRent(ListingsData[3]) == ListingCard.CardComparison(Overpriced, "Overpriced")
  {
  }

  /** The key under which the detail page keeps a mock listing. */
  function DetailKey(i: nat): string
    requires i < 4
  {
    ["1", "2", "3", "4"][i]
  }

  /** A card record and a detail record describe the same listing. */
  predicate SameListing(c: CardListing, d: ListingDetailPage.Listing)
  {
    && c.id == d.id && c.title == d.title && c.location == d.location
    && c.advertisedRent == d.advertisedRent && c.size == d.size && c.rooms == d.rooms
    && c.wwsPoints == d.wwsPoints && c.maxLegalRent == d.maxLegalRent
  }

  /**
   * Every mock listing describes the same listing as the detail page's record for
   * its id, so the card and the page classify it alike.
   */
  lemma MockListingsMatchDetailTable(i: nat)
    requires i < |ListingsData|
    ensures SameListing(ListingsData[i], ListingDetailPage.FetchListing(DetailKey(i)))
    ensures CompareRent(ListingsData[i]).cls ==
            ListingDetailPage.CompareRent(ListingDetailPage.FetchListing(DetailKey(i))).cls
  {
  }
}
