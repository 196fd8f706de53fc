/** server/tst.ts: `createItemSummary`, the text a record is embedded by, and the save loop
    of that file's `seedDatabase`, which has no catch of its own around a save, so the first
    failing save abandons the remaining records. Prices and ratings are integers here. */
module ItemSummary {
  import opened Js

  datatype Address = Address(street: string, city: string, state: string, postalCode: string,
                             country: string)

  datatype Prices = Prices(fullPrice: int, salePrice: int)

  datatype Review = Review(reviewDate: string, rating: int, comment: string)

  datatype Item = Item(
    itemId: string,
    itemName: string,
    itemDescription: string,
    brand: string,
    manufacturerAddress: Address,
    prices: Prices,
    categories: seq<string>,
    userReviews: seq<Review>,
    notes: string)

  /** `Rated ${rating} on ${review_date}: ${comment}`. */
  function RenderReview(review: Review): (r: string)
    ensures var head := "Rated " + IntToString(review.rating) + " on ";
      && head <= r
      && |r| == |head| + |review.reviewDate| + 2 + |review.comment|
      && At(r, |head|, review.reviewDate)
      && r[|r| - |review.comment| - 2..] == ": " + review.comment
  {
    var head := "Rated " + IntToString(review.rating) + " on ";
    var withDate := head + review.reviewDate;
    var r := withDate + ": " + review.comment;
    PartAfterPrefix(head, review.reviewDate, r);
    assert r[..|head|] == head;
    assert r[|r| - |review.comment| - 2..] == ": " + review.comment;
    r
  }

  /** The pieces of a review's text, in order. */
  function ReviewParts(review: Review): seq<string> {
    ["Rated ", IntToString(review.rating), " on ", review.reviewDate, ": ", review.comment]
  }

  /** A review's text is the rating, the date and the comment in that order, between the
      fixed words of the template, and nothing else. */
  lemma ReviewPlacesParts(review: Review)
    ensures Places(RenderReview(review), ReviewParts(review))
  {
    var parts := ReviewParts(review);
    Concat6(parts);
    ConcatPlaces(parts);
  }

  /** `user_reviews.map(render)`: one text per review, in the same order. */
  function RenderReviews(rs: seq<Review>): (texts: seq<string>)
    ensures |texts| == |rs|
    ensures forall i :: 0 <= i < |rs| ==> texts[i] == RenderReview(rs[i])
  {
    if rs == [] then [] else [RenderReview(rs[0])] + RenderReviews(rs[1..])
  }

  /** The review texts, one space apart: "" without reviews, otherwise opening with the
      first review's text and closing with the last one's. */
  function ReviewsText(rs: seq<Review>): (r: string)
    ensures rs == [] ==> r == ""
    ensures rs != [] ==> RenderReview(rs[0]) <= r
    ensures rs != [] ==> var last := RenderReview(rs[|rs| - 1]);
      |last| <= |r| && r[|r| - |last|..] == last
  {
    Join(RenderReviews(rs), " ")
  }

  /** `${item_name} ${item_description} from brand ${brand}`. */
  function BasicInfo(item: Item): (r: string)
    ensures item.itemName + " " <= r
    ensures |r| >= |item.brand| + 12 && r[|r| - |item.brand| - 12..] == " from brand " + item.brand
  {
    var r := item.itemName + " " + item.itemDescription + " from brand " + item.brand;
    assert r[..|item.itemName| + 1] == item.itemName + " ";
    assert r[|r| - |item.brand| - 12..] == " from brand " + item.brand;
    r
  }

  /** The pieces of the basic info, in order. */
  function BasicInfoParts(item: Item): seq<string> {
    [item.itemName, " ", item.itemDescription, " from brand ", item.brand]
  }

  /** The basic info is the name, the description and the brand in that order, between the
      fixed words of the template, and nothing else. */
  lemma BasicInfoPlacesParts(item: Item)
    ensures Places(BasicInfo(item), BasicInfoParts(item))
  {
    var parts := BasicInfoParts(item);
    Concat5(parts);
    ConcatPlaces(parts);
  }

  /** `Made in ${country}`. */
  function ManufacturerDetails(address: Address): string {
    "Made in " + address.country
  }

  /** `At full price ${full_price} SEK, On sale ${sale_price} SEK`. */
  function PriceText(p: Prices): (r: string)
    ensures "At full price " + IntToString(p.fullPrice) + " SEK, On sale " <= r
    ensures |r| >= 4 && r[|r| - 4..] == " SEK"
  {
    var head := "At full price " + IntToString(p.fullPrice) + " SEK, On sale ";
    var r := head + IntToString(p.salePrice) + " SEK";
    assert r[..|head|] == head;
    assert r[|r| - 4..] == " SEK";
    r
  }

  /** The pieces of the price text, in order. */
  function PriceParts(p: Prices): seq<string> {
    ["At full price ", IntToString(p.fullPrice), " SEK, On sale ", IntToString(p.salePrice), " SEK"]
  }

  /** The price text is the full price, then the sale price, each followed by "SEK", and
      nothing else. */
  lemma PricePlacesParts(p: Prices)
    ensures Places(PriceText(p), PriceParts(p))
  {
    var parts := PriceParts(p);
    Concat5(parts);
    ConcatPlaces(parts);
  }

  /** `createItemSummary(item)`. It opens with "{name} {description} from brand {brand}."
      and closes with the notes. */
  function CreateItemSummary(item: Item): (summary: string)
    ensures BasicInfo(item) + "." <= summary
    ensures |summary| >= |item.notes| && summary[|summary| - |item.notes|..] == item.notes
  {
    var summary := BasicInfo(item) + ". Manufacturer: " + ManufacturerDetails(item.manufacturerAddress)
      + ".\n    Categoriews: " + Join(item.categories, ", ") + ". Revies: "
      + ReviewsText(item.userReviews) + ". Price: " + PriceText(item.prices) + ".\n    Notes: "
      + item.notes;
    TemplateEnds(BasicInfo(item), ManufacturerDetails(item.manufacturerAddress),
                 Join(item.categories, ", "), ReviewsText(item.userReviews),
                 PriceText(item.prices), item.notes);
    summary
  }

  /** The summary template opens with the basic info and a full stop and closes with the
      notes, whatever the parts. */
  lemma TemplateEnds(basic: string, made: string, categories: string, reviews: string,
                     price: string, notes: string)
    ensures var summary := basic + ". Manufacturer: " + made + ".\n    Categoriews: "
      + categories + ". Revies: " + reviews + ". Price: " + price + ".\n    Notes: " + notes;
      && basic + "." <= summary
      && |summary| >= |notes| && summary[|summary| - |notes|..] == notes
  {
    var summary := basic + ". Manufacturer: " + made + ".\n    Categoriews: "
      + categories + ". Revies: " + reviews + ". Price: " + price + ".\n    Notes: " + notes;
    assert summary[..|basic| + 1] == basic + ".";
  }

  /** The pieces of the summary template, in order: the basic info, the manufacturer, the
      categories joined by ", ", the review texts, the price and the notes, with the
      template's fixed words between them. */
  function SummaryParts(item: Item): seq<string> {
    [ BasicInfo(item), ". Manufacturer: ", ManufacturerDetails(item.manufacturerAddress),
      ".\n    Categoriews: ", Join(item.categories, ", "), ". Revies: ",
      ReviewsText(item.userReviews), ". Price: ", PriceText(item.prices), ".\n    Notes: ",
      item.notes ]
  }

  /** The summary is every piece of the template at its offset, and nothing else. */
  lemma SummaryPlacesParts(item: Item)
    ensures Places(CreateItemSummary(item), SummaryParts(item))
  {
    var parts := SummaryParts(item);
    Concat11(parts);
    ConcatPlaces(parts);
  }

  /** Of the manufacturer's address only the country shows: items that differ only in the
      rest of the address have the same summary. */
  lemma SummaryIgnoresAddressDetails(item: Item, address: Address)
    requires address.country == item.manufacturerAddress.country
    ensures CreateItemSummary(item.(manufacturerAddress := address)) == CreateItemSummary(item)
  {
  }

  /** An item without reviews has an empty review text. */
  lemma NoReviewsNoText()
    ensures ReviewsText([]) == ""
  {
  }

  lemma {:induction false} RenderReviewsConcat(a: seq<Review>, b: seq<Review>)
    ensures RenderReviews(a + b) == RenderReviews(a) + RenderReviews(b)
  {
    if a != [] {
      var head := [RenderReview(a[0])];
      assert (a + b)[0] == a[0] && (a + b)[1..] == a[1..] + b;
      assert RenderReviews(a + b) == head + RenderReviews(a[1..] + b);
      RenderReviewsConcat(a[1..], b);
      assert head + (RenderReviews(a[1..]) + RenderReviews(b))
          == (head + RenderReviews(a[1..])) + RenderReviews(b);
    } else {
      assert a + b == b;
    }
  }

  /** The reviews are rendered in their order, one space apart: the text of `a + b` is the
      text of `a`, a space, and the text of `b`. */
  lemma ReviewsKeepOrder(a: seq<Review>, b: seq<Review>)
    requires a != [] && b != []
    ensures ReviewsText(a + b) == ReviewsText(a) + " " + ReviewsText(b)
  {
    RenderReviewsConcat(a, b);
    JoinConcat(RenderReviews(a), RenderReviews(b), " ");
  }

  /** The categories are listed in their order, ", " apart: the summary of an item whose
      categories are `a + b` is that of the same item with the single category made of the
      categories of `a`, a comma and a space, and the categories of `b`. */
  lemma CategoriesKeepOrder(item: Item, a: seq<string>, b: seq<string>)
    requires a != [] && b != []
    ensures CreateItemSummary(item.(categories := a + b))
         == CreateItemSummary(item.(categories := [Join(a, ", ") + ", " + Join(b, ", ")]))
  {
    JoinConcat(a, b, ", ");
  }

  /** The document stored for a record: its summary, and the record itself as metadata. */
  datatype Document = Document(pageContent: string, metadata: Item)

  /** `{ pageContent: await createItemSummary(record), metadata: { ...record } }`. */
  function ToDocument(item: Item): (d: Document)
    ensures d.metadata == item
    ensures BasicInfo(item) + "." <= d.pageContent
    ensures |d.pageContent| >= |item.notes| && d.pageContent[|d.pageContent| - |item.notes|..] == item.notes
  {
    Document(CreateItemSummary(item), item)
  }

  /** The `Promise.all` over the records: one document per record, in order. */
  function Documents(items: seq<Item>): (docs: seq<Document>)
    ensures |docs| == |items|
    ensures forall i :: 0 <= i < |items| ==> docs[i] == ToDocument(items[i])
  {
    if items == [] then [] else [ToDocument(items[0])] + Documents(items[1..])
  }

  /** The first index from `from` on, below `n`, whose save throws. */
  function FirstFailure(save: nat -> Completion<()>, from: nat, n: nat): (r: Option<nat>)
    ensures r.Some? ==> from <= r.value < n && save(r.value).Throw?
                        && forall j :: from <= j < r.value ==> save(j).Normal?
    ensures r.None? ==> forall j :: from <= j < n ==> save(j).Normal?
    decreases n - from
  {
    if from >= n then None
    else if save(from).Throw? then Some(from)
    else FirstFailure(save, from + 1, n)
  }

  datatype SeedEnd = Completed | Failed(error: JsError)

  /** The loop `for (const record of recordsWithSummaries) await save(record)` with no catch
      inside it: documents are saved in order until the first save throws, and that error
      leaves the loop. */
  method SaveUntilFailure<D>(docs: seq<D>, save: nat -> Completion<()>)
    returns (end: SeedEnd, attempted: seq<nat>, stored: seq<D>)
    ensures match FirstFailure(save, 0, |docs|)
            case None => end == Completed && attempted == Indices(|docs|) && stored == docs
            case Some(k) => end == Failed(save(k).error) && attempted == Indices(k + 1)
                            && stored == docs[..k]
  {
    attempted, stored := [], [];
    var i := 0;
    while i < |docs|
      invariant 0 <= i <= |docs|
      invariant attempted == Indices(i) && stored == docs[..i]
      invariant FirstFailure(save, 0, |docs|) == FirstFailure(save, i, |docs|)
    {
      attempted := attempted + [i];
      var saved := save(i);
      if saved.Throw? {
        return Failed(saved.error), attempted, stored;
      }
      stored := stored + [docs[i]];
      i := i + 1;
    }
    end := Completed;
  }

  /** The `seedDatabase` of server/tst.ts after the model's records are generated: every
      record is turned into its document and the documents are saved in order, until the
      first save throws; the error ends the run in the outer catch, and the records after it
      are never tried. The client is closed once, in `finally`. `setup` stands for everything
      up to the clearing of the collection, `generated` for `generateSynteticData()` (which
      throws when the schema parser rejects the model's answer). */
  method SeedWithSummaries(setup: Completion<()>, generated: Completion<seq<Item>>,
                           save: nat -> Completion<()>)
    returns (end: SeedEnd, attempted: seq<nat>, stored: seq<Document>, closes: nat)
    ensures closes == 1
    ensures setup.Throw? ==> end == Failed(setup.error) && attempted == [] && stored == []
    ensures setup.Normal? && generated.Throw? ==>
              end == Failed(generated.error) && attempted == [] && stored == []
    ensures setup.Normal? && generated.Normal? ==>
              var docs := Documents(generated.value);
              match FirstFailure(save, 0, |docs|)
              case None => end == Completed && attempted == Indices(|docs|) && stored == docs
              case Some(k) => end == Failed(save(k).error) && attempted == Indices(k + 1)
                              && stored == docs[..k]
  {
    if setup.Throw? {
      end, attempted, stored := Failed(setup.error), [], [];
    } else if generated.Throw? {
      end, attempted, stored := Failed(generated.error), [], [];
    } else {
      var recordsWithSummaries := Documents(generated.value);
      end, attempted, stored := SaveUntilFailure(recordsWithSummaries, save);
    }
    closes := 1;
  }
}
