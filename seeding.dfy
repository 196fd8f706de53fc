/** The control flow of `seedDatabase` (server/seed-database.ts): set up the connection and
    the collection, clear it, scrape, generate the full records, and save them one by one.
    The run returns early, before any save, when the scrape or the generation yields nothing;
    a failing save is caught and logged, and every later record is still saved. Any other
    failure ends in the outer catch, and so does a schema-parser rejection of the model's
    answer, which escapes `generateSynteticData` (see `SyntheticData.GenerateSyntheticData`). `client.close()` runs once more on an early return than
    on the other paths, because the early return closes the client and then the `finally`
    block closes it again. The services are oracles: `setup` for everything up to the clearing
    of the collection, `scraped` for `scrapeInet()`, `llm` for the model's answer to the
    prompt built from the scraped data, `parse` for the schema parser, and `save(i)` for the
    save of record `i`. */
module Seeding {
  import opened Js
  import SyntheticData

  type Record = SyntheticData.Record

  datatype SeedEnd = NoScrapedData | NoSyntheticData | Completed | Failed(error: JsError)

  /** The records among the first `n` whose save succeeded, in their order. */
  function Kept(items: seq<Record>, save: nat -> Completion<()>, n: nat): seq<Record>
    requires n <= |items|
  {
    if n == 0 then [] else Kept(items, save, n - 1) + (if save(n - 1).Normal? then [items[n - 1]] else [])
  }

  /** Every record whose save succeeded is stored, whatever failed before it, and nothing
      else is. */
  lemma {:induction false} KeptIsEverySuccessfulSave(items: seq<Record>, save: nat -> Completion<()>, n: nat)
    requires n <= |items|
    ensures forall j :: 0 <= j < n && save(j).Normal? ==> items[j] in Kept(items, save, n)
    ensures forall r :: r in Kept(items, save, n) ==> exists j :: 0 <= j < n && save(j).Normal? && items[j] == r
  {
    if n > 0 {
      KeptIsEverySuccessfulSave(items, save, n - 1);
    }
  }

  /** A single failing save loses exactly that record: the ones before and after it are
      stored, in order. */
  lemma {:induction false} OneFailureLosesOneRecord(items: seq<Record>, save: nat -> Completion<()>, k: nat, n: nat)
    requires k < n <= |items|
    requires save(k).Throw?
    requires forall j :: 0 <= j < n && j != k ==> save(j).Normal?
    ensures Kept(items, save, n) == items[..k] + items[k + 1..n]
  {
    if n == k + 1 {
      AllSavedKeepsAll(items, save, k);
      assert items[k + 1..n] == [];
    } else {
      OneFailureLosesOneRecord(items, save, k, n - 1);
      assert items[k + 1..n] == items[k + 1..n - 1] + [items[n - 1]];
    }
  }

  lemma {:induction false} AllSavedKeepsAll(items: seq<Record>, save: nat -> Completion<()>, n: nat)
    requires n <= |items|
    requires forall j :: 0 <= j < n ==> save(j).Normal?
    ensures Kept(items, save, n) == items[..n]
  {
    if n > 0 {
      AllSavedKeepsAll(items, save, n - 1);
      assert items[..n] == items[..n - 1] + [items[n - 1]];
    }
  }

  /** `seedDatabase()`: how it ends, the indices of the records it tried to save, the records
      it stored, and how many times it closed the client. */
  method SeedDatabase(setup: Completion<()>, scraped: Completion<seq<Json>>,
                      llm: seq<Json> -> Completion<string>, parse: string -> Completion<seq<Record>>,
                      save: nat -> Completion<()>)
    returns (end: SeedEnd, attempted: seq<nat>, stored: seq<Record>, closes: nat)
    ensures setup.Throw? ==> end == Failed(setup.error) && attempted == [] && stored == [] && closes == 1
    ensures setup.Normal? && scraped.Throw? ==>
              end == Failed(scraped.error) && attempted == [] && stored == [] && closes == 1
    ensures setup.Normal? && scraped == Normal([]) ==>
              end == NoScrapedData && attempted == [] && stored == [] && closes == 2
    ensures setup.Normal? && scraped.Normal? && scraped.value != [] ==>
              match llm(scraped.value)
              case Throw(e) => end == Failed(e) && attempted == [] && stored == [] && closes == 1
              case Normal(content) =>
                match SyntheticData.GenerateSyntheticData(content, parse)
                case Throw(e) => end == Failed(e) && attempted == [] && stored == [] && closes == 1
                case Normal(items) =>
                  if items == [] then end == NoSyntheticData && attempted == [] && stored == [] && closes == 2
                  else end == Completed && attempted == Indices(|items|)
                       && stored == Kept(items, save, |items|) && closes == 1
  {
    attempted, stored, closes := [], [], 0;
    if setup.Throw? {
      end := Failed(setup.error);
    } else if scraped.Throw? {
      end := Failed(scraped.error);
    } else if scraped.value == [] {
      closes := closes + 1;
      end := NoScrapedData;
    } else {
      var answer := llm(scraped.value);
      var generated := if answer.Throw? then Throw(answer.error)
                       else SyntheticData.GenerateSyntheticData(answer.value, parse);
      if generated.Throw? {
        end := Failed(generated.error);
      } else {
        var fullItems := generated.value;
        if fullItems == [] {
          closes := closes + 1;
          end := NoSyntheticData;
        } else {
          var i := 0;
          while i < |fullItems|
            invariant 0 <= i <= |fullItems|
            invariant attempted == Indices(i)
            invariant stored == Kept(fullItems, save, i)
          {
            attempted := attempted + [i];
            if save(i).Normal? {
              stored := stored + [fullItems[i]];
            }
            i := i + 1;
          }
          end := Completed;
        }
      }
    }
    closes := closes + 1;
  }
}
