/**
  The machinery rental listing: a fixed catalogue, the filter the page applies
  to it (search term, machine type, location) and the decision taken when a
  farmer asks to book a machine.
 */
module Marketplace {
  import opened Text

  /** One rental listing. `kind` is the source's `type` field (a reserved word here). */
  datatype Machinery = Machinery(
    id: string,
    name: string,
    kind: string,
    owner: string,
    location: string,
    pricePerDay: int,
    rating: real,
    available: bool,
    image: string,
    description: string,
    specs: seq<string>)

  /** The catalogue the page lists; it is a constant and no operation changes it. */
  const Catalogue: seq<Machinery> := [
    Machinery("1", "John Deere 5050D", "tractor", "राम शर्मा", "Pune, Maharashtra", 1200, 4.8, true,
              "/api/placeholder/300/200", "50 HP tractor perfect for medium farms",
              ["50 HP", "4WD", "Power Steering", "Front Loader"]),
    Machinery("2", "Mahindra 575 DI", "tractor", "Priya Nair", "Kochi, Kerala", 1000, 4.6, true,
              "/api/placeholder/300/200", "Reliable tractor for paddy fields",
              ["47 HP", "2WD", "Hydraulic Steering", "PTO"]),
    Machinery("3", "Combine Harvester", "harvester", "Harpreet Singh", "Ludhiana, Punjab", 2500, 4.9, false,
              "/api/placeholder/300/200", "Modern combine harvester for wheat",
              ["6 feet cutting width", "Grain tank", "Threshing unit"]),
    Machinery("4", "Rotavator", "equipment", "अमित पटेल", "Nashik, Maharashtra", 400, 4.5, true,
              "/api/placeholder/300/200", "Soil preparation equipment",
              ["7 feet width", "Heavy duty blades", "Adjustable depth"])
  ]

  /** The select value that switches the type or the location filter off. */
  const All := "all"

  /** The page's three filter inputs. */
  datatype Criteria = Criteria(searchTerm: string, filterType: string, filterLocation: string)

  /** The filter settings the page starts with. */
  const Initial := Criteria("", All, All)

  /** Case-insensitive search on the name or the description. */
  predicate MatchesSearch(m: Machinery, term: string)
  {
    Contains(Lower(m.name), Lower(term)) || Contains(Lower(m.description), Lower(term))
  }

  /** Exact type match, unless the filter is "all". */
  predicate MatchesType(m: Machinery, filterType: string)
  {
    filterType == All || m.kind == filterType
  }

  /** Case-sensitive substring match on the location, unless the filter is "all". */
  predicate MatchesLocation(m: Machinery, filterLocation: string)
  {
    filterLocation == All || Contains(m.location, filterLocation)
  }

  /** The predicate handed to `filter`: all three matches hold. */
  predicate Selected(m: Machinery, c: Criteria)
  {
    MatchesSearch(m, c.searchTerm) && MatchesType(m, c.filterType) && MatchesLocation(m, c.filterLocation)
  }

  /** `items.filter(...)`: the selected items, in their original order. */
  function Filter(items: seq<Machinery>, c: Criteria): seq<Machinery>
  {
    if items == [] then []
    else (if Selected(items[0], c) then [items[0]] else []) + Filter(items[1..], c)
  }

  /** The list the page shows for the given filter inputs. */
  function FilteredMachinery(c: Criteria): seq<Machinery>
  {
    Filter(Catalogue, c)
  }

  /** r can be obtained from s by deleting elements, keeping the order of the rest. */
  predicate IsSubsequence<T(==)>(r: seq<T>, s: seq<T>)
    decreases |s|
  {
    if r == [] then true
    else if s == [] then false
    else (r[0] == s[0] && IsSubsequence(r[1..], s[1..])) || IsSubsequence(r, s[1..])
  }

  lemma SubsequenceCons<T>(r: seq<T>, x: T, s: seq<T>)
    requires IsSubsequence(r, s)
    ensures IsSubsequence(r, [x] + s)
  {
    assert ([x] + s)[1..] == s;
  }

  // ---------------------------------------------------------------------------
  // What the filtered list is

  /** Every listed item is a catalogue item that satisfies all three matches. */
  lemma {:induction false} FilterSound(items: seq<Machinery>, c: Criteria)
    ensures forall k :: 0 <= k < |Filter(items, c)| ==>
              Selected(Filter(items, c)[k], c) && Filter(items, c)[k] in items
  {
    if items != [] {
      FilterSound(items[1..], c);
    }
  }

  /** Every item that satisfies all three matches is listed. */
  lemma {:induction false} FilterComplete(items: seq<Machinery>, c: Criteria)
    ensures forall i :: 0 <= i < |items| && Selected(items[i], c) ==> items[i] in Filter(items, c)
  {
    if items != [] {
      FilterComplete(items[1..], c);
      assert forall i :: 1 <= i < |items| ==> items[i] == items[1..][i - 1];
    }
  }

  /** The listed items keep their catalogue order. */
  lemma {:induction false} FilterSubsequence(items: seq<Machinery>, c: Criteria)
    ensures IsSubsequence(Filter(items, c), items)
  {
    if items != [] {
      FilterSubsequence(items[1..], c);
      var rest := Filter(items[1..], c);
      if Selected(items[0], c) {
        assert Filter(items, c) == [items[0]] + rest;
        assert Filter(items, c)[1..] == rest;
      } else {
        assert Filter(items, c) == rest;
        assert items == [items[0]] + items[1..];
        SubsequenceCons(rest, items[0], items[1..]);
      }
    }
  }

  /** Each selected item is listed as often as it occurs, and no other item is listed. */
  lemma {:induction false} FilterMultiplicity(items: seq<Machinery>, c: Criteria, m: Machinery)
    ensures multiset(Filter(items, c))[m] == if Selected(m, c) then multiset(items)[m] else 0
  {
    if items != [] {
      FilterMultiplicity(items[1..], c, m);
      assert items == [items[0]] + items[1..];
      assert multiset(items) == multiset([items[0]]) + multiset(items[1..]);
    }
  }

  /** An empty search with both selects on "all" lists every item. */
  lemma {:induction false} FilterInitialIsEverything(items: seq<Machinery>)
    ensures Filter(items, Initial) == items
  {
    if items != [] {
      FilterInitialIsEverything(items[1..]);
      assert Lower("") == "";
      assert Selected(items[0], Initial);
    }
  }

  /** Listed items have exactly the selected type. */
  lemma TypeFilterExact(items: seq<Machinery>, c: Criteria)
    requires c.filterType != All
    ensures forall m :: m in Filter(items, c) ==> m.kind == c.filterType
  {
    FilterSound(items, c);
  }

  /** Listed items have the selected location as a case-sensitive substring of theirs. */
  lemma LocationFilterContains(items: seq<Machinery>, c: Criteria)
    requires c.filterLocation != All
    ensures forall m :: m in Filter(items, c) ==> Contains(m.location, c.filterLocation)
  {
    FilterSound(items, c);
  }

  /** Listed items contain the search term, ignoring case, in the name or the description. */
  lemma SearchMatchesIgnoringCase(items: seq<Machinery>, c: Criteria)
    ensures forall m :: m in Filter(items, c) ==>
              Contains(Lower(m.name), Lower(c.searchTerm)) || Contains(Lower(m.description), Lower(c.searchTerm))
  {
    FilterSound(items, c);
  }

  /** Lowercasing the search term beforehand does not change the list. */
  lemma {:induction false} SearchIsCaseInsensitive(items: seq<Machinery>, c: Criteria)
    ensures Filter(items, c.(searchTerm := Lower(c.searchTerm))) == Filter(items, c)
  {
    LowerIdempotent(c.searchTerm);
    if items != [] {
      SearchIsCaseInsensitive(items[1..], c);
    }
  }

  /** A stricter set of criteria lists a subsequence of what a looser one lists. */
  lemma {:induction false} FilterMonotone(items: seq<Machinery>, strict: Criteria, loose: Criteria)
    requires forall m :: Selected(m, strict) ==> Selected(m, loose)
    ensures IsSubsequence(Filter(items, strict), Filter(items, loose))
  {
    if items != [] {
      FilterMonotone(items[1..], strict, loose);
      var s, l := Filter(items[1..], strict), Filter(items[1..], loose);
      if Selected(items[0], strict) {
        assert Filter(items, strict) == [items[0]] + s;
        assert Filter(items, loose) == [items[0]] + l;
        assert Filter(items, strict)[1..] == s && Filter(items, loose)[1..] == l;
      } else if Selected(items[0], loose) {
        assert Filter(items, strict) == s;
        assert Filter(items, loose) == [items[0]] + l;
        SubsequenceCons(s, items[0], l);
      } else {
        assert Filter(items, strict) == s && Filter(items, loose) == l;
      }
    }
  }

  /** Choosing a specific type instead of "all" lists a subsequence of the previous list. */
  lemma NarrowingType(items: seq<Machinery>, c: Criteria, t: string)
    requires c.filterType == All
    ensures IsSubsequence(Filter(items, c.(filterType := t)), Filter(items, c))
  {
    FilterMonotone(items, c.(filterType := t), c);
  }

  /** Choosing a specific location instead of "all" lists a subsequence of the previous list. */
  lemma NarrowingLocation(items: seq<Machinery>, c: Criteria, loc: string)
    requires c.filterLocation == All
    ensures IsSubsequence(Filter(items, c.(filterLocation := loc)), Filter(items, c))
  {
    FilterMonotone(items, c.(filterLocation := loc), c);
  }

  // ---------------------------------------------------------------------------
  // Booking

  /** The toast `handleBookMachinery` shows; it is the whole effect of a booking request. */
  datatype Toast = Toast(title: string, description: string, destructive: bool)

  /** The answer to "Book Now": an unavailable machine is refused, an available one
      sends a request naming the machine and its owner. */
  function HandleBook(m: Machinery): (t: Toast)
    ensures t.destructive <==> !m.available
    ensures !m.available ==> t.title == "Not Available"
    ensures m.available ==> t.title == "Booking Request Sent"
    ensures m.available ==> Contains(t.description, m.name) && Contains(t.description, m.owner)
  {
    if !m.available then
      Toast("Not Available", "This machinery is currently not available for booking.", true)
    else
      var d := "Your booking request for " + m.name + " has been sent to " + m.owner + ".";
      ConcatContains("Your booking request for ", m.name, " has been sent to " + m.owner + ".");
      assert d == "Your booking request for " + m.name + (" has been sent to " + m.owner + ".");
      ConcatContains("Your booking request for " + m.name + " has been sent to ", m.owner, ".");
      Toast("Booking Request Sent", d, false)
  }

  /** In the catalogue only the combine harvester is refused. */
  lemma CatalogueBooking()
    ensures forall i :: 0 <= i < |Catalogue| ==> (HandleBook(Catalogue[i]).destructive <==> i == 2)
  {
  }
}
