/**
  The two travel tools every travel-planner script defines: `search_destinations`, a lookup in a
  fixed three-destination table with a generic fallback, and `check_availability`, a fixed
  sentence around the destination and the dates. This module holds the reference definitions;
  the per-framework copies live with each framework's planner and are proved to agree with them.
 */
module TravelTools {
  import Lists
  import Text

  /** The planning input every travel script hard-codes in `main`. */
  datatype Trip = Trip(destination: string, dates: string, preferences: string)

  const ParisTrip := Trip("Paris", "June 15-22, 2026", "art, history, local cuisine")

  // The three table entries, each written as a concatenation of shorter literals.
  const ParisInfo := "Paris offers the Eiffel Tower, " + "Louvre Museum, and Notre-Dame. "
    + "Best time: April-June. " + "Average cost: $200/day."
  const TokyoInfo := "Tokyo features temples, " + "cherry blossoms, and modern tech. "
    + "Best time: March-May. " + "Average cost: $180/day."
  const BaliInfo := "Bali has beaches, temples, " + "and rice terraces. "
    + "Best time: April-October. " + "Average cost: $100/day."

  const Destinations: map<string, string> := map["Paris" := ParisInfo, "Tokyo" := TokyoInfo, "Bali" := BaliInfo]

  const KnownDestinations: set<string> := {"Paris", "Tokyo", "Bali"}

  /** The text returned for a destination the table does not know. */
  function GenericInfo(destination: string): string {
    "Information about " + destination + ": Beautiful destination with rich culture."
  }

  /** `search_destinations(destination)`. */
  function SearchDestinations(destination: string): (r: string)
    ensures destination == "Paris" ==> r == ParisInfo
    ensures destination == "Tokyo" ==> r == TokyoInfo
    ensures destination == "Bali" ==> r == BaliInfo
    ensures r == GenericInfo(destination) <==> destination !in KnownDestinations
  {
    Lists.MapGet(Destinations, destination, GenericInfo(destination))
  }

  /** No table entry opens the way the fallback does. */
  lemma TableEntryIsNotFallback(known: string, unknown: string)
    requires known in KnownDestinations && unknown !in KnownDestinations
    ensures SearchDestinations(known) != SearchDestinations(unknown)
  {
    assert SearchDestinations(unknown)[0] == 'I';
    if known == "Paris" {
      assert ParisInfo[0] == 'P';
    } else if known == "Tokyo" {
      assert TokyoInfo[0] == 'T';
    } else {
      assert BaliInfo[0] == 'B';
    }
  }

  /** Different destinations never get the same answer. */
  lemma SearchDestinationsInjective(a: string, b: string)
    requires SearchDestinations(a) == SearchDestinations(b)
    ensures a == b
  {
    if a !in KnownDestinations && b !in KnownDestinations {
      var n := |"Information about "|;
      assert |a| == |b|;
      assert a == GenericInfo(a)[n..n + |a|] && b == GenericInfo(b)[n..n + |b|];
    } else if a !in KnownDestinations {
      TableEntryIsNotFallback(b, a);
    } else if b !in KnownDestinations {
      TableEntryIsNotFallback(a, b);
    }
  }

  const AvailabilitySuffix := ": Hotels from $100/night, Flights from $500 roundtrip."

  /** `check_availability(destination, dates)`: the answer opens with the destination and
      carries both arguments verbatim; nothing else in it depends on the arguments. */
  function CheckAvailability(destination: string, dates: string): (r: string)
    ensures Text.StartsWith(r, "Available for " + destination + " during ")
    ensures Text.IsSubstring(dates, r)
    ensures |r| == |"Available for " + " during " + AvailabilitySuffix| + |destination| + |dates|
  {
    var head := "Available for " + destination + " during ";
    var r := head + dates + AvailabilitySuffix;
    assert r[..|head|] == head;
    Text.SubstringOfConcat(head, dates, AvailabilitySuffix);
    r
  }

  /** With the dates fixed, the destination is determined by the answer, and vice versa. */
  lemma CheckAvailabilityInjective(d1: string, t1: string, d2: string, t2: string)
    requires CheckAvailability(d1, t1) == CheckAvailability(d2, t2)
    requires d1 == d2 || t1 == t2
    ensures d1 == d2 && t1 == t2
  {
    var r := CheckAvailability(d1, t1);
    var n := |"Available for "|;
    assert |d1| == |d2|;
    assert d1 == r[n..n + |d1|] && d2 == r[n..n + |d2|];
    var m := n + |d1| + |" during "|;
    assert t1 == r[m..m + |t1|] && t2 == r[m..m + |t2|];
  }

  /** Without that, the sentence is ambiguous: a destination that itself contains " during "
      produces the same answer as a different split of the same words. */
  lemma CheckAvailabilityAmbiguous()
    ensures CheckAvailability("Rome during May", "2026") == CheckAvailability("Rome", "May during 2026")
  {
  }
}
