/**
 * The customer's rentals page: the page of rentals split into active ones
 * and history, and the date formatter that tolerates missing dates.
 */
module MyRentalsPage {
  import opened Wrappers
  import opened Types

  const Returned := "RETURNED"

  /** `data?.results ?? []`. */
  function RentalsOf(data: Option<Paginated<Rental>>): seq<Rental>
  {
    if data.Some? then data.value.results else []
  }

  /** `rentals.filter(r => r.status !== "RETURNED")`. */
  function Active(rentals: seq<Rental>): seq<Rental>
  {
    if rentals == [] then []
    else (if rentals[0].status != Returned then [rentals[0]] else []) + Active(rentals[1..])
  }

  /** `rentals.filter(r => r.status === "RETURNED")`. */
  function History(rentals: seq<Rental>): seq<Rental>
  {
    if rentals == [] then []
    else (if rentals[0].status == Returned then [rentals[0]] else []) + History(rentals[1..])
  }

  /**
   * Every rental lands in exactly one of the two lists: the active list holds
   * exactly those not returned and the history exactly the returned ones,
   * with nothing lost or duplicated.
   */
  lemma {:induction false} Partition(rentals: seq<Rental>)
    ensures |Active(rentals)| + |History(rentals)| == |rentals|
    ensures multiset(Active(rentals)) + multiset(History(rentals)) == multiset(rentals)
    ensures forall r :: r in Active(rentals) <==> r in rentals && r.status != Returned
    ensures forall r :: r in History(rentals) <==> r in rentals && r.status == Returned
  {
    if rentals != [] {
      Partition(rentals[1..]);
      assert rentals == [rentals[0]] + rentals[1..];
    }
  }

  /** Both lists keep the page's order: filtering a concatenation concatenates the filtered parts. */
  lemma FiltersKeepOrder(a: seq<Rental>, b: seq<Rental>)
    ensures Active(a + b) == Active(a) + Active(b)
    ensures History(a + b) == History(a) + History(b)
  {
    ActiveKeepsOrder(a, b);
    HistoryKeepsOrder(a, b);
  }

  lemma {:induction false} ActiveKeepsOrder(a: seq<Rental>, b: seq<Rental>)
    ensures Active(a + b) == Active(a) + Active(b)
  {
    if a == [] {
      assert a + b == b;
    } else {
      var head := if a[0].status != Returned then [a[0]] else [];
      assert (a + b)[0] == a[0];
      assert (a + b)[1..] == a[1..] + b;
      assert Active(a + b) == head + Active(a[1..] + b);
      ActiveKeepsOrder(a[1..], b);
      assert Active(a) == head + Active(a[1..]);
    }
  }

  lemma {:induction false} HistoryKeepsOrder(a: seq<Rental>, b: seq<Rental>)
    ensures History(a + b) == History(a) + History(b)
  {
    if a == [] {
      assert a + b == b;
    } else {
      var head := if a[0].status == Returned then [a[0]] else [];
      assert (a + b)[0] == a[0];
      assert (a + b)[1..] == a[1..] + b;
      assert History(a + b) == head + History(a[1..] + b);
      HistoryKeepsOrder(a[1..], b);
      assert History(a) == head + History(a[1..]);
    }
  }

  /** Before any page has arrived both lists are empty. */
  lemma NoDataNoRentals()
    ensures Active(RentalsOf(None)) == [] && History(RentalsOf(None)) == []
  {
  }

  const Dash := "—"

  /**
   * `formatDate`: a missing or empty date and an unparseable one read as a
   * dash; `parse` stands for `new Date(text)` (`None` for an invalid date) and
   * `format` for the `MMM d, yyyy` formatter.
   */
  function FormatDate(date: Option<string>, parse: string -> Option<int>, format: int -> string): (r: string)
    ensures date.None? || date == Some("") ==> r == Dash
    ensures r != Dash ==> date.Some? && date.value != "" && parse(date.value).Some? && r == format(parse(date.value).value)
  {
    if date.None? || date.value == "" then Dash
    else match parse(date.value)
      case None => Dash
      case Some(t) => format(t)
  }
}
