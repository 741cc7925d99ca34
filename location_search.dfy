/**
 * The place-search box: typing schedules one search for the latest text,
 * a search of at least two characters asks the geocoder, and picking a
 * result fills the box with its label and reports the place.
 */
module LocationSearch {
  import opened Wrappers
  import opened Text

  datatype GeoResult = GeoResult(id: int, name: string, admin1: Option<string>, country: string, latitude: real, longitude: real)

  /** What the geocoder call gave: a failure (network or JSON), or a body whose `results` may be absent. */
  datatype SearchResponse = Failed | Answered(results: Option<seq<GeoResult>>)

  function NonEmpty(s: string): bool
  {
    s != ""
  }

  /** `[r.name, r.admin1, r.country].filter(Boolean)`: the non-empty parts, in order. */
  function LabelParts(r: GeoResult): (parts: seq<string>)
    ensures forall i :: 0 <= i < |parts| ==> parts[i] != ""
    ensures SubsequenceOf(parts, [r.name, r.admin1.GetOr(""), r.country])
    ensures r.name != "" ==> r.name in parts
    ensures r.admin1.Some? && r.admin1.value != "" ==> r.admin1.value in parts
    ensures r.country != "" ==> r.country in parts
  {
    var s := [r.name, r.admin1.GetOr(""), r.country];
    assert r.name != "" ==> NonEmpty(s[0]);
    assert r.admin1.Some? && r.admin1.value != "" ==> NonEmpty(s[1]);
    assert r.country != "" ==> NonEmpty(s[2]);
    Filter(s, NonEmpty)
  }

  /** The parts joined by `", "`. */
  function Label(r: GeoResult): string
  {
    Join(LabelParts(r), ", ")
  }

  /** With every part present, the label lists name, region and country. */
  lemma LabelWithRegion(r: GeoResult)
    requires r.name != "" && r.admin1.Some? && r.admin1.value != "" && r.country != ""
    ensures Label(r) == r.name + ", " + r.admin1.value + ", " + r.country
  {
    var s := [r.name, r.admin1.GetOr(""), r.country];
    assert forall i :: 0 <= i < |s| ==> NonEmpty(s[i]);
    assert LabelParts(r) == s;
    assert s[1..][1..] == [r.country];
    assert Join(s[1..][1..], ", ") == r.country;
    assert Join(s[1..], ", ") == r.admin1.value + ", " + r.country;
  }

  /** A missing or empty region is dropped together with its separator. */
  lemma LabelWithoutRegion(r: GeoResult)
    requires r.name != "" && (r.admin1.None? || r.admin1.value == "") && r.country != ""
    ensures Label(r) == r.name + ", " + r.country
  {
    var s := [r.name, r.admin1.GetOr(""), r.country];
    assert s[1..][1..] == [r.country];
    assert Filter(s[1..][1..], NonEmpty) == [r.country];
    assert Filter(s[1..], NonEmpty) == [r.country];
    assert LabelParts(r) == [r.name, r.country];
    assert [r.name, r.country][1..] == [r.country];
    assert Join([r.country], ", ") == r.country;
  }

  /** Results, dropdown flag and the query sent, after one `search(q)`. */
  datatype SearchOutcome = SearchOutcome(results: seq<GeoResult>, open: bool, request: Option<string>)

  /**
   * `search(q)`: a short query clears and closes without a request; a failed
   * request clears the results and leaves the dropdown as it was.
   */
  function AfterSearch(q: string, response: SearchResponse, wasOpen: bool): (o: SearchOutcome)
    ensures o.request.Some? <==> |q| >= 2
    ensures o.request.Some? ==> o.request.value == q
    ensures |q| < 2 ==> o.results == [] && !o.open
    ensures |q| >= 2 && response.Answered? ==> o.open && o.results == response.results.GetOr([])
    ensures |q| >= 2 && response.Failed? ==> o.results == [] && o.open == wasOpen
  {
    if |q| < 2 then SearchOutcome([], false, None)
    else match response
      case Failed => SearchOutcome([], wasOpen, Some(q))
      case Answered(results) => SearchOutcome(results.GetOr([]), true, Some(q))
  }

  /** The dropdown never shows results that no request returned. */
  lemma ResultsComeFromResponse(q: string, response: SearchResponse, wasOpen: bool)
    ensures var o := AfterSearch(q, response, wasOpen);
            o.results != [] ==> response.Answered? && response.results == Some(o.results)
  {
  }

  /** The component's state cells; `pending` is the text of the scheduled search. */
  class SearchBox {
    var query: string
    var results: seq<GeoResult>
    var searching: bool
    var open: bool
    var pending: Option<string>
    var requests: seq<string>

    /** Between handlers no search is in flight. */
    predicate Valid()
      reads this
    {
      !searching
    }

    constructor()
      ensures Valid()
      ensures query == "" && results == [] && !open && pending.None? && requests == []
    {
      query := "";
      results := [];
      searching := false;
      open := false;
      pending := None;
      requests := [];
    }

    method Search(q: string, response: SearchResponse)
      requires Valid()
      modifies this
      ensures Valid()
      ensures var o := AfterSearch(q, response, old(open));
              results == o.results && open == o.open
              && requests == old(requests) + (if o.request.Some? then [q] else [])
      ensures query == old(query) && pending == old(pending)
    {
      if |q| < 2 {
        results := [];
        open := false;
        return;
      }
      searching := true;
      requests := requests + [q];
      match response {
        case Answered(rs) =>
          results := rs.GetOr([]);
          open := true;
        case Failed =>
          results := [];
      }
      searching := false;
    }

    /** `handleChange`: the text shows at once and replaces any scheduled search. */
    method HandleChange(val: string)
      requires Valid()
      modifies this
      ensures Valid()
      ensures query == val && pending == Some(val)
      ensures results == old(results) && open == old(open) && requests == old(requests)
    {
      query := val;
      pending := Some(val);
    }

    /** The debounce timer firing: the one scheduled search runs. */
    method FirePending(response: SearchResponse)
      requires Valid()
      modifies this
      ensures Valid()
      ensures pending.None?
      ensures old(pending).None? ==> results == old(results) && open == old(open) && requests == old(requests)
      ensures old(pending).Some? ==>
                var o := AfterSearch(old(pending).value, response, old(open));
                results == o.results && open == o.open
                && requests == old(requests) + (if o.request.Some? then [old(pending).value] else [])
      ensures query == old(query)
    {
      if pending.Some? {
        var q := pending.value;
        pending := None;
        Search(q, response);
      }
    }

    /** `handleSelect`: fill in the label, close, and report the place once. */
    method HandleSelect(r: GeoResult) returns (lat: real, lon: real, name: string)
      requires Valid()
      modifies this
      ensures Valid()
      ensures query == Label(r) && !open
      ensures lat == r.latitude && lon == r.longitude && name == Label(r)
      ensures results == old(results) && pending == old(pending) && requests == old(requests)
    {
      var text := Label(r);
      query := text;
      open := false;
      lat, lon, name := r.latitude, r.longitude, text;
    }
  }

  /** Two quick edits leave a single search scheduled, for the later text. */
  method TypeTwice(box: SearchBox, first: string, second: string)
    requires box.Valid()
    modifies box
    ensures box.Valid() && box.pending == Some(second) && box.query == second
    ensures box.requests == old(box.requests)
  {
    box.HandleChange(first);
    box.HandleChange(second);
  }
}
