/** The date-range filter of the admin lists (orders and users): the request URL built from
    the two dates, and the list state the filter drives. Date strings are taken to need no
    escaping in a query string. */
module DateFilter {
  import opened Wrappers
  import opened Text

  /** One query parameter. */
  datatype Param = Param(key: string, value: string)

  /** `params.toString()`: `key=value` pairs joined by "&". */
  function Encode(params: seq<Param>): (q: string)
    ensures params == [] <==> q == ""
  {
    if params == [] then ""
    else if |params| == 1 then params[0].key + "=" + params[0].value
    else params[0].key + "=" + params[0].value + "&" + Encode(params[1..])
  }

  /** The parameters `fetchOrders`/`fetchUsers` append: each date that is set, `fromDate` first. */
  function DateParams(from: string, to: string): seq<Param> {
    (if from != "" then [Param("fromDate", from)] else []) + (if to != "" then [Param("toDate", to)] else [])
  }

  /** The URL `fetchOrders`/`fetchUsers` request: the endpoint alone when both dates are empty,
      otherwise the endpoint, "?", and the non-empty dates with `fromDate` first. */
  function FilterUrl(endpoint: string, from: string, to: string): (url: string)
    ensures from == "" && to == "" ==> url == endpoint
    ensures from != "" && to == "" ==> url == endpoint + "?fromDate=" + from
    ensures from == "" && to != "" ==> url == endpoint + "?toDate=" + to
    ensures from != "" && to != "" ==> url == endpoint + "?fromDate=" + from + "&toDate=" + to
  {
    var params := DateParams(from, to);
    if from != "" && to != "" then
      assert params[1..] == [Param("toDate", to)];
      assert Encode(params) == "fromDate=" + from + "&" + "toDate=" + to;
      endpoint + "?" + Encode(params)
    else if Encode(params) != "" then endpoint + "?" + Encode(params) else endpoint
  }

  /** A URL with a query part exactly when some date is set: with the endpoint and the dates
      free of "?", the URL contains "?" iff a date is non-empty. */
  lemma QueryMarkIffDate(endpoint: string, from: string, to: string)
    requires '?' !in endpoint && '?' !in from && '?' !in to
    ensures '?' in FilterUrl(endpoint, from, to) <==> from != "" || to != ""
  {
    var url := FilterUrl(endpoint, from, to);
    if from != "" || to != "" {
      assert url[|endpoint|] == '?';
    } else {
      assert url == endpoint;
    }
  }

  /** The steps of `fetchOrders`/`fetchUsers`: start with the endpoint, append each non-empty
      date to the parameters in turn, and add "?" and the parameters only if there are any. */
  method BuildUrl(endpoint: string, from: string, to: string) returns (url: string)
    ensures url == FilterUrl(endpoint, from, to)
  {
    url := endpoint;
    var params: seq<Param> := [];
    if from != "" {
      params := params + [Param("fromDate", from)];
    }
    if to != "" {
      params := params + [Param("toDate", to)];
    }
    var query := Encode(params);
    if query != "" {
      url := url + "?" + query;
    }
    assert params == DateParams(from, to);
  }

  /** What the list request answers: the response data (absent is `None`), or a failure. */
  datatype ListReply<T> = Received(data: Option<seq<T>>) | RequestFailed

  /** The list, the two date inputs and the request state of a date-filtered admin list. */
  class FilteredList<T> {
    const endpoint: string
    const failureText: string
    var rows: seq<T>
    var fromDate: string
    var toDate: string
    var loading: bool
    var error: Option<string>
    ghost var requests: seq<string>

    constructor (endpoint: string, failureText: string)
      ensures this.endpoint == endpoint && this.failureText == failureText
      ensures rows == [] && fromDate == "" && toDate == "" && !loading && error.None? && requests == []
    {
      this.endpoint := endpoint;
      this.failureText := failureText;
      rows := [];
      fromDate := "";
      toDate := "";
      loading := false;
      error := None;
      requests := [];
    }

    method SetFrom(date: string)
      modifies this
      ensures fromDate == date && toDate == old(toDate) && rows == old(rows) && requests == old(requests)
      ensures loading == old(loading) && error == old(error)
    {
      fromDate := date;
    }

    method SetTo(date: string)
      modifies this
      ensures toDate == date && fromDate == old(fromDate) && rows == old(rows) && requests == old(requests)
      ensures loading == old(loading) && error == old(error)
    {
      toDate := date;
    }

    /** The fetch with the given dates: the data (`data || []`) replaces the list, and a
        failure keeps the list and shows the failure text. */
    method Fetch(from: string, to: string, reply: ListReply<T>)
      modifies this
      ensures requests == old(requests) + [FilterUrl(endpoint, from, to)]
      ensures reply.Received? ==> rows == reply.data.GetOr([]) && error.None?
      ensures reply.RequestFailed? ==> rows == old(rows) && error == Some(failureText)
      ensures !loading && fromDate == old(fromDate) && toDate == old(toDate)
    {
      loading := true;
      error := None;
      var url := BuildUrl(endpoint, from, to);
      requests := requests + [url];
      if reply.Received? {
        rows := reply.data.GetOr([]);
      } else {
        error := Some(failureText);
      }
      loading := false;
    }

    /** The "Filter" button. */
    method Filter(reply: ListReply<T>)
      modifies this
      ensures requests == old(requests) + [FilterUrl(endpoint, old(fromDate), old(toDate))]
      ensures reply.Received? ==> rows == reply.data.GetOr([]) && error.None?
      ensures reply.RequestFailed? ==> rows == old(rows) && error == Some(failureText)
      ensures !loading && fromDate == old(fromDate) && toDate == old(toDate)
    {
      Fetch(fromDate, toDate, reply);
    }

    /** The "Clear" button: both dates are emptied and the unfiltered list is requested. */
    method Clear(reply: ListReply<T>)
      modifies this
      ensures fromDate == "" && toDate == "" && !loading
      ensures requests == old(requests) + [endpoint]
      ensures reply.Received? ==> rows == reply.data.GetOr([]) && error.None?
      ensures reply.RequestFailed? ==> rows == old(rows) && error == Some(failureText)
    {
      fromDate := "";
      toDate := "";
      Fetch("", "", reply);
    }
  }
}
