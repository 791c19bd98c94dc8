/**
 * How the client turns a request into a `URLRequest`: an absolute path is used
 * as the URL, otherwise the URL is the server prefix, the percent-encoded path
 * and the percent-encoded query string; then the HTTP method name, the headers,
 * the timeout and the body are copied across.
 *
 * Percent-encoding is Foundation's and is passed in as two string functions.
 */
module EndpointURL {
  import opened Wrappers
  import opened Strings
  import opened HTTPEndpoint
  import opened EndpointRequest

  /** How an array-valued query parameter is written. */
  datatype MultiValueQueryParameterHandling = RepeatKey | UseComma

  /** The method string the request is sent with. */
  function MethodName(m: Method): (name: string)
    ensures |name| >= 3
  {
    match m
    case Get => "GET"
    case Head => "HEAD"
    case Patch => "PATCH"
    case Post => "POST"
    case Put => "PUT"
  }

  /** Different methods are sent under different names. */
  lemma MethodNamesDistinct(m1: Method, m2: Method)
    ensures MethodName(m1) == MethodName(m2) ==> m1 == m2
  {
  }

  /** One `key=value` query component. */
  function Component(key: string, value: string): string {
    key + "=" + value
  }

  /** A repeated key: one component per value, in order. */
  function RepeatedComponents(key: string, values: seq<string>): (r: seq<string>)
    ensures |r| == |values|
    ensures forall k :: 0 <= k < |values| ==> r[k] == Component(key, values[k])
  {
    if |values| == 0 then [] else RepeatedComponents(key, values[..|values| - 1]) + [Component(key, values[|values| - 1])]
  }

  /** The components one parameter contributes. */
  function ParameterComponents(parameter: QueryParameter, handling: MultiValueQueryParameterHandling): seq<string> {
    match parameter.value
    case Single(value) => [Component(parameter.key, value)]
    case Multiple(values) =>
      if handling == RepeatKey then RepeatedComponents(parameter.key, values)
      else [Component(parameter.key, Join(values, ","))]
  }

  /** The components of all parameters, in parameter order. */
  function Components(parameters: seq<QueryParameter>, handling: MultiValueQueryParameterHandling): seq<string> {
    if |parameters| == 0 then []
    else Components(parameters[..|parameters| - 1], handling) + ParameterComponents(parameters[|parameters| - 1], handling)
  }

  /** The query string: empty without components, else `?` and the components joined with `&`. */
  function QueryString(components: seq<string>): string {
    if |components| == 0 then "" else "?" + Join(components, "&")
  }

  /** The query string grows by one component: `?` before the first, `&` before every other. */
  lemma QueryStringAppend(components: seq<string>, c: string)
    ensures QueryString(components) == "" <==> components == []
    ensures QueryString(components + [c])
         == QueryString(components) + (if components == [] then "?" else "&") + c
  {
    if components != [] {
      assert (components + [c])[..|components|] == components;
    }
  }

  /**
   * The query string round trip: a non-empty query starts with `?` and, when
   * no component contains `&`, splitting the rest at `&` gives the components
   * back; an empty one has no components.
   */
  lemma QueryStringSplits(components: seq<string>)
    requires forall k :: 0 <= k < |components| ==> '&' !in components[k]
    ensures QueryString(components) == "" <==> components == []
    ensures components != [] ==>
              QueryString(components)[0] == '?' && Split(QueryString(components)[1..], '&') == components
  {
    if components != [] {
      SplitJoin(components, '&');
      assert QueryString(components)[1..] == Join(components, "&");
    }
  }

  /**
   * With comma handling an array parameter is one component, and splitting its
   * value at `,` gives the values back when none contains a comma.
   */
  lemma CommaComponentSplits(key: string, values: seq<string>)
    requires |values| > 0
    requires forall k :: 0 <= k < |values| ==> ',' !in values[k]
    ensures var cs := ParameterComponents(QueryParameter(key, Multiple(values)), UseComma);
            |cs| == 1 && HasPrefix(cs[0], key + "=") && Split(cs[0][|key| + 1..], ',') == values
  {
    var c := Component(key, Join(values, ","));
    assert c[..|key| + 1] == key + "=";
    assert c[|key| + 1..] == Join(values, ",");
    SplitJoin(values, ',');
  }

  /** Components of consecutive parameter lists concatenate. */
  lemma {:induction false} ComponentsAppend(parameters: seq<QueryParameter>, p: QueryParameter,
                                            handling: MultiValueQueryParameterHandling)
    ensures Components(parameters + [p], handling) == Components(parameters, handling) + ParameterComponents(p, handling)
  {
    assert (parameters + [p])[..|parameters|] == parameters;
  }

  /**
   * The query-string loop: parameters in order, each appended after `?` (the
   * first) or `&` (the others) as the handling for its kind of value says.
   */
  method ComposeQueryString(parameters: seq<QueryParameter>, handling: MultiValueQueryParameterHandling)
    returns (queryString: string)
    ensures queryString == QueryString(Components(parameters, handling))
  {
    queryString := "";
    ghost var components: seq<string> := [];
    var n := 0;
    while n < |parameters|
      invariant 0 <= n <= |parameters|
      invariant components == Components(parameters[..n], handling)
      invariant queryString == QueryString(components)
    {
      var parameter := parameters[n];
      queryString := AppendParameter(queryString, components, parameter, handling);
      ComponentsAppend(parameters[..n], parameter, handling);
      assert parameters[..n + 1] == parameters[..n] + [parameter];
      components := components + ParameterComponents(parameter, handling);
      n := n + 1;
    }
    assert parameters[..n] == parameters;
  }

  /** One parameter's components, each after `?` (the first of the query) or `&`. */
  method AppendParameter(queryString: string, ghost components: seq<string>, parameter: QueryParameter,
                         handling: MultiValueQueryParameterHandling)
    returns (extended: string)
    requires queryString == QueryString(components)
    ensures extended == QueryString(components + ParameterComponents(parameter, handling))
  {
    match parameter.value {
      case Multiple(values) =>
        if handling == RepeatKey {
          extended := AppendRepeatedKey(queryString, components, parameter.key, values);
        } else {
          extended := AppendCommaSeparated(queryString, components, parameter.key, values);
        }
      case Single(value) =>
        ComponentStep(components, parameter.key, value);
        extended := queryString + (if queryString == "" then "?" else "&") + parameter.key + "=" + value;
    }
  }

  /** Repeated keys: `key=value` for every value, each after `?` or `&`. */
  method AppendRepeatedKey(queryString: string, ghost components: seq<string>, key: string, values: seq<string>)
    returns (extended: string)
    requires queryString == QueryString(components)
    ensures extended == QueryString(components + RepeatedComponents(key, values))
  {
    extended := queryString;
    var j := 0;
    assert components + RepeatedComponents(key, values[..0]) == components;
    while j < |values|
      invariant 0 <= j <= |values|
      invariant extended == QueryString(components + RepeatedComponents(key, values[..j]))
    {
      RepeatedKeyStep(components, key, values, j);
      extended := extended + (if extended == "" then "?" else "&") + key + "=" + values[j];
      j := j + 1;
    }
    assert values[..j] == values;
  }

  /** One turn of the repeated-key loop: the next component, after `?` or `&`. */
  lemma RepeatedKeyStep(components: seq<string>, key: string, values: seq<string>, j: int)
    requires 0 <= j < |values|
    ensures var before := QueryString(components + RepeatedComponents(key, values[..j]));
            QueryString(components + RepeatedComponents(key, values[..j + 1]))
            == before + (if before == "" then "?" else "&") + key + "=" + values[j]
  {
    var before := components + RepeatedComponents(key, values[..j]);
    RepeatedComponentsStep(key, values, j);
    assert components + RepeatedComponents(key, values[..j + 1]) == before + [Component(key, values[j])];
    ComponentStep(before, key, values[j]);
  }

  /** Appending one `key=value` component to the query string, after `?` or `&`. */
  lemma ComponentStep(components: seq<string>, key: string, value: string)
    ensures var before := QueryString(components);
            QueryString(components + [Component(key, value)])
            == before + (if before == "" then "?" else "&") + key + "=" + value
  {
    QueryStringAppend(components, Component(key, value));
    var lead := QueryString(components) + (if components == [] then "?" else "&");
    assert lead + Component(key, value) == lead + key + "=" + value;
  }

  /** The repeated components of one more value end with that value's component. */
  lemma RepeatedComponentsStep(key: string, values: seq<string>, j: int)
    requires 0 <= j < |values|
    ensures RepeatedComponents(key, values[..j + 1]) == RepeatedComponents(key, values[..j]) + [Component(key, values[j])]
  {
    assert values[..j + 1][..j] == values[..j];
  }

  /** One turn of the comma loop: the next value, after a comma unless it is the first. */
  lemma CommaStep(lead: string, values: seq<string>, j: int)
    requires 0 <= j < |values|
    ensures lead + Join(values[..j + 1], ",") == lead + Join(values[..j], ",") + (if j == 0 then "" else ",") + values[j]
  {
    assert values[..j + 1][..j] == values[..j];
  }

  /** Comma handling: `key=` after `?` or `&`, then the values with a comma before every one but the first. */
  method AppendCommaSeparated(queryString: string, ghost components: seq<string>, key: string, values: seq<string>)
    returns (extended: string)
    requires queryString == QueryString(components)
    ensures extended == QueryString(components + [Component(key, Join(values, ","))])
  {
    extended := queryString + (if queryString == "" then "?" else "&") + key + "=";
    ghost var lead := extended;
    var j := 0;
    while j < |values|
      invariant 0 <= j <= |values|
      invariant extended == lead + Join(values[..j], ",")
    {
      CommaStep(lead, values, j);
      extended := extended + (if j == 0 then "" else ",") + values[j];
      j := j + 1;
    }
    assert values[..j] == values;
    ComponentStep(components, key, Join(values, ","));
  }

  /** The fields of the `URLRequest` the client hands to the session. */
  datatype URLRequest = URLRequest(url: string, httpMethod: string, headerFields: map<string, string>,
                                   timeoutInterval: real, httpBody: Option<Data>)

  /**
   * `urlRequest(with:multiValueQueryParameterHandling:maximumURLLength:)`:
   * a path starting with `http` is the URL as it stands; any other path is
   * appended, percent-encoded, to the server prefix, followed by the
   * percent-encoded query string of the request's query components.
   */
  method MakeURLRequest(request: EndpointRequest.Request, serverPrefix: string,
                        handling: MultiValueQueryParameterHandling, maximumURLLength: int,
                        encodePath: string -> string, encodeQuery: string -> string)
    returns (urlRequest: URLRequest)
    ensures HasPrefix(request.path, "http") ==> urlRequest.url == request.path
    ensures !HasPrefix(request.path, "http") ==>
              urlRequest.url == serverPrefix + encodePath(request.path)
                                + encodeQuery(QueryString(Components(request.queryComponents.GetOr([]), handling)))
    ensures urlRequest.httpMethod == MethodName(request.httpMethod)
    ensures urlRequest.headerFields == request.headers.GetOr(map[])
    ensures urlRequest.timeoutInterval == request.timeoutInterval && urlRequest.httpBody == request.bodyData
  {
    var url: string;
    if HasPrefix(request.path, "http") || HasPrefix(request.path, "https") {
      url := request.path;
    } else {
      var queryString := ComposeQueryString(request.queryComponents.GetOr([]), handling);
      url := serverPrefix + encodePath(request.path) + encodeQuery(queryString);
    }
    urlRequest := URLRequest(url, MethodName(request.httpMethod), request.headers.GetOr(map[]),
                             request.timeoutInterval, request.bodyData);
  }
}
