/** Where a schedule publishes: what Destination.Validate accepts. */
module Destinations {
  import opened Options

  /** What the URL parser makes of a request URI. */
  datatype Url = Url(scheme: string, host: string)

  /** `parsed` is None where the URL does not parse. */
  datatype Http = Http(url: string, parsed: Option<Url>, method_: string)

  datatype Email = Email(
    host: string,
    port: int,
    usernameSecret: string,
    passwordSecret: string,
    from: string,
    to: seq<string>,
    format: string)

  /** The kinds without checks of their own are left out. */
  datatype Destination = Destination(when: string, http: Option<Http>, email: Option<Email>)

  /** White space as strings.TrimSpace knows it. */
  predicate Space(c: char) {
    var n := c as int;
    || 9 <= n <= 13 || n == 0x20 || n == 0x85 || n == 0xa0 || n == 0x1680 || 0x2000 <= n <= 0x200a
    || n == 0x2028 || n == 0x2029 || n == 0x202f || n == 0x205f || n == 0x3000
  }

  predicate Blank(s: string) {
    forall i :: 0 <= i < |s| ==> Space(s[i])
  }

  predicate ValidHttp(h: Http) {
    && h.url != "" && h.parsed.Some?
    && h.parsed.value.scheme in {"http", "https"} && h.parsed.value.host != ""
    && h.method_ in {"", "GET", "POST", "PUT", "PATCH", "DELETE"}
  }

  predicate ValidEmail(e: Email) {
    && e.host != "" && e.usernameSecret != "" && e.passwordSecret != "" && e.from != "" && e.to != []
    && (forall i :: 0 <= i < |e.to| ==> !Blank(e.to[i]))
    && 0 <= e.port <= 65535
    && e.format in {"", "html", "text"}
  }

  predicate ValidDestination(d: Destination) {
    && d.when in {"", "always", "on_success", "on_failure"}
    && (d.http.Some? ==> ValidHttp(d.http.value))
    && (d.email.Some? ==> ValidEmail(d.email.value))
  }

  predicate AllValid(ds: seq<Destination>) {
    forall i :: 0 <= i < |ds| ==> ValidDestination(ds[i])
  }

  method CheckHttp(h: Http) returns (ok: bool)
    ensures ok <==> ValidHttp(h)
  {
    if h.url == "" { return false; }
    if h.parsed.None? || (h.parsed.value.scheme != "http" && h.parsed.value.scheme != "https") { return false; }
    if h.parsed.value.host == "" { return false; }
    return h.method_ in {"", "GET", "POST", "PUT", "PATCH", "DELETE"};
  }

  /** strings.TrimSpace leaves nothing. */
  method TrimsToNothing(s: string) returns (blank: bool)
    ensures blank <==> Blank(s)
  {
    for i := 0 to |s|
      invariant forall j :: 0 <= j < i ==> Space(s[j])
    {
      if s[i] !in "\t\n\U{0B}\U{0C}\r \U{85}\U{A0}\U{1680}\U{2028}\U{2029}\U{202F}\U{205F}\U{3000}"
        && !('\U{2000}' <= s[i] <= '\U{200A}')
      {
        return false;
      }
    }
    return true;
  }

  method CheckEmail(e: Email) returns (ok: bool)
    ensures ok <==> ValidEmail(e)
  {
    if e.host == "" || e.usernameSecret == "" || e.passwordSecret == "" || e.from == "" { return false; }
    if |e.to| == 0 { return false; }
    for i := 0 to |e.to|
      invariant forall j :: 0 <= j < i ==> !Blank(e.to[j])
    {
      var blank := TrimsToNothing(e.to[i]);
      if blank { return false; }
    }
    if e.port != 0 && (e.port < 1 || e.port > 65535) { return false; }
    return e.format == "" || e.format == "html" || e.format == "text";
  }

  method CheckDestinations(ds: seq<Destination>) returns (ok: bool)
    ensures ok <==> AllValid(ds)
  {
    for i := 0 to |ds|
      invariant forall j :: 0 <= j < i ==> ValidDestination(ds[j])
    {
      var d := ds[i];
      if d.when !in {"", "always", "on_success", "on_failure"} { return false; }
      if d.http.Some? {
        var fine := CheckHttp(d.http.value);
        if !fine { return false; }
      }
      if d.email.Some? {
        var fine := CheckEmail(d.email.value);
        if !fine { return false; }
      }
    }
    return true;
  }
}
