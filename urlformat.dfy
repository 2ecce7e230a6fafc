/** The URL builders the provider calls before every request to the
    collections API. */
module UrlFormat {
  import opened Text
  import opened Dicts

  /** `build_url_with_optional_param`, given the environment variable's value:
      a non-empty value is appended as `name=value` after `?` for the first
      parameter and `&` otherwise; a missing or empty one leaves the URL. */
  function UrlWithOptionalParam(baseUrl: string, paramName: string, envValue: Option<string>,
                                isFirstParam: bool): (url: string)
    ensures StartsWith(url, baseUrl)
    ensures envValue.None? || envValue.value == "" ==> url == baseUrl
    ensures envValue.Some? && envValue.value != "" ==>
              url[|baseUrl|..] == (if isFirstParam then "?" else "&") + paramName + "=" + envValue.value
  {
    if envValue.Some? && envValue.value != "" then
      var separator := if isFirstParam then "?" else "&";
      var url := baseUrl + separator + paramName + "=" + envValue.value;
      assert url[..|baseUrl|] == baseUrl;
      assert url[|baseUrl|..] == separator + paramName + "=" + envValue.value;
      url
    else baseUrl
  }

  /** `base_url.rstrip('/') + '/' + path.lstrip('/')`: the two parts joined by
      exactly one slash. */
  function JoinPath(baseUrl: string, path: string): (url: string)
    ensures var b := RStrip(baseUrl, IsSlash);
            && |url| == |b| + 1 + |LStrip(path, IsSlash)|
            && StartsWith(baseUrl, b) && url[..|b|] == b && url[|b|] == '/'
            && (b == [] || url[|b| - 1] != '/')
            && (|url| == |b| + 1 || url[|b| + 1] != '/')
            && url[|b| + 1..] == LStrip(path, IsSlash)
  {
    var b := RStrip(baseUrl, IsSlash);
    var p := LStrip(path, IsSlash);
    var url := b + "/" + p;
    assert url[..|b|] == b && url[|b| + 1..] == p;
    url
  }

  /** A base without a trailing slash and a path without a leading one are
      joined with one slash between them and nothing else changed. */
  lemma JoinPathPlain(baseUrl: string, path: string)
    requires baseUrl == [] || baseUrl[|baseUrl| - 1] != '/'
    requires path == [] || path[0] != '/'
    ensures JoinPath(baseUrl, path) == baseUrl + "/" + path
  {
    CountTrailingNone(baseUrl, IsSlash);
    CountLeadingNone(path, IsSlash);
    assert baseUrl[..|baseUrl|] == baseUrl;
    assert path[0..] == path;
  }

  /** `path_template.replace(f":{key}", quote(value))` for each path variable,
      in dict order. A template with no colon has no placeholder, so no path
      variable changes it. */
  function SubstitutePath(template: string, pathVars: seq<(string, string)>,
                          quote: string -> string): (r: string)
    ensures (forall i :: 0 <= i < |template| ==> template[i] != ':') ==> r == template
  {
    if pathVars == [] then template
    else
      var n := |pathVars| - 1;
      var prev := SubstitutePath(template, pathVars[..n], quote);
      ColonFreeReplace(prev, pathVars[n].0, quote(pathVars[n].1));
      ReplaceAll(prev, ":" + pathVars[n].0, quote(pathVars[n].1))
  }

  /** A text with no occurrence of the pattern is left as it is. */
  lemma ReplaceAbsent(s: string, p: string, q: string)
    requires |p| > 0 && forall j :: !OccursAt(s, p, j)
    ensures ReplaceAll(s, p, q) == s
  {
  }

  lemma SliceHead(s: string, p: string, j: int)
    requires 0 <= j && j + |p| <= |s| && |p| > 0
    ensures s[j..j + |p|][0] == s[j]
  {
  }

  /** A text with no colon has no placeholder to replace. */
  lemma ColonFreeReplace(s: string, key: string, q: string)
    ensures (forall i :: 0 <= i < |s| ==> s[i] != ':') ==> ReplaceAll(s, ":" + key, q) == s
  {
    if forall i :: 0 <= i < |s| ==> s[i] != ':' {
      var p := ":" + key;
      forall j ensures !OccursAt(s, p, j) {
        if 0 <= j && j + |p| <= |s| {
          SliceHead(s, p, j);
        }
      }
      ReplaceAbsent(s, p, q);
    }
  }

  /** The query parameters whose value is not None, in order. */
  function WithoutNone(params: seq<(string, Option<string>)>): (r: seq<(string, string)>)
    ensures |r| <= |params|
    ensures forall k, v :: (k, v) in r <==> (k, Some(v)) in params
  {
    if params == [] then []
    else
      var rest := WithoutNone(params[1..]);
      assert forall x :: x in params <==> x == params[0] || x in params[1..];
      if params[0].1.Some? then [(params[0].0, params[0].1.value)] + rest else rest
  }

  /** Parameters that are all None leave nothing to encode. */
  lemma {:induction false} WithoutNoneAllNone(params: seq<(string, Option<string>)>)
    requires forall i :: 0 <= i < |params| ==> params[i].1.None?
    ensures WithoutNone(params) == []
  {
    if params != [] {
      WithoutNoneAllNone(params[1..]);
    }
  }

  /** `build_dynamic_url`: placeholders replaced by the quoted path variables,
      base and path joined by one slash, then `?` and the encoded non-None
      query parameters when any parameters were given. */
  function DynamicUrl(baseUrl: string, pathTemplate: string, pathVars: Option<seq<(string, string)>>,
                      queryParams: Option<seq<(string, Option<string>)>>,
                      quote: string -> string, urlencode: seq<(string, string)> -> string)
    : (url: string)
    ensures var path := UrlPath(baseUrl, pathTemplate, pathVars, quote);
            && StartsWith(url, path)
            && (queryParams.None? || queryParams.value == [] ==> url == path)
            && (queryParams.Some? && queryParams.value != [] ==>
                  url[|path|..] == "?" + urlencode(WithoutNone(queryParams.value)))
  {
    var path := UrlPath(baseUrl, pathTemplate, pathVars, quote);
    if queryParams.Some? && queryParams.value != [] then
      var query := "?" + urlencode(WithoutNone(queryParams.value));
      PrefixParts(path, query);
      path + query
    else
      PrefixParts(path, "");
      path
  }

  /** The part of a dynamic URL before its query: the base joined to the
      template with its placeholders replaced. */
  function UrlPath(baseUrl: string, pathTemplate: string, pathVars: Option<seq<(string, string)>>,
                   quote: string -> string): string
  {
    var vars := if pathVars.Some? then pathVars.value else [];
    JoinPath(baseUrl, SubstitutePath(pathTemplate, vars, quote))
  }

  /** A text followed by another starts with the first, and the rest is the second. */
  lemma PrefixParts(p: string, t: string)
    ensures StartsWith(p + t, p) && (p + t)[|p|..] == t
  {
    assert (p + t)[..|p|] == p;
  }

  /** Parameters that are all None still give a `?`, followed by the encoding
      of no parameters. */
  lemma AllNoneQuery(baseUrl: string, pathTemplate: string, params: seq<(string, Option<string>)>,
                     quote: string -> string, urlencode: seq<(string, string)> -> string)
    requires params != [] && forall i :: 0 <= i < |params| ==> params[i].1.None?
    ensures DynamicUrl(baseUrl, pathTemplate, None, Some(params), quote, urlencode)
            == JoinPath(baseUrl, pathTemplate) + "?" + urlencode([])
  {
    WithoutNoneAllNone(params);
  }

  /** The loop of `build_dynamic_url`. */
  method BuildDynamicUrl(baseUrl: string, pathTemplate: string, pathVars: Option<seq<(string, string)>>,
                         queryParams: Option<seq<(string, Option<string>)>>,
                         quote: string -> string, urlencode: seq<(string, string)> -> string)
    returns (url: string)
    ensures url == DynamicUrl(baseUrl, pathTemplate, pathVars, queryParams, quote, urlencode)
  {
    var template := pathTemplate;
    if pathVars.Some? && pathVars.value != [] {
      var vars := pathVars.value;
      var i := 0;
      while i < |vars|
        invariant 0 <= i <= |vars|
        invariant template == SubstitutePath(pathTemplate, vars[..i], quote)
      {
        assert vars[..i + 1][..i] == vars[..i];
        var (key, value) := vars[i];
        template := ReplaceAll(template, ":" + key, quote(value));
        i := i + 1;
      }
      assert vars[..i] == vars;
    }
    url := JoinPath(baseUrl, template);
    if queryParams.Some? && queryParams.value != [] {
      url := url + "?" + urlencode(WithoutNone(queryParams.value));
    }
  }
}
