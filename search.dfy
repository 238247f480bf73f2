/**
 * Everything `search_online` does except the request itself: checking the two
 * credentials first (with either one missing no request is made), degrading a failed
 * request or a response without `items` to no references, and turning each search
 * item into one formatted reference string.
 * The request itself is not modelled: its outcome is the `Fetch` input.
 */
module Search {
  import opened Wrappers
  import opened Text

  /** One entry of the decoded response's `items` list; each field may be absent. */
  datatype SearchItem = SearchItem(title: Option<string>, snippet: Option<string>, link: Option<string>)

  /** The decoded JSON response; `items` is None when the response has no `items` field. */
  datatype Response = Response(items: Option<seq<SearchItem>>)

  /** What the HTTP request produced: a decoded response, or a `RequestException`. */
  datatype Fetch = Fetched(response: Response) | RequestFailed

  /** The notice shown to the user beside the result (`st.error` / `st.warning`), or none. */
  datatype Notice = Quiet | MissingCredentials | NoItems | RequestError

  const NoTitle := "No title"
  const NoSnippet := "No snippet available"
  const NoLink := "#"

  /** Python's truth test on an environment variable: unset and empty both count as missing. */
  predicate Present(v: Option<string>) {
    v.Some? && v.value != ""
  }

  predicate HasCredentials(apiKey: Option<string>, cseId: Option<string>) {
    Present(apiKey) && Present(cseId)
  }

  /** The three values a reference displays, after the defaults are filled in. */
  datatype Shown = Shown(title: string, snippet: string, link: string)

  function ShownOf(item: SearchItem): Shown {
    Shown(item.title.GetOr(NoTitle), item.snippet.GetOr(NoSnippet), item.link.GetOr(NoLink))
  }

  function ShownAll(items: seq<SearchItem>): seq<Shown> {
    if items == [] then [] else [ShownOf(items[0])] + ShownAll(items[1..])
  }

  /** The reference string for one item: bold title, snippet, then a "Read more" link. */
  function Reference(item: SearchItem): string {
    var s := ShownOf(item);
    "**" + s.title + "**" + "\n" + s.snippet + "\n" + "[Read more](" + s.link + ")"
  }

  /** One reference per item, in the order of the items. */
  function References(items: seq<SearchItem>): (refs: seq<string>)
    ensures |refs| == |items|
    ensures forall i :: 0 <= i < |items| ==> refs[i] == Reference(items[i])
  {
    if items == [] then [] else [Reference(items[0])] + References(items[1..])
  }

  /** The references `search_online` returns for the given credentials and request outcome. */
  function SearchReferences(apiKey: Option<string>, cseId: Option<string>, fetch: Fetch): seq<string> {
    if !HasCredentials(apiKey, cseId) then []
    else match fetch
      case RequestFailed => []
      case Fetched(response) => if response.items.Some? then References(response.items.value) else []
  }

  /** `search_online`, after the request: each item is formatted and appended in turn. */
  method SearchOnline(apiKey: Option<string>, cseId: Option<string>, fetch: Fetch)
    returns (refs: seq<string>, notice: Notice)
    ensures !HasCredentials(apiKey, cseId) ==> refs == [] && notice == MissingCredentials
    ensures HasCredentials(apiKey, cseId) && fetch.RequestFailed? ==> refs == [] && notice == RequestError
    ensures HasCredentials(apiKey, cseId) && fetch.Fetched? && fetch.response.items.None? ==>
              refs == [] && notice == NoItems
    ensures HasCredentials(apiKey, cseId) && fetch.Fetched? && fetch.response.items.Some? ==>
              refs == References(fetch.response.items.value) && notice == Quiet
    ensures refs == SearchReferences(apiKey, cseId, fetch)
  {
    if !HasCredentials(apiKey, cseId) {
      return [], MissingCredentials;
    }
    match fetch {
      case RequestFailed =>
        return [], RequestError;
      case Fetched(response) =>
        refs, notice := [], Quiet;
        if response.items.Some? {
          var items := response.items.value;
          for i := 0 to |items|
            invariant |refs| == i
            invariant forall j :: 0 <= j < i ==> refs[j] == Reference(items[j])
          {
            refs := refs + [Reference(items[i])];
          }
        } else {
          notice := NoItems;
        }
    }
  }

  // Reading references back.

  /** Every displayed field of every item fits on one line. */
  predicate ItemOneLine(item: SearchItem) {
    OneLine(ShownOf(item).title) && OneLine(ShownOf(item).snippet) && OneLine(ShownOf(item).link)
  }

  predicate AllOneLine(items: seq<SearchItem>) {
    forall i :: 0 <= i < |items| ==> ItemOneLine(items[i])
  }

  /** Recovers the displayed values from the three lines of one reference. */
  function ReadReference(titleLine: string, snippetLine: string, linkLine: string): Shown {
    Shown(if |titleLine| >= 4 then titleLine[2..|titleLine| - 2] else "",
          snippetLine,
          if |linkLine| >= 13 then linkLine[12..|linkLine| - 1] else "")
  }

  /** Recovers the displayed values from consecutive three-line references. */
  function ReadReferences(lines: seq<string>): seq<Shown>
    decreases |lines|
  {
    if |lines| < 3 then [] else [ReadReference(lines[0], lines[1], lines[2])] + ReadReferences(lines[3..])
  }

  /** A reference is exactly three lines: the bold title, the snippet and the link, with the defaults applied. */
  lemma ReferenceLines(item: SearchItem)
    requires ItemOneLine(item)
    ensures Lines(Reference(item)) ==
            ["**" + ShownOf(item).title + "**", ShownOf(item).snippet, "[Read more](" + ShownOf(item).link + ")"]
  {
    var s := ShownOf(item);
    var t, l := "**" + s.title + "**", "[Read more](" + s.link + ")";
    ReferenceShape("**", s.title, "**", s.snippet, "[Read more](", s.link, ")");
    assert OneLine(t) && OneLine(l);
    ThreeLines(t, s.snippet, l);
  }

  /** A reference regrouped around its two newlines. */
  lemma ReferenceShape(open: string, title: string, close: string, snippet: string, more: string, link: string,
                       paren: string)
    ensures open + title + close + "\n" + snippet + "\n" + more + link + paren
         == (open + title + close) + "\n" + (snippet + "\n" + (more + link + paren))
  {
  }

  lemma ThreeLines(t: string, s: string, l: string)
    requires OneLine(t) && OneLine(s) && OneLine(l)
    ensures Lines(t + "\n" + (s + "\n" + l)) == [t, s, l]
  {
    LinesAround(t, s + "\n" + l);
    LinesAround(s, l);
    LinesOfOneLine(t);
    LinesOfOneLine(s);
    LinesOfOneLine(l);
  }

  /** Reading the lines of the references gives back each item's displayed values, in order. */
  lemma {:induction false} ReferencesReadBack(items: seq<SearchItem>)
    requires AllOneLine(items)
    ensures ReadReferences(LinesOfEach(References(items))) == ShownAll(items)
  {
    if items != [] {
      var refs := References(items);
      assert refs[1..] == References(items[1..]);
      assert ItemOneLine(items[0]);
      ReferenceLines(items[0]);
      var s := ShownOf(items[0]);
      var first := ["**" + s.title + "**", s.snippet, "[Read more](" + s.link + ")"];
      var rest := LinesOfEach(refs[1..]);
      assert LinesOfEach(refs) == first + rest;
      assert (first + rest)[3..] == rest;
      assert ("**" + s.title + "**")[2..|s.title| + 2] == s.title;
      assert ("[Read more](" + s.link + ")")[12..|s.link| + 12] == s.link;
      assert ReadReference(first[0], first[1], first[2]) == s;
      ReferencesReadBack(items[1..]);
    }
  }
}
