/**
 * The logic of the search component in anime/src/search.jsx: the request it
 * sends (`fetchAnime`), how a result list and each result card are labelled,
 * and how the query and the dropdown's open state react to typing
 * (`handleSearch`, debounced) and to `searchAnime`.
 */
module Search {
  import opened Wrappers
  import opened Js
  import opened Retry
  import opened Debounce

  // ---------------------------------------------------------------------
  // fetchAnime

  const SearchPrefix: string := "https://api.jikan.moe/v4/anime?q="
  const SearchSuffix: string := "&limit=5"
  const FetchFailedMessage: string := "Failed to fetch anime data"

  /** The request URL; the query is inserted as it is, without URL encoding. */
  function SearchUrl(query: string): (url: string)
    ensures |url| == |SearchPrefix| + |query| + |SearchSuffix|
    ensures url[..|SearchPrefix|] == SearchPrefix
    ensures url[|SearchPrefix|..|url| - |SearchSuffix|] == query
    ensures url[|url| - |SearchSuffix|..] == SearchSuffix
  {
    SearchPrefix + query + SearchSuffix
  }

  /** Different queries are sent to different URLs: the query can be read back from the URL. */
  lemma SearchUrlInjective(a: string, b: string)
    requires SearchUrl(a) == SearchUrl(b)
    ensures a == b
  {
    var u := SearchUrl(a);
    assert a == u[|SearchPrefix|..|u| - |SearchSuffix|];
  }

  /**
   * `fetchAnime(query)` given what `fetch` answers for each URL and what
   * `response.json()` makes of a body: a rejected fetch and a non-OK status
   * throw, and an OK response yields `data.data || []`.
   */
  function FetchAnime(query: string, fetch: string -> Outcome, parse: string -> Option<Value>)
    : (r: Result<Value, Exception>)
    ensures fetch(SearchUrl(query)).Reply? && !IsOk(fetch(SearchUrl(query))) ==> r == Err(Error(FetchFailedMessage))
    ensures r.Ok? ==> IsOk(fetch(SearchUrl(query))) && Truthy(r.value)
  {
    var response := fetch(SearchUrl(query));
    if response.NetErr? then Err(TypeError)
    else if !IsOk(response) then Err(Error(FetchFailedMessage))
    else match parse(response.body)
      case None => Err(SyntaxError)
      case Some(data) =>
        match Member(data, "data")
        case Err(e) => Err(e)
        case Ok(field) => Ok(Or(field, Array([])))
  }

  /** On an OK response carrying an object, the result is its `data` field when truthy, `[]` when missing or falsy. */
  lemma FetchAnimeData(query: string, fetch: string -> Outcome, parse: string -> Option<Value>,
                       fields: map<string, Value>)
    requires IsOk(fetch(SearchUrl(query)))
    requires parse(fetch(SearchUrl(query)).body) == Some(Object(fields))
    ensures "data" in fields && Truthy(fields["data"]) ==> FetchAnime(query, fetch, parse) == Ok(fields["data"])
    ensures !("data" in fields && Truthy(fields["data"])) ==> FetchAnime(query, fetch, parse) == Ok(Array([]))
  {
  }

  // ---------------------------------------------------------------------
  // The result list and ListCard

  /** What the dropdown's result area shows for the query's `data`. */
  datatype View =
    | NoList                    // `data &&` is falsy: nothing is rendered
    | NoResults                 // "No results found"
    | Cards(items: seq<Value>)  // one ListCard per element, in order
    | NotAList                  // a truthy non-array value

  function ResultsView(data: Value): (v: View)
    ensures v == NoList <==> !Truthy(data)
    ensures v == NoResults <==> data == Array([])
    ensures v.Cards? <==> data.Array? && |data.items| > 0
    ensures v.Cards? ==> v.items == data.items
  {
    if !Truthy(data) then NoList
    else match data
      case Array(items) => if |items| > 0 then Cards(items) else NoResults
      case _ => NotAList
  }

  /** Whatever fetchAnime resolves with is truthy, so the `data &&` branch always renders. */
  lemma FetchedDataIsListed(query: string, fetch: string -> Outcome, parse: string -> Option<Value>)
    requires FetchAnime(query, fetch, parse).Ok?
    ensures ResultsView(FetchAnime(query, fetch, parse).value) != NoList
  {
  }

  const TitleLimit: nat := 30
  const Ellipsis: string := "..."

  /** The card heading: titles longer than 30 characters are cut to 30 and get "..." appended. */
  function TitleLabel(title: string): (heading: string)
    ensures |heading| <= TitleLimit + |Ellipsis|
    ensures var m := if |title| < TitleLimit then |title| else TitleLimit;
      |heading| >= m && heading[..m] == title[..m]
    ensures |title| > TitleLimit ==> |heading| == TitleLimit + |Ellipsis| && heading[TitleLimit..] == Ellipsis
  {
    if |title| > TitleLimit then title[..TitleLimit] + Ellipsis else title
  }

  /**
   * The heading equals the title exactly for titles of at most 30
   * characters and for 33-character titles that already end in "...".
   */
  lemma TitleLabelUnchanged(title: string)
    ensures TitleLabel(title) == title <==> |title| <= TitleLimit || (|title| == 33 && title[30..] == Ellipsis)
  {
    if |title| == 33 && title[30..] == Ellipsis {
      assert title == title[..30] + title[30..];
    }
  }

  /** Labelling a heading again changes nothing. */
  lemma TitleLabelIdempotent(title: string)
    ensures TitleLabel(TitleLabel(title)) == TitleLabel(title)
  {
    var h := TitleLabel(title);
    if |title| > TitleLimit {
      assert h[..TitleLimit] == title[..TitleLimit];
    }
  }

  /** `anime.episodes ? anime.episodes : "N/A"`. */
  function EpisodesShown(episodes: Value): (shown: Value)
    ensures Truthy(shown)
    ensures shown == episodes <==> Truthy(episodes)
    ensures !Truthy(episodes) ==> shown == Str("N/A")
  {
    if Truthy(episodes) then episodes else Str("N/A")
  }

  /** A missing field, `null` and 0 all show "N/A"; any other count shows itself. */
  lemma EpisodesCases(anime: map<string, Value>, n: int)
    ensures "episodes" !in anime ==> EpisodesShown(Member(Object(anime), "episodes").value) == Str("N/A")
    ensures EpisodesShown(Null) == Str("N/A") && EpisodesShown(Number(0)) == Str("N/A")
    ensures n != 0 ==> EpisodesShown(Number(n)) == Number(n)
  {
  }

  // ---------------------------------------------------------------------
  // String.prototype.trim

  /** ECMAScript WhiteSpace and LineTerminator code points (what `trim` removes). */
  predicate IsSpace(c: char) {
    c == '\t' || c == '\U{0B}' || c == '\U{0C}' || c == ' ' || c == '\U{A0}' || c == '\U{FEFF}' ||
    c == '\n' || c == '\r' || c == '\U{2028}' || c == '\U{2029}' ||
    c == '\U{1680}' || ('\U{2000}' <= c <= '\U{200A}') || c == '\U{202F}' || c == '\U{205F}' || c == '\U{3000}'
  }

  /** The index of the first non-space character (or |s|). */
  function TrimStart(s: string, from: nat): (k: nat)
    requires from <= |s|
    ensures from <= k <= |s|
    ensures forall i :: from <= i < k ==> IsSpace(s[i])
    ensures k < |s| ==> !IsSpace(s[k])
    decreases |s| - from
  {
    if from == |s| || !IsSpace(s[from]) then from else TrimStart(s, from + 1)
  }

  /** The index just past the last non-space character of s[lo..hi] (or `lo` when there is none). */
  function TrimEnd(s: string, lo: nat, hi: nat): (k: nat)
    requires lo <= hi <= |s|
    ensures lo <= k <= hi
    ensures forall i :: k <= i < hi ==> IsSpace(s[i])
    ensures k > lo ==> !IsSpace(s[k - 1])
    decreases hi
  {
    if hi == lo || !IsSpace(s[hi - 1]) then hi else TrimEnd(s, lo, hi - 1)
  }

  /** `s.trim()`: a piece of `s` that neither starts nor ends with a space. */
  function Trim(s: string): (t: string)
    ensures |t| <= |s|
    ensures t != [] ==> !IsSpace(t[0]) && !IsSpace(t[|t| - 1])
    ensures (forall k :: 0 <= k < |s| ==> !IsSpace(s[k])) ==> t == s
  {
    var i := TrimStart(s, 0);
    s[i..TrimEnd(s, i, |s|)]
  }

  /**
   * `trim` keeps one contiguous run of `s`: everything cut off is space, and
   * the result neither starts nor ends with a space.
   */
  lemma TrimShape(s: string)
    ensures exists i, j ::
      && 0 <= i <= j <= |s| && Trim(s) == s[i..j]
      && (forall k :: 0 <= k < i ==> IsSpace(s[k]))
      && (forall k :: j <= k < |s| ==> IsSpace(s[k]))
    ensures Trim(s) != [] ==> !IsSpace(Trim(s)[0]) && !IsSpace(Trim(s)[|Trim(s)| - 1])
  {
    var i := TrimStart(s, 0);
    var j := TrimEnd(s, i, |s|);
    assert Trim(s) == s[i..j];
  }

  /** The trimmed value is empty exactly when the input is all spaces. */
  lemma TrimEmpty(s: string)
    ensures Trim(s) == [] <==> forall k :: 0 <= k < |s| ==> IsSpace(s[k])
  {
    var i := TrimStart(s, 0);
    var j := TrimEnd(s, i, |s|);
    if Trim(s) == [] {
      assert i == j;
    }
  }

  /** Trimming twice is trimming once. */
  lemma TrimIdempotent(s: string)
    ensures Trim(Trim(s)) == Trim(s)
  {
    var t := Trim(s);
    TrimShape(s);
    var i := TrimStart(t, 0);
    assert i == 0;
    var j := TrimEnd(t, 0, |t|);
    assert j == |t|;
    assert t[0..|t|] == t;
  }

  // ---------------------------------------------------------------------
  // Component state

  /** The Search component's state: the dropdown flag, the query, and the debounced input handler. */
  class SearchBox {
    var isOpen: bool
    var searchQuery: string
    var refetches: nat  // how many times `refetch()` has been called
    const input: Debouncer<string>

    ghost predicate Valid()
      reads this, input
    {
      input.Valid()
    }

    /** `useState(false)`, `useState("")`, and a fresh debounced handler (`useMemo`). */
    constructor ()
      ensures Valid() && fresh(input)
      ensures !isOpen && searchQuery == "" && refetches == 0
      ensures input.pending == None && input.history == []
    {
      isOpen := false;
      searchQuery := "";
      refetches := 0;
      input := new Debouncer<string>();
    }

    /** `searchAnime(query)`: an empty query changes nothing; otherwise store it, refetch, open. */
    method SearchAnime(query: string)
      modifies this
      ensures query == "" ==> isOpen == old(isOpen) && searchQuery == old(searchQuery) && refetches == old(refetches)
      ensures query != "" ==> searchQuery == query && isOpen && refetches == old(refetches) + 1
    {
      if query == "" {
        return;
      }
      searchQuery := query;
      refetches := refetches + 1;
      isOpen := true;
    }

    /** The debounced callback's body: store the trimmed value, and close the dropdown when it is empty. */
    method ApplyInput(value: string)
      modifies this
      ensures searchQuery == Trim(value)
      ensures isOpen == (old(isOpen) && Trim(value) != "")
      ensures refetches == old(refetches)
    {
      var trimmed := Trim(value);
      searchQuery := trimmed;
      if trimmed == "" {
        isOpen := false;
      }
    }

    /** `onChange={handleSearch}`: only the debouncer's slot changes. */
    method HandleSearch(value: string)
      requires Valid()
      modifies input
      ensures Valid()
      ensures input.pending == Some(value) && input.history == old(input.history) + [Call(value)]
      ensures isOpen == old(isOpen) && searchQuery == old(searchQuery) && refetches == old(refetches)
    {
      input.Invoke(value);
    }

    /** The debounce timer expires: the callback runs once, with the latest typed value, if one is pending. */
    method TimerExpires()
      requires Valid()
      modifies this, input
      ensures Valid()
      ensures input.pending == None && input.history == old(input.history) + [Tick]
      ensures old(input.pending) == None ==>
        isOpen == old(isOpen) && searchQuery == old(searchQuery) && refetches == old(refetches)
      ensures old(input.pending).Some? ==>
        var v := Trim(old(input.pending).value);
        searchQuery == v && isOpen == (old(isOpen) && v != "") && refetches == old(refetches)
    {
      var run := input.Elapse();
      if run.Some? {
        ApplyInput(run.value);
      }
    }
  }
}
