/**
 * The scraping run (`LeafletScraper` in main.py) over an abstract web: a fetch
 * returns either nothing (the request raised) or a page as the CSS selectors see
 * it, namely the retailer links of the directory page and the leaflet fragments
 * of a listing page.
 */
module Scraper {
  import opened Wrappers
  import opened DateRange
  import opened Leaflets
  import opened Collection

  /** A retailer link (`#left-category-shops > li > a`): its text and its `href`, if present. */
  datatype Link = Link(text: string, href: Option<string>)

  /** The thumbnail element (`picture img`) of a fragment: its `src` attribute, if present. */
  datatype Image = Image(src: Option<string>)

  /**
   * One leaflet fragment (`.page-body div.brochure-thumb`): the first thumbnail
   * element and the text of the first date element, each if present.
   */
  datatype Fragment = Fragment(image: Option<Image>, dateText: Option<string>)

  /** A fetched page, reduced to what the selectors pick out of it. */
  datatype Page = Page(links: seq<Link>, fragments: seq<Fragment>)

  /** What aborts a run. */
  datatype Failure =
    | FetchFailed(url: string)  // the request raised (connection error, timeout)
    | NoImage                   // `select_one('picture img')` found nothing
    | NoSrc                     // the image has no `src` attribute
    | NoDateText                // the date element is missing

  /** The HTTP client followed by the parser: `None` when the request raises. */
  type Fetcher = string -> Option<Page>

  /** The wall clock: the timestamp taken for fragment `j` of link `i`. */
  type Clock = (nat, nat) -> string

  /**
   * A date-range parser: the start and end text it finds in a fragment's date text.
   * The scraper uses `ParseDateRange`; the run's structure does not depend on it.
   */
  type DateParser = string -> (string, string)

  const BaseUrl: string := "https://www.prospektmaschine.de"
  const DirectoryPath: string := "/hypermarkte/"
  const LeafletTitle: string := "Prospekt"

  // ----- link handling -----------------------------------------------------------

  /** The number of whitespace characters at the end of `s`. */
  function TrailingSpaces(s: string): (n: nat)
    ensures n <= |s| && SpacesIn(s, |s| - n, |s|)
    ensures n == |s| || !IsSpace(s[|s| - n - 1])
    decreases |s|
  {
    if s != [] && IsSpace(s[|s| - 1]) then 1 + TrailingSpaces(s[..|s| - 1]) else 0
  }

  /**
   * `str.strip()`: the text between the leading and the trailing whitespace.  The
   * result is empty exactly when the text is all whitespace, never begins or ends
   * with whitespace, and is what is left after removing only whitespace.
   */
  function Strip(s: string): (r: string)
    ensures r == [] <==> SpacesIn(s, 0, |s|)
    ensures r != [] ==> !IsSpace(r[0]) && !IsSpace(r[|r| - 1])
    ensures exists a | 0 <= a <= |s| - |r| :: r == s[a .. a + |r|] && SpacesIn(s, 0, a) && SpacesIn(s, a + |r|, |s|)
  {
    var a := SpaceRun(s, 0);
    if a == |s| then
      assert s[0 .. 0] == [];
      []
    else
      var b := |s| - TrailingSpaces(s);
      assert a < b;
      var r := s[a .. b];
      assert r[0] == s[a] && r[|r| - 1] == s[b - 1];
      r
  }

  /** Stripping twice strips nothing more. */
  lemma StripIdempotent(s: string)
    ensures Strip(Strip(s)) == Strip(s)
  {
    var r := Strip(s);
    if r != [] {
      assert SpaceRun(r, 0) == 0;
      assert TrailingSpaces(r) == 0;
      assert r[0 .. |r|] == r;
    }
  }

  /** The listing URL: the base URL followed by the `href` as an f-string renders it (a missing one as "None"). */
  function LinkUrl(l: Link): (url: string)
    ensures BaseUrl <= url
    ensures l.href.Some? ==> url == BaseUrl + l.href.value
    ensures l.href.None? ==> url == BaseUrl + "None"
  {
    BaseUrl + (match l.href case Some(h) => h case None => "None")
  }

  // ----- one fragment ------------------------------------------------------------

  /**
   * What `__extract_leaflet_data` raises on a fragment, in the order it looks:
   * the image element, then its `src`, then the date element.
   */
  function Defect(f: Fragment): (r: Option<Failure>)
    ensures r.None? <==> f.image.Some? && f.image.value.src.Some? && f.dateText.Some?
    ensures r == Some(NoImage) <==> f.image.None?
    ensures r == Some(NoSrc) <==> f.image.Some? && f.image.value.src.None?
    ensures r == Some(NoDateText) <==> f.image.Some? && f.image.value.src.Some? && f.dateText.None?
  {
    if f.image.None? then Some(NoImage)
    else if f.image.value.src.None? then Some(NoSrc)
    else if f.dateText.None? then Some(NoDateText)
    else None
  }

  /** The record extracted from a complete fragment. */
  function RecordOf(f: Fragment, shop: string, stamp: string, parse: DateParser): (r: Record)
    requires Defect(f).None?
    ensures r.title == LeafletTitle && r.shopName == shop && r.parsedTime == stamp
    ensures r.thumbnail == f.image.value.src.value
    ensures (r.validFrom, r.validTo) == parse(f.dateText.value)
  {
    var (from, to) := parse(f.dateText.value);
    Record(LeafletTitle, f.image.value.src.value, shop, from, to, stamp)
  }

  // ----- one listing page ---------------------------------------------------------

  /**
   * The loop of `__scrape_leaflets` over a listing page's fragments, for link
   * number `link`: the first incomplete fragment aborts it.
   */
  function ExtractList(frags: seq<Fragment>, shop: string, clock: Clock, link: nat, parse: DateParser): Result<seq<Record>, Failure>
    decreases |frags|
  {
    if frags == [] then Ok([])
    else
      var n := |frags| - 1;
      match ExtractList(frags[..n], shop, clock, link, parse)
      case Err(e) => Err(e)
      case Ok(rs) =>
        match Defect(frags[n])
        case Some(e) => Err(e)
        case None => Ok(rs + [RecordOf(frags[n], shop, clock(link, n), parse)])
  }

  /**
   * The extraction fails exactly when some fragment is incomplete; otherwise it
   * has one record per fragment, in order, fragment `j` stamped with `clock(link, j)`.
   */
  lemma {:induction false} ExtractListSpec(frags: seq<Fragment>, shop: string, clock: Clock, link: nat, parse: DateParser)
    ensures ExtractList(frags, shop, clock, link, parse).Ok? <==> forall j | 0 <= j < |frags| :: Defect(frags[j]).None?
    ensures ExtractList(frags, shop, clock, link, parse).Ok? ==>
              |ExtractList(frags, shop, clock, link, parse).value| == |frags| &&
              forall j | 0 <= j < |frags| ::
                ExtractList(frags, shop, clock, link, parse).value[j] == RecordOf(frags[j], shop, clock(link, j), parse)
    decreases |frags|
  {
    if frags != [] {
      var n := |frags| - 1;
      ExtractListSpec(frags[..n], shop, clock, link, parse);
      assert forall j | 0 <= j < n :: frags[..n][j] == frags[j];
    }
  }

  /** A failed extraction reports the defect of the first incomplete fragment. */
  lemma {:induction false} ExtractListFirstDefect(frags: seq<Fragment>, shop: string, clock: Clock, link: nat, parse: DateParser)
    requires ExtractList(frags, shop, clock, link, parse).Err?
    ensures exists j | 0 <= j < |frags| ::
              Defect(frags[j]) == Some(ExtractList(frags, shop, clock, link, parse).error) &&
              forall m | 0 <= m < j :: Defect(frags[m]).None?
    decreases |frags|
  {
    var n := |frags| - 1;
    assert forall j | 0 <= j < n :: frags[..n][j] == frags[j];
    if ExtractList(frags[..n], shop, clock, link, parse).Err? {
      ExtractListFirstDefect(frags[..n], shop, clock, link, parse);
    } else {
      ExtractListSpec(frags[..n], shop, clock, link, parse);
      assert Defect(frags[n]) == Some(ExtractList(frags, shop, clock, link, parse).error);
    }
  }

  /**
   * One more fragment after a complete prefix: an incomplete one makes the whole
   * extraction fail with its defect, a complete one adds its record.
   */
  lemma ExtractListStep(frags: seq<Fragment>, shop: string, clock: Clock, link: nat, parse: DateParser, j: nat)
    requires j < |frags| && ExtractList(frags[..j], shop, clock, link, parse).Ok?
    ensures Defect(frags[j]).Some? ==> ExtractList(frags, shop, clock, link, parse) == Err(Defect(frags[j]).value)
    ensures Defect(frags[j]).None? ==>
              ExtractList(frags[..j + 1], shop, clock, link, parse) ==
              Ok(ExtractList(frags[..j], shop, clock, link, parse).value + [RecordOf(frags[j], shop, clock(link, j), parse)])
  {
    assert frags[..j + 1][..j] == frags[..j];
    if Defect(frags[j]).Some? {
      ExtractListSpec(frags[..j], shop, clock, link, parse);
      assert forall m | 0 <= m < j :: frags[..j][m] == frags[m];
      ExtractListSpec(frags, shop, clock, link, parse);
      ExtractListFirstDefect(frags, shop, clock, link, parse);
      var w :| 0 <= w < |frags| && Defect(frags[w]) == Some(ExtractList(frags, shop, clock, link, parse).error) &&
               forall m | 0 <= m < w :: Defect(frags[m]).None?;
      assert w == j;
    }
  }

  /** `__scrape_leaflets` for link number `link`: fetch the page, then extract every fragment. */
  function ScrapeShop(fetch: Fetcher, url: string, shop: string, clock: Clock, link: nat, parse: DateParser): Result<seq<Record>, Failure>
  {
    match fetch(url)
    case None => Err(FetchFailed(url))
    case Some(page) => ExtractList(page.fragments, shop, clock, link, parse)
  }

  /** What the run gets for link number `i`. */
  function Outcome(fetch: Fetcher, l: Link, clock: Clock, i: nat, parse: DateParser): Result<seq<Record>, Failure>
  {
    ScrapeShop(fetch, LinkUrl(l), Strip(l.text), clock, i, parse)
  }

  // ----- the whole run ---------------------------------------------------------------

  /** The shop names of the links, in order. */
  function ShopNames(links: seq<Link>): (ns: seq<string>)
    ensures |ns| == |links| && forall i | 0 <= i < |links| :: ns[i] == Strip(links[i].text)
  {
    seq(|links|, i requires 0 <= i < |links| => Strip(links[i].text))
  }

  /** What each link yields, in link order. */
  function Outcomes(fetch: Fetcher, links: seq<Link>, clock: Clock, parse: DateParser): (os: seq<Result<seq<Record>, Failure>>)
    ensures |os| == |links| && forall i | 0 <= i < |links| :: os[i] == Outcome(fetch, links[i], clock, i, parse)
  {
    seq(|links|, i requires 0 <= i < |links| => Outcome(fetch, links[i], clock, i, parse))
  }

  /**
   * The loop of `scrape_all_leaflets`: for link `i` in order, take its outcome and
   * append its records under `names[i]`; the first failure aborts the run.
   */
  function Fold<T>(names: seq<string>, outs: seq<Result<seq<T>, Failure>>): Result<OrderedLists<T>, Failure>
    requires |names| == |outs|
    decreases |outs|
  {
    if outs == [] then Ok(Empty())
    else
      var n := |outs| - 1;
      match Fold(names[..n], outs[..n])
      case Err(e) => Err(e)
      case Ok(acc) =>
        match outs[n]
        case Err(e) => Err(e)
        case Ok(rs) => Ok(Extend(acc, names[n], rs))
  }

  /**
   * One more link after a successful prefix: a failed outcome aborts the whole run
   * with its error, a successful one appends its records under the link's name.
   */
  lemma FoldStep<T>(names: seq<string>, outs: seq<Result<seq<T>, Failure>>, i: nat)
    requires |names| == |outs| && i < |outs| && Fold(names[..i], outs[..i]).Ok?
    ensures outs[i].Err? ==> Fold(names, outs) == Err(outs[i].error)
    ensures outs[i].Ok? ==>
              Fold(names[..i + 1], outs[..i + 1]) ==
              Ok(Extend(Fold(names[..i], outs[..i]).value, names[i], outs[i].value))
  {
    if outs[i].Err? {
      FoldOk(names[..i], outs[..i]);
      assert forall m | 0 <= m < i :: outs[m] == outs[..i][m];
      FoldOk(names, outs);
      FoldFirstFailure(names, outs);
      var w :| 0 <= w < |outs| && outs[w] == Err(Fold(names, outs).error) && forall m | 0 <= m < w :: outs[m].Ok?;
      assert w == i;
    } else {
      assert names[..i + 1][..i] == names[..i] && outs[..i + 1][..i] == outs[..i];
    }
  }

  /** `scrape_all_leaflets`: fetch the directory page, then scrape and append every linked shop. */
  function ScrapeAll(fetch: Fetcher, clock: Clock, parse: DateParser): Result<OrderedLists<Record>, Failure>
  {
    match fetch(BaseUrl + DirectoryPath)
    case None => Err(FetchFailed(BaseUrl + DirectoryPath))
    case Some(page) => Fold(ShopNames(page.links), Outcomes(fetch, page.links, clock, parse))
  }

  // ----- what the run promises --------------------------------------------------------

  /** The names in order of first occurrence, each once. */
  function Dedup(ns: seq<string>): (r: seq<string>)
    ensures forall i, j | 0 <= i < j < |r| :: r[i] != r[j]
    ensures forall n :: n in r <==> n in ns
    decreases |ns|
  {
    if ns == [] then []
    else
      var p, n := Dedup(ns[..|ns| - 1]), ns[|ns| - 1];
      assert ns == ns[..|ns| - 1] + [n];
      if n in p then p else p + [n]
  }

  /**
   * `r` lists names in order of first occurrence in `ns`: of two names in `r`, the
   * earlier one occurs in `ns` before every occurrence of the later one.
   */
  predicate FirstOccurrenceOrder(ns: seq<string>, r: seq<string>) {
    forall i, j | 0 <= i < j < |r| ::
      forall q | 0 <= q < |ns| && ns[q] == r[j] :: exists p | 0 <= p < q :: ns[p] == r[i]
  }

  /** `Dedup` keeps the order of first occurrence. */
  lemma {:induction false} DedupOrder(ns: seq<string>)
    ensures FirstOccurrenceOrder(ns, Dedup(ns))
    decreases |ns|
  {
    if ns != [] {
      var front, n := ns[..|ns| - 1], ns[|ns| - 1];
      var p, r := Dedup(front), Dedup(ns);
      DedupOrder(front);
      assert ns == front + [n];
      assert r == if n in p then p else p + [n];
      forall i, j, q | 0 <= i < j < |r| && 0 <= q < |ns| && ns[q] == r[j]
        ensures exists w | 0 <= w < q :: ns[w] == r[i]
      {
        assert r[i] == p[i] && r[i] in front;
        if q == |ns| - 1 {
          var w :| 0 <= w < |front| && front[w] == r[i];
          assert ns[w] == r[i];
        } else {
          assert front[q] == r[j] && r[j] in front;
          var w :| 0 <= w < q && front[w] == p[i];
          assert ns[w] == r[i];
        }
      }
      assert FirstOccurrenceOrder(ns, r);
    }
  }

  /** The run succeeds exactly when every link succeeds. */
  lemma {:induction false} FoldOk<T>(names: seq<string>, outs: seq<Result<seq<T>, Failure>>)
    requires |names| == |outs|
    ensures Fold(names, outs).Ok? <==> forall i | 0 <= i < |outs| :: outs[i].Ok?
    decreases |outs|
  {
    if outs != [] {
      var n := |outs| - 1;
      FoldOk(names[..n], outs[..n]);
      assert forall i | 0 <= i < n :: outs[..n][i] == outs[i];
    }
  }

  /** A failed run reports the failure of the first failing link. */
  lemma {:induction false} FoldFirstFailure<T>(names: seq<string>, outs: seq<Result<seq<T>, Failure>>)
    requires |names| == |outs| && Fold(names, outs).Err?
    ensures exists i | 0 <= i < |outs| ::
              outs[i] == Err(Fold(names, outs).error) && forall m | 0 <= m < i :: outs[m].Ok?
    decreases |outs|
  {
    var n := |outs| - 1;
    assert forall i | 0 <= i < n :: outs[..n][i] == outs[i];
    if Fold(names[..n], outs[..n]).Err? {
      FoldFirstFailure(names[..n], outs[..n]);
    } else {
      FoldOk(names[..n], outs[..n]);
      assert outs[n] == Err(Fold(names, outs).error);
    }
  }

  /** On success the keys are the names in order of first appearance, each listed once. */
  lemma {:induction false} FoldKeys<T>(names: seq<string>, outs: seq<Result<seq<T>, Failure>>)
    requires |names| == |outs| && Fold(names, outs).Ok?
    ensures Fold(names, outs).value.Valid()
    ensures Fold(names, outs).value.keys == Dedup(names)
    decreases |outs|
  {
    if outs != [] {
      var n := |outs| - 1;
      FoldKeys(names[..n], outs[..n]);
      var prev, k := Fold(names[..n], outs[..n]).value, names[n];
      assert Fold(names, outs).value == Extend(prev, k, outs[n].value);
      assert Dedup(names) == if k in Dedup(names[..n]) then Dedup(names[..n]) else Dedup(names[..n]) + [k];
      assert k in prev.lists <==> k in prev.keys;
    }
  }

  /** The records of all links named `k`, in link order: a reference for the per-shop lists. */
  function Gathered<T>(names: seq<string>, outs: seq<Result<seq<T>, Failure>>, k: string): seq<T>
    requires |names| == |outs|
    decreases |outs|
  {
    if outs == [] then []
    else
      var n := |outs| - 1;
      Gathered(names[..n], outs[..n], k) + (if names[n] == k && outs[n].Ok? then outs[n].value else [])
  }

  /** A name that no link carries gathers nothing. */
  lemma {:induction false} GatheredAbsent<T>(names: seq<string>, outs: seq<Result<seq<T>, Failure>>, k: string)
    requires |names| == |outs| && k !in names
    ensures Gathered(names, outs, k) == []
    decreases |outs|
  {
    if outs != [] {
      var n := |outs| - 1;
      assert names == names[..n] + [names[n]];
      GatheredAbsent(names[..n], outs[..n], k);
    }
  }

  /**
   * On success every name is a key, also for a link with no records, and each
   * key's list holds the records of the links with that name, link after link.
   */
  lemma {:induction false} FoldGathers<T>(names: seq<string>, outs: seq<Result<seq<T>, Failure>>)
    requires |names| == |outs| && Fold(names, outs).Ok?
    ensures forall i | 0 <= i < |names| :: names[i] in Fold(names, outs).value.lists
    ensures forall k | k in Fold(names, outs).value.lists :: Fold(names, outs).value.lists[k] == Gathered(names, outs, k)
    decreases |outs|
  {
    if outs != [] {
      var n := |outs| - 1;
      var prev, last := Fold(names[..n], outs[..n]).value, names[n];
      FoldGathers(names[..n], outs[..n]);
      assert forall i | 0 <= i < n :: names[..n][i] == names[i];
      if last !in prev.lists {
        assert last !in names[..n];
        GatheredAbsent(names[..n], outs[..n], last);
      }
    }
  }

  /** A relation between each link's records and its name carries over to the keys they are filed under. */
  lemma {:induction false} FoldFiles<T>(names: seq<string>, outs: seq<Result<seq<T>, Failure>>, fits: (T, string) -> bool)
    requires |names| == |outs| && Fold(names, outs).Ok?
    requires forall i, r | 0 <= i < |outs| && outs[i].Ok? && r in outs[i].value :: fits(r, names[i])
    ensures forall k, r | k in Fold(names, outs).value.lists && r in Fold(names, outs).value.lists[k] :: fits(r, k)
    decreases |outs|
  {
    if outs != [] {
      var n := |outs| - 1;
      assert forall i | 0 <= i < n :: outs[..n][i] == outs[i] && names[..n][i] == names[i];
      FoldFiles(names[..n], outs[..n], fits);
    }
  }

  /** The records a successful link yields have the fixed title and its shop name. */
  lemma OutcomeFields(fetch: Fetcher, l: Link, clock: Clock, i: nat, parse: DateParser)
    requires Outcome(fetch, l, clock, i, parse).Ok?
    ensures forall r | r in Outcome(fetch, l, clock, i, parse).value :: r.shopName == Strip(l.text) && r.title == LeafletTitle
  {
    var page := fetch(LinkUrl(l)).value;
    var rs := Outcome(fetch, l, clock, i, parse).value;
    assert rs == ExtractList(page.fragments, Strip(l.text), clock, i, parse).value;
    ExtractListSpec(page.fragments, Strip(l.text), clock, i, parse);
    forall r | r in rs ensures r.shopName == Strip(l.text) && r.title == LeafletTitle {
      var j :| 0 <= j < |rs| && rs[j] == r;
      assert r == RecordOf(page.fragments[j], Strip(l.text), clock(i, j), parse);
    }
  }

  /** Every record of a successful run has the fixed title and is filed under its own shop's name. */
  lemma RecordFields(fetch: Fetcher, links: seq<Link>, clock: Clock, parse: DateParser)
    requires Fold(ShopNames(links), Outcomes(fetch, links, clock, parse)).Ok?
    ensures forall k, r | k in Fold(ShopNames(links), Outcomes(fetch, links, clock, parse)).value.lists &&
                          r in Fold(ShopNames(links), Outcomes(fetch, links, clock, parse)).value.lists[k] ::
              r.shopName == k && r.title == LeafletTitle
  {
    var names, outs := ShopNames(links), Outcomes(fetch, links, clock, parse);
    var fits := (r: Record, k: string) => r.shopName == k && r.title == LeafletTitle;
    forall i, r | 0 <= i < |outs| && outs[i].Ok? && r in outs[i].value ensures fits(r, names[i]) {
      OutcomeFields(fetch, links[i], clock, i, parse);
    }
    FoldFiles(names, outs, fits);
  }

  /** An incomplete fragment on any linked page aborts the whole run. */
  lemma IncompleteFragmentAborts(fetch: Fetcher, links: seq<Link>, clock: Clock, parse: DateParser, i: nat, j: nat)
    requires i < |links| && fetch(LinkUrl(links[i])).Some?
    requires j < |fetch(LinkUrl(links[i])).value.fragments|
    requires Defect(fetch(LinkUrl(links[i])).value.fragments[j]).Some?
    ensures Fold(ShopNames(links), Outcomes(fetch, links, clock, parse)).Err?
  {
    ExtractListSpec(fetch(LinkUrl(links[i])).value.fragments, Strip(links[i].text), clock, i, parse);
    FoldOk(ShopNames(links), Outcomes(fetch, links, clock, parse));
  }

  /** Stripping the two link texts of `ScrapeAllScenario`. */
  lemma ScenarioNames(a: string, b: string)
    requires a == " ShopA\n" && b == "ShopB"
    ensures Strip(a) == "ShopA" && Strip(b) == "ShopB"
  {
    assert SpaceRun(a, 0) == 1 && TrailingSpaces(a) == 1;
    assert a[1 .. 6] == "ShopA";
    assert SpaceRun(b, 0) == 0 && TrailingSpaces(b) == 0;
    assert b[0 .. 5] == b;
  }

  /** The first shop of `ScrapeAllScenario`: one fragment, one record. */
  lemma ScenarioFirstShop(fetch: Fetcher, clock: Clock, parse: DateParser, text: string, l: Link)
    requires l == Link(" ShopA\n", Some("/a/")) && parse(text) == ("01.03", "07.03.2024")
    requires fetch(BaseUrl + "/a/") == Some(Page([], [Fragment(Some(Image(Some("/img1.jpg"))), Some(text))]))
    ensures Outcome(fetch, l, clock, 0, parse) ==
            Ok([Record("Prospekt", "/img1.jpg", "ShopA", "01.03", "07.03.2024", clock(0, 0))])
  {
    var frags := [Fragment(Some(Image(Some("/img1.jpg"))), Some(text))];
    ScenarioNames(" ShopA\n", "ShopB");
    assert frags[..0] == [];
    assert ExtractList(frags[..0], "ShopA", clock, 0, parse) == Ok([]);
    assert Defect(frags[0]) == None;
    assert ExtractList(frags, "ShopA", clock, 0, parse) == Ok([] + [RecordOf(frags[0], "ShopA", clock(0, 0), parse)]);
    assert RecordOf(frags[0], "ShopA", clock(0, 0), parse) ==
           Record("Prospekt", "/img1.jpg", "ShopA", "01.03", "07.03.2024", clock(0, 0));
    assert LinkUrl(l) == BaseUrl + "/a/" && Strip(l.text) == "ShopA";
    assert ScrapeShop(fetch, BaseUrl + "/a/", "ShopA", clock, 0, parse) == ExtractList(frags, "ShopA", clock, 0, parse);
    assert Outcome(fetch, l, clock, 0, parse) == ScrapeShop(fetch, BaseUrl + "/a/", "ShopA", clock, 0, parse);
    assert [] + [RecordOf(frags[0], "ShopA", clock(0, 0), parse)] == [RecordOf(frags[0], "ShopA", clock(0, 0), parse)];
  }

  /**
   * A whole run: a directory with two shops, the first with one leaflet, the second
   * with none.  Both shops become keys in link order, the empty one too, and the
   * leaflet carries the stripped link text as its shop and the parsed dates.
   */
  lemma ScrapeAllScenario(fetch: Fetcher, clock: Clock, parse: DateParser, text: string)
    requires parse(text) == ("01.03", "07.03.2024")
    requires fetch(BaseUrl + DirectoryPath) == Some(Page([Link(" ShopA\n", Some("/a/")), Link("ShopB", Some("/b/"))], []))
    requires fetch(BaseUrl + "/a/") == Some(Page([], [Fragment(Some(Image(Some("/img1.jpg"))), Some(text))]))
    requires fetch(BaseUrl + "/b/") == Some(Page([], []))
    ensures ScrapeAll(fetch, clock, parse) ==
            Ok(OrderedLists(["ShopA", "ShopB"],
                            map["ShopA" := [Record("Prospekt", "/img1.jpg", "ShopA", "01.03", "07.03.2024", clock(0, 0))],
                                "ShopB" := []]))
  {
    var links := [Link(" ShopA\n", Some("/a/")), Link("ShopB", Some("/b/"))];
    var record := Record("Prospekt", "/img1.jpg", "ShopA", "01.03", "07.03.2024", clock(0, 0));
    ScenarioShopNames(links);
    ScenarioOutcomes(fetch, clock, parse, text, links);
    ScenarioFold(ShopNames(links), Outcomes(fetch, links, clock, parse), record);
  }

  /** The shop names of the two links of `ScrapeAllScenario`. */
  lemma ScenarioShopNames(links: seq<Link>)
    requires links == [Link(" ShopA\n", Some("/a/")), Link("ShopB", Some("/b/"))]
    ensures ShopNames(links) == ["ShopA", "ShopB"]
  {
    ScenarioNames(links[0].text, links[1].text);
  }

  /** What the two links of `ScrapeAllScenario` yield. */
  lemma ScenarioOutcomes(fetch: Fetcher, clock: Clock, parse: DateParser, text: string, links: seq<Link>)
    requires parse(text) == ("01.03", "07.03.2024")
    requires links == [Link(" ShopA\n", Some("/a/")), Link("ShopB", Some("/b/"))]
    requires fetch(BaseUrl + "/a/") == Some(Page([], [Fragment(Some(Image(Some("/img1.jpg"))), Some(text))]))
    requires fetch(BaseUrl + "/b/") == Some(Page([], []))
    ensures Outcomes(fetch, links, clock, parse) ==
            [Ok([Record("Prospekt", "/img1.jpg", "ShopA", "01.03", "07.03.2024", clock(0, 0))]), Ok([])]
  {
    var outs := Outcomes(fetch, links, clock, parse);
    ScenarioFirstShop(fetch, clock, parse, text, links[0]);
    assert LinkUrl(links[1]) == BaseUrl + "/b/";
    assert outs[1] == ExtractList([], Strip(links[1].text), clock, 1, parse);
  }

  /** The run of `ScrapeAllScenario` after the links: one record under the first name, none under the second. */
  lemma ScenarioFold<T>(names: seq<string>, outs: seq<Result<seq<T>, Failure>>, x: T)
    requires names == ["ShopA", "ShopB"] && outs == [Ok([x]), Ok([])]
    ensures Fold(names, outs) == Ok(OrderedLists(["ShopA", "ShopB"], map["ShopA" := [x], "ShopB" := []]))
  {
    var first := Extend(Empty(), "ShopA", [x]);
    assert names[..0] == [] && outs[..0] == [];
    assert Fold(names[..0], outs[..0]) == Ok(Empty());
    FoldStep(names, outs, 0);
    assert Fold(names[..1], outs[..1]) == Ok(first);
    FoldStep(names, outs, 1);
    assert names[..2] == names && outs[..2] == outs;
    assert Fold(names, outs) == Ok(Extend(first, "ShopB", []));
    ScenarioCollection(x);
  }

  /** The collection `ScenarioFold` builds, written out. */
  lemma ScenarioCollection<T>(x: T)
    ensures Extend(Extend(Empty(), "ShopA", [x]), "ShopB", []) ==
            OrderedLists(["ShopA", "ShopB"], map["ShopA" := [x], "ShopB" := []])
  {
    var first := Extend(Empty(), "ShopA", [x]);
    assert first.keys == ["ShopA"] && first.lists == map["ShopA" := [x]];
    assert "ShopB" !in first.lists;
  }

  /** `ScrapeAllScenario` with the scraper's own date parser on a typical date text. */
  lemma ScrapeAllScenarioParsed(fetch: Fetcher, clock: Clock, text: string)
    requires text == "Angebote 01.03 - 07.03.2024"
    requires fetch(BaseUrl + DirectoryPath) == Some(Page([Link(" ShopA\n", Some("/a/")), Link("ShopB", Some("/b/"))], []))
    requires fetch(BaseUrl + "/a/") == Some(Page([], [Fragment(Some(Image(Some("/img1.jpg"))), Some(text))]))
    requires fetch(BaseUrl + "/b/") == Some(Page([], []))
    ensures ScrapeAll(fetch, clock, ParseDateRange) ==
            Ok(OrderedLists(["ShopA", "ShopB"],
                            map["ShopA" := [Record("Prospekt", "/img1.jpg", "ShopA", "01.03", "07.03.2024", clock(0, 0))],
                                "ShopB" := []]))
  {
    ExampleStartWithoutYear(text);
    ScrapeAllScenario(fetch, clock, ParseDateRange, text);
  }

  // ----- the scraper object ----------------------------------------------------------

  /** The scraper: the HTTP client (here `fetch`); the site's base URL is `BaseUrl`. */
  class LeafletScraper {
    const fetch: Fetcher

    constructor (fetch: Fetcher)
      ensures this.fetch == fetch
    {
      this.fetch := fetch;
    }

    /**
     * `__extract_leaflet_data`: read the image's `src`, then the date text, parse
     * the date range and build a new leaflet; a missing piece raises.
     */
    method ExtractLeafletData(element: Fragment, hypermarketName: string, stamp: string)
      returns (r: Result<Leaflet, Failure>)
      ensures r.Err? <==> Defect(element).Some?
      ensures r.Err? ==> Defect(element) == Some(r.error)
      ensures r.Ok? ==> fresh(r.value) && r.value.Value() == RecordOf(element, hypermarketName, stamp, ParseDateRange)
    {
      if element.image.None? {
        return Err(NoImage);
      }
      if element.image.value.src.None? {
        return Err(NoSrc);
      }
      var thumbnail := element.image.value.src.value;
      if element.dateText.None? {
        return Err(NoDateText);
      }
      var start, end := ScanDateRange(element.dateText.value);
      var leaflet := new Leaflet(LeafletTitle, thumbnail, hypermarketName, start, end, stamp);
      return Ok(leaflet);
    }

    /**
     * `__scrape_leaflets` for link number `link`: fetch the page and extract each
     * fragment in document order into a list of new leaflets.
     */
    method ScrapeLeaflets(url: string, hypermarketName: string, clock: Clock, link: nat)
      returns (r: Result<seq<Leaflet>, Failure>)
      ensures r.Err? <==> ScrapeShop(fetch, url, hypermarketName, clock, link, ParseDateRange).Err?
      ensures r.Err? ==> r.error == ScrapeShop(fetch, url, hypermarketName, clock, link, ParseDateRange).error
      ensures r.Ok? ==> (forall l | l in r.value :: fresh(l)) &&
                        Values(r.value) == ScrapeShop(fetch, url, hypermarketName, clock, link, ParseDateRange).value
    {
      var page := fetch(url);
      if page.None? {
        return Err(FetchFailed(url));
      }
      var elements := page.value.fragments;
      var leaflets: seq<Leaflet> := [];
      for j := 0 to |elements|
        invariant ExtractList(elements[..j], hypermarketName, clock, link, ParseDateRange).Ok?
        invariant forall k | 0 <= k < |leaflets| :: fresh(leaflets[k])
        invariant Values(leaflets) == ExtractList(elements[..j], hypermarketName, clock, link, ParseDateRange).value
      {
        label BeforeItem:
        var item := ExtractLeafletData(elements[j], hypermarketName, clock(link, j));
        if item.Err? {
          assert ExtractList(elements, hypermarketName, clock, link, ParseDateRange) == Err(item.error) by {
            ExtractListStep(elements, hypermarketName, clock, link, ParseDateRange, j);
          }
          return Err(item.error);
        }
        ValuesUnchanged@BeforeItem(leaflets);
        assert ExtractList(elements[..j + 1], hypermarketName, clock, link, ParseDateRange) == Ok(Values(leaflets) + [item.value.Value()]) by {
          ExtractListStep(elements, hypermarketName, clock, link, ParseDateRange, j);
        }
        ValuesPush(leaflets, item.value);
        leaflets := leaflets + [item.value];
      }
      assert elements[..|elements|] == elements;
      return Ok(leaflets);
    }

    /**
     * `scrape_all_leaflets`: fetch the directory page, then for each link in order
     * scrape its shop and append the leaflets under the stripped link text.
     */
    method ScrapeAllLeaflets(clock: Clock) returns (r: Result<LeafletCollection, Failure>)
      ensures r.Err? <==> ScrapeAll(fetch, clock, ParseDateRange).Err?
      ensures r.Err? ==> r.error == ScrapeAll(fetch, clock, ParseDateRange).error
      ensures r.Ok? ==> fresh(r.value) && r.value.Valid() && Snapshot(r.value.Contents()) == ScrapeAll(fetch, clock, ParseDateRange).value
    {
      var page := fetch(BaseUrl + DirectoryPath);
      if page.None? {
        return Err(FetchFailed(BaseUrl + DirectoryPath));
      }
      var links := page.value.links;
      ghost var names, outs := ShopNames(links), Outcomes(fetch, links, clock, ParseDateRange);
      var collection := new LeafletCollection();
      for i := 0 to |links|
        invariant fresh(collection) && collection.Valid()
        invariant Fold(names[..i], outs[..i]) == Ok(Snapshot(collection.Contents()))
      {
        var hypermarketName := Strip(links[i].text);
        var url := BaseUrl + match links[i].href case Some(h) => h case None => "None";
        ghost var before := collection.Contents();
        ghost var done := Snapshot(before);
        label BeforeShop:
        var leaflets := ScrapeLeaflets(url, hypermarketName, clock, i);
        if leaflets.Err? {
          assert Fold(names, outs) == Err(leaflets.error) by {
            assert outs[i] == ScrapeShop(fetch, url, hypermarketName, clock, i, ParseDateRange);
            FoldStep(names, outs, i);
          }
          return Err(leaflets.error);
        }
        ghost var added := Values(leaflets.value);
        assert Fold(names[..i + 1], outs[..i + 1]) == Ok(Extend(done, hypermarketName, added)) by {
          assert outs[i] == ScrapeShop(fetch, url, hypermarketName, clock, i, ParseDateRange);
          FoldStep(names, outs, i);
        }
        SnapshotUnchanged@BeforeShop(before);
        label BeforeAppend:
        collection.Append(hypermarketName, leaflets.value);
        SnapshotAcross@BeforeAppend(before);
        SnapshotExtend(before, hypermarketName, leaflets.value);
      }
      assert names[..|links|] == names && outs[..|links|] == outs;
      return Ok(collection);
    }
  }
}
