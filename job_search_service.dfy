/** The dev.bg job search: the category's URL parameter, the crawl over at
    most `MaxPages` listing pages, the Bulgarian posting dates, the requested
    date and the text report handed back to the model.

    The site is a function from a page URL to what fetching and parsing that
    page yields; `now` is the calendar day the search runs on. */
module JobSearchService {
  import opened Wrappers
  import opened Strings
  import opened Dates

  /** Listing pages fetched at most per search. */
  const MaxPages: nat := 15

  /** One job offer of the report. */
  datatype JobListing = JobListing(title: string, company: string, datePosted: string, link: string)

  /** What the page's markup yields for one job element: the texts of the
      title, company and date elements and the first link's target. */
  datatype RawItem = RawItem(title: string, company: string, dateText: string, link: string)

  /** A fetched listing page: its job elements, a body that is not UTF-8, or
      a failed request with the error's description. */
  datatype Page = Items(items: seq<RawItem>) | NotUtf8 | Failed(error: string)

  /** The site, as seen through HTTP requests and markup selection. */
  type Site = string -> Page

  // ---------------------------------------------------------------------
  // Category parameter and page URLs

  /** The categories that have a dedicated slug on dev.bg. */
  const CategoryMapping: map<string, string> := map[
    "data science" := "data-science",
    "machine learning" := "data-science",
    "data" := "data-science",
    "backend development" := "back-end-development",
    "python development" := "python"
  ]

  /** `categoryParameter(for:)`: the lowercased category's slug when it has
      one, otherwise the lowercased category with spaces turned into dashes.
      The parameter never holds a space and is empty exactly when the
      category is. */
  function CategoryParameter(category: string): (r: string)
    ensures ' ' !in r
    ensures r == [] <==> category == []
  {
    var key := Lower(category);
    if key in CategoryMapping then CategoryMapping[key] else ReplaceSpaces(key)
  }

  /** The parameter does not depend on the category's letter case. */
  lemma CategoryParameterCaseInsensitive(category: string, other: string)
    ensures CategoryParameter(Lower(category)) == CategoryParameter(category)
    ensures Lower(category) == Lower(other) ==> CategoryParameter(category) == CategoryParameter(other)
  {
    LowerIdempotent(category);
  }

  /** A category without a slug of its own becomes its lowercase form with
      every space, and only a space, turned into a dash. */
  lemma CategoryParameterFallback(category: string)
    requires Lower(category) !in CategoryMapping
    ensures |CategoryParameter(category)| == |category|
    ensures forall k :: 0 <= k < |category| ==>
              CategoryParameter(category)[k] == (if category[k] == ' ' then '-' else LowerChar(category[k]))
  {
    LowerIdempotent(category);
  }

  /** Two of the categories the tool's description suggests, as typed:
      "Data Science" has a slug, "DevOps" falls back to its lowercase
      form. */
  lemma CategoryParameterExamples()
    ensures CategoryParameter("Data Science") == "data-science"
    ensures CategoryParameter("DevOps") == "devops"
  {
    assert Lower("Data Science") == "data science";
    assert Lower("DevOps") == "devops";
  }

  /** Mapped categories are found in any letter case. */
  lemma CategoryParameterMapped()
    ensures CategoryParameter("Machine Learning") == "data-science"
    ensures CategoryParameter("DATA") == "data-science"
  {
    assert Lower("Machine Learning") == "machine learning";
    assert Lower("DATA") == "data";
  }

  /** The URL of one listing page of a category. */
  function PageUrl(param: string, page: nat): string {
    "https://dev.bg/company/jobs/" + param + "?_paged=" + NatToString(page)
  }

  // ---------------------------------------------------------------------
  // Dates

  /** The Bulgarian month names as dev.bg prints them, lowercased. */
  const MonthNumbers: map<string, int> := map[
    "\U{044f}\U{043d}." := 1,
    "\U{0444}\U{0435}\U{0432}\U{0440}\U{0443}\U{0430}\U{0440}\U{0438}" := 2,
    "\U{043c}\U{0430}\U{0440}\U{0442}" := 3,
    "\U{0430}\U{043f}\U{0440}\U{0438}\U{043b}" := 4,
    "\U{043c}\U{0430}\U{0439}" := 5,
    "\U{044e}\U{043d}\U{0438}" := 6,
    "\U{044e}\U{043b}\U{0438}" := 7,
    "\U{0430}\U{0432}\U{0433}\U{0443}\U{0441}\U{0442}" := 8,
    "\U{0441}\U{0435}\U{043f}\U{0442}\U{0435}\U{043c}\U{0432}\U{0440}\U{0438}" := 9,
    "\U{043e}\U{043a}\U{0442}\U{043e}\U{043c}\U{0432}\U{0440}\U{0438}" := 10,
    "\U{043d}\U{043e}\U{0435}\U{043c}\U{0432}\U{0440}\U{0438}" := 11,
    "\U{0434}\U{0435}\U{043a}." := 12
  ]

  /** The month names in calendar order. */
  const MonthNames: seq<string> := [
    "\U{044f}\U{043d}.",
    "\U{0444}\U{0435}\U{0432}\U{0440}\U{0443}\U{0430}\U{0440}\U{0438}",
    "\U{043c}\U{0430}\U{0440}\U{0442}",
    "\U{0430}\U{043f}\U{0440}\U{0438}\U{043b}",
    "\U{043c}\U{0430}\U{0439}",
    "\U{044e}\U{043d}\U{0438}",
    "\U{044e}\U{043b}\U{0438}",
    "\U{0430}\U{0432}\U{0433}\U{0443}\U{0441}\U{0442}",
    "\U{0441}\U{0435}\U{043f}\U{0442}\U{0435}\U{043c}\U{0432}\U{0440}\U{0438}",
    "\U{043e}\U{043a}\U{0442}\U{043e}\U{043c}\U{0432}\U{0440}\U{0438}",
    "\U{043d}\U{043e}\U{0435}\U{043c}\U{0432}\U{0440}\U{0438}",
    "\U{0434}\U{0435}\U{043a}."
  ]

  /** Every key of the table stands for a month. */
  lemma MonthNumbersInRange()
    ensures forall k :: k in MonthNumbers ==> 1 <= MonthNumbers[k] <= 12
  {
  }

  /** Every month has its name in the table. */
  lemma MonthNamesNumbered()
    ensures |MonthNames| == 12
    ensures forall i :: 0 <= i < 12 ==> MonthNames[i] in MonthNumbers && MonthNumbers[MonthNames[i]] == i + 1
  {
  }

  /** `parseBgDate`: a posting date such as "5 \U{044e}\U{043d}\U{0438}" —
      exactly two space-separated words, a day number and a month name — in
      the given year. A day number outside the month rolls over into the
      neighbouring months, as the calendar does. */
  function ParseBgDate(text: string, year: int): (r: Option<Day>)
    ensures r.Some? ==> ValidDay(r.value)
  {
    var parts := Split(Lower(text), ' ');
    if |parts| == 2 && ParseInt(parts[0]).Some? && parts[1] in MonthNumbers
    then Some(Normalize(year, MonthNumbers[parts[1]], ParseInt(parts[0]).value))
    else None
  }

  /** A date printed as its day number, a space and a month name reads back
      as that day of that month. */
  lemma ParseBgDateRoundTrip(day: nat, month: string, year: int)
    requires month in MonthNumbers
    requires 1 <= day <= DaysInMonth(year, MonthNumbers[month])
    ensures ParseBgDate(NatToString(day) + " " + month, year) == Some(Day(year, MonthNumbers[month], day))
  {
    var digits := NatToString(day);
    var text := digits + " " + month;
    MonthNamesStable();
    assert LowerStable(text) by {
      assert LowerStable(digits);
    }
    LowerOfStable(text);
    SplitJoin(digits, " ", month, ' ');
    ParseIntOfNat(day);
  }

  /** A stable letter case for the characters of the month names, the
      digits and the space. */
  predicate LowerStable(s: string) {
    forall k :: 0 <= k < |s| ==> s[k] == ' ' || s[k] == '.' || IsDigit(s[k]) || '\U{0430}' <= s[k] <= '\U{044F}'
  }

  /** The month names are lowercase words without spaces. */
  lemma MonthNamesStable()
    ensures forall k :: k in MonthNumbers ==> k != [] && ' ' !in k
    ensures forall k :: k in MonthNumbers ==> LowerStable(k)
  {
  }

  lemma LowerOfStable(s: string)
    requires LowerStable(s)
    ensures Lower(s) == s
  {
  }

  /** `parseDate`: "today" and "yesterday", in any letter case and with
      surrounding whitespace, name the current day and the one before; a
      `yyyy-MM-dd` date names that day; anything else falls back to the
      current day. */
  function ParseDate(input: string, now: Day): (r: Day)
    requires ValidDay(now)
    ensures ValidDay(r)
  {
    var normalized := Lower(Trim(input));
    if normalized == "today" then now
    else if normalized == "yesterday" then PreviousDay(now)
    else match ParseIsoDate(normalized)
      case Some(d) => d
      case None => now
  }

  /** Reading a formatted day gives it back, whatever the current day. */
  lemma ParseFormattedDate(d: Day, now: Day)
    requires ValidDay(d) && 0 <= d.year < 10000 && ValidDay(now)
    ensures ParseDate(FormatDate(d), now) == d
  {
    var s := FormatDate(d);
    TrimOfUnpadded(s);
    assert Lower(s) == s;
    assert s[0] != "today"[0] && s[0] != "yesterday"[0];
    FormatParseRoundTrip(d);
  }

  /** A string that neither starts nor ends with whitespace is its own
      trimmed form. */
  lemma TrimOfUnpadded(s: string)
    requires s != [] && !IsWhitespace(s[0]) && !IsWhitespace(s[|s| - 1])
    ensures Trim(s) == s
  {
  }

  /** Lowercasing never turns a character into whitespace. */
  lemma LowerCharKeepsWhitespace(c: char)
    ensures IsWhitespace(LowerChar(c)) ==> IsWhitespace(c)
  {
  }

  /** The words "today" and "yesterday" are recognised in any letter case
      and with any whitespace around them. */
  lemma ParseDateKeywords(pre: string, word: string, post: string, now: Day)
    requires ValidDay(now) && AllWhitespace(pre) && AllWhitespace(post)
    ensures Lower(word) == "today" ==> ParseDate(pre + word + post, now) == now
    ensures Lower(word) == "yesterday" ==> ParseDate(pre + word + post, now) == PreviousDay(now)
  {
    if Lower(word) == "today" || Lower(word) == "yesterday" {
      LowerCharKeepsWhitespace(word[0]);
      LowerCharKeepsWhitespace(word[|word| - 1]);
      TrimPadded(pre, word, post);
    }
  }

  /** Text that is neither keyword nor a `yyyy-MM-dd` date falls back to
      the current day. */
  lemma ParseDateUnrecognised(now: Day)
    requires ValidDay(now)
    ensures ParseDate("not-a-date", now) == now
  {
    assert Trim("not-a-date") == "not-a-date" && Lower("not-a-date") == "not-a-date";
    assert !IsDigit("not-a-date"[0]);
  }

  // ---------------------------------------------------------------------
  // Listings

  const TitleFallback: string := "Title not found"
  const CompanyFallback: string := "Company not specified"
  const SiteOrigin: string := "https://dev.bg"

  /** A job element is listed when its date parses and falls on the target
      day; the current year stands for the year dev.bg leaves out. */
  predicate Keeps(item: RawItem, target: Day, year: int)
    ensures Keeps(item, target, year) ==> ValidDay(target)
  {
    ParseBgDate(item.dateText, year) == Some(target)
  }

  /** The posting's year is taken to be the current one: a posting whose day
      number lies within its month is never kept for a target day of
      another year, such as yesterday on the first of January. */
  lemma PostingYearIsCurrent(item: RawItem, day: nat, month: string, target: Day, year: int)
    requires month in MonthNumbers && 1 <= day <= DaysInMonth(year, MonthNumbers[month])
    requires item.dateText == NatToString(day) + " " + month
    requires target.year != year
    ensures !Keeps(item, target, year)
  {
    ParseBgDateRoundTrip(day, month, year);
  }

  /** The listing of a kept job element: placeholders for a missing title or
      company, and a site-relative link made absolute. */
  function ToListing(item: RawItem): (l: JobListing)
    ensures l.title != [] && l.company != [] && HasPrefix(l.link, "http")
    ensures l.datePosted == item.dateText
    ensures item.title != [] ==> l.title == item.title
    ensures item.company != [] ==> l.company == item.company
    ensures HasPrefix(item.link, "http") ==> l.link == item.link
  {
    assert HasPrefix(SiteOrigin + item.link, "http") by {
      assert (SiteOrigin + item.link)[..4] == "http";
    }
    JobListing(
      if item.title == [] then TitleFallback else item.title,
      if item.company == [] then CompanyFallback else item.company,
      item.dateText,
      if HasPrefix(item.link, "http") then item.link else SiteOrigin + item.link)
  }

  /** A listing worth reporting: a title, a company, an absolute link and a
      posting date on the target day. */
  predicate WellFormed(l: JobListing, target: Day, year: int) {
    l.title != [] && l.company != [] && HasPrefix(l.link, "http")
    && ParseBgDate(l.datePosted, year) == Some(target)
  }

  /** The listings of the elements of one page, in page order. */
  function Select(items: seq<RawItem>, target: Day, year: int): (r: seq<JobListing>)
    ensures |r| <= |items|
    ensures forall l :: l in r ==> WellFormed(l, target, year)
  {
    if items == [] then []
    else
      var last := items[|items| - 1];
      var listed := if Keeps(last, target, year) then [ToListing(last)] else [];
      Select(items[..|items| - 1], target, year) + listed
  }

  /** The listings of a page are exactly those of its kept elements. */
  lemma {:induction false} SelectListsKept(items: seq<RawItem>, target: Day, year: int)
    ensures forall l :: l in Select(items, target, year) <==>
              exists i :: 0 <= i < |items| && Keeps(items[i], target, year) && l == ToListing(items[i])
  {
    if items != [] {
      var n := |items|;
      var front := items[..n - 1];
      SelectListsKept(front, target, year);
      forall l
        ensures l in Select(items, target, year) <==>
                exists i :: 0 <= i < n && Keeps(items[i], target, year) && l == ToListing(items[i])
      {
        if l in Select(front, target, year) {
          var i :| 0 <= i < n - 1 && Keeps(front[i], target, year) && l == ToListing(front[i]);
          assert items[i] == front[i];
        }
        if exists i :: 0 <= i < n && Keeps(items[i], target, year) && l == ToListing(items[i]) {
          var i :| 0 <= i < n && Keeps(items[i], target, year) && l == ToListing(items[i]);
          if i < n - 1 {
            assert front[i] == items[i];
          }
        }
      }
    }
  }

  /** Selection goes element by element: the listings of two runs of
      elements are the listings of the first followed by those of the
      second. */
  lemma {:induction false} SelectAppend(a: seq<RawItem>, b: seq<RawItem>, target: Day, year: int)
    ensures Select(a + b, target, year) == Select(a, target, year) + Select(b, target, year)
    decreases |b|
  {
    if b == [] {
      assert a + b == a;
    } else {
      var b' := b[..|b| - 1];
      assert (a + b)[..|a + b| - 1] == a + b';
      SelectAppend(a, b', target, year);
    }
  }

  // ---------------------------------------------------------------------
  // The crawl

  /** The listings of pages `page`, `page + 1`, ... up to `MaxPages`: a page
      without job elements ends the crawl, a body that is not UTF-8 is
      skipped and a failed request fails the whole search. */
  function Crawl(site: Site, param: string, target: Day, year: int, page: nat): (r: Result<seq<JobListing>, string>)
    ensures r.Success? ==> forall l :: l in r.value ==> WellFormed(l, target, year)
    decreases MaxPages + 1 - page
  {
    if page > MaxPages then Success([])
    else match site(PageUrl(param, page))
      case Failed(e) => Failure(e)
      case NotUtf8 => Crawl(site, param, target, year, page + 1)
      case Items(items) =>
        if items == [] then Success([])
        else match Crawl(site, param, target, year, page + 1)
          case Failure(e) => Failure(e)
          case Success(rest) => Success(Select(items, target, year) + rest)
  }

  /** The URLs the crawl requests, in order. */
  function Requests(site: Site, param: string, page: nat): seq<string>
    decreases MaxPages + 1 - page
  {
    if page > MaxPages then []
    else match site(PageUrl(param, page))
      case Failed(_) => [PageUrl(param, page)]
      case NotUtf8 => [PageUrl(param, page)] + Requests(site, param, page + 1)
      case Items(items) =>
        if items == [] then [PageUrl(param, page)]
        else [PageUrl(param, page)] + Requests(site, param, page + 1)
  }

  /** The crawl requests consecutive pages starting at `page`, never more
      than `MaxPages` in all, and every request but the last one got a page
      that let the crawl go on. */
  lemma {:induction false} RequestsShape(site: Site, param: string, page: nat)
    requires 1 <= page <= MaxPages + 1
    ensures var r := Requests(site, param, page);
            && |r| <= MaxPages + 1 - page
            && (forall i :: 0 <= i < |r| ==> r[i] == PageUrl(param, page + i))
            && (forall i :: 0 <= i < |r| - 1 ==>
                  site(r[i]).NotUtf8? || (site(r[i]).Items? && site(r[i]).items != []))
    decreases MaxPages + 1 - page
  {
    if page <= MaxPages {
      var url := PageUrl(param, page);
      var r := Requests(site, param, page);
      match site(url)
      case Failed(_) =>
      case NotUtf8 =>
        RequestsShape(site, param, page + 1);
        assert r == [url] + Requests(site, param, page + 1);
      case Items(items) =>
        if items != [] {
          RequestsShape(site, param, page + 1);
          assert r == [url] + Requests(site, param, page + 1);
        }
    }
  }

  /** The crawl runs to page `MaxPages` unless its last request failed or
      got a page without job elements. */
  lemma {:induction false} RequestsStopEarly(site: Site, param: string, page: nat)
    requires 1 <= page <= MaxPages + 1
    ensures var r := Requests(site, param, page);
            |r| == MaxPages + 1 - page
            || (r != [] && (site(r[|r| - 1]).Failed? || site(r[|r| - 1]) == Items([])))
    decreases MaxPages + 1 - page
  {
    if page <= MaxPages {
      var url := PageUrl(param, page);
      var r := Requests(site, param, page);
      var rest := Requests(site, param, page + 1);
      if site(url).NotUtf8? || (site(url).Items? && site(url).items != []) {
        RequestsStopEarly(site, param, page + 1);
        assert r == [url] + rest;
        assert rest != [] ==> r[|r| - 1] == rest[|rest| - 1];
      }
    }
  }

  /** The listings a fetched page contributes: its selected elements, or
      nothing. */
  function PageListings(p: Page, target: Day, year: int): seq<JobListing> {
    if p.Items? then Select(p.items, target, year) else []
  }

  /** The listings of a run of requested pages, page after page. */
  function Gathered(site: Site, urls: seq<string>, target: Day, year: int): seq<JobListing> {
    if urls == [] then []
    else PageListings(site(urls[0]), target, year) + Gathered(site, urls[1..], target, year)
  }

  /** The crawl fails exactly when its last request failed, and otherwise
      lists the selected elements of the requested pages in page order and,
      within a page, in element order. */
  lemma {:induction false} CrawlGathers(site: Site, param: string, target: Day, year: int, page: nat)
    ensures var reqs := Requests(site, param, page);
            var r := Crawl(site, param, target, year, page);
            && (r.Failure? <==> reqs != [] && site(reqs[|reqs| - 1]).Failed?)
            && (r.Failure? ==> r.error == site(reqs[|reqs| - 1]).error)
            && (r.Success? ==> r.value == Gathered(site, reqs, target, year))
    decreases MaxPages + 1 - page
  {
    if page <= MaxPages {
      var url := PageUrl(param, page);
      var reqs := Requests(site, param, page);
      var rest := Requests(site, param, page + 1);
      match site(url)
      case Failed(_) =>
      case NotUtf8 =>
        CrawlGathers(site, param, target, year, page + 1);
        assert reqs == [url] + rest && reqs[1..] == rest;
        assert rest == [] ==> reqs == [url];
      case Items(items) =>
        if items == [] {
          assert Gathered(site, reqs, target, year) == [] + Gathered(site, [], target, year);
        } else {
          CrawlGathers(site, param, target, year, page + 1);
          assert reqs == [url] + rest && reqs[1..] == rest;
          assert rest == [] ==> reqs == [url];
        }
    }
  }

  /** `fetchJobs` as a value: an empty category lists nothing without any
      request; every listing found is well formed. */
  function FetchSpec(category: string, target: Day, year: int, site: Site): (r: Result<seq<JobListing>, string>)
    ensures category == [] ==> r == Success([])
    ensures r.Success? ==> forall l :: l in r.value ==> WellFormed(l, target, year)
  {
    var param := CategoryParameter(category);
    if param == [] then Success([]) else Crawl(site, param, target, year, 1)
  }

  /** The listings of one page's elements: the inner loop of `fetchJobs`. */
  method CollectPage(items: seq<RawItem>, target: Day, year: int) returns (found: seq<JobListing>)
    ensures found == Select(items, target, year)
  {
    found := [];
    for i := 0 to |items|
      invariant found == Select(items[..i], target, year)
    {
      var item := items[i];
      assert items[..i + 1][..i] == items[..i];
      if ParseBgDate(item.dateText, year) != Some(target) {
        continue;
      }
      found := found + [ToListing(item)];
    }
    assert items[..|items|] == items;
  }

  /** `fetchJobs`: the crawl over the category's pages, page by page. */
  method FetchJobs(category: string, target: Day, year: int, site: Site) returns (r: Result<seq<JobListing>, string>)
    ensures r == FetchSpec(category, target, year, site)
  {
    var param := CategoryParameter(category);
    if param == [] {
      return Success([]);
    }
    var listings: seq<JobListing> := [];
    var page := 1;
    PrependNothing(Crawl(site, param, target, year, 1));
    while page <= MaxPages
      invariant 1 <= page <= MaxPages + 1
      invariant Crawl(site, param, target, year, 1) == Prepend(listings, Crawl(site, param, target, year, page))
      decreases MaxPages + 1 - page
    {
      match site(PageUrl(param, page)) {
        case Failed(e) =>
          return Failure(e);
        case NotUtf8 =>
          page := page + 1;
        case Items(items) =>
          if items == [] {
            assert listings + [] == listings;
            break;
          }
          var found := CollectPage(items, target, year);
          PrependTwice(listings, found, Crawl(site, param, target, year, page + 1));
          listings := listings + found;
          page := page + 1;
      }
    }
    assert listings + [] == listings;
    r := Success(listings);
  }

  /** Puts listings found so far in front of the listings of a crawl. */
  function Prepend(found: seq<JobListing>, r: Result<seq<JobListing>, string>): (p: Result<seq<JobListing>, string>)
    ensures p.Failure? <==> r.Failure?
    ensures r.Failure? ==> p == r
  {
    match r
    case Failure(e) => Failure(e)
    case Success(rest) => Success(found + rest)
  }

  lemma PrependNothing(r: Result<seq<JobListing>, string>)
    ensures Prepend([], r) == r
  {
    if r.Success? {
      assert [] + r.value == r.value;
    }
  }

  lemma PrependTwice(a: seq<JobListing>, b: seq<JobListing>, r: Result<seq<JobListing>, string>)
    ensures Prepend(a, Prepend(b, r)) == Prepend(a + b, r)
  {
    if r.Success? {
      assert a + (b + r.value) == (a + b) + r.value;
    }
  }

  // ---------------------------------------------------------------------
  // The report

  const MissingCategoryMessage: string := "Missing job category. Please provide a category."

  /** The answer when no listing matched. */
  function NoJobsMessage(category: string, date: string): string {
    "No jobs found for category '" + category + "' on " + date + " on dev.bg"
  }

  /** The first line of a report and the blank line after it. */
  function ReportHeader(count: nat, category: string, date: string): string {
    "Found " + NatToString(count) + " jobs in '" + category + "' category for " + date + ":\n\n"
  }

  /** The block of one listing, numbered from 1; the link line only when
      there is a link. */
  function ReportEntry(number: nat, job: JobListing): string {
    NatToString(number) + ". " + job.title + "\n"
    + "   Company: " + job.company + "\n"
    + "   Posted: " + job.datePosted + "\n"
    + (if job.link != [] then "   Link: " + job.link + "\n" else "")
    + "\n"
  }

  /** The blocks of all listings, in order. */
  function ReportBody(jobs: seq<JobListing>): string {
    if jobs == [] then ""
    else ReportBody(jobs[..|jobs| - 1]) + ReportEntry(|jobs|, jobs[|jobs| - 1])
  }

  /** `search` as a value: the trimmed category must not be empty; the
      answer names the category and the formatted target day. A failed
      request fails the search; every answer has some text. */
  function SearchSpec(category: string, date: string, now: Day, site: Site): (r: Result<string, string>)
    requires ValidDay(now)
    ensures AllWhitespace(category) ==> r == Success(MissingCategoryMessage)
    ensures r.Success? ==> r.value != []
  {
    TrimEmptyIff(category);
    var trimmed := Trim(category);
    if trimmed == [] then Success(MissingCategoryMessage)
    else
      var target := ParseDate(date, now);
      match FetchSpec(trimmed, target, now.year, site)
      case Failure(e) => Failure(e)
      case Success(jobs) =>
        Success(if jobs == [] then NoJobsMessage(trimmed, FormatDate(target))
                else ReportHeader(|jobs|, trimmed, FormatDate(target)) + ReportBody(jobs))
  }

  /** `search`: the fetched listings turned into the answer. */
  method Search(category: string, date: string, now: Day, site: Site) returns (r: Result<string, string>)
    requires ValidDay(now)
    ensures r == SearchSpec(category, date, now, site)
  {
    var trimmed := Trim(category);
    if trimmed == [] {
      return Success(MissingCategoryMessage);
    }
    var target := ParseDate(date, now);
    var fetched := FetchJobs(trimmed, target, now.year, site);
    match fetched {
      case Failure(e) =>
        return Failure(e);
      case Success(jobs) =>
        if jobs == [] {
          return Success(NoJobsMessage(trimmed, FormatDate(target)));
        }
        var body := Report(jobs);
        r := Success(ReportHeader(|jobs|, trimmed, FormatDate(target)) + body);
    }
  }

  /** The blocks of the report, appended listing by listing. */
  method Report(jobs: seq<JobListing>) returns (body: string)
    ensures body == ReportBody(jobs)
  {
    body := "";
    for i := 0 to |jobs|
      invariant body == ReportBody(jobs[..i])
    {
      assert jobs[..i + 1][..i] == jobs[..i];
      var job := jobs[i];
      var entry := NatToString(i + 1) + ". " + job.title + "\n";
      entry := entry + "   Company: " + job.company + "\n";
      entry := entry + "   Posted: " + job.datePosted + "\n";
      if job.link != [] {
        entry := entry + "   Link: " + job.link + "\n";
      }
      entry := entry + "\n";
      assert entry == ReportEntry(i + 1, job);
      body := body + entry;
    }
    assert jobs[..|jobs|] == jobs;
  }

  /** Surrounding whitespace in the category changes nothing, and only an
      empty or all-whitespace category gets the missing-category answer. */
  lemma SearchCategoryTrimmed(category: string, date: string, now: Day, site: Site)
    requires ValidDay(now)
    ensures SearchSpec(Trim(category), date, now, site) == SearchSpec(category, date, now, site)
    ensures SearchSpec(category, date, now, site) == Success(MissingCategoryMessage) <==> AllWhitespace(category)
  {
    TrimIdempotent(category);
    TrimEmptyIff(category);
    var trimmed := Trim(category);
    if trimmed != [] {
      var target := ParseDate(date, now);
      match FetchSpec(trimmed, target, now.year, site)
      case Failure(e) =>
      case Success(jobs) =>
        if jobs == [] {
          assert NoJobsMessage(trimmed, FormatDate(target))[0] == 'N';
        } else {
          assert (ReportHeader(|jobs|, trimmed, FormatDate(target)) + ReportBody(jobs))[0] == 'F';
        }
    }
  }

  /** Every listing has a link, so every block of a report carries a link
      line: the emptiness check on the link never skips it. */
  lemma ListingLinkNeverEmpty(item: RawItem)
    ensures ToListing(item).link != []
  {
  }
}
