/**
  The FastAPI handlers of the backend: the paginated employee list, the
  upload filename check, the chat and recommendation endpoints and the LAN
  address endpoint. Handlers are functions of their arguments; the
  hard-coded roster is a parameter of length 50.
*/
module BackendApi {
  import opened Text
  import opened Wrappers
  import opened AiService

  /** An HTTP error response (`HTTPException`, or the 500 of an uncaught exception). */
  datatype HttpError = HttpError(status: int, detail: string)

  /** A handler's outcome: a JSON body or an HTTP error. */
  datatype Reply<+T> = Ok(value: T) | Fail(error: HttpError)

  /** One row of the employee roster. */
  datatype Employee = Employee(
    employeeId: string, name: string, department: string,
    earnedThisPeriod: int, availableEwa: int, status: string)

  /** The number of rows in the hard-coded roster. */
  const RosterSize: int := 50

  function Min(a: int, b: int): int { if a <= b then a else b }
  function Max(a: int, b: int): int { if a <= b then b else a }

  /** Python's clipping of a slice bound: a negative bound counts from the end, and the result lies in 0..n. */
  function SliceBound(i: int, n: nat): (r: nat)
    ensures r <= n
    ensures 0 <= i ==> r == Min(i, n)
    ensures i < 0 ==> r == Max(i + n, 0)
  {
    if i < 0 then (if i + n < 0 then 0 else i + n) else if i > n then n else i
  }

  /** Python's `s[start:end]`. */
  function PySlice<T>(s: seq<T>, start: int, end: int): (r: seq<T>)
    ensures |r| == Max(0, SliceBound(end, |s|) - SliceBound(start, |s|))
    ensures forall k :: 0 <= k < |r| ==> r[k] == s[SliceBound(start, |s|) + k]
  {
    var a, b := SliceBound(start, |s|), SliceBound(end, |s|);
    if a < b then s[a..b] else []
  }

  /** Python's `a // b`: division rounding towards negative infinity. */
  function FloorDiv(a: int, b: int): (q: int)
    requires b != 0
    ensures b > 0 ==> b * q <= a < b * q + b
    ensures b < 0 ==> b * q >= a > b * q + b
  {
    if b > 0 then a / b else (-a) / (-b)
  }

  /** `a <= b` scales by a non-negative factor. */
  lemma MulMonotone(a: int, b: int, c: int)
    requires a <= b && c >= 0
    ensures a * c <= b * c
  {
    assert b * c - a * c == (b - a) * c;
  }

  /** The first index of a page: `(page - 1) * per_page`. */
  lemma PageStartFacts(page: int, perPage: int)
    requires page >= 1 && perPage >= 0
    ensures 0 <= (page - 1) * perPage
    ensures (page - 1) * perPage + perPage == page * perPage
  {
    MulMonotone(0, page - 1, perPage);
  }

  /** The page slice `s[(page - 1) * per_page : (page - 1) * per_page + per_page]`. */
  function Page<T>(s: seq<T>, page: int, perPage: int): (r: seq<T>)
    ensures perPage >= 0 ==> |r| <= perPage
    ensures page >= 1 && perPage >= 0 ==>
      (PageStartFacts(page, perPage); r == s[Min((page - 1) * perPage, |s|)..Min(page * perPage, |s|)])
  {
    var start := (page - 1) * perPage;
    if page >= 1 && perPage >= 0 then
      PageStartFacts(page, perPage);
      PySlice(s, start, start + perPage)
    else
      PySlice(s, start, start + perPage)
  }

  /** `(total + per_page - 1) // per_page`. */
  function TotalPages(total: int, perPage: int): (r: int)
    requires perPage != 0
    ensures perPage >= 1 ==> (r - 1) * perPage < total <= r * perPage
  {
    FloorDiv(total + perPage - 1, perPage)
  }

  /** The `pagination` object of the response. */
  datatype Pagination = Pagination(page: int, perPage: int, total: int, totalPages: int)

  /** The body of `GET /api/v1/employees`. */
  datatype EmployeePage = EmployeePage(employees: seq<Employee>, pagination: Pagination)

  /**
    `get_employees`: the requested page of the roster and the pagination
    summary. `per_page = 0` makes the floor division raise, which the
    framework turns into a 500 response.
  */
  function GetEmployees(roster: seq<Employee>, page: int, perPage: int): (r: Reply<EmployeePage>)
    requires |roster| == RosterSize
    ensures r.Fail? <==> perPage == 0
    ensures r.Fail? ==> r.error.status == 500
    ensures r.Ok? ==> r.value.employees == Page(roster, page, perPage)
    ensures r.Ok? ==> r.value.pagination == Pagination(page, perPage, RosterSize, TotalPages(RosterSize, perPage))
  {
    var employees := Page(roster, page, perPage);
    if perPage == 0 then Fail(HttpError(500, "Internal Server Error"))
    else Ok(EmployeePage(employees, Pagination(page, perPage, |roster|, TotalPages(|roster|, perPage))))
  }

  /** Pages 1..k laid end to end. */
  function PagesUpTo<T>(s: seq<T>, perPage: int, k: nat): seq<T>
    requires perPage >= 1
  {
    if k == 0 then [] else PagesUpTo(s, perPage, k - 1) + Page(s, k, perPage)
  }

  /** Pages 1..k together are the first k * per_page entries (or all of them). */
  lemma {:induction false} PagesUpToIsPrefix<T>(s: seq<T>, perPage: int, k: nat)
    requires perPage >= 1
    ensures PagesUpTo(s, perPage, k) == s[..Min(k * perPage, |s|)]
  {
    if k > 0 {
      PagesUpToIsPrefix(s, perPage, k - 1);
      PageStartFacts(k, perPage);
      var a, b := Min((k - 1) * perPage, |s|), Min(k * perPage, |s|);
      assert Page(s, k, perPage) == s[a..b];
      assert s[..b] == s[..a] + s[a..b];
    }
  }

  /** Pages 1..total_pages, concatenated in order, reproduce the whole list. */
  lemma PagesPartitionList<T>(s: seq<T>, perPage: int)
    requires perPage >= 1
    ensures TotalPages(|s|, perPage) >= 0
    ensures PagesUpTo(s, perPage, TotalPages(|s|, perPage)) == s
  {
    var tp := TotalPages(|s|, perPage);
    if tp < 0 {
      MulMonotone(tp, -1, perPage);
      assert false;
    }
    PagesUpToIsPrefix(s, perPage, tp);
    assert s[..Min(tp * perPage, |s|)] == s;
  }

  /** Every page from 1 to total_pages holds at least one entry. */
  lemma PagesNonEmpty<T>(s: seq<T>, perPage: int, page: int)
    requires perPage >= 1 && 1 <= page <= TotalPages(|s|, perPage)
    ensures |Page(s, page, perPage)| > 0
  {
    var tp := TotalPages(|s|, perPage);
    MulMonotone(page - 1, tp - 1, perPage);
    PageStartFacts(page, perPage);
  }

  /** A page beyond total_pages is empty. */
  lemma PageBeyondLastIsEmpty<T>(s: seq<T>, perPage: int, page: int)
    requires perPage >= 1 && page > TotalPages(|s|, perPage)
    ensures Page(s, page, perPage) == []
  {
    var tp := TotalPages(|s|, perPage);
    MulMonotone(tp, page - 1, perPage);
    PageStartFacts(page, perPage);
  }

  /** Quotient and remainder are determined by `n == q * d + r` with `0 <= r < d`. */
  lemma DivisionUnique(n: int, d: int, q: int, r: int)
    requires d >= 1 && 0 <= r < d && n == q * d + r
    ensures q == n / d && r == n % d
  {
    var q0, r0 := n / d, n % d;
    assert n == q0 * d + r0;
    if q < q0 {
      MulMonotone(q + 1, q0, d);
    } else if q > q0 {
      MulMonotone(q0 + 1, q, d);
    }
  }

  /** Position j of page q holds entry (q - 1) * per_page + j, and only entry i sits at page i / per_page + 1, position i % per_page. */
  lemma PagePositionUnique<T>(s: seq<T>, perPage: int, q: int, j: int)
    requires perPage >= 1 && q >= 1 && 0 <= j < |Page(s, q, perPage)|
    ensures var i := (q - 1) * perPage + j;
      0 <= i < |s| && Page(s, q, perPage)[j] == s[i] && q == i / perPage + 1 && j == i % perPage
  {
    PageStartFacts(q, perPage);
    DivisionUnique((q - 1) * perPage + j, perPage, q - 1, j);
  }

  /**
    Every entry of the list is on some page: entry i is at position
    i % per_page of page i / per_page + 1, a page within 1..total_pages.
  */
  lemma EntryOnPage<T>(s: seq<T>, perPage: int, i: int)
    requires perPage >= 1 && 0 <= i < |s|
    ensures var p := i / perPage + 1;
      && 1 <= p <= TotalPages(|s|, perPage)
      && i % perPage < |Page(s, p, perPage)|
      && Page(s, p, perPage)[i % perPage] == s[i]
  {
    var p := i / perPage + 1;
    var tp := TotalPages(|s|, perPage);
    assert (p - 1) * perPage + i % perPage == i;
    if p > tp {
      MulMonotone(tp, p - 1, perPage);
      assert false;
    }
    PageStartFacts(p, perPage);
  }

  /** A page beyond the last one is an empty list, and the response still reports the totals. */
  lemma PageBeyondLastResponse(roster: seq<Employee>, page: int, perPage: int)
    requires |roster| == RosterSize && perPage >= 1 && page > TotalPages(RosterSize, perPage)
    ensures GetEmployees(roster, page, perPage)
      == Ok(EmployeePage([], Pagination(page, perPage, RosterSize, TotalPages(RosterSize, perPage))))
  {
    PageBeyondLastIsEmpty(roster, perPage, page);
  }

  /** The default query (page 1 of 10) and the page counts of a 50-entry roster; page 0 is empty and page -1 counts from the end. */
  lemma EmployeePagesExamples(roster: seq<Employee>)
    requires |roster| == RosterSize
    ensures GetEmployees(roster, 1, 10) == Ok(EmployeePage(roster[..10], Pagination(1, 10, 50, 5)))
    ensures TotalPages(50, 15) == 4 && Page(roster, 4, 15) == roster[45..]
    ensures GetEmployees(roster, 0, 10).value.employees == []
    ensures GetEmployees(roster, -1, 10).value.employees == roster[30..40]
  {
  }

  /** The detail of the 400 response for a file that is not a CSV. */
  const InvalidFileTypeDetail: string := "Invalid file type. Please upload a CSV file."

  /** The first step of `upload_csv`: reject the upload, or go on to read and parse the file. */
  datatype UploadCheck = Rejected(error: HttpError) | ReadAndParse

  /** `upload_csv`'s filename check, made before the file is read. */
  function CheckUploadFilename(filename: string): (r: UploadCheck)
    ensures r.ReadAndParse? <==> EndsWith(filename, ".csv")
    ensures r.Rejected? ==> r.error == HttpError(400, InvalidFileTypeDetail)
  {
    if EndsWith(filename, ".csv") then ReadAndParse else Rejected(HttpError(400, InvalidFileTypeDetail))
  }

  /** Any name ending in ".csv" passes; the check is case-sensitive and looks only at the end of the name. */
  lemma UploadFilenameExamples(stem: string)
    ensures CheckUploadFilename(stem + ".csv").ReadAndParse?
    ensures CheckUploadFilename("payroll.CSV").Rejected?
    ensures CheckUploadFilename("payroll.csv.xlsx").Rejected?
    ensures CheckUploadFilename("csv").Rejected?
  {
    assert (stem + ".csv")[|stem|..] == ".csv";
    assert "payroll.CSV"[10] == 'V';
    assert "payroll.csv.xlsx"[15] == 'x';
  }

  /** `sum(r.get("potential_savings", 0) for r in recommendations)`, added left to right. */
  function SumSavings(recs: seq<Recommendation>): (total: int)
    ensures (forall i :: 0 <= i < |recs| ==> recs[i].potentialSavings.GetOr(0) >= 0) ==> total >= 0
    ensures (forall i :: 0 <= i < |recs| ==> recs[i].potentialSavings == None) ==> total == 0
  {
    if recs == [] then 0
    else SumSavings(recs[..|recs| - 1]) + recs[|recs| - 1].potentialSavings.GetOr(0)
  }

  /** The sum of two lists is the sum of the parts. */
  lemma {:induction false} SumSavingsAppend(a: seq<Recommendation>, b: seq<Recommendation>)
    ensures SumSavings(a + b) == SumSavings(a) + SumSavings(b)
    decreases |b|
  {
    if b != [] {
      assert (a + b)[..|a + b| - 1] == a + b[..|b| - 1];
      SumSavingsAppend(a, b[..|b| - 1]);
    } else {
      assert a + b == a;
    }
  }

  /** A recommendation without `potential_savings` adds nothing. */
  lemma SumSavingsMissingIsZero(recs: seq<Recommendation>, r: Recommendation)
    requires r.potentialSavings == None
    ensures SumSavings(recs + [r]) == SumSavings(recs)
  {
    assert (recs + [r])[..|recs|] == recs;
  }

  /** The body of `POST /api/v1/ai/recommend`. */
  datatype RecommendResponse = RecommendResponse(recommendations: seq<Recommendation>, totalPotentialSavings: int)

  /** `ai_recommend`: the service's recommendations with their total savings, which for the mock list is 500 + 150 + 75. */
  function AiRecommend(): (r: RecommendResponse)
    ensures r.recommendations == MockRecommendations()
    ensures r.totalPotentialSavings == 725
  {
    var recs := MockRecommendations();
    assert recs[..1][..0] == [] && recs[..2][..1] == recs[..1] && recs[..3][..2] == recs[..2];
    assert SumSavings(recs[..1]) == 500;
    assert SumSavings(recs[..2]) == 650;
    assert recs[..3] == recs;
    RecommendResponse(recs, SumSavings(recs))
  }

  /** The context the chat endpoint passes to the service. */
  const ChatEndpointContext: ChatContext := ChatContext(2500, 8450, "2024-12-16")

  /** The body of `POST /api/v1/ai/chat`. */
  datatype ChatResponse = ChatResponse(response: string, context: ChatContext)

  /** `ai_chat`: the message field (empty when missing) answered by the service under the fixed context. */
  function AiChat(body: map<string, string>): (r: ChatResponse)
    ensures r.context == ChatEndpointContext
    ensures "message" in body ==> r.response == MockChatResponse(body["message"], Some(ChatEndpointContext))
    ensures "message" !in body ==> r.response == GreetingReply
  {
    var message := if "message" in body then body["message"] else "";
    assert "message" !in body ==>
      (!Contains(Lower(message), "how much") && !Contains(Lower(message), "when")
       && !Contains(Lower(message), "withdraw") && !Contains(Lower(message), "cash out"));
    ChatResponse(MockChatResponse(message, Some(ChatEndpointContext)), ChatEndpointContext)
  }

  /** The body of `GET /api/v1/system/ip`. */
  datatype SystemIp = SystemIp(ip: string, frontendUrl: string)

  /** `get_system_ip` for the LAN address found by the socket probe. */
  function GetSystemIp(lanIp: string): (r: SystemIp)
    ensures r.ip == lanIp
    ensures StartsWith(r.frontendUrl, "http://") && EndsWith(r.frontendUrl, ":3000")
    ensures |r.frontendUrl| == |lanIp| + 12 && r.frontendUrl[7..|r.frontendUrl| - 5] == lanIp
  {
    var url := "http://" + lanIp + ":3000";
    assert url[7..|url| - 5] == lanIp;
    SystemIp(lanIp, url)
  }
}
