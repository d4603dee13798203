/**
 * The reports page: it fetches the report list and shows one row per report with a coloured
 * status and a download link to the report's file on the backend.
 */
module ReportsPage {
  import opened Wrappers
  import opened Strings
  import opened SeedData

  /** The base the script falls back to. */
  const DefaultApiBase: string := "http://localhost:4000/api"

  /** `if (!window.API_BASE_URL) window.API_BASE_URL = ...`: a missing or empty base is replaced. */
  function ApiBase(preset: Option<string>): (base: string)
    ensures preset.Some? && preset.value != [] ==> base == preset.value
    ensures preset.None? || preset.value == [] ==> base == DefaultApiBase
  {
    match preset
    case Some(b) => if b != [] then b else DefaultApiBase
    case None => DefaultApiBase
  }

  const GeneratedColor: string := "#63fc95"
  const ProcessingColor: string := "#ffd429"
  const FailedColor: string := "#ff1744"

  /** The status colour: green, then yellow for `Processing`, red for `Failed`. */
  function StatusColor(status: string): (c: string)
    ensures c == ProcessingColor <==> status == "Processing"
    ensures c == FailedColor <==> status == "Failed"
    ensures c == GeneratedColor <==> status != "Processing" && status != "Failed"
  {
    var color := GeneratedColor;
    var color := if status == "Processing" then ProcessingColor else color;
    if status == "Failed" then FailedColor else color
  }

  /** `API_BASE_URL.replace('/api', '')`: the first `/api` is removed, and a base without one is kept. */
  function BackendBase(base: string): (b: string)
    ensures IndexOf(base, "/api").None? ==> b == base
    ensures IndexOf(base, "/api").Some? ==>
              var i := IndexOf(base, "/api").value;
              b == base[..i] + base[i + 4..]
  {
    ReplaceFirst(base, "/api", "")
  }

  /** The default base loses its `/api` suffix. */
  lemma DefaultBackendBase()
    ensures BackendBase(DefaultApiBase) == "http://localhost:4000"
  {
    var base := DefaultApiBase;
    assert OccursAt(base, "/api", 21);
    forall j | 0 <= j < 21 ensures !OccursAt(base, "/api", j) {
      assert base[j] != '/' || base[j + 1] != 'a';
      assert base[j..j + 4][0] == base[j] && base[j..j + 4][1] == base[j + 1];
    }
    assert base[..21] == "http://localhost:4000";
  }

  /** `file_path ? ... : ...`: a missing, null or empty path is falsy. */
  predicate HasFile(filePath: Option<string>)
  {
    filePath.Some? && filePath.value != []
  }

  /** The download link as written: the backend base and the file path, with nothing between them. */
  function DownloadUrlAsWritten(base: string, filePath: Option<string>): (url: string)
    ensures HasFile(filePath) ==> url == BackendBase(base) + filePath.value
    ensures !HasFile(filePath) ==> url == "#"
  {
    if HasFile(filePath) then BackendBase(base) + filePath.value else "#"
  }

  /**
   * The backend stores paths such as `reports/<date>_daily.pdf`, so with the default base the
   * link runs the file name into the port: `http://localhost:4000reports/...`.
   */
  lemma SeedLinkMissesSlash(date: string, reportType: string)
    ensures var url := DownloadUrlAsWritten(DefaultApiBase, Some(FilePath(date, reportType)));
            url == "http://localhost:4000" + FilePath(date, reportType) && url[21] == 'r'
  {
    DefaultBackendBase();
  }

  /**
   * The download link as intended: the backend base, one `/`, and the file path without a
   * leading `/` of its own; `#` when there is no file.
   */
  function DownloadUrl(base: string, filePath: Option<string>): (url: string)
    ensures HasFile(filePath) ==>
              var path := filePath.value;
              var relative := if path[0] == '/' then path[1..] else path;
              url == BackendBase(base) + "/" + relative
    ensures HasFile(filePath) ==> |url| > |BackendBase(base)| && url[|BackendBase(base)|] == '/'
    ensures !HasFile(filePath) ==> url == "#"
  {
    if !HasFile(filePath) then "#"
    else
      var path := filePath.value;
      if path[0] == '/' then BackendBase(base) + path else BackendBase(base) + "/" + path
  }

  /** With the default base, a seed report's link is the file under the backend's root. */
  lemma SeedLinkUnderRoot(date: string, reportType: string)
    ensures DownloadUrl(DefaultApiBase, Some(FilePath(date, reportType)))
            == "http://localhost:4000/" + FilePath(date, reportType)
  {
    DefaultBackendBase();
    assert FilePath(date, reportType)[0] == 'r';
  }

  /** The two links agree whenever the stored path starts with `/`. */
  lemma AbsolutePathsAgree(base: string, path: string)
    requires path != [] && path[0] == '/'
    ensures DownloadUrl(base, Some(path)) == DownloadUrlAsWritten(base, Some(path))
  {
  }

  /** A row of the report list, as the backend returns it. */
  datatype Report = Report(date: string, summary: string, reportType: string, status: string, filePath: Option<string>)

  datatype Row =
    /** The single row shown for an empty list. */
    | NoReports
    /** One report: its date, link, whether the link has a `download` attribute, and its texts. */
    | ReportRow(date: string, href: string, download: bool, summary: string, reportType: string,
                status: string, statusColor: string)
    /** The row `showError` leaves. */
    | ErrorRow(message: string)

  /**
   * The row `renderReports` builds for one report. Its link is the one the page writes, with no
   * separator between the backend base and the stored path.
   */
  function RowOf(base: string, r: Report): (row: Row)
    ensures row.ReportRow? && row.date == r.date && row.status == r.status
    ensures row.summary == r.summary && row.reportType == r.reportType
    ensures row.download <==> HasFile(r.filePath)
    ensures HasFile(r.filePath) ==> row.href == BackendBase(base) + r.filePath.value
    ensures !HasFile(r.filePath) ==> row.href == "#"
    ensures row.statusColor == StatusColor(r.status)
  {
    ReportRow(r.date, DownloadUrlAsWritten(base, r.filePath), HasFile(r.filePath), r.summary, r.reportType,
              r.status, StatusColor(r.status))
  }

  /** The table `renderReports` shows: one row per report in the received order, or the empty-list row. */
  predicate ShowsReports(rows: seq<Row>, base: string, reports: seq<Report>)
  {
    if reports == [] then rows == [NoReports]
    else |rows| == |reports| && forall k :: 0 <= k < |reports| ==> rows[k] == RowOf(base, reports[k])
  }

  const LoadError: string := "Failed to load reports from server"

  /** What the `GET /reports` request comes to. */
  datatype ListReply = ListOk(reports: seq<Report>) | ListFailed

  /** The page's state: `window.API_BASE_URL`, the module-level `reportsData` and the table. */
  class ReportsView {
    const apiBase: string
    var reportsData: seq<Report>
    var tbody: seq<Row>

    /** Loading the script, with whatever `window.API_BASE_URL` held before. */
    constructor (preset: Option<string>)
      ensures apiBase == ApiBase(preset) && reportsData == [] && tbody == []
    {
      apiBase := ApiBase(preset);
      reportsData, tbody := [], [];
    }

    /** `renderReports`. */
    method RenderReports()
      modifies this
      ensures ShowsReports(tbody, apiBase, reportsData)
      ensures reportsData == old(reportsData)
    {
      if |reportsData| == 0 {
        tbody := [NoReports];
        return;
      }
      var rows := [];
      for i := 0 to |reportsData|
        invariant |rows| == i && forall k :: 0 <= k < i ==> rows[k] == RowOf(apiBase, reportsData[k])
      {
        rows := rows + [RowOf(apiBase, reportsData[i])];
      }
      tbody := rows;
    }

    /** `fetchReports`: an ok reply replaces the list and re-renders; a failure shows the error row. */
    method FetchReports(reply: ListReply)
      modifies this
      ensures reply.ListOk? ==> reportsData == reply.reports && ShowsReports(tbody, apiBase, reportsData)
      ensures reply.ListFailed? ==> reportsData == old(reportsData) && tbody == [ErrorRow(LoadError)]
    {
      match reply
      case ListOk(reports) =>
        reportsData := reports;
        RenderReports();
      case ListFailed =>
        tbody := [ErrorRow(LoadError)];
    }
  }
}
