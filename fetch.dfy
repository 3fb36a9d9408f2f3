/**
 * `fetch_github_file`: what the page makes of one HTTP response for a raw
 * file URL. The request itself is outside the model; the response (status
 * code and body text) is an input.
 */
module Fetch {
  import opened Text

  datatype Response = Response(statusCode: int, text: string)

  /** A downloaded file: its text (wrapped in a `StringIO`) and its name. */
  datatype ChannelFile = ChannelFile(content: string, filename: string)

  /** Why a download yields `(None, None)`; each is reported with `st.error`. */
  datatype FetchFailure = HttpError(statusCode: int) | LfsPointer

  datatype FetchOutcome = Fetched(file: ChannelFile) | Failed(reason: FetchFailure)

  /** First line of a Git LFS pointer file, which stands in for the real content. */
  const LfsPointerPrefix: string := "version https://git-lfs.github.com/spec/v1"

  /** The `if file:` test: a `StringIO` is always truthy, `None` never. */
  predicate Truthy(f: FetchOutcome)
  {
    f.Fetched?
  }

  /** `fetch_github_file(url)`, given the response `requests.get(url)` returned. */
  function FetchGithubFile(url: string, response: Response): (r: FetchOutcome)
    ensures r.Failed? && r.reason.HttpError? <==> response.statusCode != 200
    ensures r.Failed? && r.reason.LfsPointer? <==>
      response.statusCode == 200 && StartsWith(response.text, LfsPointerPrefix)
    ensures r.Fetched? ==> r.file.content == response.text
    ensures r.Fetched? ==> IsLastSegment(url, r.file.filename)
  {
    if response.statusCode == 200 then
      if StartsWith(response.text, LfsPointerPrefix) then Failed(LfsPointer)
      else
        LastPieceSuffix(url, '/');
        Fetched(ChannelFile(response.text, LastPiece(url, '/')))
    else Failed(HttpError(response.statusCode))
  }

  /**
   * `name` is the final path segment of `url`: a slash-free suffix that is
   * the whole URL or follows a slash.
   */
  predicate IsLastSegment(url: string, name: string)
  {
    && '/' !in name
    && |name| <= |url|
    && url[|url| - |name|..] == name
    && (|name| < |url| ==> url[|url| - |name| - 1] == '/')
  }

  /** The last segment of a URL is unique: any two candidates coincide. */
  lemma {:induction false} LastSegmentUnique(url: string, a: string, b: string)
    requires IsLastSegment(url, a) && IsLastSegment(url, b)
    ensures a == b
  {
    if |a| != |b| {
      assert false;
    }
  }

  /** A Git LFS pointer is never handed on as data, whatever else follows the prefix. */
  lemma LfsPointerNeverFetched(url: string, rest: string)
    ensures FetchGithubFile(url, Response(200, LfsPointerPrefix + rest)) == Failed(LfsPointer)
  {
    assert (LfsPointerPrefix + rest)[..|LfsPointerPrefix|] == LfsPointerPrefix;
  }

  /** A file under a directory URL is named by the part after the last slash. */
  lemma FetchedName(dir: string, name: string, body: string)
    requires '/' !in name && !StartsWith(body, LfsPointerPrefix)
    ensures FetchGithubFile(dir + "/" + name, Response(200, body)) == Fetched(ChannelFile(body, name))
  {
    LastPieceIsSuffix(dir, '/', name);
  }
}
