# Empower home page: data ingestion, modelled in Dafny

The home page of the Empower energy dashboard (`apps/home.py`) downloads the
25 per-appliance power-meter files of house 5 and a weather file from a raw
GitHub URL. It drops failed downloads and reads each channel file into a
one-column, time-indexed frame named after its appliance. It outer-joins
the frames on time and stores the joined table, the column names and the
weather table in Streamlit's session state.

This project models that path:

- `text.dfy` (module `Text`): the Python string operations the page relies on.
  These are `str.split` with one separator, `s.split(sep)[-1]`,
  `str.startswith`, `str(n)` and `int(s)`.
- `labels.dfy` (module `Labels`): the constant `label_dict`, from channel
  number to appliance name.
- `fetch.dfy` (module `Fetch`): `fetch_github_file`. It classifies an HTTP
  response as a download, an HTTP failure or a Git LFS pointer stub, and
  takes the file name from the URL.
- `frames.dfy` (module `Frames`): one-column frames and the wide table of
  `pd.concat(frames, axis=1)`. The table is an outer join on the time index,
  with absent cells where a channel has no reading. `DataFrame.empty` is
  also modelled.
- `loading.dfy` (module `Loading`): `load_data`. It parses the channel
  number from the file name, looks it up, skips unknown channels and
  accumulates column names and frames. `LoadData` is the source's loop. It
  is proved to compute `LoadResult`, a per-file specification whose
  properties are proved as lemmas.
- `home.dfy` (module `Home`): `app()`. It builds the 25 URLs, downloads,
  filters, runs the guard and `load_data`, checks emptiness, fetches and
  reads the weather file, and writes the session. `App` returns which
  message the run ends on, or the session it writes.

`requests.get` is a parameter `get: string -> Response`. The two
`pd.read_csv` calls are parameters too. A channel reader returns the readings
by timestamp, or None when it raises. A weather reader returns a table, or
None when it raises.

Error paths and edge cases, as the code handles them:

- A malformed channel file is not skipped. The exception from `pd.read_csv`
  (apps/home.py:67) escapes `load_data` and `app`, because no `try` surrounds
  them. The model returns `Raised(UnreadableSeries(..))`.
- The same holds for a file name without `_` (IndexError) and for a
  non-numeric channel token (ValueError) at apps/home.py:53.
- The `all(...)` guard at apps/home.py:91 always holds after the filter at
  line 88, even for an empty list. So "No files uploaded." is never shown.
  When every download fails, the page shows "No valid data found." instead.
  `Home.NoFilesUploadedUnreachable` and `Home.AllDownloadsFailed` prove this.
- `DataFrame.empty` is true when either axis has length zero. A join of
  frames that all lack readings therefore also ends on "No valid data found."

## Model

| member | source | states |
|---|---|---|
| `Labels.LabelKeys` | apps/home.py:7-33 | the label table knows exactly channels 1 to 25 |
| `Labels.LabelsDistinct` | apps/home.py:7-33 | two different channels never share an appliance name |
| `Text.Split` | apps/home.py:53 | `str.split(sep)` returns at least one piece, and no piece contains the separator |
| `Text.JoinSplit` | apps/home.py:53 | joining the pieces of a split with the separator gives back the string |
| `Text.SplitHasSecondPiece` | apps/home.py:53 | `split(sep)[1]` exists exactly when the separator occurs (otherwise IndexError) |
| `Text.SplitAround` | apps/home.py:53 | splitting at one separator occurrence splits the two sides independently |
| `Text.LastPieceSuffix` | apps/home.py:43 | `split('/')[-1]` is a slash-free suffix, either the whole string or preceded by a slash |
| `Text.Decimal` | apps/home.py:84 | `str(i)` is a non-empty run of digits without a leading zero |
| `Text.ParseDecimal` | apps/home.py:53 | `int(str(n)) == n` for every natural number |
| `Text.ParseDigits` | apps/home.py:53 | `int()` of a bare run of ASCII digits is its decimal value |
| `Text.ParseInt` | apps/home.py:53 | `int(s)`: trims ASCII whitespace, takes one optional sign and then needs ASCII digits only; `ParseDigits`, `ParseDecimal`, `ParseIntNeedsDigit` and `ParseIntRejects` state its value and its failures |
| `Text.ParseIntRejects` | apps/home.py:53 | `int()` of a string holding any character that is not a digit, whitespace or a sign raises |
| `Text.StartsWith` | apps/home.py:40 | `str.startswith`; `LfsPointerNeverFetched` shows that every body with the LFS pointer prefix satisfies it and is refused |
| `Text.LastPiece` | apps/home.py:43 | `split('/')[-1]`; `LastPieceSuffix` and `LastSegmentUnique` show it is the unique slash-free suffix that is the whole string or follows a slash |
| `Text.ParseIntNeedsDigit` | apps/home.py:53 | `int()` of a string without a digit, including the empty string, raises |
| `Fetch.FetchGithubFile` | apps/home.py:35-46 | a non-200 status fails; a 200 body starting with the LFS pointer line fails; otherwise the body is returned under the URL's last path segment |
| `Fetch.LastSegmentUnique` | apps/home.py:43 | the last path segment of a URL is determined uniquely |
| `Fetch.LfsPointerNeverFetched` | apps/home.py:39-42 | any body that starts with the LFS pointer line is never handed on as data |
| `Fetch.FetchedName` | apps/home.py:43 | a file under a directory URL is named by the part after the last slash |
| `Frames.Concat` | apps/home.py:74 | `pd.concat(axis=1)` has one column per frame, in order and under its name; the rows are the union of the timestamps; each cell holds that frame's reading or is absent |
| `Frames.IsEmpty` | apps/home.py:93 | `DataFrame.empty`: no columns or no rows; `JoinedFrameEmpty` shows the join is empty exactly when there are no frames or no readings |
| `Frames.JoinedFrame` | apps/home.py:74 | no frames give the empty `DataFrame()`; otherwise the outer join |
| `Frames.TimestampsMember` | apps/home.py:74 | a timestamp is a row exactly when some frame has a reading at it |
| `Frames.OuterJoinUnique` | apps/home.py:74 | two tables that are both the outer join of the same frames are equal |
| `Frames.JoinedFrameEmpty` | apps/home.py:74 | the join is empty exactly when there are no frames or no frame has a reading |
| `Frames.ColumnRoundTrip` | apps/home.py:74 | column j of the join gives back frame j's name and exactly its readings |
| `Frames.DisjointRowCount` | apps/home.py:74 | frames over disjoint times give as many rows as readings in total |
| `Frames.AddColumnJoin` | apps/home.py:74 | appending a frame to the join of a prefix gives the join of the longer sequence |
| `Loading.ChannelToken` | apps/home.py:53 | the token `split('_')[1].split('.')[0]` exists exactly when the name contains `_` |
| `Loading.ChannelNumber` | apps/home.py:53 | a name without `_` raises IndexError; every other failure is a ValueError from `int` |
| `Loading.ChannelTokenOf` | apps/home.py:53 | the token of `<stem>_<body>.<ext>` is `<body>` when the body has no `_` or `.` |
| `Loading.ChannelOfDigits` | apps/home.py:53 | `<stem>_<digits>.<ext>` names channel `<digits>`, for any extension |
| `Loading.ChannelOfNumber` | apps/home.py:53 | the name built from `str(n)` gives back channel n |
| `Loading.EmptyChannelToken` | apps/home.py:53 | an empty token (`channel_.dat`) raises ValueError |
| `Loading.ChannelOfNonNumeric` | apps/home.py:53 | a name whose token `int()` refuses (`channel_7a.dat`) raises ValueError carrying that token |
| `Loading.LoadResult` | apps/home.py:48-76 | the result of `load_data` file by file; `LoadData` computes it, and `LoadSucceeds`, `LoadedFrame`, `UnknownChannelSkipped` and the append lemmas state when it raises and what it returns |
| `Loading.LoadData` | apps/home.py:48-76 | the loop returns the outer join of the known files' frames with their labels in file order, or raises the first file's error |
| `Loading.LoadStep` | apps/home.py:52-72 | one loop turn: with no earlier exception, file i's exception (if any) is the one raised, and its label and frame are appended to those of the earlier files |
| `Loading.FirstErrorAppend` | apps/home.py:52-72 | the first error of a concatenation is the first error of its first part, if any, and otherwise of its second part |
| `Loading.LabelledAppend` | apps/home.py:64-65 | column names keep file order: the names of a concatenation are the names of its parts, concatenated |
| `Loading.SeriesOfAppend` | apps/home.py:67-72 | frames keep file order in the same way |
| `Loading.LoadSucceeds` | apps/home.py:52-72 | the loop finishes exactly when every name parses and every known channel's file reads |
| `Loading.SeriesNames` | apps/home.py:71 | frame k has the single column name `column_names[k]`, so both lists have the same length |
| `Loading.LabelledOrReported` | apps/home.py:59-65 | on success, every file is either labelled or reported as an unknown channel |
| `Loading.UnknownChannelSkipped` | apps/home.py:60-62 | a file of an unknown channel changes nothing in the result and does not stop the loop; its channel is reported |
| `Loading.LabelledFrom` | apps/home.py:64-65 | every column name is the label of some known file |
| `Loading.LabelledAllKnown` | apps/home.py:64-65 | when every channel is known, column k is file k's label |
| `Loading.SeriesAllKnown` | apps/home.py:67-72 | when every channel is known and every file reads, frame k holds file k's readings under its label |
| `Loading.DistinctColumnNames` | apps/home.py:53-65 | files of distinct channels give pairwise distinct column names |
| `Loading.LoadedFrame` | apps/home.py:64-76 | on success the names are the labels in order; no known file gives the empty frame; otherwise the frame is their outer join with columns equal to the names |
| `Loading.SingleKnownFile` | apps/home.py:52-76 | one file of a known channel gives one column, named after its appliance |
| `Loading.TreadmillExample` | apps/home.py:14 | `channel_7.dat` gives the single column `treadmill` |
| `Home.ChannelUrls` | apps/home.py:84 | there are 25 channel URLs |
| `Home.Downloads` | apps/home.py:87 | there is one fetch result per channel URL |
| `Home.Successful` | apps/home.py:88 | every entry kept by the filter is a successful download |
| `Home.SuccessfulMember` | apps/home.py:88 | the filter keeps exactly the successful downloads |
| `Home.SuccessfulAppend` | apps/home.py:88 | the filter keeps the download order |
| `Home.SuccessfulAllFetched` | apps/home.py:88 | when every download succeeds, the filter keeps all of them |
| `Home.SuccessfulNoneFetched` | apps/home.py:88 | when every download fails, nothing is kept |
| `Home.PageSelected` | apps/home.py:110-116 | no click leaves `page` unwritten; otherwise the last clicked button in page order decides |
| `Home.NoFilesUploadedUnreachable` | apps/home.py:88-124 | the `all(...)` guard always holds after the filter, so "No files uploaded." is never the outcome |
| `Home.AllDownloadsFailed` | apps/home.py:87-122 | when every channel download fails, the page ends on "No valid data found." |
| `Home.App` | apps/home.py:78-124 | the run from URLs to session; `NoFilesUploadedUnreachable`, `AllDownloadsFailed`, `SessionWritten` and `FullIngestion` state its outcomes |
| `Home.StoredSession` | apps/home.py:93-108 | a stored session holds exactly what `load_data` returned and the parsed weather body |
| `Home.SessionWritten` | apps/home.py:93-108 | the session is written exactly when loading succeeds with a non-empty frame and the weather file downloads and reads; it then holds the labels in order, their outer join and the weather table |
| `Home.ChannelUrlFile` | apps/home.py:84 | the i-th URL's file name is `channel_{i+1}.dat`, which parses to channel i+1 |
| `Home.AllLabelsDistinct` | apps/home.py:7-33 | the 25 appliance names in channel order are pairwise distinct |
| `Home.ServedFiles` | apps/home.py:84-88 | with every channel served, file i is of known channel i+1 and reads |
| `Home.ChannelsInOrder` | apps/home.py:48-76 | files of channels 1 to 25 in order that all read load without an exception, with the 25 labels in channel order |
| `Home.FullDownload` | apps/home.py:84-92 | with every channel served, `load_data` succeeds with all 25 labels in channel order |
| `Home.FullIngestion` | apps/home.py:78-116 | with every file served and readable and some channel with at least one reading, the session holds all 25 columns in order, the weather table and the selected page |

## Left out

- `requests.get` and all network I/O (apps/home.py:36, 87, 98) are a parameter, a function from URL to status code and body. A timeout or an unreachable host is not modelled; it would raise out of `app`.
- Streamlit output (`st.title`, `st.write`, `st.error`, `st.warning`, the debug lines at apps/home.py:56-57, `head()` previews) is not modelled. What the page reports is kept as data: the fetch failure reason, the list of unknown channels and the outcome of the run.
- `pd.read_csv` with whitespace delimiters, the `float64` parse and `pd.to_datetime(unit='s')` (apps/home.py:67-68) are a parameter: the readings by timestamp, or a raise. A timestamp is a nanosecond count and a reading is an exact number. Float rounding is not modelled.
- The row order of the joined index is not modelled. The table is a map keyed by timestamp, so a file with duplicate timestamps cannot be expressed: pandas keeps them when every frame has the same index and raises otherwise; the model represents neither.
- Weather parsing (apps/home.py:101) is a parameter that succeeds with a table or raises. The `try` at apps/home.py:100-118 is assumed to raise only from `read_csv`, not from the preview or the buttons.
- Button clicks come from the user interface and are an input. The page router that reads `page` is not part of this model.
- `int()` is modelled for ASCII whitespace, an optional sign and ASCII digits. Unicode digits and Unicode whitespace are not modelled. Underscores and dots cannot reach `int()` here, because the token comes from splitting on them.
- The label-file and API-based label sources described for other variants of this page are not in apps/home.py and are not part of this model.
