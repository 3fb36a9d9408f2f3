/**
 * `app()`: download the 25 channel files of house 5 and the weather file,
 * drop failed downloads, load and join the channels, and write the session
 * state only when every step has produced data.
 *
 * The network is a parameter (`get`, standing for `requests.get`), and so
 * are the two `read_csv` calls. Streamlit's output calls are left out; the
 * outcome records which message the page ends on.
 */
module Home {
  import opened Text
  import opened Labels
  import opened Fetch
  import opened Frames
  import opened Loading

  /** `base_url + "house_5"`: the channel URLs are this plus `/` plus a file name. */
  const ChannelDir: string := "https://raw.githubusercontent.com/opeyemiorugun/Empower/master/data/house_5"

  /** `base_url + "weather.csv"`. */
  const WeatherUrl: string := "https://raw.githubusercontent.com/opeyemiorugun/Empower/master/data/weather.csv"

  /** `channel_{i}.dat` for `i` in `range(1, 26)`. */
  function ChannelFileName(i: nat): string
  {
    "channel" + "_" + Decimal(i) + "." + "dat"
  }

  function ChannelUrls(): (urls: seq<string>)
    ensures |urls| == 25
  {
    seq(25, i requires 0 <= i < 25 => ChannelDir + "/" + ChannelFileName(i + 1))
  }

  /** `requests.get`, as a function from URL to response. */
  type Network = string -> Response

  datatype Page = PowerForecasting | ElectricityTheftDetection | EnergyOptimization

  /** Which navigation buttons report a click in this run. */
  datatype Buttons = Buttons(forecasting: bool, theftDetection: bool, optimization: bool)

  /** What the page writes to `st.session_state`. */
  datatype Session<W> = Session(
    uploadedData: Table,
    columnNames: seq<string>,
    weatherData: W,
    page: Option<Page>)  // None: `page` is not written in this run

  /** The message the run ends on, or the session it writes. */
  datatype Outcome<W> =
    | NoFilesUploaded             // "No files uploaded."
    | Raised(error: LoadError)    // `load_data` raised; the exception escapes `app`
    | NoValidData                 // "No valid data found."
    | WeatherMissing              // "Please upload the weather file."
    | WeatherUnreadable           // "Error reading weather file: ..."
    | Stored(session: Session<W>) // session state written

  /** `[fetch_github_file(url) for url in csv_files_urls]`. */
  function Downloads(get: Network): (results: seq<FetchOutcome>)
    ensures |results| == 25
  {
    var urls := ChannelUrls();
    seq(25, i requires 0 <= i < 25 => FetchGithubFile(urls[i], get(urls[i])))
  }

  /** `[(file, filename) for file, filename in csv_files if file is not None]`. */
  function Successful(results: seq<FetchOutcome>): (kept: seq<FetchOutcome>)
    ensures forall i :: 0 <= i < |kept| ==> kept[i].Fetched?
    decreases |results|
  {
    if |results| == 0 then []
    else (if results[0].Fetched? then [results[0]] else []) + Successful(results[1..])
  }

  /** `all(file[0] for file in uploaded_files['csv_files'])`. */
  predicate AllTruthy(files: seq<FetchOutcome>)
  {
    forall i :: 0 <= i < |files| ==> Truthy(files[i])
  }

  function Files(kept: seq<FetchOutcome>): seq<ChannelFile>
    requires AllTruthy(kept)
  {
    seq(|kept|, i requires 0 <= i < |kept| => kept[i].file)
  }

  /** The three `if st.button(...)` in order: a later click overwrites an earlier one. */
  function PageSelected(b: Buttons): (p: Option<Page>)
    ensures p.None? <==> !b.forecasting && !b.theftDetection && !b.optimization
    ensures p == Some(EnergyOptimization) <==> b.optimization
    ensures p == Some(ElectricityTheftDetection) <==> b.theftDetection && !b.optimization
    ensures p == Some(PowerForecasting) <==> b.forecasting && !b.theftDetection && !b.optimization
  {
    var p0: Option<Page> := None;
    var p1 := if b.forecasting then Some(PowerForecasting) else p0;
    var p2 := if b.theftDetection then Some(ElectricityTheftDetection) else p1;
    if b.optimization then Some(EnergyOptimization) else p2
  }

  /** One run of `app()`. */
  function App<W>(get: Network, readSeries: SeriesReader, readWeather: string -> Option<W>, buttons: Buttons): Outcome<W>
  {
    var csvFiles := Successful(Downloads(get));
    if !AllTruthy(csvFiles) then NoFilesUploaded
    else
      match LoadResult(Files(csvFiles), readSeries)
      case Err(e) => Raised(e)
      case Ok(data) =>
        if IsEmpty(data.dataframe) then NoValidData
        else
          var weather := FetchGithubFile(WeatherUrl, get(WeatherUrl));
          if !Truthy(weather) then WeatherMissing
          else
            match readWeather(weather.file.content)
            case None => WeatherUnreadable
            case Some(w) => Stored(Session(data.dataframe, data.columnNames, w, PageSelected(buttons)))
  }

  // ---------------------------------------------------------------------
  // The download filter

  /** The filter keeps exactly the successful downloads. */
  lemma {:induction false} SuccessfulMember(results: seq<FetchOutcome>, x: FetchOutcome)
    ensures x in Successful(results) <==> x in results && x.Fetched?
    decreases |results|
  {
    if |results| > 0 {
      SuccessfulMember(results[1..], x);
      assert results == [results[0]] + results[1..];
    }
  }

  /** The filter keeps the order of the downloads. */
  lemma {:induction false} SuccessfulAppend(a: seq<FetchOutcome>, b: seq<FetchOutcome>)
    ensures Successful(a + b) == Successful(a) + Successful(b)
    decreases |a|
  {
    if |a| > 0 {
      ConcatShape(a, b);
      SuccessfulAppend(a[1..], b);
    } else {
      ConcatShape(a, b);
    }
  }

  lemma {:induction false} SuccessfulAllFetched(results: seq<FetchOutcome>)
    requires forall i :: 0 <= i < |results| ==> results[i].Fetched?
    ensures Successful(results) == results
    decreases |results|
  {
    if |results| > 0 {
      SuccessfulAllFetched(results[1..]);
      assert results == [results[0]] + results[1..];
    }
  }

  lemma {:induction false} SuccessfulNoneFetched(results: seq<FetchOutcome>)
    requires forall i :: 0 <= i < |results| ==> results[i].Failed?
    ensures Successful(results) == []
    decreases |results|
  {
    if |results| > 0 {
      SuccessfulNoneFetched(results[1..]);
    }
  }

  /**
   * After the filter the `all(...)` guard always holds, also for an empty
   * list, so the page never ends on "No files uploaded."
   */
  lemma NoFilesUploadedUnreachable<W>(get: Network, readSeries: SeriesReader,
                                      readWeather: string -> Option<W>, buttons: Buttons)
    ensures AllTruthy(Successful(Downloads(get)))
    ensures App(get, readSeries, readWeather, buttons) != NoFilesUploaded
  {
  }

  // ---------------------------------------------------------------------
  // Outcomes

  /**
   * When every channel download fails (an error status or a Git LFS pointer)
   * the page ends on "No valid data found.".
   */
  lemma AllDownloadsFailed<W>(get: Network, readSeries: SeriesReader,
                              readWeather: string -> Option<W>, buttons: Buttons)
    requires forall i :: 0 <= i < 25 ==>
      get(ChannelUrls()[i]).statusCode != 200 || StartsWith(get(ChannelUrls()[i]).text, LfsPointerPrefix)
    ensures App(get, readSeries, readWeather, buttons) == NoValidData
  {
    var results := Downloads(get);
    SuccessfulNoneFetched(results);
    assert Files([]) == [];
    assert LoadResult([], readSeries) == Ok(Loaded(EmptyTable, []));
  }

  /**
   * The session is written exactly when loading succeeds with a non-empty
   * frame, the weather file downloads and `read_csv` accepts it; it then
   * holds what `load_data` returned and the parsed weather table.
   */
  lemma SessionWritten<W>(get: Network, readSeries: SeriesReader,
                          readWeather: string -> Option<W>, buttons: Buttons)
    ensures var files := Files(Successful(Downloads(get)));
      var weather := FetchGithubFile(WeatherUrl, get(WeatherUrl));
      App(get, readSeries, readWeather, buttons).Stored? <==>
        && LoadResult(files, readSeries).Ok?
        && !IsEmpty(LoadResult(files, readSeries).value.dataframe)
        && weather.Fetched?
        && readWeather(weather.file.content).Some?
    ensures var files := Files(Successful(Downloads(get)));
      var s := App(get, readSeries, readWeather, buttons);
      s.Stored? ==>
        && s.session.columnNames == Labelled(files)
        && IsOuterJoin(SeriesOf(files, readSeries), s.session.uploadedData)
        && s.session.uploadedData.columns == s.session.columnNames
        && s.session.weatherData == readWeather(get(WeatherUrl).text).value
  {
    StoredWhen(get, readSeries, readWeather, buttons);
    StoredContents(get, readSeries, readWeather, buttons);
  }

  lemma StoredWhen<W>(get: Network, readSeries: SeriesReader,
                      readWeather: string -> Option<W>, buttons: Buttons)
    ensures var files := Files(Successful(Downloads(get)));
      var weather := FetchGithubFile(WeatherUrl, get(WeatherUrl));
      App(get, readSeries, readWeather, buttons).Stored? <==>
        && LoadResult(files, readSeries).Ok?
        && !IsEmpty(LoadResult(files, readSeries).value.dataframe)
        && weather.Fetched?
        && readWeather(weather.file.content).Some?
  {
  }

  lemma StoredContents<W>(get: Network, readSeries: SeriesReader,
                          readWeather: string -> Option<W>, buttons: Buttons)
    ensures var files := Files(Successful(Downloads(get)));
      var s := App(get, readSeries, readWeather, buttons);
      s.Stored? ==>
        && s.session.columnNames == Labelled(files)
        && IsOuterJoin(SeriesOf(files, readSeries), s.session.uploadedData)
        && s.session.uploadedData.columns == s.session.columnNames
        && s.session.weatherData == readWeather(get(WeatherUrl).text).value
  {
    var files := Files(Successful(Downloads(get)));
    StoredSession(get, readSeries, readWeather, buttons);
    if LoadResult(files, readSeries).Ok? {
      LoadedFrame(files, readSeries);
    }
  }

  /** A stored session holds what `load_data` returned and the parsed weather body. */
  lemma StoredSession<W>(get: Network, readSeries: SeriesReader,
                         readWeather: string -> Option<W>, buttons: Buttons)
    ensures var s := App(get, readSeries, readWeather, buttons);
      s.Stored? ==>
        && AllTruthy(Successful(Downloads(get)))
        && LoadResult(Files(Successful(Downloads(get))), readSeries)
           == Ok(Loaded(s.session.uploadedData, s.session.columnNames))
        && readWeather(get(WeatherUrl).text) == Some(s.session.weatherData)
  {
    var csvFiles := Successful(Downloads(get));
    if AllTruthy(csvFiles) {
      var l := LoadResult(Files(csvFiles), readSeries);
      if l.Ok? && !IsEmpty(l.value.dataframe) {
        var weather := FetchGithubFile(WeatherUrl, get(WeatherUrl));
        if weather.Fetched? {
          assert weather.file.content == get(WeatherUrl).text;
        }
      }
    }
  }

  // ---------------------------------------------------------------------
  // The intended run: every download succeeds

  /** The file name the page derives from the `i`-th channel URL, and its channel. */
  lemma ChannelUrlFile(i: nat)
    requires i < 25
    ensures LastPiece(ChannelUrls()[i], '/') == ChannelFileName(i + 1)
    ensures ChannelNumber(ChannelFileName(i + 1)) == Ok(i + 1)
  {
    ChannelOfNumber("channel", i + 1, "dat");
    UrlLastPiece(i);
  }

  lemma UrlLastPiece(i: nat)
    requires i < 25
    ensures LastPiece(ChannelUrls()[i], '/') == ChannelFileName(i + 1)
  {
    var name := ChannelFileName(i + 1);
    assert '/' !in name by {
      DigitsExclude(Decimal(i + 1), '/');
    }
    assert ChannelUrls()[i] == ChannelDir + ['/'] + name;
    LastPieceIsSuffix(ChannelDir, '/', name);
  }

  /** The 25 appliance names in channel order. */
  function AllLabels(): seq<string>
  {
    seq(25, i requires 0 <= i < 25 => LabelDict[i + 1])
  }

  /** Every label is a different name. */
  lemma AllLabelsDistinct()
    ensures Distinct(AllLabels())
  {
    forall i, j | 0 <= i < j < 25
      ensures AllLabels()[i] != AllLabels()[j]
    {
      LabelKeys();
      LabelsDistinct(i + 1, j + 1);
    }
  }

  /** Responses that are all 200 with real content and that all read. */
  ghost predicate AllChannelsServed(get: Network, readSeries: SeriesReader)
  {
    forall i :: 0 <= i < 25 ==>
      var response := get(ChannelUrls()[i]);
      && response.statusCode == 200
      && !StartsWith(response.text, LfsPointerPrefix)
      && readSeries(response.text).Some?
  }

  /** With every channel served, file `i` is `channel_{i+1}.dat`, of a known channel. */
  lemma ServedFiles(get: Network, readSeries: SeriesReader)
    requires AllChannelsServed(get, readSeries)
    ensures var files := Files(Successful(Downloads(get)));
      && |files| == 25
      && forall i :: 0 <= i < 25 ==>
           && ChannelNumber(files[i].filename) == Ok(i + 1)
           && Known(files[i])
           && Label(files[i]) == AllLabels()[i]
           && files[i].content == get(ChannelUrls()[i]).text
           && readSeries(files[i].content).Some?
  {
    var results := Downloads(get);
    SuccessfulAllFetched(results);
    var files := Files(results);
    forall i | 0 <= i < 25
      ensures ChannelNumber(files[i].filename) == Ok(i + 1)
      ensures Known(files[i]) && Label(files[i]) == AllLabels()[i]
      ensures files[i].content == get(ChannelUrls()[i]).text
      ensures readSeries(files[i].content).Some?
    {
      ChannelUrlFile(i);
      LabelKeys();
    }
  }

  /**
   * When every channel URL answers 200 with real content and every file
   * reads, `load_data` labels all 25 channels in channel order.
   */
  lemma FullDownload(get: Network, readSeries: SeriesReader)
    requires AllChannelsServed(get, readSeries)
    ensures var files := Files(Successful(Downloads(get)));
      && LoadResult(files, readSeries).Ok?
      && LoadResult(files, readSeries).value.columnNames == AllLabels()
  {
    ServedFiles(get, readSeries);
    ChannelsInOrder(Files(Successful(Downloads(get))), readSeries);
  }

  /** Files of channels 1 to 25 in order that all read load with every label in channel order. */
  lemma ChannelsInOrder(files: seq<ChannelFile>, read: SeriesReader)
    requires |files| == 25
    requires forall i :: 0 <= i < 25 ==>
      Known(files[i]) && Label(files[i]) == AllLabels()[i] && read(files[i].content).Some?
    ensures LoadResult(files, read).Ok?
    ensures LoadResult(files, read).value.columnNames == AllLabels()
  {
    assert FirstError(files, read).None? by {
      LoadSucceeds(files, read);
    }
    LabelsInOrder(files);
  }

  lemma LabelsInOrder(files: seq<ChannelFile>)
    requires |files| == 25
    requires forall i :: 0 <= i < 25 ==> Known(files[i]) && Label(files[i]) == AllLabels()[i]
    ensures Labelled(files) == AllLabels()
  {
    LabelledAllKnown(files);
  }

  /**
   * The intended run end to end: all channels served, some channel has at least
   * one reading, the weather file is served and reads. The session then holds
   * all 25 appliance columns in channel order and the parsed weather table.
   */
  lemma FullIngestion<W>(get: Network, readSeries: SeriesReader,
                         readWeather: string -> Option<W>, buttons: Buttons, k: nat)
    requires AllChannelsServed(get, readSeries)
    requires k < 25 && |readSeries(get(ChannelUrls()[k]).text).value| > 0
    requires get(WeatherUrl).statusCode == 200 && !StartsWith(get(WeatherUrl).text, LfsPointerPrefix)
    requires readWeather(get(WeatherUrl).text).Some?
    ensures var s := App(get, readSeries, readWeather, buttons);
      && s.Stored?
      && s.session.columnNames == AllLabels()
      && s.session.uploadedData.columns == AllLabels()
      && s.session.weatherData == readWeather(get(WeatherUrl).text).value
      && s.session.page == PageSelected(buttons)
  {
    var files := Files(Successful(Downloads(get)));
    FullDownload(get, readSeries);
    ServedFiles(get, readSeries);
    var data := LoadResult(files, readSeries).value;
    LoadedFrame(files, readSeries);
    assert !IsEmpty(data.dataframe) by {
      SeriesAllKnown(files, readSeries);
      var frames := SeriesOf(files, readSeries);
      assert frames[k].cells == readSeries(files[k].content).value;
      JoinedFrameEmpty(frames);
    }
    SessionWritten(get, readSeries, readWeather, buttons);
  }
}
