/**
 * `load_data`: label each downloaded channel file from its name, skip the
 * channels the label table does not know, read the others into one-column
 * frames and join them on the time index.
 *
 * The specification is stated per file and folded from the right
 * (`Labelled`, `SeriesOf`, `FirstError`); the method `LoadData` is the
 * source's loop and is proved to compute `LoadResult`.
 */
module Loading {
  import opened Text
  import opened Labels
  import opened Fetch
  import opened Frames

  /** The exceptions `load_data` lets escape. */
  datatype LoadError =
    | MissingUnderscore(filename: string)  // IndexError: `filename.split('_')[1]`
    | NotAnInteger(token: string)          // ValueError: `int(token)`
    | UnreadableSeries(filename: string)   // `pd.read_csv` raised on the content

  datatype Result<+T> = Ok(value: T) | Err(error: LoadError)

  /** What `load_data` returns: the joined frame and the column names. */
  datatype Loaded = Loaded(dataframe: Table, columnNames: seq<string>)

  /** `read_csv` + `to_datetime` of a channel file: its readings, or None when it raises. */
  type SeriesReader = string -> Option<map<Timestamp, Power>>

  /** `filename.split('_')[1].split('.')[0]`; None where indexing raises IndexError. */
  function ChannelToken(filename: string): (r: Option<string>)
    ensures r.None? <==> '_' !in filename
  {
    var parts := Split(filename, '_');
    SplitHasSecondPiece(filename, '_');
    if |parts| < 2 then None else Some(Split(parts[1], '.')[0])
  }

  /** `int(filename.split('_')[1].split('.')[0])`. */
  function ChannelNumber(filename: string): (r: Result<int>)
    ensures r == Err(MissingUnderscore(filename)) <==> '_' !in filename
    ensures r.Err? ==> r.error == MissingUnderscore(filename) || r.error.NotAnInteger?
  {
    match ChannelToken(filename)
    case None => Err(MissingUnderscore(filename))
    case Some(token) =>
      match ParseInt(token)
      case None => Err(NotAnInteger(token))
      case Some(n) => Ok(n)
  }

  /** The token of `<stem>_<body>.<ext>` is `<body>` when neither separator occurs in it. */
  lemma ChannelTokenOf(stem: string, body: string, ext: string)
    requires '_' !in stem && '_' !in body && '.' !in body
    ensures ChannelToken(stem + "_" + body + "." + ext) == Some(body)
  {
    var tail := body + "." + ext;
    assert stem + "_" + body + "." + ext == stem + ['_'] + tail;
    SplitAround(stem, '_', tail);
    SplitWithoutSeparator(stem, '_');
    FirstDotPiece(body, ext);
  }

  lemma FirstDotPiece(body: string, ext: string)
    requires '_' !in body && '.' !in body
    ensures Split(Split(body + "." + ext, '_')[0], '.')[0] == body
  {
    assert body + "." + ext == body + ("." + ext);
    FirstPieceExtends(body, "." + ext, '_');
    var rest := Split("." + ext, '_')[0];
    assert ("." + ext)[0] == '.';
    assert rest == ['.'] + rest[1..];
    assert body + rest == body + ['.'] + rest[1..];
    FirstPieceBeforeSeparator(body, '.', rest[1..]);
  }

  /** `channel_<digits>.<ext>` (any stem without `_`) names channel `<digits>`. */
  lemma ChannelOfDigits(stem: string, digits: string, ext: string)
    requires '_' !in stem && |digits| >= 1 && AllDigits(digits)
    ensures ChannelNumber(stem + "_" + digits + "." + ext) == Ok(DigitsValue(digits))
  {
    DigitsExclude(digits, '_');
    DigitsExclude(digits, '.');
    ChannelTokenOf(stem, digits, ext);
    ParseDigits(digits);
  }

  /** The page's own file names give back the number they were built from. */
  lemma ChannelOfNumber(stem: string, n: nat, ext: string)
    requires '_' !in stem
    ensures ChannelNumber(stem + "_" + Decimal(n) + "." + ext) == Ok(n)
  {
    ChannelOfDigits(stem, Decimal(n), ext);
    DecimalValue(n);
  }

  /** `channel_.dat`: the empty token is not a number. */
  lemma EmptyChannelToken(stem: string, ext: string)
    requires '_' !in stem
    ensures ChannelNumber(stem + "_." + ext) == Err(NotAnInteger(""))
  {
    assert stem + "_." + ext == stem + "_" + "" + "." + ext;
    ChannelTokenOf(stem, "", ext);
    ParseIntNeedsDigit("");
  }

  /** `channel_7a.dat`, `channel_1-2.dat`: a token `int()` refuses raises ValueError. */
  lemma ChannelOfNonNumeric(stem: string, token: string, ext: string)
    requires '_' !in stem && '_' !in token && '.' !in token && ParseInt(token).None?
    ensures ChannelNumber(stem + "_" + token + "." + ext) == Err(NotAnInteger(token))
  {
    ChannelTokenOf(stem, token, ext);
  }

  /** Whether a file's channel parses and the label table knows it. */
  predicate Known(f: ChannelFile)
  {
    var c := ChannelNumber(f.filename);
    c.Ok? && c.value in LabelDict
  }

  /** `label_dict[channel_number]` for a known file. */
  function Label(f: ChannelFile): string
    requires Known(f)
  {
    LabelDict[ChannelNumber(f.filename).value]
  }

  /** The exception processing one file raises, if any. */
  function FileError(f: ChannelFile, read: SeriesReader): Option<LoadError>
  {
    match ChannelNumber(f.filename)
    case Err(e) => Some(e)
    case Ok(c) =>
      if c in LabelDict && read(f.content).None? then Some(UnreadableSeries(f.filename))
      else None
  }

  /** The first exception in file order: the one that ends the loop. */
  function FirstError(files: seq<ChannelFile>, read: SeriesReader): Option<LoadError>
    decreases |files|
  {
    if |files| == 0 then None
    else if FileError(files[0], read).Some? then FileError(files[0], read)
    else FirstError(files[1..], read)
  }

  /** The appliance names of the known files, in file order. */
  function Labelled(files: seq<ChannelFile>): seq<string>
    decreases |files|
  {
    if |files| == 0 then [] else FileLabel(files[0]) + Labelled(files[1..])
  }

  /** The column name one file contributes: its label, or nothing when skipped. */
  function FileLabel(f: ChannelFile): seq<string>
  {
    if Known(f) then [Label(f)] else []
  }

  /** The one-column frames of the known files, in file order. */
  function SeriesOf(files: seq<ChannelFile>, read: SeriesReader): seq<Column>
    decreases |files|
  {
    if |files| == 0 then [] else FileSeries(files[0], read) + SeriesOf(files[1..], read)
  }

  /** The frame one file contributes: its readings under its label, or nothing when skipped. */
  function FileSeries(f: ChannelFile, read: SeriesReader): seq<Column>
  {
    if Known(f)
    then [Column(Label(f), match read(f.content) case Some(m) => m case None => map[])]
    else []
  }

  /** The channel numbers reported as missing from the label table, in file order. */
  function UnknownChannels(files: seq<ChannelFile>): seq<int>
    decreases |files|
  {
    if |files| == 0 then [] else FileUnknown(files[0]) + UnknownChannels(files[1..])
  }

  /** The channel one file reports as missing from the label table, if any. */
  function FileUnknown(f: ChannelFile): seq<int>
  {
    var c := ChannelNumber(f.filename);
    if c.Ok? && c.value !in LabelDict then [c.value] else []
  }

  /** What `load_data(files)` returns or raises. */
  function LoadResult(files: seq<ChannelFile>, read: SeriesReader): Result<Loaded>
  {
    match FirstError(files, read)
    case Some(e) => Err(e)
    case None => Ok(Loaded(JoinedFrame(SeriesOf(files, read)), Labelled(files)))
  }

  /** `load_data`, as the loop the source runs. */
  method LoadData(files: seq<ChannelFile>, read: SeriesReader) returns (r: Result<Loaded>)
    ensures r == LoadResult(files, read)
  {
    var dataframes: seq<Column> := [];
    var columnNames: seq<string> := [];
    for i := 0 to |files|
      invariant FirstError(files[..i], read) == None
      invariant columnNames == Labelled(files[..i])
      invariant dataframes == SeriesOf(files[..i], read)
    {
      var file := files[i];
      LoadStep(files, i, read);
      FileOutcome(file, read);
      var channel := ChannelNumber(file.filename);
      if channel.Err? {
        return Err(channel.error);
      }
      var channelNumber := channel.value;
      if channelNumber !in LabelDict {
        continue;
      }
      var applianceName := LabelDict[channelNumber];
      columnNames := columnNames + [applianceName];
      var series := read(file.content);
      if series.None? {
        return Err(UnreadableSeries(file.filename));
      }
      dataframes := dataframes + [Column(applianceName, series.value)];
    }
    TakeAll(files);
    r := Ok(Loaded(JoinedFrame(dataframes), columnNames));
  }

  /** One turn of the loop: file `i` extends what files `0..i` produced. */
  lemma LoadStep(files: seq<ChannelFile>, i: nat, read: SeriesReader)
    requires i < |files| && FirstError(files[..i], read).None?
    ensures FirstError(files[..i + 1], read) == FileError(files[i], read)
    ensures FileError(files[i], read).Some? ==> FirstError(files, read) == FileError(files[i], read)
    ensures Labelled(files[..i + 1]) == Labelled(files[..i]) + FileLabel(files[i])
    ensures SeriesOf(files[..i + 1], read) == SeriesOf(files[..i], read) + FileSeries(files[i], read)
  {
    if FileError(files[i], read).Some? {
      FirstErrorAt(files, i, read);
    }
    var prefix, file := files[..i], files[i];
    TakeOneMore(files, i);
    SingleFile(file, read);
    assert FirstError(files[..i + 1], read) == FileError(file, read) by {
      FirstErrorAppend(prefix, [file], read);
    }
    assert Labelled(files[..i + 1]) == Labelled(prefix) + FileLabel(file) by {
      LabelledAppend(prefix, [file]);
    }
    assert SeriesOf(files[..i + 1], read) == SeriesOf(prefix, read) + FileSeries(file, read) by {
      SeriesOfAppend(prefix, [file], read);
    }
  }

  lemma TakeOneMore<T>(s: seq<T>, i: nat)
    requires i < |s|
    ensures s[..i + 1] == s[..i] + [s[i]]
  {
  }

  /** How a concatenation splits into its head and tail. */
  lemma ConcatShape<T>(a: seq<T>, b: seq<T>)
    ensures |a| == 0 ==> a + b == b
    ensures |a| > 0 ==> (a + b)[0] == a[0] && (a + b)[1..] == a[1..] + b
    ensures |a| == 1 ==> (a + b)[1..] == b
  {
  }

  lemma ConcatAssociates<T>(a: seq<T>, b: seq<T>, c: seq<T>)
    ensures a + b + c == a + (b + c)
  {
  }

  /** What one file contributes, by the three branches of the loop body. */
  lemma FileOutcome(f: ChannelFile, read: SeriesReader)
    ensures var c := ChannelNumber(f.filename);
      && (c.Err? ==> FileError(f, read) == Some(c.error))
      && (c.Ok? && c.value !in LabelDict ==>
            FileError(f, read).None? && FileLabel(f) == [] && FileSeries(f, read) == [])
      && (c.Ok? && c.value in LabelDict ==>
            && FileLabel(f) == [LabelDict[c.value]]
            && (read(f.content).None? ==> FileError(f, read) == Some(UnreadableSeries(f.filename)))
            && (read(f.content).Some? ==>
                  && FileError(f, read).None?
                  && FileSeries(f, read) == [Column(LabelDict[c.value], read(f.content).value)]))
  {
  }

  lemma TakeAll<T>(s: seq<T>)
    ensures s[..|s|] == s
  {
  }

  /** When no earlier file raised, the first error is that of file `i`, if it raises. */
  lemma FirstErrorAt(files: seq<ChannelFile>, i: nat, read: SeriesReader)
    requires i < |files| && FirstError(files[..i], read).None? && FileError(files[i], read).Some?
    ensures FirstError(files, read) == FileError(files[i], read)
  {
    var prefix, rest := files[..i], files[i..];
    assert files == prefix + rest;
    FirstErrorAppend(prefix, rest, read);
    FirstErrorHead(rest, read);
  }

  lemma SingleFile(f: ChannelFile, read: SeriesReader)
    ensures FirstError([f], read) == FileError(f, read)
    ensures Labelled([f]) == FileLabel(f)
    ensures SeriesOf([f], read) == FileSeries(f, read)
  {
    assert [f][1..] == [];
  }

  lemma FirstErrorHead(files: seq<ChannelFile>, read: SeriesReader)
    requires |files| > 0 && FileError(files[0], read).Some?
    ensures FirstError(files, read) == FileError(files[0], read)
  {
  }

  lemma {:induction false} FirstErrorAppend(a: seq<ChannelFile>, b: seq<ChannelFile>, read: SeriesReader)
    ensures FirstError(a + b, read) ==
      if FirstError(a, read).Some? then FirstError(a, read) else FirstError(b, read)
    decreases |a|
  {
    if |a| > 0 {
      ConcatShape(a, b);
      FirstErrorAppend(a[1..], b, read);
    } else {
      ConcatShape(a, b);
    }
  }

  /** Column names keep file order: the names of a concatenation concatenate. */
  lemma {:induction false} LabelledAppend(a: seq<ChannelFile>, b: seq<ChannelFile>)
    ensures Labelled(a + b) == Labelled(a) + Labelled(b)
    decreases |a|
  {
    if |a| > 0 {
      ConcatShape(a, b);
      LabelledAppend(a[1..], b);
      ConcatAssociates(FileLabel(a[0]), Labelled(a[1..]), Labelled(b));
    } else {
      ConcatShape(a, b);
    }
  }

  lemma {:induction false} SeriesOfAppend(a: seq<ChannelFile>, b: seq<ChannelFile>, read: SeriesReader)
    ensures SeriesOf(a + b, read) == SeriesOf(a, read) + SeriesOf(b, read)
    decreases |a|
  {
    if |a| > 0 {
      ConcatShape(a, b);
      SeriesOfAppend(a[1..], b, read);
      ConcatAssociates(FileSeries(a[0], read), SeriesOf(a[1..], read), SeriesOf(b, read));
    } else {
      ConcatShape(a, b);
    }
  }

  /** The loop finishes exactly when every name parses and every known channel's file reads. */
  lemma {:induction false} LoadSucceeds(files: seq<ChannelFile>, read: SeriesReader)
    ensures FirstError(files, read).None? <==>
      forall i :: 0 <= i < |files| ==>
        && ChannelNumber(files[i].filename).Ok?
        && (Known(files[i]) ==> read(files[i].content).Some?)
    decreases |files|
  {
    if |files| > 0 {
      LoadSucceeds(files[1..], read);
      forall i | 1 <= i < |files|
        ensures files[i] == files[1..][i - 1]
      {
      }
    }
  }

  /** Frame `k` carries the single column name `column_names[k]`. */
  lemma {:induction false} SeriesNames(files: seq<ChannelFile>, read: SeriesReader)
    ensures Names(SeriesOf(files, read)) == Labelled(files)
    decreases |files|
  {
    if |files| > 0 {
      var f := files[0];
      SeriesNames(files[1..], read);
      NamesAppend(FileSeries(f, read), SeriesOf(files[1..], read));
      assert Names(FileSeries(f, read)) == FileLabel(f);
    }
  }

  /** Every file is either labelled or reported as an unknown channel. */
  lemma {:induction false} LabelledOrReported(files: seq<ChannelFile>, read: SeriesReader)
    requires FirstError(files, read).None?
    ensures |Labelled(files)| + |UnknownChannels(files)| == |files|
    decreases |files|
  {
    if |files| > 0 {
      LabelledOrReported(files[1..], read);
    }
  }

  /**
   * A file whose channel parses but is not in the label table adds nothing and
   * does not stop the loop: the result is that of the other files.
   */
  lemma UnknownChannelSkipped(a: seq<ChannelFile>, f: ChannelFile, b: seq<ChannelFile>, read: SeriesReader)
    requires ChannelNumber(f.filename).Ok? && ChannelNumber(f.filename).value !in LabelDict
    ensures LoadResult(a + [f] + b, read) == LoadResult(a + b, read)
    ensures UnknownChannels(a + [f] + b) ==
      UnknownChannels(a) + [ChannelNumber(f.filename).value] + UnknownChannels(b)
  {
    var tail := [f] + b;
    ConcatAssociates(a, [f], b);
    UnknownHead(f, b, read);
    assert LoadResult(a + tail, read) == LoadResult(a + b, read) by {
      FirstErrorAppend(a, tail, read);
      FirstErrorAppend(a, b, read);
      LabelledAppend(a, tail);
      LabelledAppend(a, b);
      SeriesOfAppend(a, tail, read);
      SeriesOfAppend(a, b, read);
      SameLoad(a + tail, a + b, read);
    }
    UnknownAppend(a, tail);
  }

  /** `load_data` depends on the files only through these three folds. */
  lemma SameLoad(x: seq<ChannelFile>, y: seq<ChannelFile>, read: SeriesReader)
    requires FirstError(x, read) == FirstError(y, read)
    requires Labelled(x) == Labelled(y) && SeriesOf(x, read) == SeriesOf(y, read)
    ensures LoadResult(x, read) == LoadResult(y, read)
  {
  }

  lemma UnknownHead(f: ChannelFile, b: seq<ChannelFile>, read: SeriesReader)
    requires ChannelNumber(f.filename).Ok? && ChannelNumber(f.filename).value !in LabelDict
    ensures FirstError([f] + b, read) == FirstError(b, read)
    ensures Labelled([f] + b) == Labelled(b)
    ensures SeriesOf([f] + b, read) == SeriesOf(b, read)
    ensures UnknownChannels([f] + b) == [ChannelNumber(f.filename).value] + UnknownChannels(b)
  {
    ConcatShape([f], b);
  }

  lemma {:induction false} UnknownAppend(a: seq<ChannelFile>, b: seq<ChannelFile>)
    ensures UnknownChannels(a + b) == UnknownChannels(a) + UnknownChannels(b)
    decreases |a|
  {
    if |a| > 0 {
      ConcatShape(a, b);
      UnknownAppend(a[1..], b);
      ConcatAssociates(FileUnknown(a[0]), UnknownChannels(a[1..]), UnknownChannels(b));
    } else {
      ConcatShape(a, b);
    }
  }

  /** Every column name is the label of the channel of some known file. */
  lemma {:induction false} LabelledFrom(files: seq<ChannelFile>, x: string)
    requires x in Labelled(files)
    ensures exists k :: 0 <= k < |files| && Known(files[k]) && x == Label(files[k])
    decreases |files|
  {
    if !(Known(files[0]) && x == Label(files[0])) {
      LabelledFrom(files[1..], x);
      var k :| 0 <= k < |files[1..]| && Known(files[1..][k]) && x == Label(files[1..][k]);
      assert files[1..][k] == files[k + 1];
    }
  }

  /** When every channel is known, column `k` is the label of file `k`. */
  lemma {:induction false} LabelledAllKnown(files: seq<ChannelFile>)
    requires forall i :: 0 <= i < |files| ==> Known(files[i])
    ensures |Labelled(files)| == |files|
    ensures forall i :: 0 <= i < |files| ==> Known(files[i]) && Labelled(files)[i] == Label(files[i])
    decreases |files|
  {
    if |files| > 0 {
      var tail := files[1..];
      LabelledAllKnown(tail);
      var head, rest := Label(files[0]), Labelled(tail);
      assert Labelled(files) == [head] + rest;
      forall i | 1 <= i < |files|
        ensures ([head] + rest)[i] == Label(files[i])
      {
        ConsElement(head, rest, i);
        TailElement(files, i);
      }
    }
  }

  /** When every channel is known and every file reads, frame `k` holds file `k`'s readings. */
  lemma {:induction false} SeriesAllKnown(files: seq<ChannelFile>, read: SeriesReader)
    requires forall i :: 0 <= i < |files| ==> Known(files[i]) && read(files[i].content).Some?
    ensures |SeriesOf(files, read)| == |files|
    ensures forall i :: 0 <= i < |files| ==>
      SeriesOf(files, read)[i] == Column(Label(files[i]), read(files[i].content).value)
    decreases |files|
  {
    if |files| > 0 {
      var tail := files[1..];
      SeriesAllKnown(tail, read);
      KnownFileSeries(files[0], read);
      var head, rest := Column(Label(files[0]), read(files[0].content).value), SeriesOf(tail, read);
      assert SeriesOf(files, read) == [head] + rest;
      forall i | 1 <= i < |files|
        ensures ([head] + rest)[i] == Column(Label(files[i]), read(files[i].content).value)
      {
        ConsElement(head, rest, i);
        TailElement(files, i);
      }
    }
  }

  lemma KnownFileSeries(f: ChannelFile, read: SeriesReader)
    requires Known(f) && read(f.content).Some?
    ensures FileSeries(f, read) == [Column(Label(f), read(f.content).value)]
  {
  }

  lemma ConsElement<T>(x: T, rest: seq<T>, i: nat)
    requires 1 <= i <= |rest|
    ensures ([x] + rest)[i] == rest[i - 1]
  {
  }

  lemma TailElement<T>(s: seq<T>, i: nat)
    requires 1 <= i < |s|
    ensures s[1..][i - 1] == s[i]
  {
  }

  /** No channel number occurs in two file names. */
  ghost predicate DistinctChannels(files: seq<ChannelFile>)
  {
    forall i, j :: 0 <= i < j < |files| && ChannelNumber(files[i].filename).Ok? ==>
      ChannelNumber(files[i].filename) != ChannelNumber(files[j].filename)
  }

  ghost predicate Distinct(names: seq<string>)
  {
    forall i, j :: 0 <= i < j < |names| ==> names[i] != names[j]
  }

  /** Files of distinct channels give distinct column names. */
  lemma {:induction false} DistinctColumnNames(files: seq<ChannelFile>)
    requires DistinctChannels(files)
    ensures Distinct(Labelled(files))
    decreases |files|
  {
    if |files| > 0 {
      var tail := files[1..];
      DistinctChannelsTail(files);
      DistinctColumnNames(tail);
      if Known(files[0]) {
        var x := Label(files[0]);
        if x in Labelled(tail) {
          LabelledFrom(tail, x);
          var k :| 0 <= k < |tail| && Known(tail[k]) && x == Label(tail[k]);
          assert tail[k] == files[k + 1];
          LabelsDistinct(ChannelNumber(files[0].filename).value, ChannelNumber(tail[k].filename).value);
          assert false;
        }
        DistinctCons(x, Labelled(tail));
      }
    }
  }

  lemma DistinctChannelsTail(files: seq<ChannelFile>)
    requires |files| > 0 && DistinctChannels(files)
    ensures DistinctChannels(files[1..])
  {
    var tail := files[1..];
    forall i, j | 0 <= i < j < |tail| && ChannelNumber(tail[i].filename).Ok?
      ensures ChannelNumber(tail[i].filename) != ChannelNumber(tail[j].filename)
    {
      assert tail[i] == files[i + 1] && tail[j] == files[j + 1];
    }
  }

  lemma DistinctCons(x: string, rest: seq<string>)
    requires Distinct(rest) && x !in rest
    ensures Distinct([x] + rest)
  {
    var names := [x] + rest;
    forall i, j | 0 <= i < j < |names|
      ensures names[i] != names[j]
    {
      assert names[j] == rest[j - 1];
      if i > 0 {
        assert names[i] == rest[i - 1];
      }
    }
  }

  /**
   * What `load_data` returns on success: the column names are the labels of
   * the known files in order, the joined frame is empty when there are none,
   * and otherwise it is the outer join of their frames under those names.
   */
  lemma LoadedFrame(files: seq<ChannelFile>, read: SeriesReader)
    requires LoadResult(files, read).Ok?
    ensures var l := LoadResult(files, read).value;
      && l.columnNames == Labelled(files)
      && (|l.columnNames| == 0 ==> l.dataframe == EmptyTable)
      && (|l.columnNames| > 0 ==>
            && IsOuterJoin(SeriesOf(files, read), l.dataframe)
            && l.dataframe.columns == l.columnNames)
  {
    SeriesNames(files, read);
  }

  /** A single file of a known channel yields one column named after its appliance. */
  lemma SingleKnownFile(f: ChannelFile, read: SeriesReader)
    requires Known(f) && read(f.content).Some?
    ensures var name := Label(f);
      LoadResult([f], read) == Ok(Loaded(JoinedFrame([Column(name, read(f.content).value)]), [name]))
  {
    var name := Label(f);
    assert [f][0] == f && [f][1..] == [];
    assert FileError(f, read) == None;
    assert FirstError([f], read) == None;
    assert Labelled([f]) == [name];
    assert SeriesOf([f], read) == [Column(name, read(f.content).value)];
  }

  /** `channel_7.dat` is labelled `treadmill`. */
  lemma TreadmillExample(filename: string, content: string, read: SeriesReader)
    requires filename == "channel_7.dat" && read(content).Some?
    ensures LoadResult([ChannelFile(content, filename)], read).Ok?
    ensures LoadResult([ChannelFile(content, filename)], read).value.columnNames == ["treadmill"]
  {
    ChannelSeven(filename);
    SevenIsTreadmill();
    SingleKnownFile(ChannelFile(content, filename), read);
  }

  lemma ChannelSeven(filename: string)
    requires filename == "channel_7.dat"
    ensures ChannelNumber(filename) == Ok(7)
  {
    SevenName(filename);
    ChannelOfDigits("channel", "7", "dat");
  }

  lemma SevenName(filename: string)
    requires filename == "channel_7.dat"
    ensures filename == "channel" + "_" + "7" + "." + "dat"
  {
  }
}
