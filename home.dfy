/**
 The home screen: picking a file starts a simulated analysis, whose timer
 later fills in the fixed mock credits and hands one new record to the log.
 The timer is an explicit completion event and the clock is its parameter.
 */
module Home {

  import opened Wrappers
  import opened Records
  import opened ObjectKeys
  import opened Sequences
  import MetadataDisplay

  // ---------------------------------------------------------------------
  // The mock analyser
  // ---------------------------------------------------------------------

  /** The credits the mock analyser reports for every file. */
  const SampleMetadata: Metadata := Metadata(
    producer := Some("Metro Boomin"),
    composer := Some("Ludwig Göransson"),
    lyricist := Some("Kendrick Lamar"),
    songwriter := Some("Kendrick Lamar, Ludwig Göransson"),
    masteringEngineer := Some("Mike Bozzi"),
    mixingEngineer := Some("Ali Shaheed Muhammad"),
    recordingEngineer := Some("Derek Ali"),
    vocalEngineer := Some("Johnny Juliano"),
    vocalists := Some(["Kendrick Lamar", "The Weeknd", "SZA"]),
    instrumentalists := Some([
      "Thundercat - Bass",
      "Terrace Martin - Saxophone",
      "Robert Glasper - Piano",
      "Kamasi Washington - Saxophone"]),
    publisher := Some("Top Dawg Entertainment"),
    genre := Some("Hip-Hop / Rap"),
    releaseDate := Some("October 29, 2025"))

  /** `mockMetadataExtraction`: the file is not looked at. */
  function MockMetadataExtraction(file: File): Metadata {
    SampleMetadata
  }

  /** Every file yields the same credits. */
  lemma ExtractionIgnoresInput(a: File, b: File)
    ensures MockMetadataExtraction(a) == MockMetadataExtraction(b)
  {
  }

  /** Every one of the eleven fields of the mock credits is shown. */
  lemma SampleShowsEveryField()
    ensures MetadataDisplay.ShownFields(SampleMetadata) == MetadataDisplay.Fields(SampleMetadata)
  {
    var m := SampleMetadata;
    var fields := MetadataDisplay.Fields(m);
    assert Truthy(m.producer) && Truthy(m.composer) && Truthy(m.lyricist) && Truthy(m.songwriter);
    assert Truthy(m.masteringEngineer) && Truthy(m.mixingEngineer) && Truthy(m.recordingEngineer);
    assert Truthy(m.vocalEngineer) && Truthy(m.publisher) && Truthy(m.genre) && Truthy(m.releaseDate);
    FilterAll(fields, (f: MetadataDisplay.Field) => Truthy(f.value));
  }

  /** The panel lists the instrumentalists with their roles, e.g. "Thundercat - Bass" whole. */
  lemma SampleInstrumentalistsUnsplit()
    ensures var sections := MetadataDisplay.Sections(SampleMetadata);
      |sections| == 2 && sections[1].title == "Instrumentalists"
      && sections[1].entries == SampleMetadata.instrumentalists.value
      && sections[1].entries[0] == "Thundercat - Bass"
  {
  }

  // ---------------------------------------------------------------------
  // Record ids: `Date.now().toString()`
  // ---------------------------------------------------------------------

  function Digit(d: nat): char
    requires d < 10
  {
    ('0' as int + d) as char
  }

  /** The decimal form of a millisecond timestamp, without leading zeros. */
  function DecimalString(n: nat): (s: string)
    ensures s != [] && AllDigits(s)
    ensures s[0] == '0' ==> |s| == 1
  {
    if n < 10 then [Digit(n)] else DecimalString(n / 10) + [Digit(n % 10)]
  }

  /** Reading an id back as a number gives the timestamp it was made from. */
  lemma {:induction false} DecimalRoundTrip(n: nat)
    ensures DecimalValue(DecimalString(n)) == n
  {
    if n >= 10 {
      DecimalRoundTrip(n / 10);
      var s := DecimalString(n);
      assert s[..|s| - 1] == DecimalString(n / 10);
    }
  }

  /** Completions at different times produce different ids. */
  lemma DecimalStringInjective(a: nat, b: nat)
    requires a != b
    ensures DecimalString(a) != DecimalString(b)
  {
    DecimalRoundTrip(a);
    DecimalRoundTrip(b);
  }

  // ---------------------------------------------------------------------
  // What the screen shows
  // ---------------------------------------------------------------------

  /** The three optional panels below the uploader, in page order. */
  datatype Panel = Waveform | Loading | Credits

  /**
   The panels on screen: the waveform while a file is selected, the loading
   indicator while analysing, and the credits once they exist and the
   analysis is not running.
   */
  function VisiblePanels(selectedFile: Option<File>, metadata: Option<Metadata>, isAnalyzing: bool): (panels: seq<Panel>)
    ensures Waveform in panels <==> selectedFile.Some?
    ensures Loading in panels <==> isAnalyzing
    ensures Credits in panels <==> metadata.Some? && !isAnalyzing
    ensures !(Loading in panels && Credits in panels)
    ensures |panels| <= 2
  {
    (if selectedFile.Some? then [Waveform] else [])
    + (if isAnalyzing then [Loading] else [])
    + (if metadata.Some? && !isAnalyzing then [Credits] else [])
  }

  // ---------------------------------------------------------------------
  // The screen's state
  // ---------------------------------------------------------------------

  class HomeScreen {
    var selectedFile: Option<File>
    var metadata: Option<Metadata>
    var isAnalyzing: bool
    var isPlaying: bool
    /**
     The files whose analysis timers are still running, oldest first. Every
     timer has the same delay, so they fire in this order.
     */
    var pending: seq<File>

    constructor ()
      ensures selectedFile == None && metadata == None
      ensures !isAnalyzing && !isPlaying && pending == []
    {
      selectedFile, metadata := None, None;
      isAnalyzing, isPlaying := false, false;
      pending := [];
    }

    function Panels(): seq<Panel>
      reads this
    {
      VisiblePanels(selectedFile, metadata, isAnalyzing)
    }

    /**
     `handleFileSelect`: select the file, start analysing and playing, and
     start its timer. Credits already on screen are left in place.
     */
    method HandleFileSelect(file: File)
      modifies this
      ensures selectedFile == Some(file) && isAnalyzing && isPlaying
      ensures metadata == old(metadata)
      ensures pending == old(pending) + [file]
    {
      selectedFile := Some(file);
      isAnalyzing := true;
      isPlaying := true;
      pending := pending + [file];
    }

    /**
     The oldest timer fires at time `now` (milliseconds) with `isoDate` as the
     current date: the credits appear, the analysis stops, and one record for
     that timer's file is returned for the log. The selection and playback
     are not touched.
     */
    method CompleteAnalysis(now: nat, isoDate: string) returns (record: UploadedFile)
      requires pending != []
      modifies this
      ensures metadata == Some(MockMetadataExtraction(old(pending[0]))) && !isAnalyzing
      ensures record == UploadedFile(DecimalString(now), old(pending[0]), metadata, isoDate)
      ensures selectedFile == old(selectedFile) && isPlaying == old(isPlaying)
      ensures pending == old(pending[1..])
    {
      var file := pending[0];
      pending := pending[1..];
      var extracted := MockMetadataExtraction(file);
      metadata := Some(extracted);
      isAnalyzing := false;
      record := UploadedFile(DecimalString(now), file, Some(extracted), isoDate);
    }

    /**
     `handleClear`: drop the selection and the credits and stop playback.
     The analysis flag and any running timer are left alone.
     */
    method HandleClear()
      modifies this
      ensures selectedFile == None && metadata == None && !isPlaying
      ensures isAnalyzing == old(isAnalyzing) && pending == old(pending)
    {
      selectedFile := None;
      metadata := None;
      isPlaying := false;
    }

    /** `handleReset`: the same as clearing. */
    method HandleReset()
      modifies this
      ensures selectedFile == None && metadata == None && !isPlaying
      ensures isAnalyzing == old(isAnalyzing) && pending == old(pending)
    {
      HandleClear();
    }

    /** The play/pause button: flip playback and nothing else. */
    method TogglePlay()
      modifies this
      ensures isPlaying == !old(isPlaying)
      ensures selectedFile == old(selectedFile) && metadata == old(metadata)
      ensures isAnalyzing == old(isAnalyzing) && pending == old(pending)
    {
      isPlaying := !isPlaying;
    }
  }

  // ---------------------------------------------------------------------
  // Event sequences
  // ---------------------------------------------------------------------

  /**
   Clearing does not cancel the timer: when it fires, the credits come back
   with no file selected, and the record still reaches the log.
   */
  method ClearBeforeCompletion(file: File, now: nat, isoDate: string)
    returns (panels: seq<Panel>, record: UploadedFile)
    ensures panels == [Credits]
    ensures record.file == file && record.metadata == Some(SampleMetadata)
  {
    var home := new HomeScreen();
    home.HandleFileSelect(file);
    home.HandleClear();
    record := home.CompleteAnalysis(now, isoDate);
    panels := home.Panels();
  }

  /**
   Selecting a second file before the first analysis ends: the upload area
   shows only while nothing is selected, so the first file is cleared first.
   The first timer then stops the loading indicator while the second is
   still running, its record carries the first file, and the second file
   stays selected.
   */
  method SelectTwiceBeforeCompletion(first: File, second: File, now: nat, isoDate: string)
    returns (panels: seq<Panel>, record: UploadedFile, stillRunning: nat)
    ensures record.file == first
    ensures panels == [Waveform, Credits]
    ensures stillRunning == 1
  {
    var home := new HomeScreen();
    home.HandleFileSelect(first);
    home.HandleClear();
    home.HandleFileSelect(second);
    record := home.CompleteAnalysis(now, isoDate);
    panels := home.Panels();
    stillRunning := |home.pending|;
  }
}
