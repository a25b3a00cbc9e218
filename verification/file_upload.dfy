/** The upload hook: four pieces of state changed by three events. The
    asynchronous upload is split into `Start` (what runs when a file is
    handed over) and `Complete` (the timer callback that runs later), so any
    interleaving of uploads and resets is a sequence of pure transitions. */
module FileUpload {

  /** The hook's `appState`: 'idle', 'loading-file', 'file-uploaded'. */
  datatype Phase = Idle | LoadingFile | FileUploaded

  /** The two properties of the dropped file that the hook reads. */
  datatype File = File(name: string, mediaType: string)

  datatype UploadState = UploadState(phase: Phase, extractedText: string, isLoading: bool, error: string)

  /** State before any event: idle, no text, not loading, no error. */
  const Initial := UploadState(Idle, "", false, "")

  const UnsupportedMessage := "Unsupported file type."

  predicate StartsWith(s: string, prefix: string) {
    |prefix| <= |s| && s[..|prefix|] == prefix
  }

  /** Media types the mocked extraction accepts: any `image/` type, or PDF. */
  predicate IsSupported(mediaType: string) {
    StartsWith(mediaType, "image/") || mediaType == "application/pdf"
  }

  const MockLead := "Extracted text from "
  const MockQuote := "Just had the most amazing brunch at The Sunny Side! ☀️\U{1F95E} The avocado toast was divine. Highly recommend this spot for a weekend treat! #brunch #foodie #weekendvibes"

  /** The canned extraction for a file called `name`. */
  function MockText(name: string): (t: string)
    ensures t != ""
    ensures StartsWith(t, MockLead + name + ": \"")
    ensures |t| == |MockLead| + |name| + |MockQuote| + 4
  {
    var t := MockLead + name + ": \"" + MockQuote + "\"";
    assert t[..|MockLead + name + ": \""|] == MockLead + name + ": \"";
    t
  }

  /** The name the mocked text was made for can be read back from it. */
  lemma MockTextInjective(a: string, b: string)
    ensures MockText(a) == MockText(b) ==> a == b
  {
    if MockText(a) == MockText(b) {
      assert |a| == |b|;
      assert a == MockText(a)[|MockLead|..|MockLead| + |a|];
      assert b == MockText(b)[|MockLead|..|MockLead| + |b|];
    }
  }

  /** Handing over a file: clear error and text, show the spinner, enter
      'loading-file'. Nothing of the previous state survives. */
  function Start(s: UploadState): (r: UploadState)
    ensures r.phase == LoadingFile && r.isLoading
    ensures r.extractedText == "" && r.error == ""
  {
    UploadState(LoadingFile, "", true, "")
  }

  /** The timer callback for `file`. A supported file writes the canned text
      and enters 'file-uploaded' without touching the error; any other file
      writes the error and goes back to 'idle' without touching the text.
      Either way the spinner stops. */
  function Complete(s: UploadState, file: File): (r: UploadState)
    ensures !r.isLoading
    ensures IsSupported(file.mediaType) ==>
      r.phase == FileUploaded && r.extractedText == MockText(file.name) && r.error == s.error
    ensures !IsSupported(file.mediaType) ==>
      r.phase == Idle && r.error == UnsupportedMessage && r.extractedText == s.extractedText
  {
    if IsSupported(file.mediaType) then
      s.(extractedText := MockText(file.name), phase := FileUploaded, isLoading := false)
    else
      s.(error := UnsupportedMessage, phase := Idle, isLoading := false)
  }

  /** `reset`: clear text and error, back to 'idle'; the spinner is left as is. */
  function Reset(s: UploadState): (r: UploadState)
    ensures r.phase == Idle && r.extractedText == "" && r.error == ""
    ensures r.isLoading == s.isLoading
  {
    s.(extractedText := "", error := "", phase := Idle)
  }

  /** Start forgets whatever state it is applied to. */
  lemma StartForgets(s1: UploadState, s2: UploadState)
    ensures Start(s1) == Start(s2)
  {
  }

  /** An upload that completes before anything else happens ends in exactly
      one of two states, chosen by the media type. */
  lemma StartThenComplete(s: UploadState, file: File)
    ensures var r := Complete(Start(s), file);
      IsSupported(file.mediaType) <==> r == UploadState(FileUploaded, MockText(file.name), false, "")
    ensures var r := Complete(Start(s), file);
      !IsSupported(file.mediaType) <==> r == UploadState(Idle, "", false, UnsupportedMessage)
  {
  }

  /** Reset does not cancel a pending upload: its completion still writes
      text, phase and spinner after the reset. */
  lemma ResetDoesNotCancel(s: UploadState, file: File)
    requires IsSupported(file.mediaType)
    ensures Reset(Start(s)).isLoading
    ensures Complete(Reset(Start(s)), file) == UploadState(FileUploaded, MockText(file.name), false, "")
  {
  }

  /** Reset from the initial state changes nothing. */
  lemma ResetInitial()
    ensures Reset(Initial) == Initial
  {
  }

  // ------------------------------------------------------------------ traces

  datatype Event = StartEvent | CompleteEvent(file: File) | ResetEvent

  function Step(s: UploadState, e: Event): UploadState
  {
    match e
    case StartEvent => Start(s)
    case CompleteEvent(f) => Complete(s, f)
    case ResetEvent => Reset(s)
  }

  function Run(s: UploadState, events: seq<Event>): UploadState
    decreases |events|
  {
    if |events| == 0 then s else Run(Step(s, events[0]), events[1..])
  }

  /** The states a user who waits for each upload can observe: spinner off,
      and either a loaded file with text and no error, or idle with no text
      and at most the unsupported-type error. */
  predicate Settled(s: UploadState) {
    && !s.isLoading
    && ((s.phase == FileUploaded && s.extractedText != "" && s.error == "")
        || (s.phase == Idle && s.extractedText == "" && (s.error == "" || s.error == UnsupportedMessage)))
  }

  /** Traces in which every start is immediately followed by its completion. */
  predicate Sequential(events: seq<Event>)
    decreases |events|
  {
    if |events| == 0 then true
    else if events[0] == ResetEvent then Sequential(events[1..])
    else |events| >= 2 && events[0] == StartEvent && events[1].CompleteEvent? && Sequential(events[2..])
  }

  /** Without interleaving, the hook only ever rests in settled states. */
  lemma {:induction false} SequentialStaysSettled(s: UploadState, events: seq<Event>)
    requires Settled(s) && Sequential(events)
    ensures Settled(Run(s, events))
    decreases |events|
  {
    if |events| > 0 {
      if events[0] == ResetEvent {
        SequentialStaysSettled(Reset(s), events[1..]);
      } else {
        var mid := Complete(Start(s), events[1].file);
        assert Run(s, events) == Run(mid, events[2..]) by {
          assert events[1..][0] == events[1];
          assert events[1..][1..] == events[2..];
        }
        SequentialStaysSettled(mid, events[2..]);
      }
    }
  }

  lemma InitialSettled()
    ensures Settled(Initial)
  {
  }

  /** With two uploads in flight neither branch clears the other's field: a
      PDF completing after a rejected text file leaves a loaded file showing
      the unsupported-type error, and the reverse order leaves an idle hook
      still holding text. Neither state is settled. */
  lemma InterleavedUploadsMix()
    ensures var pdf := File("a.pdf", "application/pdf");
      var txt := File("b.txt", "text/plain");
      var r := Run(Initial, [StartEvent, StartEvent, CompleteEvent(txt), CompleteEvent(pdf)]);
      r == UploadState(FileUploaded, MockText("a.pdf"), false, UnsupportedMessage) && !Settled(r)
    ensures var pdf := File("a.pdf", "application/pdf");
      var txt := File("b.txt", "text/plain");
      var r := Run(Initial, [StartEvent, StartEvent, CompleteEvent(pdf), CompleteEvent(txt)]);
      r == UploadState(Idle, MockText("a.pdf"), false, UnsupportedMessage) && !Settled(r)
  {
    var pdf := File("a.pdf", "application/pdf");
    var txt := File("b.txt", "text/plain");
    assert "text/plain"[..6][0] != "image/"[0];
    var s2 := Start(Start(Initial));
    RunPair(s2, CompleteEvent(txt), CompleteEvent(pdf));
    RunPair(s2, CompleteEvent(pdf), CompleteEvent(txt));
    RunPrefix(Initial, [StartEvent, StartEvent], [CompleteEvent(txt), CompleteEvent(pdf)]);
    RunPrefix(Initial, [StartEvent, StartEvent], [CompleteEvent(pdf), CompleteEvent(txt)]);
    RunPair(Initial, StartEvent, StartEvent);
  }

  /** The first of two overlapping uploads to complete turns the spinner off
      while the second is still pending. */
  lemma SpinnerStopsEarly(a: File)
    ensures !Run(Initial, [StartEvent, StartEvent, CompleteEvent(a)]).isLoading
  {
    RunPrefix(Initial, [StartEvent, StartEvent], [CompleteEvent(a)]);
    RunPair(Initial, StartEvent, StartEvent);
  }

  lemma RunPair(s: UploadState, e1: Event, e2: Event)
    ensures Run(s, [e1, e2]) == Step(Step(s, e1), e2)
  {
    assert [e1, e2][1..] == [e2];
    assert Run(s, [e1, e2]) == Run(Step(s, e1), [e2]);
    assert [e2][1..] == [];
    assert Run(Step(s, e1), [e2]) == Run(Step(Step(s, e1), e2), []);
  }

  /** Running a concatenation runs the parts in turn. */
  lemma {:induction false} RunPrefix(s: UploadState, a: seq<Event>, b: seq<Event>)
    ensures Run(s, a + b) == Run(Run(s, a), b)
    decreases |a|
  {
    if |a| == 0 {
      assert a + b == b;
    } else {
      assert (a + b)[0] == a[0];
      assert (a + b)[1..] == a[1..] + b;
      RunPrefix(Step(s, a[0]), a[1..], b);
    }
  }
}
