/**
 * The intake form's own logic (src/components/IntakeForm.tsx): the 4 MB upload guard, the speech
 * handler that appends finished phrases to the description, and the microphone toggle. The browser's
 * file reader, recognizer and alert are represented by fields: the data URL being read, whether the
 * recognizer runs, and how many alerts were raised.
 */
module IntakeForm {
  import opened Wrappers
  import Text

  const SizeLimit: nat := 4 * 1024 * 1024
  const SizeMessage: string := "File size exceeds 4MB limit."
  const UnsupportedMessage: string := "Speech recognition is not supported in this browser."

  datatype Upload = Upload(size: nat, dataUrl: string)

  /** One recognition result: whether it is final, and its best transcript. */
  datatype Phrase = Phrase(isFinal: bool, transcript: string)

  /** The final transcripts among `results[from..stop]`, concatenated in order. */
  function FinalText(results: seq<Phrase>, from: nat, stop: nat): (t: string)
    requires stop <= |results|
    ensures stop <= from ==> t == ""
    decreases stop
  {
    if stop <= from then ""
    else FinalText(results, from, stop - 1) + (if results[stop - 1].isFinal then results[stop - 1].transcript else "")
  }

  /** Reading a batch in two parts gives the same text as reading it at once. */
  lemma {:induction false} FinalTextSplit(results: seq<Phrase>, from: nat, mid: nat, stop: nat)
    requires from <= mid <= stop <= |results|
    ensures FinalText(results, from, stop) == FinalText(results, from, mid) + FinalText(results, mid, stop)
    decreases stop
  {
    if mid < stop {
      FinalTextSplit(results, from, mid, stop - 1);
    }
  }

  /** Results that are not final, and results before the start index, add nothing. */
  lemma {:induction false} OnlyFinalsCount(results: seq<Phrase>, other: seq<Phrase>, from: nat)
    requires |results| == |other| && from <= |results|
    requires forall i :: from <= i < |results| && (results[i].isFinal || other[i].isFinal) ==> results[i] == other[i]
    ensures FinalText(results, from, |results|) == FinalText(other, from, |other|)
  {
    FinalTextAgree(results, other, from, |results|);
  }

  lemma {:induction false} FinalTextAgree(results: seq<Phrase>, other: seq<Phrase>, from: nat, stop: nat)
    requires |results| == |other| && stop <= |results|
    requires forall i :: from <= i < stop && (results[i].isFinal || other[i].isFinal) ==> results[i] == other[i]
    ensures FinalText(results, from, stop) == FinalText(other, from, stop)
    decreases stop
  {
    if from < stop {
      FinalTextAgree(results, other, from, stop - 1);
    }
  }

  /** `(prev + ' ' + transcript).trim()` for a non-empty transcript; an empty one changes nothing. */
  function Appended(description: string, transcript: string): (r: string)
    ensures transcript == "" ==> r == description
    ensures transcript != "" ==> r == Text.Trim(description + " " + transcript)
  {
    if transcript == "" then description else Text.Trim(description + " " + transcript)
  }

  /** An appended description has no white space to trim at either end. */
  lemma AppendedIsTrimmed(description: string, transcript: string)
    requires transcript != ""
    ensures Text.Trim(Appended(description, transcript)) == Appended(description, transcript)
  {
    Text.TrimIsCoreSlice(description + " " + transcript);
  }

  /** Whether an upload passes the size guard. */
  predicate Accepted(f: Upload) {
    f.size <= SizeLimit
  }

  class Form {
    var description: string
    var fileError: Option<string>
    /** The data URL being read for the blueprint, once an upload is accepted. */
    var reading: Option<string>
    var isListening: bool
    /** Whether the browser's recognizer runs; absent recognizer: None. */
    var recognizer: Option<bool>
    var alerts: nat

    constructor (description0: string, supported: bool)
      ensures description == description0 && fileError.None? && reading.None? && !isListening
      ensures recognizer == (if supported then Some(false) else None) && alerts == 0
    {
      description := description0;
      fileError := None;
      reading := None;
      isListening := false;
      recognizer := if supported then Some(false) else None;
      alerts := 0;
    }

    /** `handleFileChange`: an upload over 4 MB sets the size error and is not read; an accepted one
        clears the error and starts reading. No file changes nothing. */
    method HandleFileChange(file: Option<Upload>)
      modifies this
      ensures file.None? ==> fileError == old(fileError) && reading == old(reading)
      ensures file.Some? && !Accepted(file.value) ==> fileError == Some(SizeMessage) && reading == old(reading)
      ensures file.Some? && Accepted(file.value) ==> fileError.None? && reading == Some(file.value.dataUrl)
      ensures description == old(description) && isListening == old(isListening) && recognizer == old(recognizer)
      ensures alerts == old(alerts)
    {
      if file.None? {
        return;
      }
      if file.value.size > SizeLimit {
        fileError := Some(SizeMessage);
        return;
      }
      fileError := None;
      reading := Some(file.value.dataUrl);
    }

    /** `onresult`: collects the final transcripts from `resultIndex` on and appends them. */
    method OnResult(resultIndex: nat, results: seq<Phrase>)
      modifies this
      ensures resultIndex <= |results| ==> description == Appended(old(description), FinalText(results, resultIndex, |results|))
      ensures resultIndex > |results| ==> description == old(description)
      ensures fileError == old(fileError) && reading == old(reading) && isListening == old(isListening)
      ensures recognizer == old(recognizer) && alerts == old(alerts)
    {
      var finalTranscript := "";
      var i := resultIndex;
      while i < |results|
        invariant resultIndex <= |results| ==> resultIndex <= i <= |results|
        invariant resultIndex <= |results| ==> finalTranscript == FinalText(results, resultIndex, i)
        invariant resultIndex > |results| ==> finalTranscript == "" && i == resultIndex
      {
        if results[i].isFinal {
          finalTranscript := finalTranscript + results[i].transcript;
        }
        i := i + 1;
      }
      if finalTranscript != "" {
        description := Text.Trim(description + " " + finalTranscript);
      }
    }

    /** `toggleListening`: without a recognizer it only alerts; otherwise it stops a running session
        or starts one, and flips `isListening`. */
    method ToggleListening()
      modifies this
      ensures old(recognizer).None? ==> alerts == old(alerts) + 1 && isListening == old(isListening) && recognizer == old(recognizer)
      ensures old(recognizer).Some? ==> alerts == old(alerts) && isListening == !old(isListening)
      ensures old(recognizer).Some? ==> recognizer == Some(!old(isListening))
      ensures description == old(description) && fileError == old(fileError) && reading == old(reading)
    {
      if recognizer.None? {
        alerts := alerts + 1;
        return;
      }
      if isListening {
        recognizer := Some(false);
        isListening := false;
      } else {
        recognizer := Some(true);
        isListening := true;
      }
    }

    /** `onerror` and `onend`: the browser's session has ended, so the recognizer no longer runs and
        listening has stopped. */
    method OnStop()
      modifies this
      ensures !isListening
      ensures description == old(description) && fileError == old(fileError) && reading == old(reading)
      ensures recognizer == (if old(recognizer).Some? then Some(false) else None) && alerts == old(alerts)
    {
      isListening := false;
      if recognizer.Some? {
        recognizer := Some(false);
      }
    }
  }
}
