/** The home wizard page: the same state as the brain-dump page with other
    rules. A finished transcript jumps to step 4, losing the audio returns to
    step 2, and an effect puts the wizard back on step 1 or 2 whenever
    everything is cleared. */
module HomePage {
  import opened Js
  import opened Domain

  class Wizard {
    var transcription: string
    var isTranscribing: bool
    var transcriptionError: string
    var currentStep: int
    var hasAudio: bool
    var sessionData: Option<SessionData>
    /** Whatever `response.json()` delivered; `JNull` is the initial `null`. */
    var structuredOutput: Json
    var isStructuring: bool
    var structuringError: string

    /** The situation the reset effect reacts to: no transcript, nothing in
        flight, no error and no audio. */
    predicate Cleared()
      reads this
    {
      transcription == "" && !isTranscribing && transcriptionError == "" && !hasAudio
    }

    /** The step the reset effect picks: the audio step once a session is set
        up, the setup step before. */
    function ResetStep(): int
      reads this
    {
      if sessionData.Some? then 2 else 1
    }

    /** The step is one of the four; the reset effect has had its say (a
        cleared wizard is on step 1 or 2 as the session dictates); and a
        request in flight or a stored result comes with session data. */
    ghost predicate Valid()
      reads this
    {
      && 1 <= currentStep <= 4
      && (Cleared() ==> currentStep == ResetStep())
      && ((isStructuring || HasStructuredOutput()) ==> sessionData.Some?)
    }

    /** `structuredOutput` is truthy. */
    predicate HasStructuredOutput()
      reads this
    {
      TruthyJson(structuredOutput)
    }

    /** The step-4 panel is rendered from step 4 on, with a transcript and
        session data. */
    predicate Step4PanelShown()
      reads this
    {
      currentStep >= 4 && transcription != "" && sessionData.Some?
    }

    /** The generate button is rendered in that panel while there is no
        structured result, and is disabled while a request is in flight. */
    predicate GenerateEnabled()
      reads this
    {
      Step4PanelShown() && !HasStructuredOutput() && !isStructuring
    }

    constructor ()
      ensures Valid()
      ensures currentStep == 1 && transcription == "" && !isTranscribing && transcriptionError == ""
      ensures !hasAudio && sessionData == None && structuredOutput == JNull
      ensures !isStructuring && structuringError == ""
    {
      transcription, isTranscribing, transcriptionError := "", false, "";
      currentStep, hasAudio, sessionData := 1, false, None;
      structuredOutput, isStructuring, structuringError := JNull, false, "";
    }

    /** The reset effect: when everything is cleared, step 2 with a session and
        step 1 without; otherwise the step stays. */
    method ApplyResetRule()
      requires 1 <= currentStep <= 4
      modifies this`currentStep
      ensures 1 <= currentStep <= 4
      ensures Cleared() ==> currentStep == ResetStep()
      ensures !Cleared() ==> currentStep == old(currentStep)
    {
      if Cleared() {
        if sessionData.Some? {
          currentStep := 2;
        } else {
          currentStep := 1;
        }
      }
    }

    /** `handleSessionComplete`, then the effect: session data stored, step 2. */
    method HandleSessionComplete(data: SessionData)
      requires Valid()
      modifies this`sessionData, this`currentStep
      ensures Valid()
      ensures sessionData == Some(data) && currentStep == 2
    {
      sessionData := Some(data);
      currentStep := 2;
      ApplyResetRule();
    }

    /** `handleTranscriptionChange`, then the effect: the three arguments are
        copied; a text that differs from the stored one clears the structured
        result and its error; processing shows step 3, a text without an error
        step 4; a cleared wizard goes back to step 2 or 1; otherwise the step
        stays. */
    method HandleTranscriptionChange(text: string, processing: bool, error: string)
      requires Valid()
      modifies this`transcription, this`isTranscribing, this`transcriptionError,
               this`structuredOutput, this`structuringError, this`currentStep
      ensures Valid()
      ensures transcription == text && isTranscribing == processing && transcriptionError == error
      ensures text != old(transcription) ==> structuredOutput == JNull && structuringError == ""
      ensures text == old(transcription) ==>
        structuredOutput == old(structuredOutput) && structuringError == old(structuringError)
      ensures processing ==> currentStep == 3
      ensures !processing && text != "" && error == "" ==> currentStep == 4
      ensures !processing && text == "" && error == "" && !hasAudio ==> currentStep == ResetStep()
      ensures !processing && (text == "" || error != "") && !(text == "" && error == "" && !hasAudio)
        ==> currentStep == old(currentStep)
    {
      var previous := transcription;
      transcription := text;
      isTranscribing := processing;
      transcriptionError := error;
      if text != previous {
        structuredOutput := JNull;
        structuringError := "";
      }
      if processing {
        currentStep := 3;
      } else if text != "" && error == "" {
        currentStep := 4;
      }
      ApplyResetRule();
    }

    /** `handleAudioReady`, then the effect: `hasAudio` is recorded; losing the
        audio with a session set up shows step 2, and without one (and with
        nothing else left) step 1; otherwise the step stays. */
    method HandleAudioReady(ready: bool)
      requires Valid()
      modifies this`hasAudio, this`currentStep
      ensures Valid()
      ensures hasAudio == ready
      ensures !ready && sessionData.Some? ==> currentStep == 2
      ensures !ready && sessionData.None? && Cleared() ==> currentStep == 1
      ensures (ready || (sessionData.None? && !Cleared())) ==> currentStep == old(currentStep)
    {
      hasAudio := ready;
      if !ready && sessionData.Some? {
        currentStep := 2;
      }
      ApplyResetRule();
    }

    /** The synchronous start of `handleGenerateStructuredOutput`: nothing
        happens without a transcript or session data; otherwise the request is
        in flight and the old error is cleared. The step never changes. The
        caller is the generate button, disabled while a request is in flight;
        when it is enabled the request always starts. */
    method BeginStructuring() returns (started: bool)
      requires Valid() && !isStructuring
      modifies this`isStructuring, this`structuringError
      ensures Valid()
      ensures started <==> transcription != "" && sessionData.Some?
      ensures old(GenerateEnabled()) ==> started
      ensures !started ==> unchanged(this)
      ensures started ==> isStructuring && structuringError == "" && !GenerateEnabled()
    {
      started := transcription != "" && sessionData.Some?;
      if started {
        isStructuring := true;
        structuringError := "";
      }
    }

    /** The structuring request settles: an ok response's JSON is stored; a
        response that is not ok, or a throw, sets the fixed error and keeps
        the old result; the request is no longer in flight. */
    method CompleteStructuring(fetch: StructureFetch)
      requires Valid() && isStructuring
      modifies this`structuredOutput, this`structuringError, this`isStructuring
      ensures Valid() && !isStructuring
      ensures fetch.OkJson? ==> structuredOutput == fetch.body && structuringError == old(structuringError)
      ensures !fetch.OkJson? ==>
        structuredOutput == old(structuredOutput) && structuringError == StructuringErrorMessage
    {
      if fetch.OkJson? {
        structuredOutput := fetch.body;
      } else {
        structuringError := StructuringErrorMessage;
      }
      isStructuring := false;
    }

    /** `handleGenerateStructuredOutput` as one step; `currentStep` is never
        touched. */
    method HandleGenerateStructuredOutput(fetch: StructureFetch) returns (started: bool)
      requires Valid() && !isStructuring
      modifies this`isStructuring, this`structuringError, this`structuredOutput
      ensures Valid() && !isStructuring
      ensures started <==> transcription != "" && sessionData.Some?
      ensures !started ==> unchanged(this)
      ensures started && fetch.OkJson? ==> structuredOutput == fetch.body && structuringError == ""
      ensures started && !fetch.OkJson? ==>
        structuredOutput == old(structuredOutput) && structuringError == StructuringErrorMessage
    {
      started := BeginStructuring();
      if started {
        CompleteStructuring(fetch);
      }
    }
  }
}
