/** The brain-dump wizard page: four steps (setup, audio, transcript,
    structured output) moved by the handlers the setup form and the audio
    component call, by the structuring request, and by guarded navigation. */
module BrainDumpPage {
  import opened Js
  import opened Domain

  class Wizard {
    var transcription: string
    var isTranscribing: bool
    var transcriptionError: string
    var currentStep: int
    var hasAudio: bool
    var sessionData: Option<SessionData>
    /** Whatever `response.json()` delivered; `JNull` is the initial `null`. */
    var structuredOutput: Json
    var isStructuring: bool
    var structuringError: string

    /** The step is one of the four, and a request in flight or a stored
        structured result always comes with session data. */
    ghost predicate Valid()
      reads this
    {
      && 1 <= currentStep <= 4
      && ((isStructuring || HasStructuredOutput()) ==> sessionData.Some?)
    }

    /** `structuredOutput` is truthy. */
    predicate HasStructuredOutput()
      reads this
    {
      TruthyJson(structuredOutput)
    }

    /** The targets `handleStepNavigation` accepts. */
    predicate MayNavigateTo(step: int)
      reads this
    {
      || step == 1
      || (step == 2 && sessionData.Some?)
      || (step == 3 && transcription != "")
      || (step == 4 && HasStructuredOutput())
    }

    /** The back button is rendered from step 2 on. */
    predicate BackOffered()
      reads this
    {
      currentStep > 1
    }

    /** The forward button of step 2 is rendered once audio is ready. */
    predicate ContinueToTranscriptionOffered()
      reads this
    {
      currentStep == 2 && hasAudio
    }

    /** The forward button of step 3 is rendered once a transcript is there and
        no transcription is in flight. */
    predicate ContinueToStructuringOffered()
      reads this
    {
      currentStep == 3 && transcription != "" && !isTranscribing
    }

    /** The generate panel is rendered at step 4 while there is no structured
        result and no request in flight. */
    predicate GenerateOffered()
      reads this
    {
      currentStep == 4 && !HasStructuredOutput() && !isStructuring
    }

    constructor ()
      ensures Valid()
      ensures currentStep == 1 && transcription == "" && !isTranscribing && transcriptionError == ""
      ensures !hasAudio && sessionData == None && structuredOutput == JNull
      ensures !isStructuring && structuringError == ""
    {
      transcription, isTranscribing, transcriptionError := "", false, "";
      currentStep, hasAudio, sessionData := 1, false, None;
      structuredOutput, isStructuring, structuringError := JNull, false, "";
    }

    /** `handleSessionComplete`: store the session data and go to step 2. */
    method HandleSessionComplete(data: SessionData)
      requires Valid()
      modifies this`sessionData, this`currentStep
      ensures Valid()
      ensures sessionData == Some(data) && currentStep == 2
    {
      sessionData := Some(data);
      currentStep := 2;
    }

    /** `handleTranscriptionChange`: copy the three arguments; a text that
        differs from the stored one clears the structured result and its
        error; processing, or a text without an error, shows step 3. */
    method HandleTranscriptionChange(text: string, processing: bool, error: string)
      requires Valid()
      modifies this`transcription, this`isTranscribing, this`transcriptionError,
               this`structuredOutput, this`structuringError, this`currentStep
      ensures Valid()
      ensures transcription == text && isTranscribing == processing && transcriptionError == error
      ensures text != old(transcription) ==> structuredOutput == JNull && structuringError == ""
      ensures text == old(transcription) ==>
        structuredOutput == old(structuredOutput) && structuringError == old(structuringError)
      ensures processing ==> currentStep == 3
      ensures !processing && text != "" && error == "" ==> currentStep == 3
      ensures !processing && (text == "" || error != "") ==> currentStep == old(currentStep)
    {
      var previous := transcription;
      transcription := text;
      isTranscribing := processing;
      transcriptionError := error;
      if text != previous {
        structuredOutput := JNull;
        structuringError := "";
      }
      if processing {
        currentStep := 3;
      } else if text != "" && error == "" {
        currentStep := 3;
      }
    }

    /** `handleAudioReady`: record whether audio is ready. */
    method HandleAudioReady(ready: bool)
      requires Valid()
      modifies this`hasAudio
      ensures Valid()
      ensures hasAudio == ready
    {
      hasAudio := ready;
    }

    /** The synchronous start of `handleGenerateStructuredOutput`: nothing
        happens without a transcript or session data; otherwise the request is
        in flight, the old error is cleared and step 4 is shown. The caller is
        the generate button, which is not rendered while a request is in
        flight. */
    method BeginStructuring() returns (started: bool)
      requires Valid() && !isStructuring
      modifies this`isStructuring, this`structuringError, this`currentStep
      ensures Valid()
      ensures started <==> transcription != "" && sessionData.Some?
      ensures !started ==> unchanged(this)
      ensures started ==> isStructuring && structuringError == "" && currentStep == 4
      ensures started ==> !GenerateOffered()
    {
      started := transcription != "" && sessionData.Some?;
      if started {
        isStructuring := true;
        structuringError := "";
        currentStep := 4;
      }
    }

    /** The structuring request settles: an ok response's JSON is stored; a
        response that is not ok, or a throw, sets the fixed error and keeps
        the old result; the request is no longer in flight. */
    method CompleteStructuring(fetch: StructureFetch)
      requires Valid() && isStructuring
      modifies this`structuredOutput, this`structuringError, this`isStructuring
      ensures Valid() && !isStructuring
      ensures fetch.OkJson? ==> structuredOutput == fetch.body && structuringError == old(structuringError)
      ensures !fetch.OkJson? ==>
        structuredOutput == old(structuredOutput) && structuringError == StructuringErrorMessage
    {
      if fetch.OkJson? {
        structuredOutput := fetch.body;
      } else {
        structuringError := StructuringErrorMessage;
      }
      isStructuring := false;
    }

    /** `handleGenerateStructuredOutput` as one step. */
    method HandleGenerateStructuredOutput(fetch: StructureFetch) returns (started: bool)
      requires Valid() && !isStructuring
      modifies this`isStructuring, this`structuringError, this`currentStep, this`structuredOutput
      ensures Valid() && !isStructuring
      ensures started <==> transcription != "" && sessionData.Some?
      ensures !started ==> unchanged(this)
      ensures started ==> currentStep == 4
      ensures started && fetch.OkJson? ==> structuredOutput == fetch.body && structuringError == ""
      ensures started && !fetch.OkJson? ==>
        structuredOutput == old(structuredOutput) && structuringError == StructuringErrorMessage
    {
      started := BeginStructuring();
      if started {
        CompleteStructuring(fetch);
      }
    }

    /** `handleStepNavigation(step)`: step 1 always, step 2 with session data,
        step 3 with a transcript, step 4 with a structured result; any other
        request leaves the step as it is. Nothing else changes. */
    method HandleStepNavigation(step: int)
      requires Valid()
      modifies this`currentStep
      ensures Valid()
      ensures step == 1 ==> currentStep == 1
      ensures step == 2 ==> currentStep == (if sessionData.Some? then 2 else old(currentStep))
      ensures step == 3 ==> currentStep == (if transcription != "" then 3 else old(currentStep))
      ensures step == 4 ==> currentStep == (if HasStructuredOutput() then 4 else old(currentStep))
      ensures !(1 <= step <= 4) ==> currentStep == old(currentStep)
      ensures currentStep != old(currentStep) ==> currentStep == step && MayNavigateTo(step)
    {
      if step == 1 {
        currentStep := 1;
      } else if step == 2 && sessionData.Some? {
        currentStep := 2;
      } else if step == 3 && transcription != "" {
        currentStep := 3;
      } else if step == 4 && HasStructuredOutput() {
        currentStep := 4;
      }
    }

    /** The back button: `handleStepNavigation(currentStep - 1)`. From step 2
        it always reaches step 1; from steps 3 and 4 it moves back one step
        when that step's data is there and otherwise stays. */
    method Back()
      requires Valid() && BackOffered()
      modifies this`currentStep
      ensures Valid()
      ensures currentStep == (if MayNavigateTo(old(currentStep) - 1) then old(currentStep) - 1 else old(currentStep))
      ensures old(currentStep) == 2 ==> currentStep == 1
    {
      HandleStepNavigation(currentStep - 1);
    }

    /** The forward button of step 2. */
    method ContinueToTranscription()
      requires Valid() && ContinueToTranscriptionOffered()
      modifies this`currentStep
      ensures Valid() && currentStep == 3
    {
      currentStep := 3;
    }

    /** The forward button of step 3. */
    method ContinueToStructuring()
      requires Valid() && ContinueToStructuringOffered()
      modifies this`currentStep
      ensures Valid() && currentStep == 4
    {
      currentStep := 4;
    }
  }
}
