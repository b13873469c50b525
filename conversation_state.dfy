/** The process-wide conversation state of main.py and the endpoints that
    read or change it: the reset branch of the index page, the onboarding
    form, and the server-sent-event endpoint with its two generators. */
module ConversationState {
  import opened ChatText
  import opened PromptAssembler
  import opened StreamingRelay

  class Conversation {
    /** The message of every completed answer, oldest first. */
    var history: seq<string>
    /** The onboarding answers, under the keys "Systems being used",
        "Initial Observations" and "Initial Error messages". */
    var systemsUsed: string
    var initialObservations: string
    var initialErrors: string

    /** The state at process start: no history, three empty answers. */
    constructor ()
      ensures history == []
      ensures systemsUsed == "" && initialObservations == "" && initialErrors == ""
    {
      history := [];
      systemsUsed, initialObservations, initialErrors := "", "", "";
    }

    /** The state change of the index page: `reset` empties the history,
        whatever its length, and leaves the onboarding answers alone. */
    method ApiIndex(reset: bool)
      modifies this
      ensures history == if reset then [] else old(history)
      ensures systemsUsed == old(systemsUsed)
      ensures initialObservations == old(initialObservations)
      ensures initialErrors == old(initialErrors)
    {
      if reset {
        history := [];
      }
    }

    /** The onboarding form overwrites all three answers with exactly the
        given text, empty text included; the history is untouched. */
    method UpdateInitialInformation(systems: string, observations: string, errors: string)
      modifies this
      ensures systemsUsed == systems
      ensures initialObservations == observations
      ensures initialErrors == errors
      ensures history == old(history)
    {
      systemsUsed := systems;
      initialObservations := observations;
      initialErrors := errors;
    }

    /** The messages the generator sends for the prompt, read from the
        current state. */
    method AssembleMessages(prompt: string) returns (messages: seq<ChatMessage>)
      ensures messages == Messages(systemsUsed, initialObservations, initialErrors, Template(history, prompt))
    {
      var template := BuildTemplate(history, prompt);
      messages := Messages(systemsUsed, initialObservations, initialErrors, template);
    }

    /** The generator for a non-empty prompt, given the tokens the model
        streams back for `messages` and k heartbeat rounds. On completion the
        history has exactly one more entry, the whole answer text. */
    method AiResponseGenerator(render: string -> string, prompt: string, tokens: seq<string>, k: nat)
      returns (messages: seq<ChatMessage>, frames: seq<string>)
      modifies this
      ensures messages == Messages(old(systemsUsed), old(initialObservations), old(initialErrors),
                                   Template(old(history), prompt))
      ensures IsAnswerStream(render, prompt, tokens, k, frames)
      ensures history == old(history) + [Opening(prompt) + Concat(tokens)]
      ensures systemsUsed == old(systemsUsed)
      ensures initialObservations == old(initialObservations)
      ensures initialErrors == old(initialErrors)
    {
      messages := AssembleMessages(prompt);
      var entry;
      frames, entry := StreamAnswer(render, prompt, tokens, k);
      history := history + [entry];
    }

    /** The event-stream endpoint: an empty prompt gets the empty response and
        changes nothing; any other prompt runs the generator. */
    method SseAiResponse(render: string -> string, prompt: string, tokens: seq<string>, k: nat)
      returns (frames: seq<string>)
      modifies this
      ensures IsEmptyPrompt(prompt) ==>
        |frames| == k + 1 && (forall i :: 0 <= i < |frames| ==> frames[i] == Frame(render, "")) &&
        history == old(history)
      ensures !IsEmptyPrompt(prompt) ==>
        IsAnswerStream(render, prompt, tokens, k, frames) &&
        history == old(history) + [Opening(prompt) + Concat(tokens)]
      ensures systemsUsed == old(systemsUsed)
      ensures initialObservations == old(initialObservations)
      ensures initialErrors == old(initialErrors)
    {
      if IsEmptyPrompt(prompt) {
        frames := EmptyResponse(render, k);
      } else {
        var messages;
        messages, frames := AiResponseGenerator(render, prompt, tokens, k);
      }
    }
  }
}
