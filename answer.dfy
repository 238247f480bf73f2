/**
 * `generate_response` and `generate_answer`: the prompt goes to the hosted model,
 * whose outcome is a parameter here, and any failure becomes a fixed apology.
 */
module Answer {
  import opened Wrappers
  import Search
  import Prompt

  /** What the model call produced: its text, or an exception. */
  datatype Generation = Generated(text: string) | GenerationFailed

  const Apology := "Sorry, I couldn't generate a response at the moment."

  /** `generate_response`: the model's text, or the apology when the call failed. */
  function GenerateResponse(outcome: Generation): (answer: string)
    ensures outcome.GenerationFailed? ==> answer == Apology
    ensures outcome.Generated? ==> answer == outcome.text
  {
    match outcome
    case Generated(text) => text
    case GenerationFailed => Apology
  }

  /** The answer `generate_answer` gives for `query`, when the model answers a prompt as `backend` does. */
  function AnswerFor(query: string, apiKey: Option<string>, cseId: Option<string>, fetch: Search.Fetch,
                     backend: string -> Generation): string
  {
    GenerateResponse(backend(Prompt.RagPrompt(query, Search.SearchReferences(apiKey, cseId, fetch))))
  }

  /** `generate_answer`: builds the prompt from a search, asks the model, and returns the answer and the references. */
  method GenerateAnswer(query: string, apiKey: Option<string>, cseId: Option<string>, fetch: Search.Fetch,
                        backend: string -> Generation)
    returns (answer: string, refs: seq<string>)
    ensures refs == Search.SearchReferences(apiKey, cseId, fetch)
    ensures answer == GenerateResponse(backend(Prompt.RagPrompt(query, refs)))
    ensures answer == AnswerFor(query, apiKey, cseId, fetch, backend)
  {
    var prompt;
    prompt, refs := Prompt.MakeRagPrompt(query, apiKey, cseId, fetch);
    answer := GenerateResponse(backend(prompt));
  }
}
