/** The ask command's configuration: which hosted chat model the
    environment selects, and the prompt and output shape the chain is built
    from. Running the chain (retrieval and the model call) is not modelled. */
module Ask {
  import opened Common

  /** The process environment: variable name to value. */
  type Env = map<string, string>

  const OpenAiKeyVar: string := "OPENAI_API_KEY"
  const AzureKeyVar: string := "AZURE_OPENAI_API_KEY"
  const NoKeyMessage: string := "No OpenAI API key found in environment variables"

  /** The sampling temperature every selected model is built with. */
  const Temperature: real := 0.0

  datatype Backend = OpenAi | AzureOpenAi

  /** A chat-model construction: which class, with which temperature. */
  datatype ChatModel = ChatModel(backend: Backend, temperature: real)

  /** `os.environ.get(name)` is truthy: present and not the empty string. */
  predicate IsSet(env: Env, name: string) {
    name in env && env[name] != ""
  }

  /** The chat model the environment selects, or the `ValueError` raised
      when it names no usable key. */
  function GetLlm(env: Env): (r: Result<ChatModel, string>)
    ensures r.Success? ==> r.value.temperature == Temperature
    ensures r.Failure? ==> r.error == NoKeyMessage
  {
    if IsSet(env, OpenAiKeyVar) then Success(ChatModel(OpenAi, Temperature))
    else if IsSet(env, AzureKeyVar) then Success(ChatModel(AzureOpenAi, Temperature))
    else Failure(NoKeyMessage)
  }

  /** An OpenAI key wins whatever the Azure key says. */
  lemma OpenAiKeyWins(env: Env, azure: string)
    requires IsSet(env, OpenAiKeyVar)
    ensures GetLlm(env) == GetLlm(env[AzureKeyVar := azure]) == Success(ChatModel(OpenAi, 0.0))
  {
  }

  /** Without an OpenAI key, an Azure key selects the Azure model. */
  lemma AzureKeyFallback(env: Env)
    requires !IsSet(env, OpenAiKeyVar) && IsSet(env, AzureKeyVar)
    ensures GetLlm(env) == Success(ChatModel(AzureOpenAi, 0.0))
  {
  }

  /** Selection fails exactly when neither key is set to a non-empty value. */
  lemma NoKeyFails(env: Env)
    ensures GetLlm(env).Failure? <==> !IsSet(env, OpenAiKeyVar) && !IsSet(env, AzureKeyVar)
    ensures GetLlm(env).Failure? ==> GetLlm(env).error == "No OpenAI API key found in environment variables"
  {
  }

  /** A key bound to the empty string selects exactly what a missing key does. */
  lemma EmptyKeyIsAbsent(env: Env, name: string)
    ensures GetLlm(env[name := ""]) == GetLlm(env - {name})
  {
  }

  /** Only the two key variables influence the selection. */
  lemma OnlyKeysMatter(env: Env, other: Env)
    requires IsSet(env, OpenAiKeyVar) == IsSet(other, OpenAiKeyVar)
    requires IsSet(env, AzureKeyVar) == IsSet(other, AzureKeyVar)
    ensures GetLlm(env) == GetLlm(other)
  {
  }

  // ---------------------------------------------------------------------------
  // The chain the ask command builds.

  datatype Role = System | Human

  /** One message template of the chat prompt. */
  datatype Message = Message(role: Role, template: string)

  /** The system message; `{context}` is filled with the retrieved bookmarks. */
  const SystemMessage: string :=
    "\nYou have knowledge about all the browser bookmarks stored by an individual.\n"
    + "When a user asks a question, you should be able to search the bookmarks and return the most relevant bookmark title and URL.\n"
    + "It could be multiple bookmarks.\n"
    + "\n"
    + "The bookmarks available are from the context:\n"
    + "{context}\n"

  const HumanTemplate: string := "{query}"

  /** The structured output the model is constrained to. */
  datatype OutputShape = BookmarksShape

  /** The inputs the chain feeds the prompt: the retriever's output as
      `context` and the query passed through as `query`. */
  const ChainInputs: seq<string> := ["context", "query"]

  /** The chain `ask` builds: the names its input mapping binds, the prompt,
      the selected model, and the structured output the model is bound to
      (`None` for a model left unconstrained). */
  datatype Chain = Chain(inputs: seq<string>, prompt: seq<Message>, model: ChatModel, structured: Option<OutputShape>)

  /** The chain `ask` assembles: select the model, constrain its output,
      build the prompt, and bind the input names `context` and `query` (the
      input mapping is built once the store connection is open; the
      connection and the retriever behind `context` are not modelled). A
      missing key raises before any connection is made. */
  function BuildChain(env: Env): (r: Result<Chain, string>)
    ensures r.Success? <==> GetLlm(env).Success?
    ensures r.Failure? ==> r.error == NoKeyMessage
    ensures r.Success? ==> r.value.model == GetLlm(env).value && r.value.model.temperature == 0.0
    ensures r.Success? ==>
      && r.value.prompt == [Message(System, SystemMessage), Message(Human, "{query}")]
      && r.value.structured == Some(BookmarksShape)
      && r.value.inputs == ["context", "query"]
  {
    match GetLlm(env)
    case Failure(e) => Failure(e)
    case Success(llm) =>
      Success(Chain(ChainInputs, [Message(System, SystemMessage), Message(Human, HumanTemplate)], llm, Some(BookmarksShape)))
  }
}
