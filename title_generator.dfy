/**
 * The decisions of the title generator's two commands
 * (ai-title-generator/main.ts:50-118) and of its provider dispatch
 * (ai-title-generator/main.ts:137-219). The HTTP call itself is not
 * modelled: a request is what the plugin would send, and `answer` is what
 * the backend gave back for it (its text, or the error it raised).
 */
module TitleGenerator {
  import opened Wrappers
  import opened TitleText

  /** `aiProvider`; the stored settings may hold any other string. */
  datatype Provider = OpenAI | Anthropic | Ollama | Unrecognized(name: string)

  datatype Settings = Settings(
    aiProvider: Provider,
    openaiApiKey: string,
    anthropicApiKey: string,
    ollamaUrl: string,
    ollamaModel: string,
    openaiModel: string,
    anthropicModel: string)

  const DefaultSettings := Settings(
    OpenAI, "", "", "http://localhost:11434", "llama2", "gpt-4o-mini", "claude-3-5-sonnet-20241022")

  /** What the prompt asks for; the fixed instruction wording is not modelled. */
  datatype Prompt =
    | GeneratePrompt(excerpt: string)      // line 66
    | CorrectPrompt(currentTitle: string)  // line 96

  datatype Backend = OpenAIChat | AnthropicMessages | OllamaGenerate

  datatype Request = Request(backend: Backend, url: string, model: string, credential: string, prompt: Prompt)

  const InvalidProvider := "Invalid AI provider"
  const OpenAIKeyMissing := "OpenAI API key not set. Please configure it in settings."
  const AnthropicKeyMissing := "Anthropic API key not set. Please configure it in settings."

  /** The provider a backend belongs to. */
  function ProviderOf(b: Backend): (p: Provider)
    ensures !p.Unrecognized?
  {
    match b
    case OpenAIChat => OpenAI
    case AnthropicMessages => Anthropic
    case OllamaGenerate => Ollama
  }

  /**
   * `callAI` up to the request: the provider switch picks exactly one
   * backend; OpenAI and Anthropic refuse an empty key before any request,
   * Ollama has no key; any other provider is an error.
   */
  function CallAI(settings: Settings, prompt: Prompt): (r: Result<Request, string>)
    ensures r.Success? ==> ProviderOf(r.value.backend) == settings.aiProvider && r.value.prompt == prompt
    ensures settings.aiProvider.Unrecognized? ==> r == Failure(InvalidProvider)
    ensures settings.aiProvider == OpenAI ==>
      (r.Failure? <==> settings.openaiApiKey == "") && (r.Failure? ==> r.error == OpenAIKeyMissing)
    ensures settings.aiProvider == Anthropic ==>
      (r.Failure? <==> settings.anthropicApiKey == "") && (r.Failure? ==> r.error == AnthropicKeyMissing)
    ensures settings.aiProvider == Ollama ==> r.Success?
  {
    match settings.aiProvider
    case OpenAI =>
      if settings.openaiApiKey == "" then Failure(OpenAIKeyMissing)
      else Success(Request(OpenAIChat, "https://api.openai.com/v1/chat/completions",
                           settings.openaiModel, settings.openaiApiKey, prompt))
    case Anthropic =>
      if settings.anthropicApiKey == "" then Failure(AnthropicKeyMissing)
      else Success(Request(AnthropicMessages, "https://api.anthropic.com/v1/messages",
                           settings.anthropicModel, settings.anthropicApiKey, prompt))
    case Ollama =>
      Success(Request(OllamaGenerate, settings.ollamaUrl + "/api/generate", settings.ollamaModel, "", prompt))
    case Unrecognized(_) =>
      Failure(InvalidProvider)
  }

  /** With the default settings no request goes out until an OpenAI key is set. */
  lemma DefaultSettingsNeedKey(prompt: Prompt)
    ensures CallAI(DefaultSettings, prompt) == Failure(OpenAIKeyMissing)
  {
  }

  /** The note text the generate prompt carries: `content.slice(0, 2000)`. */
  function Excerpt(content: string): (r: string)
    ensures |r| == if |content| <= 2000 then |content| else 2000
    ensures r == content[..|r|]
  {
    Truncate(content, 2000)
  }

  /** The note being titled: its parent folder's path (None when `file.parent` is null) and base name. */
  datatype NoteFile = NoteFile(parentPath: Option<string>, basename: string)

  /** What a command ended with, notices included. */
  datatype Outcome =
    | NoActiveFile                            // "No active file"
    | NoteEmpty                               // "Note is empty"
    | Renamed(newPath: string, title: string) // "Title generated/corrected: ..."
    | AlreadyGood                             // "Title looks good already!"
    | NoTitle                                 // "Failed to generate/correct title"
    | Error(message: string)                  // "Error generating/correcting title: ..."

  /** A command run: the request it sent, if any, and how it ended. */
  datatype Run = Run(sent: Option<Request>, outcome: Outcome)

  /**
   * The text a backend call returns: each backend trims the reply
   * (lines 174, 200, 218); an error thrown by the request passes through.
   */
  function Reply(answer: Result<string, string>): (r: Result<string, string>)
    ensures answer.Failure? ==> r == Failure(answer.error)
    ensures answer.Success? ==> r.Success? && (r.value == [] <==> Blank(answer.value))
    ensures r.Success? ==>
      var k := TrimOffset(answer.value);
      && k + |r.value| <= |answer.value| && r.value == answer.value[k..k + |r.value|]
      && (forall i :: 0 <= i < k ==> IsSpace(answer.value[i]))
      && (forall i :: k + |r.value| <= i < |answer.value| ==> IsSpace(answer.value[i]))
    ensures r.Success? && r.value != [] ==> !IsSpace(r.value[0]) && !IsSpace(r.value[|r.value| - 1])
  {
    match answer
    case Success(text) => Success(Trim(text))
    case Failure(e) => Failure(e)
  }

  /**
   * `generateTitle`: no file or a blank note ends before any request;
   * otherwise the prompt carries the first 2000 characters, and a non-blank
   * reply becomes the sanitized title the note is renamed to.
   */
  function GenerateTitle(file: Option<NoteFile>, content: string, settings: Settings,
                         answer: Result<string, string>): (r: Run)
    ensures file.None? ==> r == Run(None, NoActiveFile)
    ensures file.Some? && Blank(content) ==> r == Run(None, NoteEmpty)
    ensures file.Some? && !Blank(content) ==>
      var call := CallAI(settings, GeneratePrompt(Excerpt(content)));
      && r.sent == call.ToOption()
      && (call.Failure? ==> r.outcome == Error("Error generating title: " + call.error))
    ensures r.outcome.Renamed? ==>
      && file.Some? && !Blank(content) && r.sent.Some? && answer.Success?
      && r.outcome.title == SanitizeTitle(Trim(answer.value))
      && r.outcome.newPath == RenamePath(file.value.parentPath, r.outcome.title)
    ensures r.sent.Some? && answer.Failure? ==> r.outcome == Error("Error generating title: " + answer.error)
    ensures r.outcome.NoTitle? ==> answer.Success? && Blank(answer.value)
    ensures file.Some? && !Blank(content) && r.sent.Some? && answer.Success? ==>
      && (Blank(answer.value) ==> r.outcome == NoTitle)
      && (!Blank(answer.value) ==> r.outcome.Renamed?)
    ensures !r.outcome.AlreadyGood?
  {
    if file.None? then Run(None, NoActiveFile)
    else if Trim(content) == "" then
      Run(None, NoteEmpty)
    else
      match CallAI(settings, GeneratePrompt(Excerpt(content)))
      case Failure(e) => Run(None, Error("Error generating title: " + e))
      case Success(request) =>
        match Reply(answer)
        case Failure(e) => Run(Some(request), Error("Error generating title: " + e))
        case Success(newTitle) =>
          TrimIdempotent(answer.value);
          if Trim(newTitle) != "" then
            var title := SanitizeTitle(Trim(newTitle));
            Run(Some(request), Renamed(RenamePath(file.value.parentPath, title), title))
          else
            Run(Some(request), NoTitle)
  }

  /**
   * `correctTitle`: asks for a corrected version of the base name; a
   * non-blank reply is sanitized and the note renamed only when the result
   * differs from the current base name.
   */
  function CorrectTitle(file: Option<NoteFile>, settings: Settings,
                        answer: Result<string, string>): (r: Run)
    ensures file.None? ==> r == Run(None, NoActiveFile)
    ensures file.Some? ==>
      var call := CallAI(settings, CorrectPrompt(file.value.basename));
      && r.sent == call.ToOption()
      && (call.Failure? ==> r.outcome == Error("Error correcting title: " + call.error))
    ensures r.outcome.Renamed? ==>
      && file.Some? && r.sent.Some? && answer.Success?
      && r.outcome.title == SanitizeTitle(Trim(answer.value))
      && r.outcome.title != file.value.basename
      && r.outcome.newPath == RenamePath(file.value.parentPath, r.outcome.title)
    ensures r.outcome.AlreadyGood? ==>
      file.Some? && answer.Success? && SanitizeTitle(Trim(answer.value)) == file.value.basename
    ensures file.Some? && answer.Success? && Blank(answer.value) ==> !r.outcome.Renamed?
    ensures r.sent.Some? && answer.Failure? ==> r.outcome == Error("Error correcting title: " + answer.error)
    ensures r.outcome.NoTitle? ==> answer.Success? && Blank(answer.value)
    ensures file.Some? && r.sent.Some? && answer.Success? && Blank(answer.value) ==> r.outcome == NoTitle
    ensures file.Some? && r.sent.Some? && answer.Success? && !Blank(answer.value) ==>
      var title := SanitizeTitle(Trim(answer.value));
      && (r.outcome.AlreadyGood? <==> title == file.value.basename)
      && (r.outcome.Renamed? <==> title != file.value.basename)
    ensures !r.outcome.NoteEmpty?
  {
    match file
    case None => Run(None, NoActiveFile)
    case Some(f) =>
      match CallAI(settings, CorrectPrompt(f.basename))
      case Failure(e) => Run(None, Error("Error correcting title: " + e))
      case Success(request) =>
        match Reply(answer)
        case Failure(e) => Run(Some(request), Error("Error correcting title: " + e))
        case Success(corrected) =>
          TrimIdempotent(answer.value);
          if Trim(corrected) != "" then
            var title := SanitizeTitle(Trim(corrected));
            if title != f.basename then
              Run(Some(request), Renamed(RenamePath(f.parentPath, title), title))
            else
              Run(Some(request), AlreadyGood)
          else
            Run(Some(request), NoTitle)
  }

  /**
   * A reply that repeats a clean base name (short enough, no forbidden
   * character, no quote at either end, no surrounding whitespace) leaves the
   * note where it is.
   */
  lemma CorrectCleanTitleKeepsName(file: NoteFile, settings: Settings)
    requires CallAI(settings, CorrectPrompt(file.basename)).Success?
    requires file.basename != [] && Trim(file.basename) == file.basename
    requires |file.basename| <= MaxTitleLength
    requires forall i :: 0 <= i < |file.basename| ==> !IsForbidden(file.basename[i])
    requires !IsQuote(file.basename[0]) && !IsQuote(file.basename[|file.basename| - 1])
    ensures CorrectTitle(Some(file), settings, Success(file.basename)).outcome == AlreadyGood
  {
  }

  /**
   * For an existing, non-blank note, a request the settings allow and a
   * non-blank answer, `generateTitle` renames the note within its own folder
   * to the sanitized answer, a valid file name of at most 100 characters.
   */
  lemma GeneratedNoteStaysInFolder(file: NoteFile, content: string, settings: Settings, answer: string)
    requires !Blank(content) && !Blank(answer)
    requires CallAI(settings, GeneratePrompt(Excerpt(content))).Success?
    ensures var o := GenerateTitle(Some(file), content, settings, Success(answer)).outcome;
            && o == Renamed(o.newPath, SanitizeTitle(Trim(answer)))
            && |o.title| <= MaxTitleLength
            && Folder(o.newPath) == file.parentPath
            && FileName(o.newPath) == o.title + ".md"
  {
    TrimIdempotent(answer);
    RenameStaysInFolder(file.parentPath, SanitizeTitle(Trim(answer)));
  }

  /**
   * The same for `correctTitle`, which renames only when the sanitized answer
   * differs from the current base name.
   */
  lemma CorrectedNoteStaysInFolder(file: NoteFile, settings: Settings, answer: string)
    requires !Blank(answer) && SanitizeTitle(Trim(answer)) != file.basename
    requires CallAI(settings, CorrectPrompt(file.basename)).Success?
    ensures var o := CorrectTitle(Some(file), settings, Success(answer)).outcome;
            && o == Renamed(o.newPath, SanitizeTitle(Trim(answer)))
            && |o.title| <= MaxTitleLength
            && Folder(o.newPath) == file.parentPath
            && FileName(o.newPath) == o.title + ".md"
  {
    TrimIdempotent(answer);
    RenameStaysInFolder(file.parentPath, SanitizeTitle(Trim(answer)));
  }
}
