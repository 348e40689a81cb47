/**
 * The generation request a chat turn sends to the Ollama service: the
 * feature-importance context (app.py:60), the system instruction that embeds
 * it (app.py:62-74) and the `{model, prompt, stream}` payload (app.py:83-90).
 */
module Prompt {
  import opened Wrappers
  import opened Lines

  const GenerateUrl := "http://ollama:11434/api/generate"
  const ModelName := "llama3"
  const TimeoutSeconds: nat := 120
  /** Rows of the importance table quoted in the prompt. */
  const ContextRowLimit: nat := 15
  /** Rows of the importance table shown in the sidebar. */
  const SidebarRowLimit: nat := 10

  /**
   * The loaded feature-importance table as `to_string(index=False)` renders
   * it: a header line and one line per row, in the file's order.
   */
  datatype Table = Table(header: string, rows: seq<string>)

  datatype Payload = Payload(model: string, prompt: string, stream: bool)

  datatype Request = Request(url: string, payload: Payload, timeoutSeconds: nat)

  /** The rows quoted in the prompt: the table's first fifteen. */
  function ContextRows(t: Table): seq<string> {
    Head(t.rows, ContextRowLimit)
  }

  /** `importance_df.head(15).to_string(index=False)`. */
  function ContextData(t: Table): string {
    JoinLines([t.header] + ContextRows(t))
  }

  /** The rows the sidebar shows when the table is loaded, none otherwise. */
  function SidebarRows(facts: Option<Table>): seq<string> {
    if facts.Some? then Head(facts.value.rows, SidebarRowLimit) else []
  }

  /** The instruction text up to the place where the context is interpolated. */
  const PromptIntro: string :=
    "\n    Si strokovnjak za strojno učenje in shranjevanje podatkov. \n"
    + "    Analiziraš moj specifičen Random Forest model za napovedovanje odpovedi diskov.\n\n"
    + "    TUKAJ SO PODATKI O MOJEM MODELU:\n"
    + "    - Skupna natančnost: 90.15%\n"
    + "    - Recall (ulov dejanskih odpovedi): 86%\n"
    + "    - Najpomembnejši SMART parametri (Feature Importance):\n"
    + "    "

  /** The instruction text after the interpolated context. */
  const PromptOutro: string :=
    "\n\n    Tvoji odgovori morajo temeljiti na teh podatkih. Če te uporabnik vpraša o pomembnosti, \n"
    + "    poglej v zgornji seznam. Govori strokovno, a razumljivo.\n"
    + "    "

  /** Separates the system instruction from the user's question. */
  const QuestionMarker: string := "\n\nUporabnik sprašuje: "

  function SystemPrompt(t: Table): string {
    PromptIntro + ContextData(t) + PromptOutro
  }

  /**
   * The JSON body posted to the generation endpoint: the fixed model, no
   * streaming, and a prompt made of the system instruction followed by the
   * user's question. No earlier message of the conversation goes into it.
   */
  function PayloadOf(t: Table, input: string): (p: Payload)
    ensures p.model == "llama3" && !p.stream
    ensures |p.prompt| == |SystemPrompt(t)| + |QuestionMarker| + |input|
    ensures p.prompt[..|SystemPrompt(t)|] == SystemPrompt(t)
    ensures p.prompt[|SystemPrompt(t)|..|p.prompt| - |input|] == QuestionMarker
    ensures p.prompt[|p.prompt| - |input|..] == input
  {
    Payload(ModelName, SystemPrompt(t) + QuestionMarker + input, false)
  }

  /** The POST the turn issues: fixed URL, the payload, a 120-second timeout. */
  function RequestOf(t: Table, input: string): (r: Request)
    ensures r.url == "http://ollama:11434/api/generate" && r.timeoutSeconds == 120
    ensures r.payload == PayloadOf(t, input)
  {
    Request(GenerateUrl, PayloadOf(t, input), TimeoutSeconds)
  }

  /**
   * The context section of a prompt built for the question `input`: what lies
   * between the fixed instruction text and the question.
   */
  function ContextSection(prompt: string, input: string): string
    requires |PromptIntro| + |PromptOutro| + |QuestionMarker| + |input| <= |prompt|
  {
    prompt[|PromptIntro|..|prompt| - |PromptOutro| - |QuestionMarker| - |input|]
  }

  /** The payload's prompt carries the question and, around the context, the fixed instruction text. */
  lemma PromptParts(t: Table, input: string)
    ensures var p := PayloadOf(t, input).prompt;
      |PromptIntro| + |PromptOutro| + |QuestionMarker| + |input| <= |p| &&
      p[..|PromptIntro|] == PromptIntro &&
      ContextSection(p, input) == ContextData(t) &&
      p[|p| - |PromptOutro| - |QuestionMarker| - |input|..] == PromptOutro + QuestionMarker + input
  {
    var p := PayloadOf(t, input).prompt;
    assert p == PromptIntro + ContextData(t) + (PromptOutro + QuestionMarker + input);
  }

  /**
   * When no rendered line contains a newline, the context section of the
   * prompt lists the header and then exactly the table's first fifteen rows,
   * in their original order.
   */
  lemma {:induction false} PromptListsFirstRows(t: Table, input: string)
    requires NoNewline(t.header)
    requires forall i :: 0 <= i < |t.rows| ==> NoNewline(t.rows[i])
    ensures var p := PayloadOf(t, input).prompt;
      |PromptIntro| + |PromptOutro| + |QuestionMarker| + |input| <= |p| &&
      SplitLines(ContextSection(p, input)) == [t.header] + t.rows[..|ContextRows(t)|]
    ensures |ContextRows(t)| <= 15
    ensures |ContextRows(t)| == 15 || ContextRows(t) == t.rows
  {
    PromptParts(t, input);
    var lines := [t.header] + ContextRows(t);
    forall i | 0 <= i < |lines| ensures NoNewline(lines[i]) {
      if i > 0 {
        assert lines[i] == t.rows[i - 1];
      }
    }
    SplitJoin(lines);
  }

  /** Whatever the sidebar shows is the start of what the prompt quotes, and at most ten rows. */
  lemma SidebarWithinContext(t: Table)
    ensures |SidebarRows(Some(t))| <= 10
    ensures SidebarRows(Some(t)) == ContextRows(t)[..|SidebarRows(Some(t))|]
  {
  }

  /** Two questions give the same payload only when they are the same question. */
  lemma PayloadDeterminesQuestion(t: Table, a: string, b: string)
    requires PayloadOf(t, a) == PayloadOf(t, b)
    ensures a == b
  {
  }
}
