/** The LLM client: the chat model and output parser fixed at construction, and
    a prompt that stays unset until it is first set or first needed. */
module LlmClient {
  import opened Common
  import opened Collaborators

  const Fallback: string := "I don't know"
  const Instruction: string :=
    "\nAnswer the question based on the context below. If you can't \nanswer the question, reply \"" + Fallback + "\"."

  /** `LLMClient.DEFAULT_PROMPT_TEMPLATE`, character for character. */
  const DefaultPromptTemplate: string :=
    Instruction + "\n\nContext: " + "{context}" + "\n\nQuestion: " + "{question}" + "\n"

  predicate Contains(s: string, part: string)
  {
    exists i :: 0 <= i <= |s| && part <= s[i..]
  }

  lemma ContainsAtEnd(s: string, part: string)
    ensures Contains(s + part, part)
  {
    assert (s + part)[|s|..] == part;
  }

  lemma ContainsExtended(s: string, more: string, part: string)
    requires Contains(s, part)
    ensures Contains(s + more, part)
  {
    var i :| 0 <= i <= |s| && part <= s[i..];
    assert (s + more)[i..] == s[i..] + more;
  }

  /** The default template has both placeholders the chain fills in and tells
      the model to answer "I don't know" when the context does not help. */
  lemma DefaultTemplateShape()
    ensures Contains(DefaultPromptTemplate, "{context}")
    ensures Contains(DefaultPromptTemplate, "{question}")
    ensures Contains(DefaultPromptTemplate, Fallback)
  {
    var intro := "\nAnswer the question based on the context below. If you can't \nanswer the question, reply \"";
    ContainsAtEnd(intro, Fallback);
    ContainsExtended(intro + Fallback, "\".", Fallback);
    var withContext := Instruction + "\n\nContext: " + "{context}";
    ContainsExtended(Instruction, "\n\nContext: ", Fallback);
    ContainsExtended(Instruction + "\n\nContext: ", "{context}", Fallback);
    ContainsAtEnd(Instruction + "\n\nContext: ", "{context}");
    ContainsExtended(withContext, "\n\nQuestion: ", "{context}");
    ContainsExtended(withContext, "\n\nQuestion: ", Fallback);
    var withQuestion := withContext + "\n\nQuestion: " + "{question}";
    ContainsAtEnd(withContext + "\n\nQuestion: ", "{question}");
    ContainsExtended(withContext + "\n\nQuestion: ", "{question}", "{context}");
    ContainsExtended(withContext + "\n\nQuestion: ", "{question}", Fallback);
    ContainsExtended(withQuestion, "\n", "{context}");
    ContainsExtended(withQuestion, "\n", "{question}");
    ContainsExtended(withQuestion, "\n", Fallback);
  }

  /** `template or DEFAULT_PROMPT_TEMPLATE`. */
  function TemplateOrDefault(template: Option<string>): (r: string)
    ensures r != ""
    ensures Truthy(template) ==> r == template.value
    ensures !Truthy(template) ==> r == DefaultPromptTemplate
  {
    if Truthy(template) then template.value else DefaultPromptTemplate
  }

  class LLMClient {
    const model: ChatModel
    const parser: OutputParser
    var prompt: Option<PromptTemplate>

    /** Every prompt ever installed comes from a non-empty template. */
    ghost predicate Valid()
      reads this
    {
      prompt.Some? ==> prompt.value.template != ""
    }

    constructor (modelName: string := "gpt-3.5-turbo", apiKey: Option<string> := None,
                 temperature: real := 0.0, maxTokens: int := 1000)
      ensures Valid()
      ensures model == ChatModel(modelName, apiKey, temperature, maxTokens)
      ensures parser == StrOutputParser
      ensures prompt == None
    {
      model := ChatModel(modelName, apiKey, temperature, maxTokens);
      parser := StrOutputParser;
      prompt := None;
    }

    /** A falsy template (`None` or `""`) installs the default one. */
    method SetPromptTemplate(template: Option<string> := None)
      modifies this
      ensures Valid()
      ensures prompt == Some(PromptTemplate(TemplateOrDefault(template)))
    {
      prompt := Some(PromptTemplate(TemplateOrDefault(template)));
    }

    /** Installs the default prompt only when none is set, then returns the prompt. */
    method GetPrompt() returns (p: PromptTemplate)
      requires Valid()
      modifies this
      ensures Valid()
      ensures prompt == Some(p)
      ensures old(prompt).Some? ==> p == old(prompt).value
      ensures old(prompt).None? ==> p == PromptTemplate(DefaultPromptTemplate)
    {
      if prompt.None? {
        SetPromptTemplate();
      }
      p := prompt.value;
    }

    method GetModel() returns (m: ChatModel)
      ensures m == model
    {
      m := model;
    }

    method GetParser() returns (p: OutputParser)
      ensures p == parser
    {
      p := parser;
    }

    /** Installs the default prompt if none is set, then runs prompt, model and
      parser on the variables. */
    method Generate(promptVars: map<string, string>, lib: Libraries) returns (r: Result<string>)
      requires Valid()
      modifies this
      ensures Valid()
      ensures old(prompt).Some? ==> prompt == old(prompt)
      ensures old(prompt).None? ==> prompt == Some(PromptTemplate(DefaultPromptTemplate))
      ensures r == lib.chat(model, prompt.value, promptVars)
    {
      if prompt.None? {
        SetPromptTemplate();
      }
      r := lib.chat(model, prompt.value, promptVars);
    }
  }
}
