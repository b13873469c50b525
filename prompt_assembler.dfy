/** The prompt assembler of main.py: the history-folding prompt template and
    the fixed, role-tagged message list sent to the language model. */
module PromptAssembler {
  import opened ChatText

  const TemplateHeader := "Previous messages:\n"
  const HumanLabel := "Human: "

  const SystemInstruction := "Your job is to help software developers and system engineers to fix and report major incidents for their systems."
  const SystemsQuestion := "What systems are you using for your Application?"
  const ObservationsQuestion := "What are your initial observations for you incident?"
  const ErrorsQuestion := "Have you had any initial error messages?"

  datatype Role = System | Assistant | User

  /** One chat message for the language-model client. */
  datatype ChatMessage = ChatMessage(role: Role, content: string)

  /** The template the generator builds: the header, every history entry on
      its own line in insertion order, then the new prompt. */
  function Template(history: seq<string>, prompt: string): (r: string)
    ensures |r| == |TemplateHeader| + |Lines(history)| + |HumanLabel| + |prompt|
    ensures r[..|TemplateHeader|] == TemplateHeader
    ensures r[|r| - |prompt|..] == prompt
  {
    TemplateHeader + Lines(history) + HumanLabel + prompt
  }

  /** The loop of main.py that grows the template one history entry at a time. */
  method BuildTemplate(history: seq<string>, prompt: string) returns (template: string)
    ensures template == Template(history, prompt)
  {
    template := TemplateHeader;
    var i := 0;
    while i < |history|
      invariant 0 <= i <= |history|
      invariant template == TemplateHeader + Lines(history[..i])
    {
      assert history[..i + 1][..i] == history[..i];
      template := template + history[i] + "\n";
      i := i + 1;
    }
    assert history[..i] == history;
    template := template + HumanLabel + prompt;
  }

  /** The template with no history is the header followed by the prompt. */
  lemma TemplateNoHistory(prompt: string)
    ensures Template([], prompt) == "Previous messages:\nHuman: " + prompt
  {
  }

  /** The template starts with the header, ends with the labelled prompt, and
      holds history entry i, newline-terminated, right after the entries
      before it. */
  lemma TemplateEntryAt(history: seq<string>, prompt: string, i: nat)
    requires i < |history|
    ensures var t, off := Template(history, prompt), |TemplateHeader| + |Lines(history[..i])|;
      off + |history[i]| + 1 <= |t| &&
      t[..|TemplateHeader|] == TemplateHeader &&
      t[off..off + |history[i]| + 1] == history[i] + "\n" &&
      t[|t| - |HumanLabel + prompt|..] == HumanLabel + prompt
  {
    LinesEntryAt(history, i);
    var t := Template(history, prompt);
    var lines := Lines(history);
    assert t == TemplateHeader + lines + (HumanLabel + prompt);
    var off := |TemplateHeader| + |Lines(history[..i])|;
    assert t[off..off + |history[i]| + 1] == lines[off - |TemplateHeader|..off - |TemplateHeader| + |history[i]| + 1];
  }

  /** The worked example: history ["X", "Y"] and prompt "Z". */
  lemma TemplateExample()
    ensures Template(["X", "Y"], "Z") == "Previous messages:\nX\nY\nHuman: Z"
  {
    assert ["X", "Y"][..1] == ["X"];
    assert ["X"][..0] == [];
  }

  /** The eight-message list: the system instruction, the three scripted
      onboarding question/answer pairs, then the template as the last user
      message. */
  function Messages(systemsUsed: string, observations: string, errors: string, template: string): (r: seq<ChatMessage>)
    ensures |r| == 8
    ensures Roles(r) == [System, Assistant, User, Assistant, User, Assistant, User, User]
    ensures r[2].content == systemsUsed && r[4].content == observations && r[6].content == errors
    ensures r[7].content == template
    ensures r[0].content == SystemInstruction
    ensures r[1].content == SystemsQuestion && r[3].content == ObservationsQuestion && r[5].content == ErrorsQuestion
  {
    [ ChatMessage(System, SystemInstruction),
      ChatMessage(Assistant, SystemsQuestion),
      ChatMessage(User, systemsUsed),
      ChatMessage(Assistant, ObservationsQuestion),
      ChatMessage(User, observations),
      ChatMessage(Assistant, ErrorsQuestion),
      ChatMessage(User, errors),
      ChatMessage(User, template) ]
  }

  /** The roles of a message list, in order. */
  function Roles(msgs: seq<ChatMessage>): (r: seq<Role>)
    ensures |r| == |msgs|
    ensures forall i :: 0 <= i < |msgs| ==> r[i] == msgs[i].role
  {
    seq(|msgs|, i requires 0 <= i < |msgs| => msgs[i].role)
  }
}
