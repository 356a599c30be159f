/**
 Prompt assembly for the text-generation service.

 The service is asked twice per sample: once to summarise the component and
 machine identity from the component row, once to write the diagnostic comment
 from the diagnostic prompt. Each request is a conversation that opens with a
 system instruction, replays fixed example exchanges, and ends with one live
 user turn carrying the real input.

 The service itself and the two table formatters are outside this model; they
 are the function-valued fields of `Services`.
 */
module Prompt {
  import opened Classifier
  import opened ValueTable
  import opened Tables

  datatype Role = System | User | Assistant

  /** One turn of a conversation. */
  datatype Turn = Turn(role: Role, content: string)

  /** One example exchange replayed before the live question. */
  datatype Exchange = Exchange(question: string, answer: string)

  /** The fixed part of a conversation: the system instruction and the example exchanges. */
  datatype FewShot = FewShot(instruction: string, examples: seq<Exchange>)

  /** The two fixed conversation openings. */
  datatype Config = Config(componentShots: FewShot, diagnosticShots: FewShot)

  /** The deployed configuration replays nine component examples and three diagnostic examples. */
  predicate DeploymentShape(cfg: Config) {
    |cfg.componentShots.examples| == 9 && |cfg.diagnosticShots.examples| == 3
  }

  /** The collaborators: the chat service and the two table formatters. */
  datatype Services = Services(
    chat: seq<Turn> -> string,
    renderValues: Renderer,
    renderComponents: seq<ComponentRecord> -> string)

  /** Turn `j` of the replayed examples: questions at even positions, answers at odd ones. */
  function ExampleTurn(xs: seq<Exchange>, j: nat): Turn
    requires j < 2 * |xs|
  {
    if j % 2 == 0 then Turn(User, xs[j / 2].question) else Turn(Assistant, xs[j / 2].answer)
  }

  /** The example exchanges as alternating user and assistant turns. */
  function ExampleTurns(xs: seq<Exchange>): (ts: seq<Turn>)
    ensures |ts| == 2 * |xs|
    ensures forall j :: 0 <= j < |ts| ==> ts[j] == ExampleTurn(xs, j)
  {
    if xs == [] then []
    else
      var rest := ExampleTurns(xs[1..]);
      var ts := [Turn(User, xs[0].question), Turn(Assistant, xs[0].answer)] + rest;
      assert forall j :: 2 <= j < |ts| ==> ts[j] == ExampleTurn(xs, j) by {
        forall j | 2 <= j < |ts| ensures ts[j] == ExampleTurn(xs, j) {
          assert ts[j] == rest[j - 2] == ExampleTurn(xs[1..], j - 2);
          assert (j - 2) / 2 == j / 2 - 1 && (j - 2) % 2 == j % 2;
        }
      }
      ts
  }

  /** A conversation: the system instruction, the examples, then the live question. */
  function Conversation(fs: FewShot, live: string): (c: seq<Turn>)
    ensures |c| == 2 * |fs.examples| + 2
    ensures c[0] == Turn(System, fs.instruction)
    ensures forall j :: 0 <= j < 2 * |fs.examples| ==> c[j + 1] == ExampleTurn(fs.examples, j)
    ensures c[|c| - 1] == Turn(User, live)
  {
    var ex := ExampleTurns(fs.examples);
    var c := [Turn(System, fs.instruction)] + ex + [Turn(User, live)];
    assert forall j :: 0 <= j < 2 * |fs.examples| ==> c[j + 1] == ex[j];
    c
  }

  /** The fixed opening is the same for every live question: only the last turn
      of a conversation depends on the input. */
  lemma ConversationsShareOpening(fs: FewShot, a: string, b: string)
    ensures Conversation(fs, a)[..2 * |fs.examples| + 1] == Conversation(fs, b)[..2 * |fs.examples| + 1]
    ensures Conversation(fs, a) == Conversation(fs, b) <==> a == b
  {
    var ca, cb := Conversation(fs, a), Conversation(fs, b);
    var n := 2 * |fs.examples| + 1;
    forall j | 0 <= j < n ensures ca[j] == cb[j] {
      if j > 0 {
        assert ca[(j - 1) + 1] == ExampleTurn(fs.examples, j - 1) == cb[(j - 1) + 1];
      }
    }
    assert ca[..n] == cb[..n];
    assert ca[n] == Turn(User, a) && cb[n] == Turn(User, b);
  }

  /** With the deployed configuration the component request has 20 turns and the
      diagnostic request 8. */
  lemma DeployedConversationSizes(cfg: Config, a: string, b: string)
    requires DeploymentShape(cfg)
    ensures |Conversation(cfg.componentShots, a)| == 20
    ensures |Conversation(cfg.diagnosticShots, b)| == 8
  {
  }

  /** The question put before the component table in the live turn. */
  const ComponentHeader: string :=
    "Analiza los componentes y características de una máquina identificada en la siguiente tabla:\n"

  /** The indentation the live component question carries before and after the table. */
  const Indent: string := "                                            "

  /** The live question of the component-summary request. */
  function ComponentQuestion(table: string): (q: string)
    ensures |q| == |ComponentHeader| + 2 * |Indent| + |table| + 1
    ensures q[..|ComponentHeader|] == ComponentHeader
    ensures q[|ComponentHeader|..|ComponentHeader| + |Indent|] == Indent
    ensures q[|ComponentHeader| + |Indent|..|q| - 1 - |Indent|] == table
    ensures q[|q| - 1 - |Indent|] == '\n' && q[|q| - |Indent|..] == Indent
  {
    ComponentHeader + Indent + table + "\n" + Indent
  }

  /** The request asking the service to summarise the component rows. */
  function ComponentConversation(svc: Services, cfg: Config, gen: seq<ComponentRecord>): (c: seq<Turn>)
    ensures |c| == 2 * |cfg.componentShots.examples| + 2
    ensures c[0] == Turn(System, cfg.componentShots.instruction)
    ensures forall j :: 0 <= j < 2 * |cfg.componentShots.examples| ==> c[j + 1] == ExampleTurn(cfg.componentShots.examples, j)
    ensures c[|c| - 1] == Turn(User, ComponentQuestion(svc.renderComponents(gen)))
  {
    Conversation(cfg.componentShots, ComponentQuestion(svc.renderComponents(gen)))
  }

  /** The request asking the service for the diagnostic comment on a prompt. */
  function DiagnosticConversation(cfg: Config, prompt: string): (c: seq<Turn>)
    ensures |c| == 2 * |cfg.diagnosticShots.examples| + 2
    ensures c[0] == Turn(System, cfg.diagnosticShots.instruction)
    ensures forall j :: 0 <= j < 2 * |cfg.diagnosticShots.examples| ==> c[j + 1] == ExampleTurn(cfg.diagnosticShots.examples, j)
    ensures c[|c| - 1] == Turn(User, prompt)
  {
    Conversation(cfg.diagnosticShots, prompt)
  }

  /** The short component and machine summary the service returns. */
  function ComponentPrompt(svc: Services, cfg: Config, gen: seq<ComponentRecord>): string {
    svc.chat(ComponentConversation(svc, cfg, gen))
  }

  /** The diagnostic comment the service returns for a prompt. */
  function ExecutePrompt(svc: Services, cfg: Config, prompt: string): string {
    svc.chat(DiagnosticConversation(cfg, prompt))
  }

  /** The fixed opening line of the diagnostic prompt. */
  const Preamble: string := "Analiza una muestra para el siguiente equipo:\n"

  /** The fixed line introducing the measurement block. */
  const Separator: string := "Los valores de la muestra son:\n"

  /** `t` occurs in `s` at position `i`. */
  predicate OccursAt(t: string, s: string, i: nat) {
    i + |t| <= |s| && s[i..i + |t|] == t
  }

  /** `t` occurs somewhere in `s`. */
  predicate Contains(s: string, t: string) {
    exists i: nat | i <= |s| :: OccursAt(t, s, i)
  }

  /** The diagnostic prompt: preamble, component summary, a line break, the
      separator, and the measurement block. */
  function Assemble(com: string, values: string): (p: string)
    ensures |p| == |Preamble| + |com| + 1 + |Separator| + |values|
    ensures OccursAt(Preamble, p, 0)
    ensures OccursAt(com, p, |Preamble|)
    ensures p[|Preamble| + |com|] == '\n'
    ensures OccursAt(Separator, p, |Preamble| + |com| + 1)
    ensures p[|p| - |values|..] == values
  {
    var p := Preamble + com + "\n" + Separator + values;
    assert p[|Preamble| + |com| + 1..|Preamble| + |com| + 1 + |Separator|] == Separator;
    p
  }

  /** The component block of a prompt, given its length. */
  function ComponentBlock(p: string, comLength: nat): string
    requires |Preamble| + comLength <= |p|
  {
    p[|Preamble|..|Preamble| + comLength]
  }

  /** The measurement block of a prompt, given the component block's length. */
  function ValueBlock(p: string, comLength: nat): string
    requires |Preamble| + comLength + 1 + |Separator| <= |p|
  {
    p[|Preamble| + comLength + 1 + |Separator|..]
  }

  /** Both blocks can be read back out of an assembled prompt. */
  lemma AssembleRoundTrip(com: string, values: string)
    ensures ComponentBlock(Assemble(com, values), |com|) == com
    ensures ValueBlock(Assemble(com, values), |com|) == values
  {
  }

  /** Every assembled prompt carries both fixed literals. */
  lemma AssembleContainsLiterals(com: string, values: string)
    ensures Contains(Assemble(com, values), Preamble)
    ensures Contains(Assemble(com, values), Separator)
  {
    var p := Assemble(com, values);
    assert OccursAt(Preamble, p, 0);
    assert OccursAt(Separator, p, |Preamble| + |com| + 1);
  }

  /** `p` is laid out as line 75 of the module builds it: the preamble at
      offset 0, the component block right after it, a line break, the
      separator, and the value block ending the prompt. */
  predicate PromptLayout(p: string, com: string, values: string) {
    && |p| == |Preamble| + |com| + 1 + |Separator| + |values|
    && OccursAt(Preamble, p, 0)
    && OccursAt(com, p, |Preamble|)
    && p[|Preamble| + |com|] == '\n'
    && OccursAt(Separator, p, |Preamble| + |com| + 1)
    && p[|p| - |values|..] == values
  }

  /** The layout pins the prompt down completely: exactly one text has it. */
  lemma LayoutDeterminesPrompt(p: string, com: string, values: string)
    requires PromptLayout(p, com, values)
    ensures p == Preamble + com + "\n" + Separator + values
  {
    var q := Preamble + com + "\n" + Separator + values;
    var a, b, c := |Preamble|, |Preamble| + |com|, |Preamble| + |com| + 1 + |Separator|;
    assert p[..a] == q[..a];
    assert p[a..b] == q[a..b];
    assert p[b..b + 1] == q[b..b + 1];
    assert p[b + 1..c] == q[b + 1..c];
    assert p[c..] == q[c..];
    assert p == p[..a] + p[a..b] + p[b..b + 1] + p[b + 1..c] + p[c..];
    assert q == q[..a] + q[a..b] + q[b..b + 1] + q[b + 1..c] + q[c..];
  }

  /** The full diagnostic prompt for a sample: the service's component summary
      followed by the labelled measurement table. */
  function GeneratePrompt(svc: Services, cfg: Config, gen: seq<ComponentRecord>, val: seq<Measurement>): (p: string)
    ensures PromptLayout(p, ComponentPrompt(svc, cfg, gen), ValuePrompt(svc.renderValues, val))
    ensures ComponentBlock(p, |ComponentPrompt(svc, cfg, gen)|) == ComponentPrompt(svc, cfg, gen)
    ensures ValueBlock(p, |ComponentPrompt(svc, cfg, gen)|) == ValuePrompt(svc.renderValues, val)
    ensures Contains(p, Preamble) && Contains(p, Separator)
  {
    var com := ComponentPrompt(svc, cfg, gen);
    var values := ValuePrompt(svc.renderValues, val);
    AssembleRoundTrip(com, values);
    AssembleContainsLiterals(com, values);
    Assemble(com, values)
  }
}
