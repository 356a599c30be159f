# Lubricant-sample diagnostic comments — a Dafny model

This project models the deterministic core of a helper module that writes
maintenance comments on oil-analysis samples taken from mining equipment.
Each sample has a component/machine record and a number of measurements.
Each measurement is an element, its value and four limits: lower-critical
("limite inferior condenatorio"), upper-critical ("limite superior
condenatorio"), lower-marginal and upper-marginal.

The module does four things, and the model covers each:

- **Threshold classifier** (`Classifier`, `classifier.dfy`). It names the first
  limit the value reaches. The limits are tested in a fixed order:
  lower-critical, upper-critical, lower-marginal, upper-marginal. Every bound
  is inclusive. The result is the label together with the limit's value, or
  "No limit surpassed" with no value.
- **Labelled value table** (`ValueTable`, `value_table.dfy`). Every measurement
  is classified. Each row is projected to element, value, label and limit
  value. Row order is kept and no row is dropped. The text formatter that
  renders the table is a parameter.
- **Prompt assembly** (`Prompt`, `prompt.dfy`). The diagnostic prompt is a fixed
  preamble, then the component summary, a line break, a fixed separator, and
  the value table. Each request to the text-generation service is a
  conversation: a system instruction, the example exchanges, then one live
  user turn.
- **Comment generator** (`Comment`, `comment.dfy`, with the id selection in
  `Tables`, `tables.dfy`). It selects the sample's measurement rows by
  `id_sample`. With no rows it returns the canned "all normal" comment and an
  empty prompt, and calls nothing. Otherwise it makes two chained service
  requests: the component summary goes into the prompt, and the comment is the
  service's answer to that prompt.

The things this core cannot see are parameters, bundled in `Prompt.Services`:

- the chat-completion service, as a function from a conversation to a text;
- the two table formatters (`DataFrame.to_string`), as functions from rows to text.

The two example conversations are a `Prompt.Config` value. `DeploymentShape`
says it has the nine component examples and the three diagnostic examples the
module replays. The tables loaded from CSV at import time are a
`Comment.LoadedTables` value. The model returns the requests it sends in
`Outcome.requests`, so that "no call" and "two chained calls" can be stated.

`Prompt.ComponentPrompt`, `Prompt.ExecutePrompt` and `ValueTable.ValuePrompt`
model `component_prompt`, `excecute_prompt` and `value_prompt`. Each one hands
its input to a service or formatter parameter, so each has no contract of its
own. What they send is stated by `ComponentConversation`,
`DiagnosticConversation` and `LabelRows`.

The model follows the code:

- The prompt literals are the Spanish ones in the code.
- The value table is not filtered to violating rows. Every row of the sample
  is labelled, including those with "No limit surpassed".
- The values rows come from the table loaded at import time, not from the
  `df_values` argument (see Findings).

## Model

| member | source | states |
|---|---|---|
| Classifier.FindLimitSurpassed | aux_functions.py:10-34 | the returned value is the limit the label names; a returned limit is really reached (inclusively) and no limit tested before it is reached; "No limit surpassed" exactly when the value is strictly inside all four limits |
| Classifier.FindLimitSurpassedIsFirstInPriority | aux_functions.py:20-34 | the classifier equals an independent reference: the first label of the priority list [lower-critical, upper-critical, lower-marginal, upper-marginal] whose limit is reached, paired with that limit |
| Classifier.LowerCriticalWins | aux_functions.py:21-22 | a value at or below lower-critical yields lower-critical with its limit, whatever the other limits are, even if the upper-critical limit is also reached |
| Classifier.UpperCriticalIff | aux_functions.py:23-25 | upper-critical is returned if and only if the value is above lower-critical and at or above upper-critical |
| Classifier.MarginalOnlyWithoutCritical | aux_functions.py:26-31 | a marginal label only when neither critical limit is reached; lower-marginal exactly when it is reached and no critical one is; upper-marginal only when lower-marginal is not reached |
| Classifier.BoundsInclusive | aux_functions.py:21-31 | a value equal to any of the four limits always yields a label, of that limit or of one tested earlier |
| Classifier.ViscosityExample | aux_functions.py:181 | a viscosity of 144.6 against upper-critical 138.0 and upper-marginal 120.0 is classified upper-critical at 138.0, as in the stored example |
| Classifier.LabelTextRoundTrip | aux_functions.py:22-34 | the five label texts are distinct: reading a label back from its column text gives the label |
| ValueTable.LabelRow | aux_functions.py:50-52 | one output row keeps the element and value, and its label and limit value are the classifier's answer for that measurement |
| ValueTable.LabelRows | aux_functions.py:48-52 | the labelled table has one row per measurement in the same order, none filtered out; row i keeps element and value of measurement i and carries its classification |
| ValueTable.LabelRowsAppend | aux_functions.py:50 | labelling is row by row: labelling a concatenation is the concatenation of the labelled parts |
| ValueTable.ValuePromptDependsOnClassification | aux_functions.py:50-54 | two measurement lists that agree on element, value and classification row by row render to the same text |
| Tables.Select | aux_functions.py:232-234 | the selection is empty exactly when no row carries the id, and never longer than the table |
| Tables.SelectIndices | aux_functions.py:234 | the selection is the subsequence of rows carrying the id: strictly increasing positions, each picked row carries the id, every row carrying the id is picked |
| Tables.SelectAppend | aux_functions.py:232-234 | selecting from concatenated tables concatenates the selections (table order is kept) |
| Prompt.ExampleTurns | aux_functions.py:95-148 | example exchanges become alternating user/assistant turns: questions at even positions, answers at odd ones |
| Prompt.Conversation | aux_functions.py:91-153 | a request is the system instruction, the example turns in order, and the live question as the final user turn |
| Prompt.ConversationsShareOpening | aux_functions.py:175-193 | all requests with the same examples share every turn but the last, and two requests are equal exactly when their live inputs are |
| Prompt.DeployedConversationSizes | aux_functions.py:91-153 | with nine component examples and three diagnostic examples the requests have 20 and 8 turns |
| Prompt.ComponentQuestion | aux_functions.py:151-153 | the live component question is the fixed header, a 44-space indent, the rendered component table, a line break and another 44-space indent, each at its stated position |
| Prompt.ComponentConversation | aux_functions.py:90-159 | the component request opens with the component system instruction, then the component example turns in order, and ends with the user turn asking about the sample's rendered component rows |
| Prompt.DiagnosticConversation | aux_functions.py:174-199 | the diagnostic request opens with the diagnostic system instruction, then the diagnostic example turns in order, and ends with the user turn carrying the prompt |
| Prompt.Assemble | aux_functions.py:75 | the prompt is the preamble, then the component block, a line break, the separator, and the value block, each at its stated position |
| Prompt.AssembleRoundTrip | aux_functions.py:75 | both blocks can be read back out of an assembled prompt given the component block's length |
| Prompt.AssembleContainsLiterals | aux_functions.py:75 | every assembled prompt contains "Analiza una muestra para el siguiente equipo:" and "Los valores de la muestra son:" lines |
| Prompt.LayoutDeterminesPrompt | aux_functions.py:75 | the layout (preamble at 0, component block, line break, separator, value block) determines the prompt text exactly |
| Prompt.GeneratePrompt | aux_functions.py:59-77 | the prompt is laid out as on line 75: preamble at offset 0, the service's component summary right after it, a line break, the separator, and the rendered labelled table ending the prompt; both blocks read back |
| Comment.GenerateComment | aux_functions.py:205-247 | no request and an empty prompt exactly when the sample has no values row; then the comment is the canned text; otherwise two requests in order, the first asks for the component summary, the prompt has the line-75 layout with that summary as component block and the sample's labelled table as value block, the second request carries the prompt, and the comment is its answer |
| Comment.GenerateCommentAsWritten | aux_functions.py:234 | the table loaded at import time, not the passed one, decides whether the service is asked and which rows the prompt lists |
| Comment.GenerateCommentForId | aux_functions.py:205 | called with the id only, the corrected and the as-written computations agree; the prompt is empty exactly when the loaded values table has no row for the id |
| Comment.AsWrittenIgnoresValuesArgument | aux_functions.py:234 | as written, the values table passed by the caller never changes the outcome |
| Comment.AsWrittenMissesPassedRows | aux_functions.py:232-244 | a passed table with an upper-critical row for the id, and an empty loaded table, give the canned comment as written but a two-request diagnostic when corrected |

## Left out

- The chat-completion calls and the extraction of the answer (aux_functions.py:156-161, 196-201) are foreign network calls. They are the `chat` parameter. Service failures are not modelled.
- The example exchanges and system instructions (aux_functions.py:91-148, 175-190) are static data. They are a `Config` parameter; only their number (nine and three) is stated.
- Loading the two CSV tables at import time (aux_functions.py:6-7) is file I/O. The result is the `LoadedTables` parameter.
- The exact text `DataFrame.to_string` produces (aux_functions.py:54, 152) is a library formatter. It is a parameter. The model states which rows it receives, not their layout.
- Missing limits (NaN) are not modelled. Every limit is a present `real`. In pandas only a comparison with a NaN operand is false, so each test on lines 21, 24, 27 and 30 would skip just its own missing limit (a missing lower-critical limit with a value at or above upper-critical still gives upper-critical); "No limit surpassed" would follow only for a missing value or when every limit the value reaches is missing.
- Floating point is modelled as `real`. The classifier only compares values.
- The component columns beyond the eight projected ones, and a missing column raising a key error, are not modelled. Component rows carry exactly the eight identity columns.
- The model is functional, so repeating a call trivially gives identical text. No separate idempotence lemma is stated.

## Findings

| source | as written | input that shows it | evidently intended | confidence | as-written member | corrected member |
|---|---|---|---|---|---|---|
| aux_functions.py:234 | the values rows are selected from the module-level table loaded at import, so the `df_values` argument is ignored | `generate_comment(1, df_values=T)` where `T` has an upper-critical row for sample 1 and the loaded table has none: the canned "all normal" comment and an empty prompt come back | select from the `df_values` argument, as `df_general` is used on line 232 | not executed; high | Comment.GenerateCommentAsWritten, Comment.AsWrittenMissesPassedRows | Comment.GenerateComment |
