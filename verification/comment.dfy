/**
 The comment generator: the entry point that turns a sample id into a
 diagnostic comment.

 The values rows of the sample are selected; when there are none the canned
 "everything normal" comment is returned with an empty prompt and the service
 is never called. Otherwise the service is asked twice, chained: first for a
 component summary, which goes into the diagnostic prompt, then for the comment
 on that prompt. The outcome records the requests sent, in order.

 The Python module filters the values table it loaded when the module was imported
 rather than the table passed as an argument. `GenerateCommentAsWritten` keeps
 that behaviour; `GenerateComment` filters the argument, and the entry point
 with default arguments, `GenerateCommentForId`, uses it (the two agree there).
 */
module Comment {
  import opened Classifier
  import opened ValueTable
  import opened Tables
  import opened Prompt

  /** The tables loaded once when the module is imported: the component
      catalog and the values table. */
  datatype LoadedTables = LoadedTables(
    components: seq<Keyed<ComponentRecord>>,
    values: seq<Keyed<Measurement>>)

  /** What a call returns (comment and prompt) together with the requests it
      sent to the service, in the order sent. */
  datatype Outcome = Outcome(comment: string, prompt: string, requests: seq<seq<Turn>>)

  /** The comment given when the sample has no measurement rows. */
  const NormalComment: string :=
    "Niveles de desgaste junto a contaminación externa dentro de los límites permisibles para el servicio.\n"
    + "Grado de viscocidad y degradación normal de lubricante.\n"
    + "Continuar con monitoreo de lubricante y componente según plan de mantenimiento."

  /** The comment for sample `id`, selecting from the tables it is given. */
  function GenerateComment(svc: Services, cfg: Config, id: int,
                           general: seq<Keyed<ComponentRecord>>,
                           values: seq<Keyed<Measurement>>): (o: Outcome)
    // no request at all exactly when the values table has no row for the id
    ensures o.requests == [] <==> !HasSample(values, id)
    ensures o.prompt == "" <==> !HasSample(values, id)
    // the empty selection gives the canned comment and an empty prompt
    ensures !HasSample(values, id) ==> o.comment == NormalComment
    // otherwise two chained requests: the component summary goes into the
    // prompt, and the comment is the answer to the prompt
    ensures HasSample(values, id) ==>
      && |o.requests| == 2
      && o.requests[0] == ComponentConversation(svc, cfg, Select(general, id))
      && o.requests[1] == DiagnosticConversation(cfg, o.prompt)
      && o.comment == svc.chat(o.requests[1])
      && PromptLayout(o.prompt, svc.chat(o.requests[0]), ValuePrompt(svc.renderValues, Select(values, id)))
      && ComponentBlock(o.prompt, |svc.chat(o.requests[0])|) == svc.chat(o.requests[0])
      && ValueBlock(o.prompt, |svc.chat(o.requests[0])|) == ValuePrompt(svc.renderValues, Select(values, id))
      && Contains(o.prompt, Preamble) && Contains(o.prompt, Separator)
  {
    var gen := Select(general, id);
    var val := Select(values, id);
    if |val| == 0 then
      Outcome(NormalComment, "", [])
    else
      var prompt := GeneratePrompt(svc, cfg, gen, val);
      Outcome(ExecutePrompt(svc, cfg, prompt), prompt,
              [ComponentConversation(svc, cfg, gen), DiagnosticConversation(cfg, prompt)])
  }

  /** The comment as the Python module computes it: the values rows are selected from
      the table loaded at import time, whatever table the caller passes. */
  function GenerateCommentAsWritten(loaded: LoadedTables, svc: Services, cfg: Config, id: int,
                                    general: seq<Keyed<ComponentRecord>>,
                                    values: seq<Keyed<Measurement>>): (o: Outcome)
    // the loaded table, not the passed one, decides whether the service is asked
    ensures o.requests == [] <==> !HasSample(loaded.values, id)
    ensures !HasSample(loaded.values, id) ==> o == Outcome(NormalComment, "", [])
    ensures HasSample(loaded.values, id) ==>
      && |o.requests| == 2
      && |o.prompt| == |Preamble| + |svc.chat(o.requests[0])| + 1 + |Separator| + |ValuePrompt(svc.renderValues, Select(loaded.values, id))|
      && ValueBlock(o.prompt, |svc.chat(o.requests[0])|) == ValuePrompt(svc.renderValues, Select(loaded.values, id))
  {
    GenerateComment(svc, cfg, id, general, loaded.values)
  }

  /** The entry point called with the sample id only: both tables default to the
      ones loaded at import time. */
  function GenerateCommentForId(loaded: LoadedTables, svc: Services, cfg: Config, id: int): (o: Outcome)
    ensures o == GenerateCommentAsWritten(loaded, svc, cfg, id, loaded.components, loaded.values)
    ensures o.prompt == "" <==> !HasSample(loaded.values, id)
  {
    GenerateComment(svc, cfg, id, loaded.components, loaded.values)
  }

  /** As written, the values table passed by the caller never influences the outcome. */
  lemma AsWrittenIgnoresValuesArgument(loaded: LoadedTables, svc: Services, cfg: Config, id: int,
                                       general: seq<Keyed<ComponentRecord>>,
                                       v1: seq<Keyed<Measurement>>, v2: seq<Keyed<Measurement>>)
    ensures GenerateCommentAsWritten(loaded, svc, cfg, id, general, v1)
         == GenerateCommentAsWritten(loaded, svc, cfg, id, general, v2)
  {
  }

  /** A call that passes its own values table shows the difference: the loaded
      table has no rows, the passed table has a row for sample 1, and the
      module answers with the canned comment while the passed row surpasses a limit. */
  lemma AsWrittenMissesPassedRows()
    ensures var svc := Services(c => "comentario", t => "tabla", g => "equipo");
            var cfg := Config(FewShot("", []), FewShot("", []));
            var passed := [Keyed(1, Measurement("Cobre", 267.7, 0.0, 15.0, 0.0, 10.0))];
            && FindLimitSurpassed(passed[0].row).kind == UpperCritical
            && GenerateCommentAsWritten(LoadedTables([], []), svc, cfg, 1, [], passed)
               == Outcome(NormalComment, "", [])
            && GenerateComment(svc, cfg, 1, [], passed).prompt != ""
            && |GenerateComment(svc, cfg, 1, [], passed).requests| == 2
  {
    var passed := [Keyed(1, Measurement("Cobre", 267.7, 0.0, 15.0, 0.0, 10.0))];
    assert HasSample(passed, 1) by {
      assert passed[0].idSample == 1;
    }
  }
}
