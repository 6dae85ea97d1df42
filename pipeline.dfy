/** The orchestrator: process_conversation runs the four layers in order and
    stops at the first one that leaves nothing to go on; the voice entry point
    turns its result into the sentence the assistant speaks. */
module Pipeline {
  import opened Options
  import opened Seqs
  import opened Text
  import opened Json
  import opened Completion
  import opened Extraction
  import opened Recommendation
  import opened Products
  import opened MedicineSearch
  import opened Response

  /** Everything outside the program: what the model answers to each layer's
      request, the JSON parser, and the product search. */
  datatype Env = Env(
    extractModel: Backend,
    recommendModel: Backend,
    formatModel: Backend,
    parse: string -> Parsed,
    api: Json -> Fetch)

  const ExtractionStep := "symptom_extraction"
  const RecommendationStep := "medicine_recommendation"
  const SearchStep := "amazon_search"
  const FormattingStep := "response_formatting"
  const AllSteps := [ExtractionStep, RecommendationStep, SearchStep, FormattingStep]

  const NoSymptomsMessage := "No symptoms could be extracted from the conversation"
  const NoMedicinesMessage := "No medicines could be recommended for the symptoms"
  const PipelineFailedLead := "Pipeline failed: "
  const SorryLead := "I'm sorry, but I couldn't process your symptoms. "

  /** The dict process_conversation returns, one constructor per exit. */
  datatype PipelineResult =
    | NoSymptoms(conversation: string)
    | NoMedicines(conversation: string, symptoms: map<string, Json>)
    | Completed(conversation: string, symptoms: map<string, Json>, medicines: seq<Json>,
                search: SearchOutcome, naturalResponse: string)
    | PipelineFailed(conversation: string, error: string)
  {
    function Status(): string {
      if Completed? then "success" else "error"
    }

    /** The `message` of an error result; a success has none. */
    function Message(): Option<string> {
      match this
      case NoSymptoms(_) => Some(NoSymptomsMessage)
      case NoMedicines(_, _) => Some(NoMedicinesMessage)
      case PipelineFailed(_, error) => Some(PipelineFailedLead + error)
      case Completed(_, _, _, _, _) => None
    }

    /** The `pipeline_steps` that ran to completion. */
    function PipelineSteps(): seq<string> {
      match this
      case NoSymptoms(_) => [ExtractionStep]
      case NoMedicines(_, _) => [ExtractionStep, RecommendationStep]
      case PipelineFailed(_, _) => []
      case Completed(_, _, _, _, _) => AllSteps
    }
  }

  /** The symptoms list of the layer-1 record. */
  function SymptomsOf(conversation: string, env: Env): seq<Json> {
    ExtractedNormalForm(conversation, env.extractModel, env.parse);
    ExtractSymptoms(conversation, env.extractModel, env.parse)[SymptomsKey].elems
  }

  /** process_conversation: extract; stop when no symptoms came out;
      recommend; stop when no medicine came out; search; format. The only
      exception that reaches its handler is the TypeError of a symptom the
      medicine table cannot be indexed with. */
  function ProcessConversation(conversation: string, maxResults: int, env: Env): PipelineResult {
    var record := ExtractSymptoms(conversation, env.extractModel, env.parse);
    var symptoms := SymptomsOf(conversation, env);
    if symptoms == [] then NoSymptoms(conversation)
    else
      match RecommendMedicines(symptoms, env.recommendModel, env.parse)
      case Raised(e) => PipelineFailed(conversation, e)
      case Returned(medicines) =>
        if medicines == [] then NoMedicines(conversation, record)
        else
          var search := Searched(medicines, env.api, maxResults);
          Completed(conversation, record, medicines, search, FormatResponse(search, symptoms, env.formatModel))
  }

  /** The voice_response process_symptom_conversation adds: the natural
      response of a success, an apology quoting the message otherwise. */
  function VoiceResponse(result: PipelineResult): string {
    match result.Message()
    case None => result.naturalResponse
    case Some(message) => SorryLead + message
  }

  // ----------------------------------------------------------- properties

  /** The steps reported are the layers that ran, in order: a prefix of the
      four, all four exactly on success, none when the handler caught an
      exception; exactly the error results carry a message. */
  lemma StepsAreCompletedLayers(r: PipelineResult)
    ensures |r.PipelineSteps()| <= |AllSteps| && AllSteps[..|r.PipelineSteps()|] == r.PipelineSteps()
    ensures r.Status() == "success" <==> r.PipelineSteps() == AllSteps
    ensures r.PipelineSteps() == [] <==> r.PipelineFailed?
    ensures r.Status() == "success" <==> r.Message() == None
  {
    assert AllSteps[..1] == [ExtractionStep];
    assert AllSteps[..2] == [ExtractionStep, RecommendationStep];
    assert AllSteps[..0] == [];
    assert "success"[0] == 's' && "error"[0] == 'e';
  }

  /** No symptoms stop the pipeline after layer 1, before any later layer's
      backend is used. */
  lemma NoSymptomsStopsEarly(conversation: string, maxResults: int, env: Env, other: Env)
    requires SymptomsOf(conversation, env) == []
    requires other.extractModel == env.extractModel && other.parse == env.parse
    ensures ProcessConversation(conversation, maxResults, env) == NoSymptoms(conversation)
    ensures ProcessConversation(conversation, maxResults, other) == NoSymptoms(conversation)
  {
  }

  /** Symptoms for which layer 2 returns no medicine stop the pipeline after
      two steps, with the layer-1 record and before any search. */
  lemma NoMedicinesStopsEarly(conversation: string, maxResults: int, env: Env)
    requires SymptomsOf(conversation, env) != []
    requires RecommendMedicines(SymptomsOf(conversation, env), env.recommendModel, env.parse) == Returned([])
    ensures var r := ProcessConversation(conversation, maxResults, env);
      && r == NoMedicines(conversation, ExtractSymptoms(conversation, env.extractModel, env.parse))
      && r.PipelineSteps() == [ExtractionStep, RecommendationStep]
      && r.Message() == Some(NoMedicinesMessage)
  {
  }

  /** A symptom that cannot index the medicine table (a list or an object)
      makes the whole pipeline fail with the TypeError of the first one. */
  lemma UnhashableSymptomFails(conversation: string, maxResults: int, env: Env)
    requires !AllHashable(SymptomsOf(conversation, env))
    ensures var symptoms := SymptomsOf(conversation, env);
      ProcessConversation(conversation, maxResults, env) ==
        PipelineFailed(conversation, UnhashableError(symptoms[FirstUnhashable(symptoms)]))
  {
    RecommendUnhashableError(SymptomsOf(conversation, env), env.recommendModel, env.parse);
  }

  /** The pipeline fails only for such a symptom: otherwise it ends at one of
      the three other exits. */
  lemma FailsOnlyForUnhashable(conversation: string, maxResults: int, env: Env)
    ensures ProcessConversation(conversation, maxResults, env).PipelineFailed? <==>
      !AllHashable(SymptomsOf(conversation, env))
  {
    RecommendRaisesIffUnhashable(SymptomsOf(conversation, env), env.recommendModel, env.parse);
  }

  /** A failing product search does not fail the pipeline: it still succeeds,
      with the layer-4 answer for nothing found. */
  lemma SearchFailureStillSucceeds(conversation: string, maxResults: int, env: Env)
    requires ProcessConversation(conversation, maxResults, env).Completed?
    requires !AllFetched(ProcessConversation(conversation, maxResults, env).medicines, env.api)
    ensures var r := ProcessConversation(conversation, maxResults, env);
      && r.Status() == "success"
      && r.search.SearchFailed?
      && r.naturalResponse == (if AllStrings(SymptomsOf(conversation, env))
                               then Apology(Join(", ", Strings(SymptomsOf(conversation, env))))
                               else FormattingIssue)
  {
    var r := ProcessConversation(conversation, maxResults, env);
    NothingFoundAnswer(r.search, SymptomsOf(conversation, env), env.formatModel, env.formatModel);
  }

  /** The voice response of a success is its natural response; that of an
      error starts with the apology and ends with the error's message. */
  lemma VoiceResponseSpec(r: PipelineResult)
    ensures r.Completed? ==> VoiceResponse(r) == r.naturalResponse
    ensures !r.Completed? ==> StartsWith(VoiceResponse(r), SorryLead) && EndsWith(VoiceResponse(r), r.Message().value)
  {
    if !r.Completed? {
      var v := SorryLead + r.Message().value;
      assert v[..|SorryLead|] == SorryLead;
      assert v[|v| - |r.Message().value|..] == r.Message().value;
    }
  }

  /** A success holds the search of the recommended medicines and layer 4's
      answer for it. */
  lemma CompletedRun(conversation: string, maxResults: int, env: Env)
    requires ProcessConversation(conversation, maxResults, env).Completed?
    ensures var r := ProcessConversation(conversation, maxResults, env);
      && r.medicines != []
      && r.search == Searched(r.medicines, env.api, maxResults)
      && r.naturalResponse == FormatResponse(r.search, SymptomsOf(conversation, env), env.formatModel)
  {
  }

  /** What a successful run speaks is already stripped of surrounding whitespace. */
  lemma SpokenAnswerStripped(conversation: string, maxResults: int, env: Env)
    requires ProcessConversation(conversation, maxResults, env).Completed?
    ensures var r := ProcessConversation(conversation, maxResults, env);
      Strip(VoiceResponse(r)) == VoiceResponse(r)
  {
    var r := ProcessConversation(conversation, maxResults, env);
    CompletedRun(conversation, maxResults, env);
    FormatResponseStripped(r.search, SymptomsOf(conversation, env), env.formatModel);
    VoiceResponseSpec(r);
  }

  /** With the extraction request failing, "I have a headache and fever"
      gives the keyword symptoms. */
  lemma HeadacheFeverOfflineSymptoms(conversation: string, env: Env)
    requires conversation == "I have a headache and fever"
    requires ChatCompletion(env.extractModel, 300).Raised?
    ensures SymptomsOf(conversation, env) == [JStr("headache"), JStr("fever")]
  {
    ExtractedWhenModelFails(conversation, env.extractModel, env.parse);
    HeadacheFeverSymptoms(conversation);
  }

  /** With every model request failing, "I have a headache and fever" still
      reaches the search, with the table's medicines for both symptoms. */
  lemma HeadacheFeverOffline(conversation: string, maxResults: int, env: Env)
    requires conversation == "I have a headache and fever"
    requires ChatCompletion(env.extractModel, 300).Raised? && ChatCompletion(env.recommendModel, 200).Raised?
    ensures var r := ProcessConversation(conversation, maxResults, env);
      && r.Completed?
      && r.medicines == [JStr("acetaminophen"), JStr("ibuprofen"), JStr("aspirin")]
  {
    HeadacheFeverOfflineSymptoms(conversation, env);
    HeadacheFeverRecommended(SymptomsOf(conversation, env), env.recommendModel, env.parse);
  }
}
