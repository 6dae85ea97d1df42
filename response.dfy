/** Layer 4 of the pipeline: the spoken answer. An apology naming the
    symptoms when the search found nothing, otherwise the model's summary of
    the products; a fixed notice when anything in between raises. */
module Response {
  import opened Options
  import opened Text
  import opened Json
  import opened Completion
  import opened MedicineSearch

  /** The token limit of the formatting request. */
  const FormatTokens := 500

  const Advice := "healthcare professional"
  const ApologyLead := "I couldn't find specific " + "products for your symptoms of "
  const ApologyTail := ". Please consult with a " + Advice + " for medical advice."
  /** What the handler of any exception in the layer returns. */
  const FormattingIssueLead := "I found some products for " +
    "your symptoms, but I encountered an issue formatting the details. Please consult with a "
  const FormattingIssue := FormattingIssueLead + Advice + " for personalized advice."

  /** Python's ', '.join(symptoms): the symptoms joined when they are all
      strings; the TypeError of any other element is None. */
  function JoinSymptoms(symptoms: seq<Json>): (r: Option<string>)
    ensures r.Some? <==> AllStrings(symptoms)
  {
    if AllStrings(symptoms) then Some(Join(", ", Strings(symptoms))) else None
  }

  function Apology(joined: string): string {
    ApologyLead + joined + ApologyTail
  }

  /** Whether the search left nothing to present: an error, or no results. */
  predicate NothingFound(search: SearchOutcome) {
    !search.SearchSucceeded? || search.hits == []
  }

  /** extract_medicine_details_and_format_response: the apology when nothing
      was found, otherwise the model's stripped reply to a prompt that joins
      the symptoms; the formatting notice when a join raises or the model
      fails. */
  function FormatResponse(search: SearchOutcome, symptoms: seq<Json>, model: Backend): string {
    if NothingFound(search) then
      match JoinSymptoms(symptoms)
      case None => FormattingIssue
      case Some(joined) => Apology(joined)
    else
      match JoinSymptoms(symptoms)
      case None => FormattingIssue
      case Some(_) =>
        match ChatCompletion(model, FormatTokens)
        case Raised(_) => FormattingIssue
        case Returned(reply) => Strip(reply)
  }

  // ----------------------------------------------------------- properties

  /** The apology quotes what the joined symptoms contain. */
  lemma ApologyQuotes(joined: string, needle: string)
    requires Contains(joined, needle)
    ensures Contains(Apology(joined), needle)
  {
    ContainsEnd(ApologyLead, joined);
    ContainsWithin(ApologyLead + joined, joined, needle);
    ContainsLeft(ApologyLead + joined, ApologyTail, needle);
  }

  /** The apology recommends a healthcare professional. */
  lemma ApologyAdvises(joined: string)
    ensures Contains(Apology(joined), Advice)
  {
    ContainsInfix(". Please consult with a ", Advice, " for medical advice.");
    ContainsRight(ApologyLead + joined, ApologyTail, Advice);
  }

  /** The apology names every symptom and recommends a healthcare professional. */
  lemma ApologyNamesSymptoms(symptoms: seq<string>)
    ensures forall k :: 0 <= k < |symptoms| ==> Contains(Apology(Join(", ", symptoms)), symptoms[k])
    ensures Contains(Apology(Join(", ", symptoms)), Advice)
  {
    var joined := Join(", ", symptoms);
    forall k | 0 <= k < |symptoms| ensures Contains(Apology(joined), symptoms[k]) {
      JoinContainsPart(", ", symptoms, k);
      ApologyQuotes(joined, symptoms[k]);
    }
    ApologyAdvises(joined);
  }

  /** The formatting notice recommends a healthcare professional too. */
  lemma FormattingIssueAdvises()
    ensures Contains(FormattingIssue, Advice)
  {
    ContainsInfix(FormattingIssueLead, Advice, " for personalized advice.");
  }

  /** When nothing was found the model is not asked: the answer is the apology
      for string symptoms and the formatting notice otherwise. */
  lemma NothingFoundAnswer(search: SearchOutcome, symptoms: seq<Json>, model: Backend, other: Backend)
    requires NothingFound(search)
    ensures FormatResponse(search, symptoms, model) ==
      if AllStrings(symptoms) then Apology(Join(", ", Strings(symptoms))) else FormattingIssue
    ensures FormatResponse(search, symptoms, model) == FormatResponse(search, symptoms, other)
  {
  }

  /** A symptom that is not a string makes the layer answer with the notice,
      whatever the search found and the model says. */
  lemma NonStringSymptomAnswer(search: SearchOutcome, symptoms: seq<Json>, model: Backend)
    requires !AllStrings(symptoms)
    ensures FormatResponse(search, symptoms, model) == FormattingIssue
  {
  }

  /** With products found and string symptoms, the answer is the model's
      stripped reply, or the notice when every attempt failed. */
  lemma FoundAnswer(search: SearchOutcome, symptoms: seq<Json>, model: Backend)
    requires !NothingFound(search) && AllStrings(symptoms)
    ensures ChatCompletion(model, FormatTokens).Returned? ==>
      FormatResponse(search, symptoms, model) == Strip(ChatCompletion(model, FormatTokens).value)
    ensures ChatCompletion(model, FormatTokens).Raised? ==> FormatResponse(search, symptoms, model) == FormattingIssue
  {
  }

  /** Every answer is already stripped of surrounding whitespace. */
  lemma FormatResponseStripped(search: SearchOutcome, symptoms: seq<Json>, model: Backend)
    ensures Strip(FormatResponse(search, symptoms, model)) == FormatResponse(search, symptoms, model)
  {
    var r := FormatResponse(search, symptoms, model);
    if r == FormattingIssue {
      assert FormattingIssue[0] == FormattingIssueLead[0] == 'I';
      assert FormattingIssue[|FormattingIssue| - 1] == '.';
      StripTrimmed(r);
    } else if NothingFound(search) {
      var joined := Join(", ", Strings(symptoms));
      assert r == ApologyLead + joined + ApologyTail;
      assert r[0] == ApologyLead[0] == 'I';
      assert r[|r| - 1] == ApologyTail[|ApologyTail| - 1] == '.';
      StripTrimmed(r);
    } else {
      StripIdempotent(ChatCompletion(model, FormatTokens).value);
    }
  }
}
