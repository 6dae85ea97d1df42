/** Layer 2 of the pipeline: medicine names for the extracted symptoms, from
    the model's reply when it is a JSON list and otherwise from a fixed table. */
module Recommendation {
  import opened Options
  import opened Seqs
  import opened Json
  import opened Completion

  // ------------------------------------------------------ medicine fallback

  /** The fallback's table from symptom to medicines. */
  const MedicineTable: map<string, seq<string>> := map[
    "headache" := ["acetaminophen", "ibuprofen", "aspirin"],
    "fever" := ["acetaminophen", "ibuprofen"],
    "sore throat" := ["throat lozenges", "acetaminophen", "ibuprofen"],
    "cough" := ["dextromethorphan", "guaifenesin", "cough syrup"],
    "fatigue" := ["caffeine", "vitamin b12"],
    "body aches" := ["ibuprofen", "acetaminophen"],
    "nausea" := ["pepto-bismol", "ginger"],
    "congestion" := ["pseudoephedrine", "saline nasal spray"],
    "runny nose" := ["antihistamines", "saline nasal spray"],
    "sneezing" := ["antihistamines", "cetirizine"],
    "itchy eyes" := ["antihistamine eye drops", "cetirizine"],
    "back pain" := ["ibuprofen", "acetaminophen", "topical analgesics"],
    "stomach pain" := ["pepto-bismol", "antacids"],
    "insomnia" := ["diphenhydramine", "melatonin"],
    "anxiety" := ["valerian root", "chamomile"],
    "stress" := ["b vitamins", "magnesium"],
    "allergies" := ["cetirizine", "loratadine", "diphenhydramine"]
  ]

  /** A symptom a table knows: a string that is one of its keys. */
  predicate Known(table: map<string, seq<string>>, symptom: Json) {
    symptom.JStr? && symptom.str in table
  }

  /** What one symptom adds to the list: its table entry, or nothing. */
  function MedicinesFor(table: map<string, seq<string>>, symptom: Json): (ms: seq<string>)
    ensures !Known(table, symptom) ==> ms == []
  {
    if Known(table, symptom) then table[symptom.str] else []
  }

  /** The entries of the symptoms, concatenated in the symptoms' order (the
      `extend` loop). */
  function Concatenated(table: map<string, seq<string>>, symptoms: seq<Json>): seq<string> {
    if symptoms == [] then []
    else Concatenated(table, symptoms[..|symptoms| - 1]) + MedicinesFor(table, symptoms[|symptoms| - 1])
  }

  predicate AllHashable(symptoms: seq<Json>) {
    forall i :: 0 <= i < |symptoms| ==> Hashable(symptoms[i])
  }

  /** Where the `in medicine_mappings` test first meets a list or a dict. */
  function FirstUnhashable(symptoms: seq<Json>): (i: nat)
    requires !AllHashable(symptoms)
    ensures i < |symptoms| && !Hashable(symptoms[i])
    ensures forall k :: 0 <= k < i ==> Hashable(symptoms[k])
  {
    if !Hashable(symptoms[0]) then 0
    else 1 + FirstUnhashable(symptoms[1..])
  }

  /** The message of the TypeError raised on looking up an unhashable value. */
  function UnhashableError(v: Json): string {
    "unhashable type: '" + TypeName(v) + "'"
  }

  /** The fallback over a table: the entries of the symptoms, concatenated
      and without duplicates; or the TypeError of the first symptom that
      cannot be looked up. */
  function Lookup(table: map<string, seq<string>>, symptoms: seq<Json>): Fallible<seq<string>> {
    if AllHashable(symptoms) then Returned(Dedup(Concatenated(table, symptoms)))
    else Raised(UnhashableError(symptoms[FirstUnhashable(symptoms)]))
  }

  /** _recommend_medicines_fallback */
  function MedicineFallback(symptoms: seq<Json>): Fallible<seq<string>> {
    Lookup(MedicineTable, symptoms)
  }

  lemma ConcatenatedStep(table: map<string, seq<string>>, symptoms: seq<Json>, i: nat)
    requires i < |symptoms|
    ensures Concatenated(table, symptoms[..i + 1]) ==
      Concatenated(table, symptoms[..i]) + MedicinesFor(table, symptoms[i])
  {
    assert symptoms[..i + 1][..i] == symptoms[..i];
  }

  /** The two loops of the fallback over a table: `extend` with each known
      symptom's entry, then keep each medicine the first time it is seen. */
  method LookupAll(table: map<string, seq<string>>, symptoms: seq<Json>) returns (r: Fallible<seq<string>>)
    ensures r == Lookup(table, symptoms)
  {
    var recommended: seq<string> := [];
    for i := 0 to |symptoms|
      invariant forall k :: 0 <= k < i ==> Hashable(symptoms[k])
      invariant recommended == Concatenated(table, symptoms[..i])
    {
      var symptom := symptoms[i];
      if !Hashable(symptom) {
        return Raised(UnhashableError(symptom));
      }
      ConcatenatedStep(table, symptoms, i);
      if symptom.JStr? && symptom.str in table {
        recommended := recommended + table[symptom.str];
      }
    }
    WholeSlice(symptoms);
    var unique := KeepFirst(recommended);
    r := Returned(unique);
  }

  /** The `seen` loop: each medicine kept the first time it is seen. */
  method KeepFirst(recommended: seq<string>) returns (unique: seq<string>)
    ensures unique == Dedup(recommended)
  {
    var seen: set<string> := {};
    unique := [];
    for i := 0 to |recommended|
      invariant unique == Dedup(recommended[..i])
      invariant forall m :: m in seen <==> m in unique
    {
      var medicine := recommended[i];
      DedupAppend(recommended[..i], medicine);
      assert recommended[..i + 1] == recommended[..i] + [medicine];
      if medicine !in seen {
        seen := seen + {medicine};
        unique := unique + [medicine];
      }
    }
    WholeSlice(recommended);
  }

  /** _recommend_medicines_fallback, on the source's table. */
  method RecommendMedicinesFallback(symptoms: seq<Json>) returns (r: Fallible<seq<string>>)
    ensures r == MedicineFallback(symptoms)
  {
    r := LookupAll(MedicineTable, symptoms);
  }

  lemma {:induction false} ConcatenatedAppend(table: map<string, seq<string>>, a: seq<Json>, b: seq<Json>)
    ensures Concatenated(table, a + b) == Concatenated(table, a) + Concatenated(table, b)
    decreases |b|
  {
    if b != [] {
      var init := b[..|b| - 1];
      ConcatenatedAppend(table, a, init);
      assert (a + b)[..|a + b| - 1] == a + init;
    } else {
      assert a + b == a;
    }
  }

  /** A medicine is in the concatenation exactly when some symptom's entry
      lists it. */
  lemma {:induction false} ConcatenatedMembers(table: map<string, seq<string>>, symptoms: seq<Json>, m: string)
    ensures m in Concatenated(table, symptoms) <==>
      exists i :: 0 <= i < |symptoms| && m in MedicinesFor(table, symptoms[i])
  {
    if symptoms != [] {
      var init := symptoms[..|symptoms| - 1];
      ConcatenatedMembers(table, init, m);
      if exists i :: 0 <= i < |symptoms| && m in MedicinesFor(table, symptoms[i]) {
        var i :| 0 <= i < |symptoms| && m in MedicinesFor(table, symptoms[i]);
        if i < |init| {
          assert init[i] == symptoms[i];
        }
      }
      if m in Concatenated(table, init) {
        var i :| 0 <= i < |init| && m in MedicinesFor(table, init[i]);
        assert init[i] == symptoms[i];
      }
    }
  }

  /** The fallback's list, for symptoms it can look up: each medicine of their
      entries exactly once, in the order of first mention in the
      concatenation. */
  lemma LookupSpec(table: map<string, seq<string>>, symptoms: seq<Json>)
    requires AllHashable(symptoms)
    ensures Lookup(table, symptoms).Returned?
    ensures NoDuplicates(Lookup(table, symptoms).value)
    ensures forall m :: m in Lookup(table, symptoms).value <==>
      exists i :: 0 <= i < |symptoms| && m in MedicinesFor(table, symptoms[i])
    ensures FirstOccurrenceOrder(Concatenated(table, symptoms), Lookup(table, symptoms).value)
  {
    DedupSpec(Concatenated(table, symptoms));
    forall m {
      ConcatenatedMembers(table, symptoms, m);
    }
  }

  /** A hashable symptom the table does not know changes nothing, wherever it
      stands. */
  lemma LookupIgnoresUnknown(table: map<string, seq<string>>, before: seq<Json>, symptom: Json, after: seq<Json>)
    requires Hashable(symptom) && !Known(table, symptom)
    ensures Lookup(table, before + [symptom] + after) == Lookup(table, before + after)
  {
    ConcatenatedSkipsUnknown(table, before, symptom, after);
    AllHashableSkip(before, symptom, after);
    if !AllHashable(before + after) {
      FirstUnhashableSkip(before, symptom, after);
    }
  }

  lemma ConcatenatedSkipsUnknown(table: map<string, seq<string>>, before: seq<Json>, symptom: Json, after: seq<Json>)
    requires !Known(table, symptom)
    ensures Concatenated(table, before + [symptom] + after) == Concatenated(table, before + after)
  {
    ConcatenatedAppend(table, before + [symptom], after);
    ConcatenatedAppend(table, before, [symptom]);
    ConcatenatedAppend(table, before, after);
    assert [symptom][..0] == [];
    assert Concatenated(table, [symptom]) == [];
  }

  lemma AllHashableSkip(before: seq<Json>, symptom: Json, after: seq<Json>)
    requires Hashable(symptom)
    ensures AllHashable(before + [symptom] + after) <==> AllHashable(before + after)
  {
    var all, rest := before + [symptom] + after, before + after;
    if AllHashable(rest) {
      forall k | 0 <= k < |all| ensures Hashable(all[k]) {
        if k < |before| {
          assert all[k] == rest[k];
        } else if k > |before| {
          assert all[k] == rest[k - 1];
        } else {
          assert all[k] == symptom;
        }
      }
    }
    if AllHashable(all) {
      forall k | 0 <= k < |rest| ensures Hashable(rest[k]) {
        if k < |before| {
          assert all[k] == rest[k];
        } else {
          assert all[k + 1] == rest[k];
        }
      }
    }
  }

  lemma FirstUnhashableSkip(before: seq<Json>, symptom: Json, after: seq<Json>)
    requires Hashable(symptom) && !AllHashable(before + after)
    ensures !AllHashable(before + [symptom] + after)
    ensures var all, rest := before + [symptom] + after, before + after;
      all[FirstUnhashable(all)] == rest[FirstUnhashable(rest)]
  {
    var all, rest := before + [symptom] + after, before + after;
    var i := FirstUnhashable(rest);
    var j := if i < |before| then i else i + 1;
    assert all[j] == rest[i];
    forall k | 0 <= k < j ensures Hashable(all[k]) {
      if k < |before| {
        assert all[k] == rest[k];
      } else if k > |before| {
        assert all[k] == rest[k - 1];
      }
    }
    var f := FirstUnhashable(all);
    assert f == j;
  }

  /** For the source's table: the fallback's list holds each medicine of the
      symptoms' entries once, in first-mention order, and raises only on a
      list or a dict among the symptoms. */
  lemma MedicineFallbackSpec(symptoms: seq<Json>)
    ensures MedicineFallback(symptoms).Raised? <==> !AllHashable(symptoms)
    ensures AllHashable(symptoms) ==>
      && NoDuplicates(MedicineFallback(symptoms).value)
      && (forall m :: m in MedicineFallback(symptoms).value <==>
            exists i :: 0 <= i < |symptoms| && m in MedicinesFor(MedicineTable, symptoms[i]))
      && FirstOccurrenceOrder(Concatenated(MedicineTable, symptoms), MedicineFallback(symptoms).value)
  {
    if AllHashable(symptoms) {
      LookupSpec(MedicineTable, symptoms);
    }
  }

  /** Headache and fever give the headache entry: the fever entry adds
      nothing new. */
  lemma HeadacheFeverMedicines(symptoms: seq<Json>)
    requires symptoms == [JStr("headache"), JStr("fever")]
    ensures MedicineFallback(symptoms) == Returned(["acetaminophen", "ibuprofen", "aspirin"])
  {
    HeadacheFeverConcatenated(symptoms);
    HeadacheFeverDeduplicated();
  }

  lemma HeadacheFeverConcatenated(symptoms: seq<Json>)
    requires symptoms == [JStr("headache"), JStr("fever")]
    ensures Concatenated(MedicineTable, symptoms) ==
      ["acetaminophen", "ibuprofen", "aspirin"] + ["acetaminophen", "ibuprofen"]
  {
    HeadacheEntry();
    FeverEntry();
    ConcatenatedStep(MedicineTable, symptoms, 0);
    ConcatenatedStep(MedicineTable, symptoms, 1);
    WholeSlice(symptoms);
    assert symptoms[..0] == [];
  }

  lemma HeadacheFeverDeduplicated()
    ensures Dedup(["acetaminophen", "ibuprofen", "aspirin"] + ["acetaminophen", "ibuprofen"]) ==
      ["acetaminophen", "ibuprofen", "aspirin"]
  {
    DedupRepeatedPrefix("acetaminophen", "ibuprofen", "aspirin");
  }

  lemma HeadacheEntry()
    ensures MedicinesFor(MedicineTable, JStr("headache")) == ["acetaminophen", "ibuprofen", "aspirin"]
  {
  }

  lemma FeverEntry()
    ensures MedicinesFor(MedicineTable, JStr("fever")) == ["acetaminophen", "ibuprofen"]
  {
  }

  // --------------------------------------------------------------- layer 2

  /** What the fallback returns, as the list of JSON strings the layer gives. */
  function AsJson(r: Fallible<seq<string>>): Fallible<seq<Json>> {
    match r
    case Returned(ms) => Returned(FromStrings(ms))
    case Raised(e) => Raised(e)
  }

  /** recommend_medicines_from_symptoms, given the record's `symptoms` list:
      nothing for no symptoms; the fallback when the prompt cannot be built
      (a symptom that is not a string makes the join raise), when the model
      fails or when its cleaned reply is not a JSON list; otherwise that list,
      as it is. */
  function RecommendMedicines(symptoms: seq<Json>, model: Backend, parse: string -> Parsed): Fallible<seq<Json>> {
    if symptoms == [] then Returned([])
    else if !AllStrings(symptoms) then AsJson(MedicineFallback(symptoms))
    else
      match ChatCompletion(model, 200)
      case Raised(_) => AsJson(MedicineFallback(symptoms))
      case Returned(reply) =>
        match parse(CleanReply(reply))
        case Parsed(JArr(medicines)) => Returned(medicines)
        case _ => AsJson(MedicineFallback(symptoms))
  }

  /** No symptoms give no medicines, whatever the model and the parser. */
  lemma RecommendNothingForNoSymptoms(model: Backend, parse: string -> Parsed, other: Backend, otherParse: string -> Parsed)
    ensures RecommendMedicines([], model, parse) == Returned([])
    ensures RecommendMedicines([], model, parse) == RecommendMedicines([], other, otherParse)
  {
  }

  /** A list the model returns is passed on unchanged: not deduplicated, not
      checked to hold strings. */
  lemma RecommendModelList(symptoms: seq<Json>, model: Backend, parse: string -> Parsed)
    requires symptoms != [] && AllStrings(symptoms)
    requires ChatCompletion(model, 200).Returned?
    requires parse(CleanReply(ChatCompletion(model, 200).value)).Parsed?
    requires parse(CleanReply(ChatCompletion(model, 200).value)).value.JArr?
    ensures RecommendMedicines(symptoms, model, parse) ==
      Returned(parse(CleanReply(ChatCompletion(model, 200).value)).value.elems)
  {
  }

  /** In every other case the answer is the fallback table's. */
  lemma RecommendFallsBack(symptoms: seq<Json>, model: Backend, parse: string -> Parsed)
    requires symptoms != []
    requires !AllStrings(symptoms) || ChatCompletion(model, 200).Raised? ||
      var p := parse(CleanReply(ChatCompletion(model, 200).value));
      !(p.Parsed? && p.value.JArr?)
    ensures RecommendMedicines(symptoms, model, parse) == AsJson(MedicineFallback(symptoms))
  {
  }

  lemma AllStringsHashable(symptoms: seq<Json>)
    ensures AllStrings(symptoms) ==> AllHashable(symptoms)
  {
  }

  /** The layer raises exactly when there are symptoms and one of them is a
      list or a dict: the fallback is then reached and fails on the lookup. */
  lemma RecommendRaisesIffUnhashable(symptoms: seq<Json>, model: Backend, parse: string -> Parsed)
    ensures RecommendMedicines(symptoms, model, parse).Raised? <==> symptoms != [] && !AllHashable(symptoms)
  {
    if symptoms != [] && AllStrings(symptoms) {
      AllStringsHashable(symptoms);
    }
  }

  /** That raise carries the TypeError of the first such symptom. */
  lemma RecommendUnhashableError(symptoms: seq<Json>, model: Backend, parse: string -> Parsed)
    requires symptoms != [] && !AllHashable(symptoms)
    ensures RecommendMedicines(symptoms, model, parse) == Raised(UnhashableError(symptoms[FirstUnhashable(symptoms)]))
  {
    AllStringsHashable(symptoms);
    RecommendFallsBack(symptoms, model, parse);
  }

  /** With the model request failing, headache and fever get the table's
      medicines for both, without repeats. */
  lemma HeadacheFeverRecommended(symptoms: seq<Json>, model: Backend, parse: string -> Parsed)
    requires symptoms == [JStr("headache"), JStr("fever")]
    requires ChatCompletion(model, 200).Raised?
    ensures RecommendMedicines(symptoms, model, parse) ==
      Returned([JStr("acetaminophen"), JStr("ibuprofen"), JStr("aspirin")])
  {
    RecommendFallsBack(symptoms, model, parse);
    HeadacheFeverMedicines(symptoms);
    FromThreeStrings("acetaminophen", "ibuprofen", "aspirin");
  }
}
