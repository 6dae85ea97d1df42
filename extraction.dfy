/** Layer 1 of the pipeline: the symptom record taken from the model's reply,
    or built by the keyword fallback when the model fails or its reply is not
    JSON, and then forced into shape. */
module Extraction {
  import opened Options
  import opened Seqs
  import opened Text
  import opened Json
  import opened Completion

  // ------------------------------------------------------ keyword fallback

  /** The fallback extractor's table: each symptom with the keywords that
      reveal it, in the dict's order. */
  const SymptomKeywords: seq<(string, seq<string>)> := [
    ("headache", ["headache", "head pain", "migraine"]),
    ("fever", ["fever", "temperature", "hot"]),
    ("sore throat", ["sore throat", "throat pain", "throat sore"]),
    ("cough", ["cough", "coughing", "dry cough"]),
    ("fatigue", ["fatigue", "tired", "exhausted", "weak"]),
    ("body aches", ["body aches", "muscle pain", "joint pain", "achy"]),
    ("nausea", ["nausea", "sick", "queasy"]),
    ("congestion", ["congestion", "stuffy nose", "blocked nose"]),
    ("runny nose", ["runny nose", "dripping nose"]),
    ("sneezing", ["sneezing", "sneeze"]),
    ("itchy eyes", ["itchy eyes", "eye irritation"]),
    ("back pain", ["back pain", "backache"]),
    ("stomach pain", ["stomach pain", "abdominal pain", "belly ache"]),
    ("insomnia", ["insomnia", "trouble sleeping", "can't sleep"]),
    ("anxiety", ["anxiety", "anxious", "worried"]),
    ("stress", ["stress", "stressed"]),
    ("allergies", ["allergies", "allergic"])
  ]

  /** The symptoms of the entries with a keyword in text, in table order. */
  function Matching(text: string, table: seq<(string, seq<string>)>): seq<string>
  {
    if table == [] then []
    else
      var last := table[|table| - 1];
      Matching(text, table[..|table| - 1]) + (if MentionsAny(text, last.1) then [last.0] else [])
  }

  /** What _extract_symptoms_fallback returns for a conversation: the matching
      symptoms, each once (the `not in symptoms` check). */
  function FallbackSymptoms(conversation: string): seq<string> {
    Dedup(Matching(Lower(conversation), SymptomKeywords))
  }

  lemma MatchingStep(text: string, table: seq<(string, seq<string>)>, i: nat)
    requires i < |table|
    ensures Matching(text, table[..i + 1]) ==
      Matching(text, table[..i]) + (if MentionsAny(text, table[i].1) then [table[i].0] else [])
  {
    assert table[..i + 1][..i] == table[..i];
  }

  /** The loop of _extract_symptoms_fallback over a table: for each entry,
      the first keyword found in text adds the symptom (unless already there)
      and ends the scan of that entry. */
  method ScanKeywords(text: string, table: seq<(string, seq<string>)>) returns (symptoms: seq<string>)
    ensures symptoms == Dedup(Matching(text, table))
  {
    symptoms := [];
    for i := 0 to |table|
      invariant symptoms == Dedup(Matching(text, table[..i]))
    {
      var symptom, keywords := table[i].0, table[i].1;
      MatchingStep(text, table, i);
      DedupAppend(Matching(text, table[..i]), symptom);
      var j := 0;
      while j < |keywords|
        invariant j <= |keywords|
        invariant forall k :: 0 <= k < j ==> !Contains(text, keywords[k])
        invariant symptoms == Dedup(Matching(text, table[..i]))
      {
        if Contains(text, keywords[j]) {
          assert MentionsAny(text, keywords);
          if symptom !in symptoms {
            symptoms := symptoms + [symptom];
          }
          break;
        }
        j := j + 1;
      }
      if j == |keywords| {
        assert !MentionsAny(text, keywords);
        assert Matching(text, table[..i + 1]) == Matching(text, table[..i]);
      } else {
        assert MentionsAny(text, keywords);
        assert Matching(text, table[..i + 1]) == Matching(text, table[..i]) + [symptom];
      }
    }
    assert table[..|table|] == table;
  }

  /** _extract_symptoms_fallback */
  method ExtractSymptomsFallback(conversation: string) returns (symptoms: seq<string>)
    ensures symptoms == FallbackSymptoms(conversation)
  {
    var conversationLower := Lower(conversation);
    symptoms := ScanKeywords(conversationLower, SymptomKeywords);
  }

  /** A symptom is matched exactly when one of its entries has a keyword in text. */
  lemma {:induction false} MatchingMembers(text: string, table: seq<(string, seq<string>)>, x: string)
    ensures x in Matching(text, table) <==>
      exists i :: 0 <= i < |table| && table[i].0 == x && MentionsAny(text, table[i].1)
  {
    if table != [] {
      var init := table[..|table| - 1];
      MatchingMembers(text, init, x);
      if x in Matching(text, table) && x !in Matching(text, init) {
        assert table[|table| - 1].0 == x && MentionsAny(text, table[|table| - 1].1);
      }
      if exists i :: 0 <= i < |table| && table[i].0 == x && MentionsAny(text, table[i].1) {
        var i :| 0 <= i < |table| && table[i].0 == x && MentionsAny(text, table[i].1);
        if i < |table| - 1 {
          assert init[i] == table[i];
        }
      }
    }
  }

  /** x comes from an earlier matching entry than y. */
  predicate EarlierMatch(text: string, table: seq<(string, seq<string>)>, x: string, y: string) {
    exists i, j :: 0 <= i < j < |table| && table[i].0 == x && table[j].0 == y
      && MentionsAny(text, table[i].1) && MentionsAny(text, table[j].1)
  }

  /** Matching keeps the table's order. */
  lemma {:induction false} MatchingInTableOrder(text: string, table: seq<(string, seq<string>)>, a: nat, b: nat)
    requires a < b < |Matching(text, table)|
    ensures EarlierMatch(text, table, Matching(text, table)[a], Matching(text, table)[b])
  {
    var init := table[..|table| - 1];
    var m, mi := Matching(text, table), Matching(text, init);
    var x, y := m[a], m[b];
    if b < |mi| {
      MatchingInTableOrder(text, init, a, b);
      var i, j :| 0 <= i < j < |init| && init[i].0 == x && init[j].0 == y
        && MentionsAny(text, init[i].1) && MentionsAny(text, init[j].1);
      assert table[i] == init[i] && table[j] == init[j];
    } else {
      assert x in mi;
      MatchingMembers(text, init, x);
      var i :| 0 <= i < |init| && init[i].0 == x && MentionsAny(text, init[i].1);
      assert table[i] == init[i];
      assert y == table[|table| - 1].0 && MentionsAny(text, table[|table| - 1].1);
    }
  }

  /** The fallback returns each matching table symptom once, and no other, in
      the order of their first matching entries. */
  lemma FallbackSymptomsSpec(conversation: string)
    ensures var r, lower := FallbackSymptoms(conversation), Lower(conversation);
      && NoDuplicates(r)
      && (forall x :: x in r <==>
            exists i :: 0 <= i < |SymptomKeywords| && SymptomKeywords[i].0 == x
              && MentionsAny(lower, SymptomKeywords[i].1))
      && (forall a, b :: 0 <= a < b < |r| ==> EarlierMatch(lower, SymptomKeywords, r[a], r[b]))
  {
    var lower := Lower(conversation);
    var m := Matching(lower, SymptomKeywords);
    var r := Dedup(m);
    DedupSpec(m);
    forall x
      ensures x in r <==>
        exists i :: 0 <= i < |SymptomKeywords| && SymptomKeywords[i].0 == x && MentionsAny(lower, SymptomKeywords[i].1)
    {
      MatchingMembers(lower, SymptomKeywords, x);
    }
    forall a, b | 0 <= a < b < |r| ensures EarlierMatch(lower, SymptomKeywords, r[a], r[b]) {
      var p, q := FirstIndex(m, r[a]), FirstIndex(m, r[b]);
      MatchingInTableOrder(lower, SymptomKeywords, p, q);
    }
  }

  // ------------------------------------------ "I have a headache and fever"
  // One worked example. The helper lemmas of this section (Lower, Lacks,
  // Mentions, Misses*, FirstTwo, Rest, Matching) only support
  // HeadacheFeverSymptoms: they check the example text against the table
  // entry by entry and state nothing general.

  /** The example conversation, lowered. */
  const HeadacheFever := "i have a headache and fever"

  lemma HeadacheFeverLower()
    ensures Lower("I have a headache and fever") == HeadacheFever
  {
    LowerByChars("I have a headache and fever", "i have a headache and fever");
  }

  lemma HeadacheFeverLacks(c: char)
    requires c in "stoyxwbmjuqpl"
    ensures c !in HeadacheFever
  {
  }

  lemma HeadacheFeverMentions()
    ensures SymptomKeywords[0] == ("headache", ["headache", "head pain", "migraine"])
    ensures SymptomKeywords[1] == ("fever", ["fever", "temperature", "hot"])
    ensures MentionsAny(HeadacheFever, SymptomKeywords[0].1)
    ensures MentionsAny(HeadacheFever, SymptomKeywords[1].1)
  {
    assert SymptomKeywords[0].1[0] == "headache" && SymptomKeywords[1].1[0] == "fever";
    assert HeadacheFever == "i have a " + "headache" + " and fever";
    ContainsInfix("i have a ", "headache", " and fever");
    assert HeadacheFever == "i have a headache and " + "fever";
    ContainsEnd("i have a headache and ", "fever");
  }

  lemma HeadacheFeverMisses2()
    ensures !MentionsAny(HeadacheFever, SymptomKeywords[2].1)
  {
    assert SymptomKeywords[2].1 == ["sore throat", "throat pain", "throat sore"];
    HeadacheFeverLacks('s');
    NotContainedLackingChar(HeadacheFever, "sore throat", 0);
    HeadacheFeverLacks('t');
    NotContainedLackingChar(HeadacheFever, "throat pain", 0);
    HeadacheFeverLacks('t');
    NotContainedLackingChar(HeadacheFever, "throat sore", 0);
  }

  lemma HeadacheFeverMisses3()
    ensures !MentionsAny(HeadacheFever, SymptomKeywords[3].1)
  {
    assert SymptomKeywords[3].1 == ["cough", "coughing", "dry cough"];
    HeadacheFeverLacks('o');
    NotContainedLackingChar(HeadacheFever, "cough", 1);
    HeadacheFeverLacks('o');
    NotContainedLackingChar(HeadacheFever, "coughing", 1);
    HeadacheFeverLacks('y');
    NotContainedLackingChar(HeadacheFever, "dry cough", 2);
  }

  lemma HeadacheFeverMisses4()
    ensures !MentionsAny(HeadacheFever, SymptomKeywords[4].1)
  {
    assert SymptomKeywords[4].1 == ["fatigue", "tired", "exhausted", "weak"];
    HeadacheFeverLacks('t');
    NotContainedLackingChar(HeadacheFever, "fatigue", 2);
    HeadacheFeverLacks('t');
    NotContainedLackingChar(HeadacheFever, "tired", 0);
    HeadacheFeverLacks('x');
    NotContainedLackingChar(HeadacheFever, "exhausted", 1);
    HeadacheFeverLacks('w');
    NotContainedLackingChar(HeadacheFever, "weak", 0);
  }

  lemma HeadacheFeverMisses5()
    ensures !MentionsAny(HeadacheFever, SymptomKeywords[5].1)
  {
    assert SymptomKeywords[5].1 == ["body aches", "muscle pain", "joint pain", "achy"];
    HeadacheFeverLacks('b');
    NotContainedLackingChar(HeadacheFever, "body aches", 0);
    HeadacheFeverLacks('m');
    NotContainedLackingChar(HeadacheFever, "muscle pain", 0);
    HeadacheFeverLacks('j');
    NotContainedLackingChar(HeadacheFever, "joint pain", 0);
    HeadacheFeverLacks('y');
    NotContainedLackingChar(HeadacheFever, "achy", 3);
  }

  lemma HeadacheFeverMisses6()
    ensures !MentionsAny(HeadacheFever, SymptomKeywords[6].1)
  {
    assert SymptomKeywords[6].1 == ["nausea", "sick", "queasy"];
    HeadacheFeverLacks('u');
    NotContainedLackingChar(HeadacheFever, "nausea", 2);
    HeadacheFeverLacks('s');
    NotContainedLackingChar(HeadacheFever, "sick", 0);
    HeadacheFeverLacks('q');
    NotContainedLackingChar(HeadacheFever, "queasy", 0);
  }

  lemma HeadacheFeverMisses7()
    ensures !MentionsAny(HeadacheFever, SymptomKeywords[7].1)
  {
    assert SymptomKeywords[7].1 == ["congestion", "stuffy nose", "blocked nose"];
    HeadacheFeverLacks('o');
    NotContainedLackingChar(HeadacheFever, "congestion", 1);
    HeadacheFeverLacks('s');
    NotContainedLackingChar(HeadacheFever, "stuffy nose", 0);
    HeadacheFeverLacks('b');
    NotContainedLackingChar(HeadacheFever, "blocked nose", 0);
  }

  lemma HeadacheFeverMisses8()
    ensures !MentionsAny(HeadacheFever, SymptomKeywords[8].1)
  {
    assert SymptomKeywords[8].1 == ["runny nose", "dripping nose"];
    HeadacheFeverLacks('u');
    NotContainedLackingChar(HeadacheFever, "runny nose", 1);
    HeadacheFeverLacks('p');
    NotContainedLackingChar(HeadacheFever, "dripping nose", 3);
  }

  lemma HeadacheFeverMisses9()
    ensures !MentionsAny(HeadacheFever, SymptomKeywords[9].1)
  {
    assert SymptomKeywords[9].1 == ["sneezing", "sneeze"];
    HeadacheFeverLacks('s');
    NotContainedLackingChar(HeadacheFever, "sneezing", 0);
    HeadacheFeverLacks('s');
    NotContainedLackingChar(HeadacheFever, "sneeze", 0);
  }

  lemma HeadacheFeverMisses10()
    ensures !MentionsAny(HeadacheFever, SymptomKeywords[10].1)
  {
    assert SymptomKeywords[10].1 == ["itchy eyes", "eye irritation"];
    HeadacheFeverLacks('t');
    NotContainedLackingChar(HeadacheFever, "itchy eyes", 1);
    HeadacheFeverLacks('y');
    NotContainedLackingChar(HeadacheFever, "eye irritation", 1);
  }

  lemma HeadacheFeverMisses11()
    ensures !MentionsAny(HeadacheFever, SymptomKeywords[11].1)
  {
    assert SymptomKeywords[11].1 == ["back pain", "backache"];
    HeadacheFeverLacks('b');
    NotContainedLackingChar(HeadacheFever, "back pain", 0);
    HeadacheFeverLacks('b');
    NotContainedLackingChar(HeadacheFever, "backache", 0);
  }

  lemma HeadacheFeverMisses12()
    ensures !MentionsAny(HeadacheFever, SymptomKeywords[12].1)
  {
    assert SymptomKeywords[12].1 == ["stomach pain", "abdominal pain", "belly ache"];
    HeadacheFeverLacks('s');
    NotContainedLackingChar(HeadacheFever, "stomach pain", 0);
    HeadacheFeverLacks('b');
    NotContainedLackingChar(HeadacheFever, "abdominal pain", 1);
    HeadacheFeverLacks('b');
    NotContainedLackingChar(HeadacheFever, "belly ache", 0);
  }

  lemma HeadacheFeverMisses13()
    ensures !MentionsAny(HeadacheFever, SymptomKeywords[13].1)
  {
    assert SymptomKeywords[13].1 == ["insomnia", "trouble sleeping", "can't sleep"];
    HeadacheFeverLacks('s');
    NotContainedLackingChar(HeadacheFever, "insomnia", 2);
    HeadacheFeverLacks('t');
    NotContainedLackingChar(HeadacheFever, "trouble sleeping", 0);
    HeadacheFeverLacks('t');
    NotContainedLackingChar(HeadacheFever, "can't sleep", 4);
  }

  lemma HeadacheFeverMisses14()
    ensures !MentionsAny(HeadacheFever, SymptomKeywords[14].1)
  {
    assert SymptomKeywords[14].1 == ["anxiety", "anxious", "worried"];
    HeadacheFeverLacks('x');
    NotContainedLackingChar(HeadacheFever, "anxiety", 2);
    HeadacheFeverLacks('x');
    NotContainedLackingChar(HeadacheFever, "anxious", 2);
    HeadacheFeverLacks('w');
    NotContainedLackingChar(HeadacheFever, "worried", 0);
  }

  lemma HeadacheFeverMisses15()
    ensures !MentionsAny(HeadacheFever, SymptomKeywords[15].1)
  {
    assert SymptomKeywords[15].1 == ["stress", "stressed"];
    HeadacheFeverLacks('s');
    NotContainedLackingChar(HeadacheFever, "stress", 0);
    HeadacheFeverLacks('s');
    NotContainedLackingChar(HeadacheFever, "stressed", 0);
  }

  lemma HeadacheFeverMisses16()
    ensures !MentionsAny(HeadacheFever, SymptomKeywords[16].1)
  {
    assert SymptomKeywords[16].1 == ["allergies", "allergic"];
    HeadacheFeverLacks('l');
    NotContainedLackingChar(HeadacheFever, "allergies", 1);
    HeadacheFeverLacks('l');
    NotContainedLackingChar(HeadacheFever, "allergic", 1);
  }

  /** Entries none of whose keywords occur add nothing. */
  lemma {:induction false} MatchingSkips(text: string, table: seq<(string, seq<string>)>, a: nat, b: nat)
    requires a <= b <= |table|
    requires forall k :: a <= k < b ==> !MentionsAny(text, table[k].1)
    ensures Matching(text, table[..b]) == Matching(text, table[..a])
    decreases b
  {
    if a < b {
      MatchingSkips(text, table, a, b - 1);
      MatchingStep(text, table, b - 1);
    }
  }

  lemma HeadacheFeverFirstTwo()
    ensures Matching(HeadacheFever, SymptomKeywords[..2]) == ["headache", "fever"]
  {
    HeadacheFeverMentions();
    MatchingStep(HeadacheFever, SymptomKeywords, 0);
    MatchingStep(HeadacheFever, SymptomKeywords, 1);
    assert SymptomKeywords[..0] == [];
  }

  lemma HeadacheFeverRest()
    ensures forall k :: 2 <= k < 17 ==> !MentionsAny(HeadacheFever, SymptomKeywords[k].1)
  {
    HeadacheFeverMisses2();
    HeadacheFeverMisses3();
    HeadacheFeverMisses4();
    HeadacheFeverMisses5();
    HeadacheFeverMisses6();
    HeadacheFeverMisses7();
    HeadacheFeverMisses8();
    HeadacheFeverMisses9();
    HeadacheFeverMisses10();
    HeadacheFeverMisses11();
    HeadacheFeverMisses12();
    HeadacheFeverMisses13();
    HeadacheFeverMisses14();
    HeadacheFeverMisses15();
    HeadacheFeverMisses16();
  }

  lemma HeadacheFeverMatching()
    ensures Matching(HeadacheFever, SymptomKeywords) == ["headache", "fever"]
  {
    HeadacheFeverFirstTwo();
    HeadacheFeverRest();
    MatchingSkips(HeadacheFever, SymptomKeywords, 2, |SymptomKeywords|);
    WholeSlice(SymptomKeywords);
  }

  /** "I have a headache and fever" gives ["headache", "fever"]. */
  lemma HeadacheFeverSymptoms(conversation: string)
    requires conversation == "I have a headache and fever"
    ensures FallbackSymptoms(conversation) == ["headache", "fever"]
  {
    HeadacheFeverLower();
    HeadacheFeverMatching();
    DedupPair("headache", "fever");
  }

  // --------------------------------------------------------- normalisation

  /** The four fields every symptom record ends up with. */
  const SymptomsKey := "symptoms"
  const SeverityKey := "severity"
  const DurationKey := "duration"
  const ContextKey := "context"

  /** The shape the rest of the pipeline relies on: the four fields are
      present and `symptoms` holds a list. */
  predicate NormalForm(record: map<string, Json>) {
    && SymptomsKey in record && record[SymptomsKey].JArr?
    && SeverityKey in record && DurationKey in record && ContextKey in record
  }

  /** The value json.loads gave as a dict, or {} when it is something else. */
  function FieldsOf(v: Json): map<string, Json> {
    if v.JObj? then v.fields else map[]
  }

  /** The value a field gets when it is missing (for `symptoms`, also when it is
      not a list). */
  function Default(key: string): Json {
    if key == SymptomsKey then JArr([])
    else if key == SeverityKey then JStr("unknown")
    else JNull
  }

  /** dict.setdefault: the field is added only when it is missing. */
  function SetDefault(record: map<string, Json>, key: string, default: Json): (r: map<string, Json>)
    ensures r.Keys == record.Keys + {key}
    ensures r[key] == if key in record then record[key] else default
    ensures forall k :: k in record && k != key ==> r[k] == record[k]
  {
    if key in record then record else record[key := default]
  }

  /** The result with `symptoms` forced to a list. */
  function WithSymptomsList(fields: map<string, Json>): (r: map<string, Json>)
    ensures r.Keys == fields.Keys + {SymptomsKey}
    ensures forall k :: k in fields && k != SymptomsKey ==> r[k] == fields[k]
  {
    if SymptomsKey in fields && fields[SymptomsKey].JArr? then fields
    else fields[SymptomsKey := JArr([])]
  }

  /** The repair of the parsed result, step by step as the source does it: a
      non-dict becomes {}, `symptoms` is forced to a list, and severity,
      duration and context are set by setdefault. */
  function Normalised(v: Json): map<string, Json> {
    var r := WithSymptomsList(FieldsOf(v));
    SetDefault(SetDefault(SetDefault(r, SeverityKey, JStr("unknown")), DurationKey, JNull), ContextKey, JNull)
  }

  /** The in-place repair of the parsed result, as the source performs it. */
  method Normalise(result: Json) returns (record: map<string, Json>)
    ensures record == Normalised(result)
  {
    record := if result.JObj? then result.fields else map[];
    if SymptomsKey !in record || !record[SymptomsKey].JArr? {
      record := record[SymptomsKey := JArr([])];
    }
    ghost var step := record;
    if SeverityKey !in record {
      record := record[SeverityKey := JStr("unknown")];
    }
    assert record == SetDefault(step, SeverityKey, JStr("unknown"));
    step := record;
    if DurationKey !in record {
      record := record[DurationKey := JNull];
    }
    assert record == SetDefault(step, DurationKey, JNull);
    step := record;
    if ContextKey !in record {
      record := record[ContextKey := JNull];
    }
    assert record == SetDefault(step, ContextKey, JNull);
  }

  lemma DistinctKeys()
    ensures SymptomsKey != SeverityKey && SymptomsKey != DurationKey && SymptomsKey != ContextKey
    ensures SeverityKey != DurationKey && SeverityKey != ContextKey && DurationKey != ContextKey
  {
    assert SymptomsKey[1] != SeverityKey[1];
    assert SymptomsKey[0] != DurationKey[0] && SymptomsKey[0] != ContextKey[0];
    assert SeverityKey[0] != DurationKey[0] && SeverityKey[0] != ContextKey[0];
    assert DurationKey[0] != ContextKey[0];
  }

  /** The repaired record field by field: it has the parsed dict's fields and
      the four, a present field keeps its value (a `symptoms` that is not a
      list excepted) and a missing one gets its default; so it is in normal
      form. */
  lemma NormalisedSpec(v: Json)
    ensures NormalForm(Normalised(v))
    ensures Normalised(v).Keys == FieldsOf(v).Keys + {SymptomsKey, SeverityKey, DurationKey, ContextKey}
    ensures forall key :: key in Normalised(v) ==>
      Normalised(v)[key] ==
        if key in FieldsOf(v) && (key != SymptomsKey || FieldsOf(v)[key].JArr?) then FieldsOf(v)[key]
        else Default(key)
  {
    NormalisedKeys(v);
    forall key | key in Normalised(v)
      ensures Normalised(v)[key] ==
        if key in FieldsOf(v) && (key != SymptomsKey || FieldsOf(v)[key].JArr?) then FieldsOf(v)[key]
        else Default(key)
    {
      NormalisedAt(v, key);
    }
    NormalisedAt(v, SymptomsKey);
  }

  lemma NormalisedKeys(v: Json)
    ensures Normalised(v).Keys == FieldsOf(v).Keys + {SymptomsKey, SeverityKey, DurationKey, ContextKey}
  {
  }

  lemma NormalisedAt(v: Json, key: string)
    requires key in Normalised(v)
    ensures Normalised(v)[key] ==
      if key in FieldsOf(v) && (key != SymptomsKey || FieldsOf(v)[key].JArr?) then FieldsOf(v)[key]
      else Default(key)
  {
    DistinctKeys();
  }

  /** A value that is not a dict becomes the record of defaults. */
  lemma NormalisedNonObject(v: Json)
    requires !v.JObj?
    ensures Normalised(v) == map[SymptomsKey := JArr([]), SeverityKey := JStr("unknown"),
                                 DurationKey := JNull, ContextKey := JNull]
  {
  }

  /** A record already in normal form is left as it is. */
  lemma NormalisedOfNormalForm(record: map<string, Json>)
    requires NormalForm(record)
    ensures Normalised(JObj(record)) == record
  {
  }

  /** Repairing a repaired record changes nothing. */
  lemma NormalisedIdempotent(v: Json)
    ensures Normalised(JObj(Normalised(v))) == Normalised(v)
  {
    NormalisedSpec(v);
    NormalisedOfNormalForm(Normalised(v));
  }

  // --------------------------------------------------------------- layer 1

  const FallbackContext := "Extracted using fallback method"
  const ErrorContextLead := "Error extracting symptoms: "

  /** A record of fallback symptoms, with the severity and context given. */
  function FallbackRecord(symptoms: seq<string>, severity: string, context: string): (r: map<string, Json>)
    ensures NormalForm(r)
  {
    map[SymptomsKey := JArr(FromStrings(symptoms)),
        SeverityKey := JStr(severity), DurationKey := JNull, ContextKey := JStr(context)]
  }

  /** extract_symptoms_from_conversation: the model's reply, cleaned and
      parsed, then repaired; the keyword fallback with severity "moderate"
      when the reply is not JSON, and with severity "unknown" and the
      exception's message when the model call raises. */
  function ExtractSymptoms(conversation: string, model: Backend, parse: string -> Parsed): map<string, Json> {
    match ChatCompletion(model, 300)
    case Raised(e) => FallbackRecord(FallbackSymptoms(conversation), "unknown", ErrorContextLead + e)
    case Returned(reply) =>
      match parse(CleanReply(reply))
      case Malformed(_) => Normalised(JObj(FallbackRecord(FallbackSymptoms(conversation), "moderate", FallbackContext)))
      case Parsed(v) => Normalised(v)
  }

  /** The record always has the normal form. */
  lemma ExtractedNormalForm(conversation: string, model: Backend, parse: string -> Parsed)
    ensures NormalForm(ExtractSymptoms(conversation, model, parse))
  {
    var c := ChatCompletion(model, 300);
    if c.Raised? {
      ExtractedWhenModelFails(conversation, model, parse);
    } else if parse(CleanReply(c.value)).Malformed? {
      ExtractedWhenReplyMalformed(conversation, model, parse);
    } else {
      ExtractedWhenReplyParses(conversation, model, parse);
      NormalisedSpec(parse(CleanReply(c.value)).value);
    }
  }

  /** When the model fails on all three attempts, the symptoms are the keyword
      fallback's, the severity "unknown" and the context names the error. */
  lemma ExtractedWhenModelFails(conversation: string, model: Backend, parse: string -> Parsed)
    requires ChatCompletion(model, 300).Raised?
    ensures ExtractSymptoms(conversation, model, parse) ==
      FallbackRecord(FallbackSymptoms(conversation), "unknown", ErrorContextLead + ChatCompletion(model, 300).error)
  {
  }

  /** When the cleaned reply is not JSON, the symptoms are the keyword
      fallback's and the severity is "moderate": the repair adds nothing. */
  lemma ExtractedWhenReplyMalformed(conversation: string, model: Backend, parse: string -> Parsed)
    requires ChatCompletion(model, 300).Returned?
    requires parse(CleanReply(ChatCompletion(model, 300).value)).Malformed?
    ensures ExtractSymptoms(conversation, model, parse) ==
      FallbackRecord(FallbackSymptoms(conversation), "moderate", FallbackContext)
  {
    NormalisedOfNormalForm(FallbackRecord(FallbackSymptoms(conversation), "moderate", FallbackContext));
  }

  /** When the reply parses, its record is taken as it is, only repaired. */
  lemma ExtractedWhenReplyParses(conversation: string, model: Backend, parse: string -> Parsed)
    requires ChatCompletion(model, 300).Returned?
    requires parse(CleanReply(ChatCompletion(model, 300).value)).Parsed?
    ensures ExtractSymptoms(conversation, model, parse) ==
      Normalised(parse(CleanReply(ChatCompletion(model, 300).value)).value)
  {
    match ChatCompletion(model, 300)
    case Returned(reply) =>
      match parse(CleanReply(reply))
      case Parsed(v) =>
  }
}
