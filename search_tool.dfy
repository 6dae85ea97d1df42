/** The symptom search tool: from a symptom phrase it builds one search query,
    filters and ranks the products the backend returns, truncates them and
    renders them as a spoken reply. The repository holds two byte-identical
    copies of this component; this module models both. */
module SearchTool {
  import opened Options
  import opened Text
  import opened Seqs
  import opened Products

  // ------------------------------------------------------------ query builder

  /** Pain-related symptoms. */
  const PainQueries: seq<(string, string)> := [
    ("headache", "headache relief medicine"),
    ("migraine", "migraine relief medicine"),
    ("back pain", "back pain relief"),
    ("joint pain", "joint pain relief"),
    ("muscle pain", "muscle pain relief"),
    ("toothache", "toothache relief")
  ]

  /** Cold and flu symptoms. */
  const ColdQueries: seq<(string, string)> := [
    ("fever", "fever reducer medicine"),
    ("cough", "cough medicine"),
    ("sore throat", "sore throat relief"),
    ("congestion", "nasal congestion relief"),
    ("runny nose", "runny nose relief")
  ]

  /** Digestive symptoms. */
  const DigestiveQueries: seq<(string, string)> := [
    ("nausea", "nausea relief"),
    ("upset stomach", "upset stomach relief"),
    ("indigestion", "indigestion relief"),
    ("heartburn", "heartburn relief")
  ]

  /** Skin-related symptoms. */
  const SkinQueries: seq<(string, string)> := [
    ("rash", "rash treatment"),
    ("itching", "itching relief"),
    ("dry skin", "dry skin treatment"),
    ("acne", "acne treatment")
  ]

  /** Sleep-related symptoms. */
  const SleepQueries: seq<(string, string)> := [
    ("insomnia", "sleep aid"),
    ("trouble sleeping", "sleep aid")
  ]

  /** Allergy symptoms. */
  const AllergyQueries: seq<(string, string)> := [
    ("allergies", "allergy medicine"),
    ("seasonal allergies", "seasonal allergy medicine")
  ]

  /** General wellness. */
  const WellnessQueries: seq<(string, string)> := [
    ("stress", "stress relief"),
    ("anxiety", "anxiety relief"),
    ("vitamins", "vitamins"),
    ("supplements", "health supplements")
  ]

  /** The symptom-phrase to query table, in its insertion (and so iteration) order. */
  const SymptomQueries: seq<(string, string)> :=
    PainQueries + ColdQueries + DigestiveQueries + SkinQueries + SleepQueries + AllergyQueries + WellnessQueries

  /** Words dropped from a phrase that matches no table entry ("with" is listed twice). */
  const CommonWords: seq<string> := [
    "i", "have", "am", "feeling", "experiencing", "suffering", "from", "with",
    "the", "a", "an", "and", "or", "but", "in", "on", "at", "to", "for", "of",
    "with", "by"
  ]

  const QuerySuffix := " relief medicine"
  const GenericQuery := "health wellness products"

  /** The index of the first table entry, from k on, whose phrase occurs in text. */
  function FirstEntryIn(table: seq<(string, string)>, text: string, k: nat): (r: Option<nat>)
    requires k <= |table|
    ensures r.Some? ==> k <= r.value < |table| && Contains(text, table[r.value].0)
    ensures r.Some? ==> forall j :: k <= j < r.value ==> !Contains(text, table[j].0)
    ensures r.None? <==> forall j :: k <= j < |table| ==> !Contains(text, table[j].0)
    decreases |table| - k
  {
    if k == |table| then None
    else if Contains(text, table[k].0) then Some(k)
    else FirstEntryIn(table, text, k + 1)
  }

  predicate Meaningful(w: string) {
    w !in CommonWords && |w| > 2
  }

  /** [w for w in words if w not in common_words and len(w) > 2] */
  function MeaningfulWords(words: seq<string>): (r: seq<string>)
    ensures forall w :: w in r <==> w in words && Meaningful(w)
  {
    if words == [] then []
    else (if Meaningful(words[0]) then [words[0]] else []) + MeaningfulWords(words[1..])
  }

  /** The filter keeps the order and the repetitions of the words: filtering
      a concatenation filters each part, and a single word is kept or dropped. */
  lemma {:induction false} MeaningfulWordsAppend(a: seq<string>, b: seq<string>)
    ensures MeaningfulWords(a + b) == MeaningfulWords(a) + MeaningfulWords(b)
  {
    if a == [] {
      assert a + b == b;
    } else {
      assert (a + b)[0] == a[0] && (a + b)[1..] == a[1..] + b;
      MeaningfulWordsAppend(a[1..], b);
    }
  }

  lemma MeaningfulWordsSingle(w: string)
    ensures MeaningfulWords([w]) == if Meaningful(w) then [w] else []
  {
    assert [w][1..] == [];
  }

  /** _build_search_query */
  function BuildSearchQuery(symptoms: string): string
  {
    var lower := Lower(symptoms);
    match FirstEntryIn(SymptomQueries, lower, 0)
    case Some(k) => SymptomQueries[k].1
    case None =>
      var filtered := MeaningfulWords(Split(lower));
      if filtered != [] then Join(" ", Take(filtered, 3)) + QuerySuffix
      else GenericQuery
  }

  /** First match wins: the query of the earliest table entry whose phrase occurs
      in the lower-cased input is the query, whatever later entries match. */
  lemma QueryFromFirstMatchingEntry(symptoms: string, k: nat)
    requires k < |SymptomQueries|
    requires Contains(Lower(symptoms), SymptomQueries[k].0)
    requires forall j :: 0 <= j < k ==> !Contains(Lower(symptoms), SymptomQueries[j].0)
    ensures BuildSearchQuery(symptoms) == SymptomQueries[k].1
  {
    var r := FirstEntryIn(SymptomQueries, Lower(symptoms), 0);
    assert r.Some?;
  }

  /** Without a table match, the query is the first three meaningful words of the
      input followed by " relief medicine", or the generic query when none is left. */
  lemma QueryWithoutTableMatch(symptoms: string)
    requires forall j :: 0 <= j < |SymptomQueries| ==> !Contains(Lower(symptoms), SymptomQueries[j].0)
    ensures var words := MeaningfulWords(Split(Lower(symptoms)));
      && (words == [] ==> BuildSearchQuery(symptoms) == GenericQuery)
      && (words != [] ==> BuildSearchQuery(symptoms) == Join(" ", words[..Min(3, |words|)]) + QuerySuffix)
  {
    assert FirstEntryIn(SymptomQueries, Lower(symptoms), 0).None?;
  }

  /** The query is never empty: table queries are not, a built query ends with
      " relief medicine", and the fallback is a fixed phrase. */
  lemma QueryNeverEmpty(symptoms: string)
    ensures BuildSearchQuery(symptoms) != ""
  {
    var lower := Lower(symptoms);
    match FirstEntryIn(SymptomQueries, lower, 0)
    case Some(k) =>
      TableQueryLengths();
    case None =>
  }

  /** No phrase of the entries occurs in text. */
  predicate MatchesNone(text: string, entries: seq<(string, string)>) {
    forall j :: 0 <= j < |entries| ==> !Contains(text, entries[j].0)
  }

  lemma MatchesNoneAppend(text: string, a: seq<(string, string)>, b: seq<(string, string)>)
    requires MatchesNone(text, a) && MatchesNone(text, b)
    ensures MatchesNone(text, a + b)
  {
    forall j | 0 <= j < |a + b| ensures !Contains(text, (a + b)[j].0) {
      if j >= |a| {
        assert (a + b)[j] == b[j - |a|];
      }
    }
  }

  // Worked examples. The BackPain*, Before*, TroubleSleeping* and
  // SeasonalAllergies* helper lemmas only support the three example queries
  // below: they check one example text against the table group by group.

  /** Letters that "back pain" lacks. */
  lemma BackPainLacks(c: char)
    requires c in "e"
    ensures c !in "back pain"
  {
  }

  lemma BackPainLower()
    ensures Lower("back pain") == "back pain"
  {
    LowerOfLower("back pain");
  }

  lemma BackPainMissesPain()
    ensures MatchesNone("back pain", PainQueries[..2])
  {
    BackPainLacks('e');
    NotContainedLackingChar("back pain", "headache", 1);
    BackPainLacks('e');
    NotContainedLackingChar("back pain", "migraine", 7);
  }

  /** "back pain" gives "back pain relief". */
  lemma BackPainQuery(symptoms: string)
    requires symptoms == "back pain"
    ensures BuildSearchQuery(symptoms) == "back pain relief"
  {
    BackPainLower();
    BackPainMissesPain();
    BeforeBackPain("back pain");
    ContainsItself(symptoms);
    QueryFromFirstMatchingEntry(symptoms, 2);
  }

  /** The entries before "back pain" are "headache" and "migraine". */
  lemma BeforeBackPain(text: string)
    requires MatchesNone(text, PainQueries[..2])
    ensures forall j :: 0 <= j < 2 ==> !Contains(text, SymptomQueries[j].0)
    ensures SymptomQueries[2] == PainQueries[2]
  {
    forall j | 0 <= j < 2 ensures SymptomQueries[j] == PainQueries[..2][j] {
    }
  }

  /** The entries before "trouble sleeping" are the pain, cold, digestive and skin
      phrases and "insomnia". */
  lemma BeforeTroubleSleeping(text: string)
    requires MatchesNone(text, PainQueries) && MatchesNone(text, ColdQueries)
    requires MatchesNone(text, DigestiveQueries) && MatchesNone(text, SkinQueries)
    requires MatchesNone(text, SleepQueries[..1])
    ensures forall j :: 0 <= j < 20 ==> !Contains(text, SymptomQueries[j].0)
    ensures SymptomQueries[20] == SleepQueries[1]
  {
    MatchesNoneAppend(text, PainQueries, ColdQueries);
    MatchesNoneAppend(text, PainQueries + ColdQueries, DigestiveQueries);
    MatchesNoneAppend(text, PainQueries + ColdQueries + DigestiveQueries, SkinQueries);
    var front := PainQueries + ColdQueries + DigestiveQueries + SkinQueries;
    MatchesNoneAppend(text, front, SleepQueries[..1]);
    forall j | 0 <= j < 20 ensures SymptomQueries[j] == (front + SleepQueries[..1])[j] {
      assert SymptomQueries[j] == (front + SleepQueries)[j];
    }
  }

  /** The entries before "allergies" are the pain, cold, digestive, skin and sleep phrases. */
  lemma BeforeAllergies(text: string)
    requires MatchesNone(text, PainQueries) && MatchesNone(text, ColdQueries)
    requires MatchesNone(text, DigestiveQueries) && MatchesNone(text, SkinQueries)
    requires MatchesNone(text, SleepQueries)
    ensures forall j :: 0 <= j < 21 ==> !Contains(text, SymptomQueries[j].0)
    ensures SymptomQueries[21] == AllergyQueries[0]
  {
    MatchesNoneAppend(text, PainQueries, ColdQueries);
    MatchesNoneAppend(text, PainQueries + ColdQueries, DigestiveQueries);
    MatchesNoneAppend(text, PainQueries + ColdQueries + DigestiveQueries, SkinQueries);
    var front := PainQueries + ColdQueries + DigestiveQueries + SkinQueries + SleepQueries;
    MatchesNoneAppend(text, PainQueries + ColdQueries + DigestiveQueries + SkinQueries, SleepQueries);
    forall j | 0 <= j < 21 ensures SymptomQueries[j] == front[j] {
      assert SymptomQueries[j] == (front + AllergyQueries)[j];
    }
  }

  /** Letters that "trouble sleeping" lacks. */
  lemma TroubleSleepingLacks(c: char)
    requires c in "acdfy"
    ensures c !in "trouble sleeping"
  {
  }

  lemma TroubleSleepingLower()
    ensures Lower("trouble sleeping") == "trouble sleeping"
  {
    LowerOfLower("trouble sleeping");
  }

  lemma TroubleSleepingMissesPain()
    ensures MatchesNone("trouble sleeping", PainQueries)
  {
    TroubleSleepingLacks('a');
    NotContainedLackingChar("trouble sleeping", "headache", 2);
    TroubleSleepingLacks('a');
    NotContainedLackingChar("trouble sleeping", "migraine", 4);
    TroubleSleepingLacks('a');
    NotContainedLackingChar("trouble sleeping", "back pain", 1);
    TroubleSleepingLacks('a');
    NotContainedLackingChar("trouble sleeping", "joint pain", 7);
    TroubleSleepingLacks('a');
    NotContainedLackingChar("trouble sleeping", "muscle pain", 8);
    TroubleSleepingLacks('a');
    NotContainedLackingChar("trouble sleeping", "toothache", 5);
  }

  lemma TroubleSleepingMissesCold()
    ensures MatchesNone("trouble sleeping", ColdQueries)
  {
    TroubleSleepingLacks('f');
    NotContainedLackingChar("trouble sleeping", "fever", 0);
    TroubleSleepingLacks('c');
    NotContainedLackingChar("trouble sleeping", "cough", 0);
    TroubleSleepingLacks('a');
    NotContainedLackingChar("trouble sleeping", "sore throat", 9);
    TroubleSleepingLacks('c');
    NotContainedLackingChar("trouble sleeping", "congestion", 0);
    TroubleSleepingLacks('y');
    NotContainedLackingChar("trouble sleeping", "runny nose", 4);
  }

  lemma TroubleSleepingMissesDigestive()
    ensures MatchesNone("trouble sleeping", DigestiveQueries)
  {
    TroubleSleepingLacks('a');
    NotContainedLackingChar("trouble sleeping", "nausea", 1);
    TroubleSleepingLacks('a');
    NotContainedLackingChar("trouble sleeping", "upset stomach", 10);
    TroubleSleepingLacks('d');
    NotContainedLackingChar("trouble sleeping", "indigestion", 2);
    TroubleSleepingLacks('a');
    NotContainedLackingChar("trouble sleeping", "heartburn", 2);
  }

  lemma TroubleSleepingMissesSkin()
    ensures MatchesNone("trouble sleeping", SkinQueries)
  {
    TroubleSleepingLacks('a');
    NotContainedLackingChar("trouble sleeping", "rash", 1);
    TroubleSleepingLacks('c');
    NotContainedLackingChar("trouble sleeping", "itching", 2);
    TroubleSleepingLacks('d');
    NotContainedLackingChar("trouble sleeping", "dry skin", 0);
    TroubleSleepingLacks('a');
    NotContainedLackingChar("trouble sleeping", "acne", 0);
  }

  lemma TroubleSleepingMissesSleep()
    ensures MatchesNone("trouble sleeping", SleepQueries[..1])
  {
    TroubleSleepingLacks('a');
    NotContainedLackingChar("trouble sleeping", "insomnia", 7);
  }

  /** "trouble sleeping" gives "sleep aid". */
  lemma TroubleSleepingQuery(symptoms: string)
    requires symptoms == "trouble sleeping"
    ensures BuildSearchQuery(symptoms) == "sleep aid"
  {
    TroubleSleepingLower();
    TroubleSleepingMissesPain();
    TroubleSleepingMissesCold();
    TroubleSleepingMissesDigestive();
    TroubleSleepingMissesSkin();
    TroubleSleepingMissesSleep();
    BeforeTroubleSleeping("trouble sleeping");
    ContainsItself("trouble sleeping");
    QueryFromFirstMatchingEntry(symptoms, 20);
  }

  /** Letters that "seasonal allergies" lacks. */
  lemma SeasonalAllergiesLacks(c: char)
    requires c in "ctmudfh"
    ensures c !in "seasonal allergies"
  {
  }

  lemma SeasonalAllergiesLower()
    ensures Lower("seasonal allergies") == "seasonal allergies"
  {
    LowerOfLower("seasonal allergies");
  }

  lemma SeasonalAllergiesMissesPain()
    ensures MatchesNone("seasonal allergies", PainQueries)
  {
    SeasonalAllergiesLacks('c');
    NotContainedLackingChar("seasonal allergies", "headache", 5);
    SeasonalAllergiesLacks('m');
    NotContainedLackingChar("seasonal allergies", "migraine", 0);
    SeasonalAllergiesLacks('c');
    NotContainedLackingChar("seasonal allergies", "back pain", 2);
    SeasonalAllergiesLacks('t');
    NotContainedLackingChar("seasonal allergies", "joint pain", 4);
    SeasonalAllergiesLacks('c');
    NotContainedLackingChar("seasonal allergies", "muscle pain", 3);
    SeasonalAllergiesLacks('c');
    NotContainedLackingChar("seasonal allergies", "toothache", 6);
  }

  lemma SeasonalAllergiesMissesCold()
    ensures MatchesNone("seasonal allergies", ColdQueries)
  {
    SeasonalAllergiesLacks('f');
    NotContainedLackingChar("seasonal allergies", "fever", 0);
    SeasonalAllergiesLacks('c');
    NotContainedLackingChar("seasonal allergies", "cough", 0);
    SeasonalAllergiesLacks('t');
    NotContainedLackingChar("seasonal allergies", "sore throat", 5);
    SeasonalAllergiesLacks('c');
    NotContainedLackingChar("seasonal allergies", "congestion", 0);
    SeasonalAllergiesLacks('u');
    NotContainedLackingChar("seasonal allergies", "runny nose", 1);
  }

  lemma SeasonalAllergiesMissesDigestive()
    ensures MatchesNone("seasonal allergies", DigestiveQueries)
  {
    SeasonalAllergiesLacks('u');
    NotContainedLackingChar("seasonal allergies", "nausea", 2);
    SeasonalAllergiesLacks('c');
    NotContainedLackingChar("seasonal allergies", "upset stomach", 11);
    SeasonalAllergiesLacks('t');
    NotContainedLackingChar("seasonal allergies", "indigestion", 7);
    SeasonalAllergiesLacks('t');
    NotContainedLackingChar("seasonal allergies", "heartburn", 4);
  }

  lemma SeasonalAllergiesMissesSkin()
    ensures MatchesNone("seasonal allergies", SkinQueries)
  {
    SeasonalAllergiesLacks('h');
    NotContainedLackingChar("seasonal allergies", "rash", 3);
    SeasonalAllergiesLacks('c');
    NotContainedLackingChar("seasonal allergies", "itching", 2);
    SeasonalAllergiesLacks('d');
    NotContainedLackingChar("seasonal allergies", "dry skin", 0);
    SeasonalAllergiesLacks('c');
    NotContainedLackingChar("seasonal allergies", "acne", 1);
  }

  lemma SeasonalAllergiesMissesSleep()
    ensures MatchesNone("seasonal allergies", SleepQueries)
  {
    SeasonalAllergiesLacks('m');
    NotContainedLackingChar("seasonal allergies", "insomnia", 4);
    SeasonalAllergiesLacks('t');
    NotContainedLackingChar("seasonal allergies", "trouble sleeping", 0);
  }

  lemma SeasonalAllergiesHasAllergies()
    ensures Contains("seasonal allergies", "allergies")
  {
    assert "seasonal allergies"[9..] == "allergies";
    assert OccursAt("seasonal allergies", "allergies", 9);
  }

  /** "seasonal allergies" gives "allergy medicine": "allergies", listed earlier,
      matches first. */
  lemma SeasonalAllergiesQuery(symptoms: string)
    requires symptoms == "seasonal allergies"
    ensures BuildSearchQuery(symptoms) == "allergy medicine"
  {
    SeasonalAllergiesLower();
    SeasonalAllergiesMissesPain();
    SeasonalAllergiesMissesCold();
    SeasonalAllergiesMissesDigestive();
    SeasonalAllergiesMissesSkin();
    SeasonalAllergiesMissesSleep();
    BeforeAllergies("seasonal allergies");
    SeasonalAllergiesHasAllergies();
    QueryFromFirstMatchingEntry(symptoms, 21);
  }

  /** Only the "seasonal allergies" entry has a 25-character query. */
  lemma TableQueryLengths()
    ensures forall j :: 0 <= j < |SymptomQueries| ==> |SymptomQueries[j].1| >= 8
    ensures |SymptomQueries[22].1| == 25
    ensures forall j :: 0 <= j < |SymptomQueries| && j != 22 ==> |SymptomQueries[j].1| != 25
  {
  }

  /** A query built from words ends with "relief medicine", unlike the dead entry's. */
  lemma BuiltQueryNotSeasonal(words: seq<string>)
    ensures Join(" ", words) + QuerySuffix != SymptomQueries[22].1
  {
    var q := Join(" ", words) + QuerySuffix;
    var target := SymptomQueries[22].1;
    if |q| == |target| {
      assert q[|q| - 15] == 'r';
      assert target[10] == 'l';
    }
  }

  /** The "seasonal allergies" entry can never be chosen: any input containing it
      also contains "allergies", which is listed earlier. */
  lemma SeasonalAllergiesEntryShadowed(symptoms: string)
    ensures BuildSearchQuery(symptoms) != SymptomQueries[22].1
  {
    var lower := Lower(symptoms);
    var seasonal, allergies := SymptomQueries[22].0, SymptomQueries[21].0;
    assert seasonal == "seasonal " + allergies + "";
    if Contains(lower, seasonal) {
      ContainsInfix("seasonal ", allergies, "");
      ContainsWithin(lower, seasonal, allergies);
    }
    TableQueryLengths();
    BuiltQueryNotSeasonal(Take(MeaningfulWords(Split(lower)), 3));
  }

  // -------------------------------------------------------------- relevance

  const IrrelevantKeywords: seq<string> := ["book", "dvd", "video", "movie", "kindle", "audio", "cd"]

  /** The second loop of the predicate: a symptom word longer than three
      characters that occurs in the title. The predicate returns True whether
      or not it finds one. */
  predicate MentionsSymptomWord(title: string, words: seq<string>) {
    exists w :: w in words && |w| > 3 && Contains(title, w)
  }

  /** _is_relevant_result: false exactly when the lower-cased title mentions one of
      the media keywords; the symptoms never change the answer. */
  function IsRelevantResult(result: RawResult, symptoms: string): (relevant: bool)
    ensures relevant <==> !MentionsAny(Lower(result.title.GetOr("")), IrrelevantKeywords)
  {
    var title := Lower(result.title.GetOr(""));
    if MentionsAny(title, IrrelevantKeywords) then false
    else if MentionsSymptomWord(title, Split(Lower(symptoms))) then true
    else true
  }

  // ------------------------------------------------------------ description

  const PrimeNote := " - Prime eligible"

  function RatingNote(rating: Rating, reviews: int): string {
    " (Rated " + RatingNoteBody(rating, reviews)
  }

  function RatingNoteBody(rating: Rating, reviews: int): string {
    rating.shown + " out of 5 stars with " + IntToString(reviews) + " reviews)"
  }

  /** The description of a raw result: its title, then the rating note when it
      has a positive rating and reviews, then the Prime note when it is Prime. */
  function Description(result: RawResult): (d: string)
    ensures StartsWith(d, result.title.GetOr(""))
  {
    var p := FromRaw(result);
    p.title
      + (if Rated(p) then RatingNote(p.rating, p.reviews) else "")
      + (if p.isPrime then PrimeNote else "")
  }

  /** _extract_description, which appends to `description` step by step. */
  method ExtractDescription(result: RawResult) returns (description: string)
    ensures description == Description(result)
  {
    description := result.title.GetOr("");
    var rating := result.rating.GetOr(ZeroRating);
    var reviews := result.reviews.GetOr(0);
    if rating.value > 0 && reviews > 0 {
      description := description + RatingNote(rating, reviews);
    }
    if result.isPrime.GetOr(false) {
      description := description + PrimeNote;
    }
  }

  /** The rating note is present exactly when the result has a positive rating and
      reviews (for a title that has no parenthesis of its own). */
  lemma DescriptionRatingNote(result: RawResult)
    requires '(' !in result.title.GetOr("")
    ensures Contains(Description(result), " (Rated ") <==> Rated(FromRaw(result))
  {
    if Rated(FromRaw(result)) {
      RatedDescriptionHasNote(result);
    } else {
      UnratedDescriptionLacksNote(result);
    }
  }

  lemma RatedDescriptionHasNote(result: RawResult)
    requires Rated(FromRaw(result))
    ensures Contains(Description(result), " (Rated ")
  {
    var p := FromRaw(result);
    var tail := if p.isPrime then PrimeNote else "";
    var note := RatingNote(p.rating, p.reviews);
    ContainsStart(" (Rated ", RatingNoteBody(p.rating, p.reviews));
    ContainsRight(p.title, note, " (Rated ");
    ContainsLeft(p.title + note, tail, " (Rated ");
    assert Description(result) == p.title + note + tail;
  }

  lemma UnratedDescriptionLacksNote(result: RawResult)
    requires '(' !in result.title.GetOr("")
    requires !Rated(FromRaw(result))
    ensures !Contains(Description(result), " (Rated ")
  {
    var p := FromRaw(result);
    var d := Description(result);
    var tail := if p.isPrime then PrimeNote else "";
    assert d == p.title + tail;
    assert forall k :: 0 <= k < |PrimeNote| ==> PrimeNote[k] != '(';
    forall i | 0 <= i < |d| ensures d[i] != '(' {
      if i < |p.title| {
        assert d[i] == p.title[i];
      } else {
        assert d[i] == tail[i - |p.title|];
      }
    }
    NotContainedLackingChar(d, " (Rated ", 1);
  }

  /** The Prime note ends the description exactly when the result is Prime (for a
      title that does not itself end with it). */
  lemma DescriptionPrimeNote(result: RawResult)
    requires !EndsWith(result.title.GetOr(""), PrimeNote)
    ensures EndsWith(Description(result), PrimeNote) <==> FromRaw(result).isPrime
  {
    var p := FromRaw(result);
    var d := Description(result);
    if !p.isPrime && Rated(p) {
      var body := RatingNoteBody(p.rating, p.reviews);
      assert d[|d| - 1] == body[|body| - 1] == ')';
    }
  }

  // ------------------------------------------------------- result processing

  /** A processed result: the defaulted record and its description. */
  datatype Listing = Listing(product: Product, description: string)

  function ToListing(result: RawResult): Listing {
    Listing(FromRaw(result), Description(result))
  }

  predicate Kept(result: RawResult, symptoms: string) {
    IsRelevantResult(result, symptoms) && Rated(FromRaw(result))
  }

  /** The results the loop of _process_results appends, in input order. */
  function KeptListings(results: seq<RawResult>, symptoms: string): (r: seq<Listing>)
  {
    if results == [] then []
    else
      var init, last := results[..|results| - 1], results[|results| - 1];
      KeptListings(init, symptoms) + (if Kept(last, symptoms) then [ToListing(last)] else [])
  }

  function RatingOf(l: Listing): int { l.product.rating.value }

  /** Insert x after every element rated at least as high: one step of a stable
      sort by rating, highest first. */
  function InsertByRating(sorted: seq<Listing>, x: Listing): (r: seq<Listing>)
    ensures multiset(r) == multiset(sorted) + multiset{x}
  {
    if sorted == [] then [x]
    else
      assert sorted == [sorted[0]] + sorted[1..];
      if RatingOf(sorted[0]) >= RatingOf(x) then [sorted[0]] + InsertByRating(sorted[1..], x)
    else [x] + sorted
  }

  /** The specification of list.sort(key=rating, reverse=True), a stable sort. */
  function SortByRating(s: seq<Listing>): (r: seq<Listing>)
    ensures multiset(r) == multiset(s)
  {
    if s == [] then []
    else
      assert s == s[..|s| - 1] + [s[|s| - 1]];
      InsertByRating(SortByRating(s[..|s| - 1]), s[|s| - 1])
  }

  /** The value of _process_results. */
  function Processed(data: SearchBody, symptoms: string): seq<Listing> {
    match data.organicResults
    case None => []
    case Some(results) => SortByRating(KeptListings(results, symptoms))
  }

  method ProcessResults(data: SearchBody, symptoms: string) returns (processed: seq<Listing>)
    ensures processed == Processed(data, symptoms)
  {
    processed := [];
    if data.organicResults.None? {
      return;
    }
    var results := data.organicResults.value;
    for i := 0 to |results|
      invariant processed == KeptListings(results[..i], symptoms)
    {
      assert results[..i + 1][..i] == results[..i];
      var result := results[i];
      if IsRelevantResult(result, symptoms) {
        var description := ExtractDescription(result);
        var processedResult := Listing(FromRaw(result), description);
        if processedResult.product.rating.value > 0 && processedResult.product.reviews > 0 {
          processed := processed + [processedResult];
        }
      }
    }
    assert results[..|results|] == results;
    processed := SortByRating(processed);
  }

  // ------------------------------------------------------- the stable sort

  predicate SortedByRating(s: seq<Listing>) {
    forall i, j :: 0 <= i < j < |s| ==> RatingOf(s[i]) >= RatingOf(s[j])
  }

  /** The first listing of a sorted list is rated at least as high as any other. */
  lemma SortedHead(s: seq<Listing>, l: Listing)
    requires SortedByRating(s) && s != [] && l in s
    ensures RatingOf(s[0]) >= RatingOf(l)
  {
    var k :| 0 <= k < |s| && s[k] == l;
    if k > 0 {
      assert RatingOf(s[0]) >= RatingOf(s[k]);
    }
  }

  lemma {:induction false} InsertKeepsSorted(sorted: seq<Listing>, x: Listing)
    requires SortedByRating(sorted)
    ensures SortedByRating(InsertByRating(sorted, x))
  {
    if sorted == [] {
    } else if RatingOf(sorted[0]) >= RatingOf(x) {
      var rest := sorted[1..];
      assert SortedByRating(rest) by {
        forall i, j | 0 <= i < j < |rest| ensures RatingOf(rest[i]) >= RatingOf(rest[j]) {
          assert rest[i] == sorted[i + 1] && rest[j] == sorted[j + 1];
        }
      }
      InsertKeepsSorted(rest, x);
      var r := InsertByRating(rest, x);
      forall k | 0 <= k < |r| ensures RatingOf(sorted[0]) >= RatingOf(r[k]) {
        assert r[k] in multiset(rest) + multiset{x} by {
          assert r[k] in multiset(r);
        }
        if r[k] != x {
          assert r[k] in rest;
          assert r[k] in sorted;
          SortedHead(sorted, r[k]);
        }
      }
      assert InsertByRating(sorted, x) == [sorted[0]] + r;
    } else {
      forall k | 0 <= k < |sorted| ensures RatingOf(x) >= RatingOf(sorted[k]) {
        SortedHead(sorted, sorted[k]);
      }
      assert InsertByRating(sorted, x) == [x] + sorted;
    }
  }

  /** The processed list is ordered by rating, highest first. */
  lemma {:induction false} SortByRatingSorted(s: seq<Listing>)
    ensures SortedByRating(SortByRating(s))
  {
    if s != [] {
      SortByRatingSorted(s[..|s| - 1]);
      InsertKeepsSorted(SortByRating(s[..|s| - 1]), s[|s| - 1]);
    }
  }

  /** The listings with one rating value, in their order. */
  function WithRating(s: seq<Listing>, v: int): seq<Listing>
  {
    if s == [] then []
    else
      var last := s[|s| - 1];
      WithRating(s[..|s| - 1], v) + (if RatingOf(last) == v then [last] else [])
  }

  lemma {:induction false} WithRatingConcat(a: seq<Listing>, b: seq<Listing>, v: int)
    ensures WithRating(a + b, v) == WithRating(a, v) + WithRating(b, v)
  {
    if b == [] {
      assert a + b == a;
    } else {
      var init := b[..|b| - 1];
      WithRatingConcat(a, init, v);
      assert (a + b)[..|a + b| - 1] == a + init;
    }
  }

  lemma WithRatingSingle(x: Listing, v: int)
    ensures WithRating([x], v) == if RatingOf(x) == v then [x] else []
  {
    assert [x][..0] == [];
  }

  lemma {:induction false} WithRatingNone(s: seq<Listing>, v: int)
    requires forall k :: 0 <= k < |s| ==> RatingOf(s[k]) != v
    ensures WithRating(s, v) == []
  {
    if s != [] {
      WithRatingNone(s[..|s| - 1], v);
    }
  }

  /** Inserting into a sorted list puts x after every listing with its rating. */
  lemma {:induction false} InsertStable(sorted: seq<Listing>, x: Listing, v: int)
    requires SortedByRating(sorted)
    ensures WithRating(InsertByRating(sorted, x), v) == WithRating(sorted, v) + WithRating([x], v)
  {
    if sorted == [] {
      assert InsertByRating(sorted, x) == [x];
    } else if RatingOf(sorted[0]) >= RatingOf(x) {
      var rest := sorted[1..];
      assert SortedByRating(rest) by {
        forall i, j | 0 <= i < j < |rest| ensures RatingOf(rest[i]) >= RatingOf(rest[j]) {
          assert rest[i] == sorted[i + 1] && rest[j] == sorted[j + 1];
        }
      }
      var head, wx := WithRating([sorted[0]], v), WithRating([x], v);
      calc {
        WithRating(InsertByRating(sorted, x), v);
        { assert InsertByRating(sorted, x) == [sorted[0]] + InsertByRating(rest, x); }
        WithRating([sorted[0]] + InsertByRating(rest, x), v);
        { WithRatingConcat([sorted[0]], InsertByRating(rest, x), v); }
        head + WithRating(InsertByRating(rest, x), v);
        { InsertStable(rest, x, v); }
        head + (WithRating(rest, v) + wx);
        { SeqAssoc(head, WithRating(rest, v), wx); }
        (head + WithRating(rest, v)) + wx;
        { WithRatingConcat([sorted[0]], rest, v); assert [sorted[0]] + rest == sorted; }
        WithRating(sorted, v) + wx;
      }
    } else {
      assert InsertByRating(sorted, x) == [x] + sorted;
      WithRatingConcat([x], sorted, v);
      WithRatingSingle(x, v);
      if RatingOf(x) == v {
        forall k | 0 <= k < |sorted| ensures RatingOf(sorted[k]) != v {
          SortedHead(sorted, sorted[k]);
        }
        WithRatingNone(sorted, v);
      }
    }
  }

  lemma SeqAssoc<T>(a: seq<T>, b: seq<T>, c: seq<T>)
    ensures a + (b + c) == (a + b) + c
  {
  }

  /** The sort is stable: listings of equal rating keep their relative order. */
  lemma {:induction false} SortByRatingStable(s: seq<Listing>, v: int)
    ensures WithRating(SortByRating(s), v) == WithRating(s, v)
  {
    if s != [] {
      var init, last := s[..|s| - 1], s[|s| - 1];
      calc {
        WithRating(SortByRating(s), v);
        { assert SortByRating(s) == InsertByRating(SortByRating(init), last); }
        WithRating(InsertByRating(SortByRating(init), last), v);
        { SortByRatingSorted(init); InsertStable(SortByRating(init), last, v); }
        WithRating(SortByRating(init), v) + WithRating([last], v);
        { SortByRatingStable(init, v); }
        WithRating(init, v) + WithRating([last], v);
        { WithRatingConcat(init, [last], v); }
        WithRating(init + [last], v);
        { assert init + [last] == s; }
        WithRating(s, v);
      }
    }
  }

  // ------------------------------------------------------ what is processed

  lemma {:induction false} KeptListingsFromKept(results: seq<RawResult>, symptoms: string)
    ensures forall l :: l in KeptListings(results, symptoms) ==>
      exists r :: r in results && Kept(r, symptoms) && l == ToListing(r)
  {
    if results != [] {
      var init, last := results[..|results| - 1], results[|results| - 1];
      KeptListingsFromKept(init, symptoms);
      forall l | l in KeptListings(results, symptoms)
        ensures exists r :: r in results && Kept(r, symptoms) && l == ToListing(r)
      {
        if l in KeptListings(init, symptoms) {
          var r :| r in init && Kept(r, symptoms) && l == ToListing(r);
          assert r in results;
        } else {
          assert last in results;
        }
      }
    }
  }

  /** Every kept result is listed. */
  lemma {:induction false} KeptListingsComplete(results: seq<RawResult>, symptoms: string, r: RawResult)
    requires r in results && Kept(r, symptoms)
    ensures ToListing(r) in KeptListings(results, symptoms)
  {
    var init, last := results[..|results| - 1], results[|results| - 1];
    assert results == init + [last];
    if r != last {
      KeptListingsComplete(init, symptoms, r);
    }
  }

  /** _process_results yields nothing without `organic_results`; otherwise
      exactly the relevant, rated results (as a permutation of their listings,
      each at most as often as it was kept), ordered by rating, highest first,
      with ties in their original order. */
  lemma ProcessedSpec(data: SearchBody, symptoms: string)
    ensures data.organicResults.None? ==> Processed(data, symptoms) == []
    ensures data.organicResults.Some? ==>
      var kept := KeptListings(data.organicResults.value, symptoms);
      && multiset(Processed(data, symptoms)) == multiset(kept)
      && SortedByRating(Processed(data, symptoms))
      && (forall v :: WithRating(Processed(data, symptoms), v) == WithRating(kept, v))
    ensures data.organicResults.Some? ==>
      forall r :: r in data.organicResults.value && Kept(r, symptoms) ==> ToListing(r) in Processed(data, symptoms)
    ensures forall l :: l in Processed(data, symptoms) ==>
      data.organicResults.Some? && exists r :: r in data.organicResults.value && Kept(r, symptoms) && l == ToListing(r)
  {
    if data.organicResults.Some? {
      var results := data.organicResults.value;
      var kept := KeptListings(results, symptoms);
      SortByRatingSorted(kept);
      forall v ensures WithRating(Processed(data, symptoms), v) == WithRating(kept, v) {
        SortByRatingStable(kept, v);
      }
      KeptListingsFromKept(results, symptoms);
      forall l | l in Processed(data, symptoms) ensures l in kept {
        assert l in multiset(Processed(data, symptoms));
      }
      forall r | r in results && Kept(r, symptoms) ensures ToListing(r) in Processed(data, symptoms) {
        KeptListingsComplete(results, symptoms, r);
        assert ToListing(r) in multiset(kept);
      }
    }
  }

  /** Every processed listing is relevant and rated. */
  lemma ProcessedRelevantAndRated(data: SearchBody, symptoms: string)
    ensures forall l :: l in Processed(data, symptoms) ==>
      Rated(l.product) && !MentionsAny(Lower(l.product.title), IrrelevantKeywords)
  {
    ProcessedSpec(data, symptoms);
  }

  // -------------------------------------------------------- the search call

  /** The dictionary search_products_by_symptoms returns. */
  datatype Report =
    | Found(symptoms: string, searchQuery: string, results: seq<Listing>, totalResults: int)
    | ToolError(message: string, symptoms: string)

  const RequestFailedLead := "API request failed: "
  const SearchFailedLead := "Search failed: "

  /** What search_products_by_symptoms returns for a backend answer: the
      request error, any other error, or the processed listings cut to
      max_results. */
  function SearchReport(symptoms: string, maxResults: int, api: string -> Fetch): Report {
    var searchQuery := BuildSearchQuery(symptoms);
    match api(searchQuery)
    case RequestFailed(e) => ToolError(RequestFailedLead + e, symptoms)
    case OtherFailure(e) => ToolError(SearchFailedLead + e, symptoms)
    case Fetched(data) =>
      var processed := Processed(data, symptoms);
      var results := if |processed| > maxResults then Take(processed, maxResults) else processed;
      Found(symptoms, searchQuery, results, |results|)
  }

  /** search_products_by_symptoms. The HTTP request and its decoding are api;
      the query it is given is the built one. */
  method SearchProductsBySymptoms(symptoms: string, maxResults: int, api: string -> Fetch) returns (report: Report)
    ensures report == SearchReport(symptoms, maxResults, api)
  {
    var searchQuery := BuildSearchQuery(symptoms);
    var response := api(searchQuery);
    match response
    case RequestFailed(e) =>
      return ToolError(RequestFailedLead + e, symptoms);
    case OtherFailure(e) =>
      return ToolError(SearchFailedLead + e, symptoms);
    case Fetched(data) =>
      var processedResults := ProcessResults(data, symptoms);
      if |processedResults| > maxResults {
        processedResults := Take(processedResults, maxResults);
      }
      return Found(symptoms, searchQuery, processedResults, |processedResults|);
  }

  /** The report echoes the symptoms; a failed request and any other failure
      give their error messages; a fetched body gives the built query and the
      first max_results processed listings, with their count. */
  lemma SearchReportSpec(symptoms: string, maxResults: int, api: string -> Fetch)
    ensures SearchReport(symptoms, maxResults, api).symptoms == symptoms
    ensures api(BuildSearchQuery(symptoms)).RequestFailed? ==>
      SearchReport(symptoms, maxResults, api) ==
        ToolError(RequestFailedLead + api(BuildSearchQuery(symptoms)).reason, symptoms)
    ensures api(BuildSearchQuery(symptoms)).OtherFailure? ==>
      SearchReport(symptoms, maxResults, api) ==
        ToolError(SearchFailedLead + api(BuildSearchQuery(symptoms)).reason, symptoms)
    ensures api(BuildSearchQuery(symptoms)).Fetched? ==>
      var report := SearchReport(symptoms, maxResults, api);
      && report.Found?
      && report.searchQuery == BuildSearchQuery(symptoms)
      && report.results == Take(Processed(api(BuildSearchQuery(symptoms)).body, symptoms), maxResults)
      && report.totalResults == |report.results|
  {
  }

  /** Truncation comes after processing: a successful report holds the first
      min(n, max_results) processed listings (for a negative max_results,
      Python's slice drops that many from the end), and the total is their
      number. */
  lemma TruncatedAfterProcessing(symptoms: string, maxResults: int, api: string -> Fetch)
    requires api(BuildSearchQuery(symptoms)).Fetched?
    ensures var processed := Processed(api(BuildSearchQuery(symptoms)).body, symptoms);
      var report := SearchReport(symptoms, maxResults, api);
      && report.Found?
      && report.results == processed[..|report.results|]
      && |report.results| == (if maxResults >= 0 then Min(|processed|, maxResults) else Max(0, |processed| + maxResults))
      && report.totalResults == |report.results|
      && (|processed| <= maxResults ==> report.results == processed)
  {
  }

  // ----------------------------------------------------- the voice formatter

  const Advice := "healthcare professional"
  const ApologyLead := "I couldn't find any products specifically for "
  const ApologyTail := ". You might want to consult with a " + Advice + " for medical advice."
  const HeaderLead := "Based on your symptoms of "
  const HeaderFound := ", I found "
  const HeaderTail := " product recommendations:"
  const RatingLead := " with a "
  const StarRatingFrom := " star rating from "
  const ReviewsWord := " reviews"
  const Disclaimer := "These are general recommendations. Please consult with a " + Advice
    + " for medical advice, especially if symptoms persist or worsen."

  function Apology(symptoms: string): string {
    ApologyLead + symptoms + ApologyTail
  }

  function Header(symptoms: string, count: nat): string {
    HeaderLead + symptoms + HeaderFound + IntToString(count) + HeaderTail
  }

  function RatingClause(p: Product): string {
    if p.rating.value > 0 then RatingLead + p.rating.shown + StarRatingFrom + IntToString(p.reviews) + ReviewsWord
    else ""
  }

  function PriceClause(p: Product): string {
    if p.price != NoPrice then " for " + p.price else ""
  }

  /** The line for the product numbered i. */
  function ItemLine(i: nat, p: Product): string {
    IntToString(i) + ". " + p.title + RatingClause(p) + PriceClause(p) + "."
  }

  /** The numbered lines of the products, numbered from 1. */
  function ItemLines(results: seq<Listing>): (lines: seq<string>)
    ensures |lines| == |results|
  {
    MapNumbered((i: nat, l: Listing) => ItemLine(i + 1, l.product), results)
  }

  lemma ItemLinesAt(results: seq<Listing>, i: nat)
    requires i < |results|
    ensures ItemLines(results)[i] == ItemLine(i + 1, results[i].product)
  {
    MapNumberedAt((i: nat, l: Listing) => ItemLine(i + 1, l.product), results, i);
  }

  lemma ItemLinesStep(results: seq<Listing>, i: nat)
    requires i < |results|
    ensures ItemLines(results[..i + 1]) == ItemLines(results[..i]) + [ItemLine(i + 1, results[i].product)]
  {
    MapNumberedStep((i: nat, l: Listing) => ItemLine(i + 1, l.product), results, i);
  }

  /** Part i + 1 of a reply is the line of product i. */
  lemma VoicePartAt(symptoms: string, results: seq<Listing>, i: nat)
    requires i < |results|
    ensures |VoiceParts(symptoms, results)| == |results| + 2
    ensures VoiceParts(symptoms, results)[i + 1] == ItemLine(i + 1, results[i].product)
  {
    var lines := ItemLines(results);
    assert VoiceParts(symptoms, results)[i + 1] == lines[i];
    ItemLinesAt(results, i);
  }

  lemma AppendAfterHead(head: string, lines: seq<string>, line: string)
    ensures [head] + lines + [line] == [head] + (lines + [line])
  {
  }

  /** The parts joined for a non-empty success: header, numbered items, disclaimer. */
  function VoiceParts(symptoms: string, results: seq<Listing>): seq<string> {
    [Header(symptoms, |results|)] + ItemLines(results) + [Disclaimer]
  }

  /** What format_results_for_voice says about a report. */
  function VoiceText(report: Report): string {
    if !report.Found? || report.results == [] then Apology(report.symptoms)
    else Join(" ", VoiceParts(report.symptoms, report.results))
  }

  /** format_results_for_voice, which appends one part per product to a list
      and joins the parts with spaces. */
  method FormatResultsForVoice(report: Report) returns (text: string)
    ensures text == VoiceText(report)
  {
    if !report.Found? || report.results == [] {
      return Apology(report.symptoms);
    }
    var results := report.results;
    var responseParts := [Header(report.symptoms, |results|)];
    for i := 0 to |results|
      invariant responseParts == [Header(report.symptoms, |results|)] + ItemLines(results[..i])
    {
      var product := results[i].product;
      var ratingText := if product.rating.value > 0 then
        RatingLead + product.rating.shown + StarRatingFrom + IntToString(product.reviews) + ReviewsWord
        else "";
      var priceText := if product.price != NoPrice then " for " + product.price else "";
      var line := IntToString(i + 1) + ". " + product.title + ratingText + priceText + ".";
      assert line == ItemLine(i + 1, product) by {
        assert ratingText == RatingClause(product);
        assert priceText == PriceClause(product);
      }
      ItemLinesStep(results, i);
      AppendAfterHead(Header(report.symptoms, |results|), ItemLines(results[..i]), line);
      responseParts := responseParts + [line];
    }
    assert results[..|results|] == results;
    responseParts := responseParts + [Disclaimer];
    text := Join(" ", responseParts);
  }

  lemma AdviceInFixedTexts()
    ensures Contains(ApologyTail, Advice) && Contains(Disclaimer, Advice)
  {
    ContainsInfix(". You might want to consult with a ", Advice, " for medical advice.");
    ContainsInfix("These are general recommendations. Please consult with a ", Advice,
      " for medical advice, especially if symptoms persist or worsen.");
  }

  lemma ApologyNamesSymptomsAndAdvice(symptoms: string)
    ensures Contains(Apology(symptoms), symptoms) && Contains(Apology(symptoms), Advice)
  {
    AdviceInFixedTexts();
    ContainsEnd(ApologyLead, symptoms);
    ContainsLeft(ApologyLead + symptoms, ApologyTail, symptoms);
    ContainsRight(ApologyLead + symptoms, ApologyTail, Advice);
  }

  lemma HeaderNamesSymptoms(symptoms: string, count: nat)
    ensures Contains(Header(symptoms, count), symptoms)
  {
    var a := HeaderLead + symptoms;
    var b := a + HeaderFound;
    var c := b + IntToString(count);
    ContainsEnd(HeaderLead, symptoms);
    ContainsLeft(a, HeaderFound, symptoms);
    ContainsLeft(b, IntToString(count), symptoms);
    ContainsLeft(c, HeaderTail, symptoms);
  }

  /** Every reply names the symptoms and advises seeing a healthcare professional. */
  lemma VoiceNamesSymptomsAndAdvice(report: Report)
    ensures Contains(VoiceText(report), report.symptoms)
    ensures Contains(VoiceText(report), Advice)
  {
    if !report.Found? || report.results == [] {
      ApologyNamesSymptomsAndAdvice(report.symptoms);
    } else {
      var parts := VoiceParts(report.symptoms, report.results);
      var text := Join(" ", parts);
      VoicePartsEnds(report.symptoms, report.results);
      JoinContainsPart(" ", parts, 0);
      JoinContainsPart(" ", parts, |parts| - 1);
      HeaderNamesSymptoms(report.symptoms, |report.results|);
      ContainsWithin(text, parts[0], report.symptoms);
      AdviceInFixedTexts();
      ContainsWithin(text, Disclaimer, Advice);
    }
  }

  lemma VoicePartsEnds(symptoms: string, results: seq<Listing>)
    ensures var parts := VoiceParts(symptoms, results);
      |parts| == |results| + 2 && parts[0] == Header(symptoms, |results|) && parts[|parts| - 1] == Disclaimer
  {
  }

  /** A non-empty success starts with the header that counts the products, ends
      with the disclaimer, and holds the numbered line of every product. */
  lemma VoiceListsEveryProduct(report: Report)
    requires report.Found? && report.results != []
    ensures StartsWith(VoiceText(report), Header(report.symptoms, |report.results|))
    ensures EndsWith(VoiceText(report), Disclaimer)
    ensures forall i :: 0 <= i < |report.results| ==>
      Contains(VoiceText(report), ItemLine(i + 1, report.results[i].product))
  {
    var parts := VoiceParts(report.symptoms, report.results);
    JoinEnds(" ", parts);
    forall i | 0 <= i < |report.results|
      ensures Contains(VoiceText(report), ItemLine(i + 1, report.results[i].product))
    {
      VoicePartAt(report.symptoms, report.results, i);
      JoinContainsPart(" ", parts, i + 1);
    }
  }

  /** The converse: without a positive rating the line has no rating clause,
      and without a price no price clause. */
  lemma ItemLineWithout(i: nat, p: Product)
    ensures p.rating.value <= 0 ==> ItemLine(i, p) == IntToString(i) + ". " + p.title + PriceClause(p) + "."
    ensures p.price == NoPrice ==> ItemLine(i, p) == IntToString(i) + ". " + p.title + RatingClause(p) + "."
  {
    var number := IntToString(i) + ". ";
    assert ItemLine(i, p) == number + p.title + RatingClause(p) + PriceClause(p) + ".";
  }

  /** A product line names the product, carries the rating clause when the
      rating is positive and the price clause when a price is known, and is
      only the number and title when it has neither. */
  lemma ItemLineClauses(i: nat, p: Product)
    ensures Contains(ItemLine(i, p), p.title)
    ensures p.rating.value > 0 ==> Contains(ItemLine(i, p), StarRatingFrom)
    ensures p.price != NoPrice ==> Contains(ItemLine(i, p), " for " + p.price)
    ensures p.rating.value <= 0 && p.price == NoPrice ==>
      ItemLine(i, p) == IntToString(i) + ". " + p.title + "."
  {
    var number := IntToString(i) + ". ";
    var a := number + p.title;
    var b := a + RatingClause(p);
    var c := b + PriceClause(p);
    assert ItemLine(i, p) == c + ".";
    ContainsEnd(number, p.title);
    ContainsLeft(a, RatingClause(p), p.title);
    ContainsLeft(b, PriceClause(p), p.title);
    ContainsLeft(c, ".", p.title);
    if p.rating.value > 0 {
      var r1 := RatingLead + p.rating.shown;
      var r2 := r1 + StarRatingFrom;
      var r3 := r2 + IntToString(p.reviews);
      assert RatingClause(p) == r3 + ReviewsWord;
      ContainsEnd(r1, StarRatingFrom);
      ContainsLeft(r2, IntToString(p.reviews), StarRatingFrom);
      ContainsLeft(r3, ReviewsWord, StarRatingFrom);
      ContainsRight(a, RatingClause(p), StarRatingFrom);
      ContainsLeft(b, PriceClause(p), StarRatingFrom);
      ContainsLeft(c, ".", StarRatingFrom);
    }
    if p.price != NoPrice {
      ContainsEnd(b, PriceClause(p));
      ContainsLeft(c, ".", PriceClause(p));
    }
  }

  lemma FixedWordsInHeaderAndClause()
    ensures Contains(HeaderTail, "recommendations")
    ensures Contains(StarRatingFrom, "star rating")
  {
    assert HeaderTail == " product " + "recommendations" + ":";
    ContainsInfix(" product ", "recommendations", ":");
    assert StarRatingFrom == " " + "star rating" + " from ";
    ContainsInfix(" ", "star rating", " from ");
  }

  /** The reply for the voice test's two mock products mentions the symptoms,
      "recommendations", "healthcare professional" and "star rating". */
  lemma MockVoiceReply(report: Report)
    requires report.Found? && report.symptoms == "headache and fever"
    requires |report.results| == 2
    requires report.results[0].product.title == "Tylenol Extra Strength Acetaminophen 500mg"
    requires report.results[0].product.price == "$8.99"
    requires report.results[0].product.rating == Rating(47, "4.7")
    requires report.results[0].product.reviews == 15420
    requires report.results[1].product.title == "Advil Ibuprofen Tablets 200mg"
    requires report.results[1].product.price == "$6.99"
    requires report.results[1].product.rating == Rating(45, "4.5")
    requires report.results[1].product.reviews == 8920
    ensures Contains(VoiceText(report), "headache and fever")
    ensures Contains(VoiceText(report), "recommendations")
    ensures Contains(VoiceText(report), Advice)
    ensures Contains(VoiceText(report), "star rating")
  {
    VoiceNamesSymptomsAndAdvice(report);
    FixedWordsInHeaderAndClause();
    var text := VoiceText(report);
    var parts := VoiceParts(report.symptoms, report.results);
    var header := parts[0];
    JoinContainsPart(" ", parts, 0);
    ContainsRight(HeaderLead + report.symptoms + HeaderFound + IntToString(2), HeaderTail, "recommendations");
    ContainsWithin(text, header, "recommendations");
    VoiceListsEveryProduct(report);
    var first := ItemLine(1, report.results[0].product);
    ItemLineClauses(1, report.results[0].product);
    ContainsWithin(first, StarRatingFrom, "star rating");
    ContainsWithin(text, first, "star rating");
  }

  // ------------------------------------------------------ the Vapi entry point

  /** What search_products_for_symptoms returns: the search report, with the
      voice text added to a success; or the error of a tool that could not be
      set up. */
  datatype ToolReply =
    | Replied(report: Report, voiceResponse: Option<string>)
    | SetupFailed(message: string, symptoms: string)

  const SetupFailedLead := "Failed to search for products: "

  /** The reply for a setup outcome (the message of the exception the tool's
      constructor raised, if it did) and a backend. */
  function ToolReplyFor(symptoms: string, maxResults: int, setup: Option<string>, api: string -> Fetch): ToolReply {
    match setup
    case Some(e) => SetupFailed(SetupFailedLead + e, symptoms)
    case None =>
      var report := SearchReport(symptoms, maxResults, api);
      Replied(report, if report.Found? then Some(VoiceText(report)) else None)
  }

  /** search_products_for_symptoms: set the tool up, search, and add the voice
      response to a success. */
  method SearchProductsForSymptoms(symptoms: string, maxResults: int, setup: Option<string>, api: string -> Fetch)
    returns (reply: ToolReply)
    ensures reply == ToolReplyFor(symptoms, maxResults, setup, api)
  {
    if setup.Some? {
      return SetupFailed(SetupFailedLead + setup.value, symptoms);
    }
    var results := SearchProductsBySymptoms(symptoms, maxResults, api);
    var voice: Option<string> := None;
    if results.Found? {
      var formatted := FormatResultsForVoice(results);
      voice := Some(formatted);
    }
    reply := Replied(results, voice);
  }

  /** Only a successful search gets a voice response, and that response names
      the symptoms and recommends a healthcare professional; a setup failure
      quotes the exception. */
  lemma ToolReplySpec(symptoms: string, maxResults: int, setup: Option<string>, api: string -> Fetch)
    ensures setup.Some? ==>
      ToolReplyFor(symptoms, maxResults, setup, api) == SetupFailed(SetupFailedLead + setup.value, symptoms)
    ensures setup.None? ==> match ToolReplyFor(symptoms, maxResults, setup, api)
      case Replied(report, voice) =>
        && report == SearchReport(symptoms, maxResults, api)
        && (voice.Some? <==> api(BuildSearchQuery(symptoms)).Fetched?)
        && (voice.Some? ==> Contains(voice.value, symptoms) && Contains(voice.value, Advice))
      case SetupFailed(_, _) => false
  {
    if setup.None? {
      var report := SearchReport(symptoms, maxResults, api);
      SearchReportSpec(symptoms, maxResults, api);
      VoiceNamesSymptomsAndAdvice(report);
    }
  }
}
